/** String primitives of the .NET base library that the generators rely on,
    written out over `seq<char>`. Case mapping is ASCII only and comparisons
    are ordinal. */
module Text {
  import opened Wrappers

  /** `char.IsWhiteSpace` restricted to the Latin-1 range. */
  predicate IsWhiteSpace(c: char) {
    c == ' ' || c == '\t' || c == '\n' || c == '\r' || c == '\U{000B}' || c == '\U{000C}'
    || c == '\U{0085}' || c == '\U{00A0}'
  }

  /** `string.IsNullOrWhiteSpace` on a non-null string. */
  predicate IsBlank(s: string) {
    forall i :: 0 <= i < |s| ==> IsWhiteSpace(s[i])
  }

  /** `string.IsNullOrWhiteSpace` on a reference that may be null. */
  predicate IsNullOrBlank(s: Option<string>) {
    s.None? || IsBlank(s.value)
  }

  /** `s ?? string.Empty` */
  function OrEmpty(s: Option<string>): (r: string)
    ensures s.Some? ==> r == s.value
    ensures s.None? ==> r == ""
  {
    s.GetOr("")
  }

  function LowerChar(c: char): (d: char)
    ensures 'A' <= c <= 'Z' ==> d as int == c as int + 32
    ensures !('A' <= c <= 'Z') ==> d == c
  {
    if 'A' <= c <= 'Z' then (c as int + 32) as char else c
  }

  /** `ToLower()` with ASCII case mapping. */
  function ToLower(s: string): (r: string)
    ensures |r| == |s|
    ensures forall i :: 0 <= i < |s| ==> r[i] == LowerChar(s[i])
  {
    seq(|s|, i requires 0 <= i < |s| => LowerChar(s[i]))
  }

  predicate IsLower(s: string) {
    forall i :: 0 <= i < |s| ==> !('A' <= s[i] <= 'Z')
  }

  lemma LowerOfLower(s: string)
    requires IsLower(s)
    ensures ToLower(s) == s
  {
  }

  lemma LowerOfConcat(a: string, b: string)
    ensures ToLower(a + b) == ToLower(a) + ToLower(b)
  {
    assert forall i :: 0 <= i < |a + b| ==> ToLower(a + b)[i] == (ToLower(a) + ToLower(b))[i];
  }

  predicate StartsWith(s: string, prefix: string) {
    |prefix| <= |s| && s[..|prefix|] == prefix
  }

  predicate EndsWith(s: string, suffix: string) {
    |suffix| <= |s| && s[|s| - |suffix|..] == suffix
  }

  /** `string.Equals(a, b, StringComparison.OrdinalIgnoreCase)` */
  predicate EqualsIgnoreCase(a: string, b: string) {
    ToLower(a) == ToLower(b)
  }

  /** `s.StartsWith(prefix, StringComparison.OrdinalIgnoreCase)` */
  predicate StartsWithIgnoreCase(s: string, prefix: string) {
    |prefix| <= |s| && ToLower(s[..|prefix|]) == ToLower(prefix)
  }

  lemma BlankConcat(a: string, b: string)
    ensures IsBlank(a + b) <==> IsBlank(a) && IsBlank(b)
  {
    if IsBlank(a) && IsBlank(b) {
      forall i | 0 <= i < |a + b|
        ensures IsWhiteSpace((a + b)[i])
      {
        if i >= |a| { assert (a + b)[i] == b[i - |a|]; }
      }
    }
    if IsBlank(a + b) {
      forall i | 0 <= i < |a|
        ensures IsWhiteSpace(a[i])
      {
        assert (a + b)[i] == a[i];
      }
      forall i | 0 <= i < |b|
        ensures IsWhiteSpace(b[i])
      {
        assert (a + b)[|a| + i] == b[i];
      }
    }
  }

  /** The position of the first character at or after `i` that is not
      white space, or the length. */
  function SkipBlanks(s: string, i: nat): (k: nat)
    requires i <= |s|
    ensures i <= k <= |s| && (k < |s| ==> !IsWhiteSpace(s[k]))
    decreases |s| - i
  {
    if i < |s| && IsWhiteSpace(s[i]) then SkipBlanks(s, i + 1) else i
  }

  /** Everything `SkipBlanks` skips is white space. */
  lemma {:induction false} SkippedAreBlank(s: string, i: nat)
    requires i <= |s|
    ensures forall j :: i <= j < SkipBlanks(s, i) ==> IsWhiteSpace(s[j])
    decreases |s| - i
  {
    if i < |s| && IsWhiteSpace(s[i]) {
      SkippedAreBlank(s, i + 1);
    }
  }

  /** The position just past the last character before `j` that is not
      white space, or 0. */
  function SkipBlanksBack(s: string, j: nat): (k: nat)
    requires j <= |s|
    ensures k <= j && (k > 0 ==> !IsWhiteSpace(s[k - 1]))
  {
    if j > 0 && IsWhiteSpace(s[j - 1]) then SkipBlanksBack(s, j - 1) else j
  }

  /** Everything `SkipBlanksBack` skips is white space. */
  lemma {:induction false} SkippedBackAreBlank(s: string, j: nat)
    requires j <= |s|
    ensures forall i :: SkipBlanksBack(s, j) <= i < j ==> IsWhiteSpace(s[i])
  {
    if j > 0 && IsWhiteSpace(s[j - 1]) {
      SkippedBackAreBlank(s, j - 1);
    }
  }

  /** `Trim()`: strips white space at both ends and nowhere else. */
  function Trim(s: string): (r: string)
    ensures |r| <= |s|
    ensures r == [] || (!IsWhiteSpace(r[0]) && !IsWhiteSpace(r[|r| - 1]))
    ensures r == [] <==> IsBlank(s)
  {
    var start := SkipBlanks(s, 0);
    SkippedAreBlank(s, 0);
    SkippedBackAreBlank(s, |s|);
    if start == |s| then [] else s[start..SkipBlanksBack(s, |s|)]
  }

  lemma TrimOfTrimmed(s: string)
    requires s == [] || (!IsWhiteSpace(s[0]) && !IsWhiteSpace(s[|s| - 1]))
    ensures Trim(s) == s
  {
  }

  /** `.Select(t => t.Trim())` */
  function TrimAll(pieces: seq<string>): (r: seq<string>)
    ensures |r| == |pieces|
    ensures forall i :: 0 <= i < |r| ==> r[i] == Trim(pieces[i])
    decreases |pieces|
  {
    if pieces == [] then [] else [Trim(pieces[0])] + TrimAll(pieces[1..])
  }

  lemma TrimKeepsOut(s: string, c: char)
    requires c !in s
    ensures c !in Trim(s)
  {
  }

  /** Trimming never lengthens a piece nor brings in a character. */
  lemma TrimAllKeeps(pieces: seq<string>, n: nat, c: char)
    requires forall i :: 0 <= i < |pieces| ==> |pieces[i]| <= n && c !in pieces[i]
    ensures forall i :: 0 <= i < |pieces| ==> |TrimAll(pieces)[i]| <= n && c !in TrimAll(pieces)[i]
  {
    var r := TrimAll(pieces);
    forall i | 0 <= i < |pieces|
      ensures |r[i]| <= n && c !in r[i]
    {
      TrimKeepsOut(pieces[i], c);
    }
  }

  /** The trimmed pieces of a split are no longer than the text and free of
      the separator. */
  lemma TrimSplitKeeps(s: string, c: char)
    ensures var r := TrimAll(Split(s, c));
      |r| >= 1 && forall i :: 0 <= i < |r| ==> |r[i]| <= |s| && c !in r[i]
  {
    TrimAllKeeps(Split(s, c), |s|, c);
  }

  /** `s.IndexOf(c)`, as an index when `c` occurs. */
  function IndexOf(s: string, c: char): (r: Option<nat>)
    ensures r.Some? ==> r.value < |s| && s[r.value] == c
    ensures r.Some? ==> forall j :: 0 <= j < r.value ==> s[j] != c
    ensures r.None? ==> forall j :: 0 <= j < |s| ==> s[j] != c
  {
    if s == [] then None
    else if s[0] == c then Some(0)
    else
      var rest := IndexOf(s[1..], c);
      if rest.None? then None else Some(rest.value + 1)
  }

  /** Searching past a prefix free of `c` finds `c` where the rest has it. */
  lemma {:induction false} IndexOfAfter(a: string, b: string, c: char)
    requires forall j :: 0 <= j < |a| ==> a[j] != c
    ensures IndexOf(a + b, c) == if IndexOf(b, c).None? then None else Some(|a| + IndexOf(b, c).value)
    decreases |a|
  {
    if a != [] {
      IndexOfAfter(a[1..], b, c);
      assert (a + b)[0] == a[0];
      assert (a + b)[1..] == a[1..] + b;
    } else {
      assert a + b == b;
    }
  }

  /** `.Where(p => !string.IsNullOrEmpty(p))` */
  function NonEmpty(pieces: seq<string>): (r: seq<string>)
    ensures |r| <= |pieces|
    ensures forall p :: p in r ==> p != "" && p in pieces
    ensures forall p :: p in pieces && p != "" ==> p in r
  {
    if pieces == [] then []
    else if pieces[0] == "" then NonEmpty(pieces[1..])
    else [pieces[0]] + NonEmpty(pieces[1..])
  }

  /** The length `s[..n]` keeps once its trailing `c`s are stripped. */
  function TrimmedLength(s: string, c: char, n: nat): (k: nat)
    requires n <= |s|
    ensures k <= n
    ensures k == 0 || s[k - 1] != c
    ensures forall i :: k <= i < n ==> s[i] == c
  {
    if n > 0 && s[n - 1] == c then TrimmedLength(s, c, n - 1) else n
  }

  /** `s.TrimEnd(c)`: strips every trailing `c`. */
  function TrimEndChar(s: string, c: char): (r: string)
    ensures |r| <= |s| && r == s[..|r|]
    ensures r == [] || r[|r| - 1] != c
    ensures forall i :: |r| <= i < |s| ==> s[i] == c
  {
    s[..TrimmedLength(s, c, |s|)]
  }

  /** `s.Replace(from, to)` for single characters. */
  function ReplaceChar(s: string, from: char, to: char): (r: string)
    ensures |r| == |s|
    ensures forall i :: 0 <= i < |s| ==> r[i] == (if s[i] == from then to else s[i])
  {
    seq(|s|, i requires 0 <= i < |s| => if s[i] == from then to else s[i])
  }

  lemma ReplaceCharConcat(a: string, b: string, from: char, to: char)
    ensures ReplaceChar(a + b, from, to) == ReplaceChar(a, from, to) + ReplaceChar(b, from, to)
  {
    var l, r := ReplaceChar(a + b, from, to), ReplaceChar(a, from, to) + ReplaceChar(b, from, to);
    assert forall i :: 0 <= i < |l| ==> l[i] == r[i];
  }

  /** `s.Replace(pattern, replacement)`: scans left to right and replaces
      non-overlapping occurrences. */
  function Replace(s: string, pattern: string, replacement: string): (r: string)
    requires |pattern| > 0
    decreases |s|
  {
    if |s| < |pattern| then s
    else if s[..|pattern|] == pattern then replacement + Replace(s[|pattern|..], pattern, replacement)
    else [s[0]] + Replace(s[1..], pattern, replacement)
  }

  /** `s.Split(c)`: every piece, empty ones included. */
  function Split(s: string, c: char): (parts: seq<string>)
    ensures |parts| >= 1
    ensures forall i :: 0 <= i < |parts| ==> |parts[i]| <= |s| && c !in parts[i]
    decreases |s|
  {
    if s == [] then [""]
    else
      var rest := Split(s[1..], c);
      if s[0] == c then [""] + rest
      else [[s[0]] + rest[0]] + rest[1..]
  }

  /** `string.Join(separator, parts)` */
  function Join(separator: string, parts: seq<string>): string {
    if |parts| == 0 then ""
    else if |parts| == 1 then parts[0]
    else parts[0] + separator + Join(separator, parts[1..])
  }

  /** Splitting on `c` and joining with `c` gives back the input. */
  lemma {:induction false} JoinSplit(s: string, c: char)
    ensures Join([c], Split(s, c)) == s
    decreases |s|
  {
    if s != [] {
      var rest := Split(s[1..], c);
      JoinSplit(s[1..], c);
      if s[0] == c {
        assert Split(s, c) == [""] + rest;
        assert s == [c] + s[1..];
      } else if |rest| == 1 {
        assert s == [s[0]] + s[1..];
      } else {
        assert Split(s, c)[1..] == rest[1..];
        assert s == [s[0]] + s[1..];
      }
    }
  }

  /** Joining pieces that do not contain `c` and splitting again gives back the pieces. */
  lemma {:induction false} SplitJoin(parts: seq<string>, c: char)
    requires |parts| >= 1
    requires forall i :: 0 <= i < |parts| ==> c !in parts[i]
    ensures Split(Join([c], parts), c) == parts
    decreases |parts|, |parts[0]|
  {
    if |parts| == 1 {
      SplitNoSeparator(parts[0], c);
    } else if parts[0] == [] {
      var tail := Join([c], parts[1..]);
      assert Join([c], parts) == [c] + tail;
      assert ([c] + tail)[1..] == tail;
      SplitJoin(parts[1..], c);
    } else {
      var first := parts[0][1..];
      var shorter := [first] + parts[1..];
      SplitJoin(shorter, c);
      assert Join([c], parts) == [parts[0][0]] + Join([c], shorter);
      assert ([parts[0][0]] + Join([c], shorter))[1..] == Join([c], shorter);
      assert [parts[0][0]] + first == parts[0];
    }
  }

  lemma {:induction false} SplitNoSeparator(s: string, c: char)
    requires c !in s
    ensures Split(s, c) == [s]
    decreases |s|
  {
    if s != [] {
      SplitNoSeparator(s[1..], c);
      assert [s[0]] + s[1..] == s;
    }
  }

  /** A piece free of `c` followed by `c` splits off as the first piece. */
  lemma {:induction false} SplitPrefix(a: string, c: char, rest: string)
    requires c !in a
    ensures Split(a + [c] + rest, c) == [a] + Split(rest, c)
    decreases |a|
  {
    if a == [] {
      assert a + [c] + rest == [c] + rest;
      assert ([c] + rest)[1..] == rest;
    } else {
      SplitPrefix(a[1..], c, rest);
      assert (a + [c] + rest)[1..] == a[1..] + [c] + rest;
      assert [a[0]] + a[1..] == a;
    }
  }

  lemma SplitTwo(a: string, b: string, c: char)
    requires c !in a && c !in b
    ensures Split(a + [c] + b, c) == [a, b]
  {
    SplitPrefix(a, c, b);
    SplitNoSeparator(b, c);
  }

  /** `s.Split(new[] { "\r\n", "\n" }, StringSplitOptions.None)`: at each
      position "\r\n" is matched before "\n"; a lone '\r' is kept. */
  function SplitLines(s: string): (lines: seq<string>)
    ensures |lines| >= 1
    decreases |s|
  {
    if s == [] then [""]
    else if |s| >= 2 && s[0] == '\r' && s[1] == '\n' then [""] + SplitLines(s[2..])
    else if s[0] == '\n' then [""] + SplitLines(s[1..])
    else
      var rest := SplitLines(s[1..]);
      [[s[0]] + rest[0]] + rest[1..]
  }

  /** What a sequence of `AppendLine(line)` calls leaves in a StringBuilder,
      with `nl` standing for `Environment.NewLine`. */
  function Lines(ls: seq<string>, nl: string): (text: string) {
    if ls == [] then "" else ls[0] + nl + Lines(ls[1..], nl)
  }

  lemma {:induction false} LinesAppend(ls: seq<string>, l: string, nl: string)
    ensures Lines(ls + [l], nl) == Lines(ls, nl) + l + nl
  {
    if ls != [] {
      assert (ls + [l])[1..] == ls[1..] + [l];
      LinesAppend(ls[1..], l, nl);
    }
  }

  lemma {:induction false} LinesConcat(a: seq<string>, b: seq<string>, nl: string)
    ensures Lines(a + b, nl) == Lines(a, nl) + Lines(b, nl)
  {
    if a != [] {
      assert (a + b)[1..] == a[1..] + b;
      LinesConcat(a[1..], b, nl);
    } else {
      assert a + b == b;
    }
  }

  /** A line is a piece of text without line breaks. */
  predicate IsLine(l: string) {
    '\n' !in l && '\r' !in l
  }

  lemma {:induction false} SplitLinesOfLine(l: string)
    requires IsLine(l)
    ensures SplitLines(l) == [l]
    decreases |l|
  {
    if l != [] {
      SplitLinesOfLine(l[1..]);
      assert [l[0]] + l[1..] == l;
    }
  }

  lemma {:induction false} SplitLinesPrefix(l: string, nl: string, rest: string)
    requires IsLine(l)
    requires nl == "\n" || nl == "\r\n"
    ensures SplitLines(l + nl + rest) == [l] + SplitLines(rest)
    decreases |l|
  {
    if l == [] {
      assert l + nl + rest == nl + rest;
      if nl == "\n" {
        assert (nl + rest)[1..] == rest;
      } else {
        assert (nl + rest)[2..] == rest;
      }
    } else {
      SplitLinesPrefix(l[1..], nl, rest);
      assert (l + nl + rest)[1..] == l[1..] + nl + rest;
      assert [l[0]] + l[1..] == l;
    }
  }

  /** Reading back text written with `AppendLine` line by line gives the
      lines, and one empty piece after the final line break. */
  lemma {:induction false} SplitLinesOfLines(ls: seq<string>, nl: string)
    requires nl == "\n" || nl == "\r\n"
    requires forall i :: 0 <= i < |ls| ==> IsLine(ls[i])
    ensures SplitLines(Lines(ls, nl)) == ls + [""]
  {
    if ls != [] {
      SplitLinesOfLines(ls[1..], nl);
      SplitLinesPrefix(ls[0], nl, Lines(ls[1..], nl));
      assert ls == [ls[0]] + ls[1..];
    }
  }
}
