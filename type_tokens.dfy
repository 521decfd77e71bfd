/** The header type tokens of a sheet (`int`, `string[]`, `pair<int,string>`)
    and the shape they stand for. Two readers of these tokens exist in the
    source, one in ClassGenerator and one in JsonGenerator; each lives in its
    own module and both produce a `FieldType`. */
module TypeTokens {
  import opened Text

  datatype Primitive = Int | Float | Double | Bool | String

  /** The shape of a field: a primitive, a list of elements, a two-element
      pair, or an opaque type that neither reader recognises. */
  datatype FieldType =
    | Prim(kind: Primitive)
    | ListOf(element: FieldType)
    | PairOf(key: FieldType, value: FieldType)
    | Opaque

  /** `typeName.ToLower().EndsWith("[]")` */
  predicate IsArraySyntax(token: string) {
    EndsWith(ToLower(token), "[]")
  }

  /** `lower.StartsWith("pair<") && lower.EndsWith(">")` */
  predicate IsPairSyntax(token: string) {
    var lower := ToLower(token);
    StartsWith(lower, "pair<") && EndsWith(lower, ">")
  }

  lemma PairSyntaxLength(token: string)
    requires IsPairSyntax(token)
    ensures |token| >= 6
  {
    var lower := ToLower(token);
    assert lower[..5] == "pair<";
    assert lower[|lower| - 1..] == ">";
    assert lower[4] == '<' && lower[|lower| - 1] == '>';
  }

  /** A pair token ends in `>`, so it is never an array token. */
  lemma PairNotArray(token: string)
    requires IsPairSyntax(token)
    ensures !IsArraySyntax(token)
  {
    var lower := ToLower(token);
    assert lower[|lower| - 1..] == ">";
    assert lower[|lower| - 1] == '>';
  }

  /** The text between `pair<` and the final `>`. */
  function PairInner(token: string): (inner: string)
    requires IsPairSyntax(token)
    ensures |inner| == |token| - 6
  {
    PairSyntaxLength(token);
    token[5..|token| - 1]
  }

  /** The trimmed comma-separated pieces between `pair<` and the final `>`,
      taken from the token in its original case. */
  function PairArgs(token: string): (args: seq<string>)
    requires IsPairSyntax(token)
    ensures |args| >= 1
    ensures forall i :: 0 <= i < |args| ==> |args[i]| < |token| && ',' !in args[i]
  {
    var inner := PairInner(token);
    TrimSplitKeeps(inner, ',');
    TrimAll(Split(inner, ','))
  }

  /** `pair<K,V>` satisfies the pair check, not the array check, and its
      inner text is `K,V`. */
  lemma PairSyntaxOf(key: string, value: string)
    ensures var s := "pair<" + key + "," + value + ">";
      IsPairSyntax(s) && !IsArraySyntax(s) && PairInner(s) == key + "," + value
  {
    var s := "pair<" + key + "," + value + ">";
    var lower := ToLower(s);
    assert lower[|s| - 1] == '>';
    assert lower[..5] == "pair<";
    assert lower[|s| - 1..] == ">";
  }

  /** Trimming two trimmed pieces leaves them as they were. */
  lemma TrimAllTwo(a: string, b: string)
    requires Trim(a) == a && Trim(b) == b
    ensures TrimAll([a, b]) == [a, b]
  {
    assert [a, b][1..] == [b];
    assert TrimAll([b]) == [b];
  }

  /** The arguments of `pair<K,V>`, for comma-free trimmed K and V, are
      exactly K and V. */
  lemma PairArgsOf(key: string, value: string)
    requires ',' !in key && ',' !in value
    requires Trim(key) == key && Trim(value) == value
    ensures var s := "pair<" + key + "," + value + ">";
      IsPairSyntax(s) && !IsArraySyntax(s) && PairArgs(s) == [key, value]
  {
    PairSyntaxOf(key, value);
    assert key + "," + value == key + [','] + value;
    SplitTwo(key, value, ',');
    TrimAllTwo(key, value);
  }

  /** The keyword of a primitive, which is also its C# type name. */
  function PrimText(p: Primitive): string {
    match p
    case Int => "int"
    case Float => "float"
    case Double => "double"
    case Bool => "bool"
    case String => "string"
  }

  /** The canonical token text of a shape: lower-case keywords, `[]` for a
      list and `pair<K,V>` for a pair; an opaque type is written `object`. */
  function TokenText(t: FieldType): string {
    match t
    case Prim(p) => PrimText(p)
    case ListOf(e) => TokenText(e) + "[]"
    case PairOf(k, v) => "pair<" + TokenText(k) + "," + TokenText(v) + ">"
    case Opaque => "object"
  }

  predicate HasPair(t: FieldType) {
    match t
    case Prim(_) => false
    case Opaque => false
    case ListOf(e) => HasPair(e)
    case PairOf(_, _) => true
  }

  /** A shape whose token text both readers split correctly: no pair
      argument contains another pair, whose comma would split it. */
  predicate Readable(t: FieldType) {
    match t
    case Prim(_) => true
    case Opaque => true
    case ListOf(e) => Readable(e)
    case PairOf(k, v) => !HasPair(k) && !HasPair(v) && Readable(k) && Readable(v)
  }

  /** Non-empty, lower case, no white space at either end. */
  predicate Tidy(s: string) {
    |s| > 0 && IsLower(s) && !IsWhiteSpace(s[0]) && !IsWhiteSpace(s[|s| - 1])
  }

  lemma ListTextTidy(e: string)
    requires Tidy(e)
    ensures Tidy(e + "[]") && (',' !in e ==> ',' !in e + "[]")
  {
    var s := e + "[]";
    assert s[0] == e[0];
    assert forall i :: 0 <= i < |s| ==> (i < |e| && s[i] == e[i]) || s[i] == '[' || s[i] == ']';
  }

  lemma PairTextTidy(k: string, v: string)
    ensures Tidy("pair<" + k + "," + v + ">")
    requires IsLower(k) && IsLower(v)
  {
    var s := "pair<" + k + "," + v + ">";
    assert s == "pair<" + (k + ("," + (v + ">")));
    assert s[0] == 'p' && s[|s| - 1] == '>';
    assert forall i :: 0 <= i < |s| ==>
      (s[i] in "pair<,>" || (5 <= i < 5 + |k| && s[i] == k[i - 5])
       || (6 + |k| <= i < |s| - 1 && s[i] == v[i - 6 - |k|]));
  }

  lemma PrimTextTidy(p: Primitive)
    ensures Tidy(PrimText(p)) && ',' !in PrimText(p)
  {
    var s := PrimText(p);
    assert forall i :: 0 <= i < |s| ==> 'a' <= s[i] <= 'z';
  }

  /** Token texts are tidy, and contain a comma only inside a pair. */
  lemma {:induction false} TokenTextShape(t: FieldType)
    ensures Tidy(TokenText(t)) && (!HasPair(t) ==> ',' !in TokenText(t))
  {
    match t
    case Prim(p) =>
      PrimTextTidy(p);
    case Opaque =>
    case ListOf(e) =>
      TokenTextShape(e);
      ListTextTidy(TokenText(e));
    case PairOf(k, v) =>
      TokenTextShape(k);
      TokenTextShape(v);
      PairTextTidy(TokenText(k), TokenText(v));
  }
}
