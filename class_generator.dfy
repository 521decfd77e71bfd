/** ClassGenerator: renders the record class of a sheet as C# source text.
    Its reading of a type token accepts the aliases `integer`, `number` and
    `boolean`, and any depth of `[]`. */
module ClassGenerator {
  import opened Text
  import opened TypeTokens
  import opened SheetData

  /** Suffix pluralisation of a member or class name. */
  function Pluralize(name: string): (r: string)
    ensures IsBlank(name) ==> r == name
    ensures !IsBlank(name) ==> EndsWith(r, "s") && |r| > |name|
    ensures !IsBlank(name) ==> r[..|name| - 1] == name[..|name| - 1]
  {
    if IsBlank(name) then name
    else if EndsWith(name, "s") || EndsWith(name, "x") || EndsWith(name, "z")
            || EndsWith(name, "ch") || EndsWith(name, "sh") then name + "es"
    else if EndsWith(name, "y") && |name| > 1 && name[|name| - 2] !in "aeiou" then
      name[..|name| - 1] + "ies"
    else name + "s"
  }

  /** Pluralising never leaves a non-blank name as it was. */
  lemma PluralizeChanges(name: string)
    requires !IsBlank(name)
    ensures Pluralize(name) != name
  {
  }

  /** The keyword switch, on the lower-cased token. */
  function KeywordType(lower: string): FieldType {
    if lower == "int" || lower == "integer" then Prim(Int)
    else if lower == "float" || lower == "number" then Prim(Float)
    else if lower == "double" then Prim(Double)
    else if lower == "bool" || lower == "boolean" then Prim(Bool)
    else if lower == "string" then Prim(String)
    else Opaque
  }

  /** How GetCSharpType and GetDefaultValue read a token: a `[]` suffix is
      looked for first, then `pair<...>` with exactly two comma-separated
      arguments, then the keywords; everything else is opaque. */
  function ClassFieldType(token: string): FieldType
    decreases |token|
  {
    if IsArraySyntax(token) then ListOf(ClassFieldType(token[..|token| - 2]))
    else if IsPairSyntax(token) then
      var args := PairArgs(token);
      if |args| != 2 then Opaque else PairOf(ClassFieldType(args[0]), ClassFieldType(args[1]))
    else KeywordType(ToLower(token))
  }

  /** The C# type name of a shape. */
  function CSharpType(t: FieldType): string {
    match t
    case Prim(p) => PrimText(p)
    case ListOf(e) => "List<" + CSharpType(e) + ">"
    case PairOf(k, v) => "Pair<" + CSharpType(k) + ", " + CSharpType(v) + ">"
    case Opaque => "object"
  }

  /** The C# zero of each primitive. */
  function PrimDefaultLiteral(p: Primitive): string {
    match p
    case Int => "0"
    case Float => "0.0f"
    case Double => "0.0"
    case Bool => "false"
    case String => "string.Empty"
  }

  /** The C# default literal of a shape. */
  function DefaultValue(t: FieldType): string {
    match t
    case Prim(p) => PrimDefaultLiteral(p)
    case ListOf(e) => "new List<" + CSharpType(e) + ">()"
    case PairOf(k, v) => "default(Pair<" + CSharpType(k) + ", " + CSharpType(v) + ">)"
    case Opaque => "default"
  }

  lemma ListRenderIffList(t: FieldType)
    ensures StartsWith(CSharpType(t), "List<") <==> t.ListOf?
  {
    if !t.ListOf? {
      assert CSharpType(t)[0] != 'L';
    }
  }

  /** GetCSharpType: its result is a `List<...>` exactly when the token ends
      in `[]`, whatever the case of the rest. */
  function GetCSharpType(token: string): (r: string)
    ensures StartsWith(r, "List<") <==> IsArraySyntax(token)
  {
    var t := ClassFieldType(token);
    ListRenderIffList(t);
    CSharpType(t)
  }

  /** GetDefaultValue */
  function GetDefaultValue(token: string): (r: string)
    ensures r == "default" <==> GetCSharpType(token) == "object"
  {
    DefaultValue(ClassFieldType(token))
  }

  /** A pair token whose arguments do not split into exactly two degrades
      to `object` with the untyped default: generation never fails on it. */
  lemma PairArityFallback(t: string)
    requires IsPairSyntax(t) && |PairArgs(t)| != 2
    ensures GetCSharpType(t) == "object" && GetDefaultValue(t) == "default"
  {
    PairNotArray(t);
  }

  /** Three comma-free arguments are three arguments, so the token
      degrades to `object`. */
  lemma ThreeArgumentPairFallback(a: string, b: string, c: string)
    requires ',' !in a && ',' !in b && ',' !in c
    ensures var t := "pair<" + a + "," + b + "," + c + ">";
      GetCSharpType(t) == "object" && GetDefaultValue(t) == "default"
  {
    var t := "pair<" + a + "," + b + "," + c + ">";
    var rest := b + "," + c;
    assert t == "pair<" + a + "," + rest + ">";
    PairSyntaxOf(a, rest);
    assert a + "," + rest == a + [','] + rest;
    assert rest == b + [','] + c;
    SplitPrefix(a, ',', rest);
    SplitTwo(b, c, ',');
    assert |PairArgs(t)| == 3;
    PairArityFallback(t);
  }

  /** A pair argument that is itself a pair splits on its own comma, so the
      outer token has three arguments and degrades to `object`. */
  lemma NestedPairFallback(k: string, v: string, w: string)
    requires ',' !in k && ',' !in v && ',' !in w
    ensures var t := "pair<pair<" + k + "," + v + ">," + w + ">";
      GetCSharpType(t) == "object" && GetDefaultValue(t) == "default"
  {
    var a, b := "pair<" + k, v + ">";
    assert ',' !in a && ',' !in b;
    var t := "pair<pair<" + k + "," + v + ">," + w + ">";
    assert "pair<" + a + "," + b + "," + w + ">" == t by {
      assert "pair<" + a == "pair<pair<" + k;
      assert b + "," == v + ">,";
    }
    ThreeArgumentPairFallback(a, b, w);
  }

  /** A pair token with a single comma-free argument degrades to `object`
      as well. */
  lemma SingleArgumentPairFallback(a: string)
    requires ',' !in a
    ensures GetCSharpType("pair<" + a + ">") == "object" && GetDefaultValue("pair<" + a + ">") == "default"
  {
    var t := "pair<" + a + ">";
    var lower := ToLower(t);
    assert lower[..5] == "pair<";
    assert lower[|t| - 1..] == ">";
    assert PairInner(t) == a;
    SplitNoSeparator(a, ',');
    PairArityFallback(t);
  }

  /** The two renderers agree: the default literal is a value of the
      rendered type (`new T()` for lists, `default(T)` for pairs, the
      untyped `default` for `object`, the zero of each primitive). */
  lemma DefaultMatchesType(t: FieldType)
    ensures var ty, d := CSharpType(t), DefaultValue(t);
      (StartsWith(ty, "List<") ==> d == "new " + ty + "()")
      && (StartsWith(ty, "Pair<") ==> d == "default(" + ty + ")")
      && (ty == "object" <==> d == "default")
  {
    match t
    case ListOf(e) => ListDefault(e);
    case PairOf(k, v) => PairDefault(k, v);
    case Opaque => assert CSharpType(t)[0] == 'o';
    case Prim(p) => PrimDefault(p);
  }

  lemma ListDefault(e: FieldType)
    ensures var ty, d := CSharpType(ListOf(e)), DefaultValue(ListOf(e));
      !StartsWith(ty, "Pair<") && d == "new " + ty + "()" && ty != "object" && d != "default"
  {
    ListLiterals(CSharpType(e));
  }

  lemma ListLiterals(x: string)
    ensures var ty, d := "List<" + x + ">", "new List<" + x + ">()";
      !StartsWith(ty, "Pair<") && d == "new " + ty + "()" && ty != "object" && d != "default"
  {
    var ty, d := "List<" + x + ">", "new List<" + x + ">()";
    assert ty[0] == 'L' && d[0] == 'n';
  }

  lemma PairDefault(k: FieldType, v: FieldType)
    ensures var ty, d := CSharpType(PairOf(k, v)), DefaultValue(PairOf(k, v));
      !StartsWith(ty, "List<") && d == "default(" + ty + ")" && ty != "object" && d != "default"
  {
    PairLiterals(CSharpType(k), CSharpType(v));
  }

  lemma PairLiterals(x: string, y: string)
    ensures var ty, d := "Pair<" + x + ", " + y + ">", "default(Pair<" + x + ", " + y + ">)";
      !StartsWith(ty, "List<") && d == "default(" + ty + ")" && ty != "object" && d != "default"
  {
    var ty, d := "Pair<" + x + ", " + y + ">", "default(Pair<" + x + ", " + y + ">)";
    assert ty[0] == 'P' && |d| > 7;
  }

  lemma PrimDefault(p: Primitive)
    ensures var ty, d := CSharpType(Prim(p)), DefaultValue(Prim(p));
      !StartsWith(ty, "List<") && !StartsWith(ty, "Pair<") && ty != "object" && d != "default"
  {
    var ty := CSharpType(Prim(p));
    assert ty[0] != 'L' && ty[0] != 'P';
  }

  /** The name a field gets in the generated class: pluralised for lists. */
  function MemberName(name: string, token: string): (r: string)
    ensures IsArraySyntax(token) ==> r == Pluralize(name)
    ensures !IsArraySyntax(token) ==> r == name
  {
    if StartsWith(GetCSharpType(token), "List<") then Pluralize(name) else name
  }

  function MemberLine(name: string, token: string): string {
    "    public " + GetCSharpType(token) + " " + MemberName(name, token) + " = "
      + GetDefaultValue(token) + ";"
  }

  function Min(a: nat, b: nat): nat {
    if a < b then a else b
  }

  /** `f` applied to the names and types at each index below both lengths. */
  function ZipWith(names: seq<string>, types: seq<string>, f: (string, string) -> string): (ls: seq<string>)
    ensures |ls| == Min(|names|, |types|)
  {
    seq(Min(|names|, |types|), i requires 0 <= i < Min(|names|, |types|) => f(names[i], types[i]))
  }

  lemma ZipWithStep(names: seq<string>, types: seq<string>, f: (string, string) -> string, i: nat)
    requires i < |names|
    ensures i < |types| ==>
      ZipWith(names[..i + 1], types, f) == ZipWith(names[..i], types, f) + [f(names[i], types[i])]
    ensures i >= |types| ==> ZipWith(names[..i + 1], types, f) == ZipWith(names[..i], types, f)
  {
    var a, b := ZipWith(names[..i + 1], types, f), ZipWith(names[..i], types, f);
    assert forall k :: 0 <= k < |b| ==> a[k] == b[k];
  }

  /** One member line per index below both list lengths, in schema order. */
  function MemberLines(names: seq<string>, types: seq<string>): (ls: seq<string>)
    ensures |ls| == Min(|names|, |types|)
    ensures forall i :: 0 <= i < |ls| ==> ls[i] == MemberLine(names[i], types[i])
  {
    ZipWith(names, types, MemberLine)
  }

  function ClassHeader(className: string): seq<string> {
    ["using System;", "using System.Collections.Generic;", "using SerializableTypes;", "",
     "[Serializable]", "public class " + className, "{"]
  }

  function ClassLines(className: string, names: seq<string>, types: seq<string>): seq<string> {
    ClassHeader(className) + MemberLines(names, types) + ["}"]
  }

  /** The generated class is the fixed header, then exactly one member line
      per field that has both a name and a type, then the closing brace. */
  lemma ClassLinesShape(className: string, names: seq<string>, types: seq<string>)
    ensures var ls := ClassLines(className, names, types);
      |ls| == 8 + Min(|names|, |types|)
      && ls[5] == "public class " + className
      && ls[|ls| - 1] == "}"
      && (forall i :: 0 <= i < Min(|names|, |types|) ==>
            ls[7 + i] == MemberLine(names[i], types[i]))
  {
    var ls := ClassLines(className, names, types);
    assert ls == ClassHeader(className) + (MemberLines(names, types) + ["}"]);
  }

  /** Names or types beyond the shorter list produce nothing. */
  lemma SurplusIgnored(names: seq<string>, types: seq<string>, extra: seq<string>)
    ensures |names| >= |types| ==> MemberLines(names + extra, types) == MemberLines(names, types)
    ensures |types| >= |names| ==> MemberLines(names, types + extra) == MemberLines(names, types)
  {
  }

  lemma MemberLinesStep(names: seq<string>, types: seq<string>, i: nat)
    requires i < |names|
    ensures i < |types| ==>
      MemberLines(names[..i + 1], types) == MemberLines(names[..i], types) + [MemberLine(names[i], types[i])]
    ensures i >= |types| ==> MemberLines(names[..i + 1], types) == MemberLines(names[..i], types)
  {
    ZipWithStep(names, types, MemberLine, i);
  }

  /** GenerateClassString: empty for a missing sheet or an empty class name,
      otherwise the lines of `ClassLines`, each ended by `nl`. */
  method GenerateClassString(parsedData: ParsedSheetData?, nl: string) returns (text: string)
    ensures parsedData == null || parsedData.ClassName == "" ==> text == ""
    ensures parsedData != null && parsedData.ClassName != "" ==>
      text == Lines(ClassLines(parsedData.ClassName, parsedData.FieldNames, parsedData.FieldTypes), nl)
  {
    if parsedData == null || parsedData.ClassName == "" {
      return "";
    }
    var names, types := parsedData.FieldNames, parsedData.FieldTypes;
    var header := ClassHeader(parsedData.ClassName);
    text := Lines(header, nl);
    var i := 0;
    assert header + MemberLines(names[..0], types) == header;
    while i < |names|
      invariant 0 <= i <= |names|
      invariant text == Lines(header + MemberLines(names[..i], types), nl)
    {
      MemberLinesStep(names, types, i);
      if i < |types| {
        var line := MemberLine(names[i], types[i]);
        LinesAppend(header + MemberLines(names[..i], types), line, nl);
        assert header + MemberLines(names[..i + 1], types) == header + MemberLines(names[..i], types) + [line];
        text := text + line + nl;
      }
      i := i + 1;
    }
    assert names[..|names|] == names;
    LinesAppend(header + MemberLines(names, types), "}", nl);
    text := text + "}" + nl;
  }

  /** A `[]` suffix always reads as a list of what precedes it. */
  lemma ArrayTokenRead(element: string)
    ensures ClassFieldType(element + "[]") == ListOf(ClassFieldType(element))
  {
    var s := element + "[]";
    assert ToLower(s)[|s| - 2..] == "[]";
    assert s[..|s| - 2] == element;
  }

  /** `pair<K,V>` with comma-free, trimmed arguments reads as a pair of the
      two arguments' readings. */
  lemma PairTokenRead(key: string, value: string)
    requires ',' !in key && ',' !in value
    requires Trim(key) == key && Trim(value) == value
    ensures ClassFieldType("pair<" + key + "," + value + ">") == PairOf(ClassFieldType(key), ClassFieldType(value))
  {
    PairArgsOf(key, value);
  }

  /** A lower-case token that ends in neither `]` nor `>` goes straight to
      the keyword switch. */
  lemma PlainTokenRead(s: string)
    requires |s| > 0 && IsLower(s) && s[|s| - 1] != ']' && s[|s| - 1] != '>'
    ensures ClassFieldType(s) == KeywordType(s)
  {
    LowerOfLower(s);
    assert ToLower(s)[|s| - 1] != ']' && ToLower(s)[|s| - 1] != '>';
  }

  lemma KeywordTokenRead(t: FieldType)
    requires t.Prim? || t.Opaque?
    ensures ClassFieldType(TokenText(t)) == t
  {
    PlainTokenRead(TokenText(t));
    if t.Prim? {
      PrimKeyword(t.kind);
    }
  }

  lemma PrimKeyword(p: Primitive)
    ensures KeywordType(PrimText(p)) == Prim(p)
  {
  }

  /** Reading the canonical text of a shape gives the shape back, for every
      shape whose pair arguments contain no pair. */
  lemma {:induction false} TokenRoundTrip(t: FieldType)
    requires Readable(t)
    ensures ClassFieldType(TokenText(t)) == t
  {
    match t
    case ListOf(e) =>
      ArrayTokenRead(TokenText(e));
      TokenRoundTrip(e);
    case PairOf(k, v) =>
      TokenTextShape(k);
      TokenTextShape(v);
      TrimOfTrimmed(TokenText(k));
      TrimOfTrimmed(TokenText(v));
      PairTokenRead(TokenText(k), TokenText(v));
      TokenRoundTrip(k);
      TokenRoundTrip(v);
    case _ =>
      KeywordTokenRead(t);
  }
}
