/** JsonGenerator: turns the rows of a parsed sheet into a JSON value tree
    (RFC 8259 values: null, booleans, numbers, strings, arrays, objects),
    reading each header type token with its own reader, which knows no
    aliases and no `[]` inside a pair or an array element. */
module JsonGenerator {
  import opened Wrappers
  import opened Text
  import opened TypeTokens
  import opened SheetData

  /** The value a cell converts to. `Single` and `Float64` are the two
      floating-point widths; `Pair` is a `Pair<K,V>` built from two values
      and `DefaultPair` one made by its parameterless constructor. An
      `Object` lists its members in insertion order, each key once. */
  datatype Value =
    | Null
    | Boolean(b: bool)
    | Int32(i: int)
    | Single(x: real)
    | Float64(x: real)
    | Str(s: string)
    | Array(items: seq<Value>)
    | Object(members: seq<(string, Value)>)
    | Pair(first: Value, second: Value)
    | DefaultPair(keyType: FieldType, valueType: FieldType)

  /** The culture-dependent `TryParse` routines of the runtime, as partial
      functions: `None` where `TryParse` returns false. */
  datatype Parsers = Parsers(
    parseInt: string -> Option<int>,
    parseFloat: string -> Option<real>,
    parseDouble: string -> Option<real>,
    parseBool: string -> Option<bool>)

  /** GetSystemType: the keywords in any case and `pair<K,V>` of two
      resolvable arguments; no aliases and no `[]`. */
  function SystemType(typeName: string): Option<FieldType>
    decreases |typeName|
  {
    if IsPairSyntax(typeName) then
      var args := PairArgs(typeName);
      if |args| != 2 then None
      else
        var k, v := SystemType(args[0]), SystemType(args[1]);
        if k.None? || v.None? then None else Some(PairOf(k.value, v.value))
    else
      var lower := ToLower(typeName);
      if lower == "int" then Some(Prim(Int))
      else if lower == "float" then Some(Prim(Float))
      else if lower == "double" then Some(Prim(Double))
      else if lower == "bool" then Some(Prim(Bool))
      else if lower == "string" then Some(Prim(String))
      else None
  }

  /** GetPrimitiveDefault, on the lower-cased token. */
  function PrimitiveDefault(lowerType: string): Value {
    if lowerType == "int" then Int32(0)
    else if lowerType == "float" then Single(0.0)
    else if lowerType == "double" then Float64(0.0)
    else if lowerType == "bool" then Boolean(false)
    else if lowerType == "string" then Str("")
    else Null
  }

  /** The contents of the successive matches of the pattern `\(([^)]*?)\)`:
      from each `(` to the first `)` after it; text outside is skipped. */
  function PairGroups(s: string): (groups: seq<string>)
    ensures forall i :: 0 <= i < |groups| ==> ')' !in groups[i] && |groups[i]| < |s|
    decreases |s|, 1
  {
    match IndexOf(s, '(')
    case None => []
    case Some(i) => GroupsAfter(s[i + 1..])
  }

  /** The matches that start with the text after an opening `(`. */
  function GroupsAfter(after: string): (groups: seq<string>)
    ensures forall i :: 0 <= i < |groups| ==> ')' !in groups[i] && |groups[i]| <= |after|
    decreases |after|, 0
  {
    match IndexOf(after, ')')
    case None => []
    case Some(j) => [after[..j]] + PairGroups(after[j + 1..])
  }

  /** The items of a non-pair array cell: split on every comma, trimmed,
      empty pieces dropped. */
  function Components(value: string): (items: seq<string>)
    ensures forall c :: c in items ==> c != "" && ',' !in c
  {
    var pieces := Split(value, ',');
    TrimAllKeeps(pieces, |value|, ',');
    NonEmpty(TrimAll(pieces))
  }

  /** One enclosing `(` `)` pair is removed from a pair cell. */
  function StripParens(s: string): (r: string)
    ensures StartsWith(s, "(") && EndsWith(s, ")") ==> |s| >= 2 && r == s[1..|s| - 1]
    ensures !(StartsWith(s, "(") && EndsWith(s, ")")) ==> r == s
  {
    if StartsWith(s, "(") && EndsWith(s, ")") then
      assert s[0] == '(' && s[|s| - 1] == ')';
      s[1..|s| - 1]
    else s
  }

  predicate IsNullOrEmpty(value: Option<string>) {
    value.None? || value.value == ""
  }

  /** ConvertToTypedObject: the value a cell's text takes under a type token.
      An array token (`[]` suffix) is recognised first, then a pair token; any
      other token is a scalar, where text under an unknown token is kept as
      a string. */
  function ConvertCell(value: Option<string>, typeName: string, p: Parsers): Value
    decreases |typeName|, 2
  {
    var lowerType := ToLower(typeName);
    if EndsWith(lowerType, "[]") then ConvertArrayCell(value, typeName, p)
    else if StartsWith(lowerType, "pair<") && EndsWith(lowerType, ">") then ConvertPairCell(value, typeName, p)
    else if IsNullOrEmpty(value) then PrimitiveDefault(lowerType)
    else ConvertText(value.value, lowerType, p)
  }

  /** An array token: its element type must resolve; a blank cell is an
      empty list; otherwise the regex groups (pair elements) or the comma
      components (other elements), each converted in order. */
  function ConvertArrayCell(value: Option<string>, typeName: string, p: Parsers): Value
    requires IsArraySyntax(typeName)
    decreases |typeName|, 1
  {
    var baseName := typeName[..|typeName| - 2];
    if SystemType(baseName).None? then Null
    else if IsNullOrBlank(value) then Array([])
    else Array(ConvertEach(ElementCells(value.value, baseName), baseName, p))
  }

  /** The element texts of an array cell: the regex groups when the element
      token starts with `pair<`, the comma components otherwise. */
  function ElementCells(value: string, baseName: string): seq<string> {
    if StartsWith(ToLower(baseName), "pair<") then GroupCells(value) else Components(value)
  }

  /** A pair token: exactly two resolvable arguments; a blank cell is a
      default pair; otherwise one enclosing pair of parentheses is removed
      and the text must split into exactly two parts, each converting to a
      non-null value. */
  function ConvertPairCell(value: Option<string>, typeName: string, p: Parsers): Value
    requires IsPairSyntax(typeName)
    decreases |typeName|, 1
  {
    var args := PairArgs(typeName);
    if |args| != 2 then Null
    else
      var keyType, valueType := SystemType(args[0]), SystemType(args[1]);
      if keyType.None? || valueType.None? then Null
      else if IsNullOrBlank(value) then DefaultPair(keyType.value, valueType.value)
      else
        var parts := PairParts(value.value);
        if |parts| != 2 then Null
        else
          var k := ConvertCell(Some(parts[0]), args[0], p);
          var v := ConvertCell(Some(parts[1]), args[1], p);
          if k.Null? || v.Null? then Null else Pair(k, v)
  }

  /** The trimmed comma-separated parts of a pair cell, inside one optional
      enclosing pair of parentheses. */
  function PairParts(text: string): (parts: seq<string>)
    ensures |parts| >= 1
  {
    TrimAll(Split(StripParens(Trim(text)), ','))
  }

  /** The switch on the lower-cased token for non-empty text. */
  function ConvertText(text: string, lowerType: string, p: Parsers): Value {
    if lowerType == "int" then Int32(p.parseInt(text).GetOr(0))
    else if lowerType == "float" then Single(p.parseFloat(text).GetOr(0.0))
    else if lowerType == "double" then Float64(p.parseDouble(text).GetOr(0.0))
    else if lowerType == "bool" then Boolean(p.parseBool(text) == Some(true))
    else Str(text)
  }

  /** Each regex group, trimmed and put back between parentheses. */
  function GroupCells(value: string): (cells: seq<string>)
    ensures |cells| == |PairGroups(value)|
    ensures forall i :: 0 <= i < |cells| ==> cells[i] == "(" + Trim(PairGroups(value)[i]) + ")"
  {
    var groups := PairGroups(value);
    seq(|groups|, i requires 0 <= i < |groups| => "(" + Trim(groups[i]) + ")")
  }

  /** The conversions of the items of a list, in order. */
  function ConvertEach(items: seq<string>, elementType: string, p: Parsers): (r: seq<Value>)
    ensures |r| == |items|
    decreases |elementType|, 3 + |items|
  {
    if items == [] then []
    else ConvertEach(items[..|items| - 1], elementType, p) + [ConvertCell(Some(items[|items| - 1]), elementType, p)]
  }

  /** ConvertToTypedObject, step by step. */
  method ConvertToTypedObject(value: Option<string>, typeName: string, p: Parsers) returns (r: Value)
    ensures r == ConvertCell(value, typeName, p)
    decreases |typeName|, 2
  {
    var lowerType := ToLower(typeName);
    if EndsWith(lowerType, "[]") {
      r := ConvertArray(value, typeName, p);
    } else if StartsWith(lowerType, "pair<") && EndsWith(lowerType, ">") {
      r := ConvertPair(value, typeName, p);
    } else if IsNullOrEmpty(value) {
      r := PrimitiveDefault(lowerType);
    } else {
      r := ConvertText(value.value, lowerType, p);
    }
  }

  /** The array branch: the elements are converted one after the other and
      appended to the list. */
  method ConvertArray(value: Option<string>, typeName: string, p: Parsers) returns (r: Value)
    requires IsArraySyntax(typeName)
    ensures r == ConvertArrayCell(value, typeName, p)
    decreases |typeName|, 1
  {
    var baseName := typeName[..|typeName| - 2];
    if SystemType(baseName).None? {
      return Null;
    }
    if IsNullOrBlank(value) {
      return Array([]);
    }
    var items := ElementCells(value.value, baseName);
    var list: seq<Value> := [];
    for i := 0 to |items|
      invariant list == ConvertEach(items[..i], baseName, p)
    {
      var element := ConvertToTypedObject(Some(items[i]), baseName, p);
      assert items[..i + 1][..i] == items[..i];
      list := list + [element];
    }
    assert items[..|items|] == items;
    return Array(list);
  }

  method ConvertPair(value: Option<string>, typeName: string, p: Parsers) returns (r: Value)
    requires IsPairSyntax(typeName)
    ensures r == ConvertPairCell(value, typeName, p)
    decreases |typeName|, 1
  {
    var args := PairArgs(typeName);
    if |args| != 2 {
      return Null;
    }
    var keyType, valueType := SystemType(args[0]), SystemType(args[1]);
    if keyType.None? || valueType.None? {
      return Null;
    }
    if IsNullOrBlank(value) {
      return DefaultPair(keyType.value, valueType.value);
    }
    var parts := PairParts(value.value);
    if |parts| != 2 {
      return Null;
    }
    var k := ConvertToTypedObject(Some(parts[0]), args[0], p);
    var v := ConvertToTypedObject(Some(parts[1]), args[1], p);
    if k.Null? || v.Null? {
      return Null;
    }
    return Pair(k, v);
  }

  // ----- Row objects -----

  /** `i < row.Count ? row[i]?.ToString() : null` */
  function CellText(row: Row, i: nat): (r: Option<string>)
    ensures i >= |row| ==> r.None?
  {
    if i < |row| then row[i] else None
  }

  /** Some member is stored under `key`. */
  predicate HasKey(members: seq<(string, Value)>, key: string) {
    members != [] && (members[0].0 == key || HasKey(members[1..], key))
  }

  /** Each key occurs once, as in a dictionary. */
  predicate DistinctKeys(members: seq<(string, Value)>) {
    members == [] || (!HasKey(members[1..], members[0].0) && DistinctKeys(members[1..]))
  }

  /** The value stored under a key, if any. */
  function Lookup(members: seq<(string, Value)>, key: string): (r: Option<Value>)
    ensures r.None? <==> !HasKey(members, key)
  {
    if members == [] then None
    else if members[0].0 == key then Some(members[0].1)
    else
      Lookup(members[1..], key)
  }

  /** `obj[key] = value` on a dictionary: an existing key keeps its place
      and takes the new value, a new key goes at the end. */
  function Put(members: seq<(string, Value)>, key: string, value: Value): (r: seq<(string, Value)>)
    ensures Lookup(r, key) == Some(value)
    ensures forall k :: k != key ==> Lookup(r, k) == Lookup(members, k)
    ensures HasKey(members, key) ==> |r| == |members|
    ensures !HasKey(members, key) ==> r == members + [(key, value)]
  {
    if members == [] then [(key, value)]
    else if members[0].0 == key then [(key, value)] + members[1..]
    else [members[0]] + Put(members[1..], key, value)
  }

  /** A dictionary write keeps every key once. */
  lemma {:induction false} PutKeepsDistinct(members: seq<(string, Value)>, key: string, value: Value)
    requires DistinctKeys(members)
    ensures DistinctKeys(Put(members, key, value))
  {
    var r := Put(members, key, value);
    if members != [] && members[0].0 != key {
      var rest := Put(members[1..], key, value);
      PutKeepsDistinct(members[1..], key, value);
      assert r == [members[0]] + rest;
      assert r[1..] == rest;
      assert Lookup(rest, members[0].0) == Lookup(members[1..], members[0].0);
    } else if members != [] {
      assert r[1..] == members[1..];
    }
  }

  /** The members written for the first `n` fields: blank names are
      skipped, every other name is written with its converted cell, a
      repeated name overwriting the earlier value. */
  function RowMembers(row: Row, names: seq<string>, types: seq<string>, p: Parsers, n: nat): seq<(string, Value)>
    requires n <= |names| && n <= |types|
  {
    if n == 0 then []
    else
      var before := RowMembers(row, names, types, p, n - 1);
      if IsBlank(names[n - 1]) then before
      else Put(before, names[n - 1], ConvertCell(CellText(row, n - 1), types[n - 1], p))
  }

  function FieldCount(names: seq<string>, types: seq<string>): (n: nat)
    ensures n <= |names| && n <= |types|
    ensures n == |names| || n == |types|
  {
    if |names| < |types| then |names| else |types|
  }

  /** The object of one data row. */
  function RowObject(row: Row, names: seq<string>, types: seq<string>, p: Parsers): Value {
    Object(RowMembers(row, names, types, p, FieldCount(names, types)))
  }

  /** CreateObjectFromRow: walks the field names, stops at the first index
      without a type, skips blank names and writes each converted cell. */
  method CreateObjectFromRow(row: Row, parsedData: ParsedSheetData, p: Parsers) returns (obj: seq<(string, Value)>)
    ensures obj == RowMembers(row, parsedData.FieldNames, parsedData.FieldTypes, p,
                              FieldCount(parsedData.FieldNames, parsedData.FieldTypes))
  {
    var names, types := parsedData.FieldNames, parsedData.FieldTypes;
    obj := [];
    var i := 0;
    while i < |names|
      invariant i <= |names| && i <= |types|
      invariant obj == RowMembers(row, names, types, p, i)
    {
      if i >= |types| {
        break;
      }
      var fieldName := names[i];
      if !IsBlank(fieldName) {
        var converted := ConvertToTypedObject(CellText(row, i), types[i], p);
        obj := Put(obj, fieldName, converted);
      }
      i := i + 1;
    }
  }

  /** The rows of a table sheet, one object each, in row order. */
  function TableRows(rows: seq<Row>, names: seq<string>, types: seq<string>, p: Parsers): (objects: seq<Value>)
    ensures |objects| == |rows|
    ensures forall i :: 0 <= i < |rows| ==> objects[i] == RowObject(rows[i], names, types, p)
  {
    seq(|rows|, i requires 0 <= i < |rows| => RowObject(rows[i], names, types, p))
  }

  /** The JSON of a parsed sheet: a const sheet is the object of its first
      row (`{}` without rows), a table sheet the array of its row objects. */
  function SheetJson(sheetType: SheetDataType, rows: seq<Row>, names: seq<string>, types: seq<string>, p: Parsers): Value {
    if sheetType == Const then
      if rows == [] then Object([]) else RowObject(rows[0], names, types, p)
    else Array(TableRows(rows, names, types, p))
  }

  /** GenerateJsonString, as a value tree: a missing sheet gives `[]`. */
  method GenerateJson(parsedData: ParsedSheetData?, p: Parsers) returns (json: Value)
    ensures parsedData == null ==> json == Array([])
    ensures parsedData != null ==>
      json == SheetJson(parsedData.SheetType, parsedData.DataRows, parsedData.FieldNames, parsedData.FieldTypes, p)
  {
    if parsedData == null {
      return Array([]);
    }
    var rows := parsedData.DataRows;
    if parsedData.SheetType == Const {
      if rows == [] {
        return Object([]);
      }
      var payload := CreateObjectFromRow(rows[0], parsedData, p);
      return Object(payload);
    }
    var objectList: seq<Value> := [];
    for i := 0 to |rows|
      invariant objectList == TableRows(rows[..i], parsedData.FieldNames, parsedData.FieldTypes, p)
    {
      var obj := CreateObjectFromRow(rows[i], parsedData, p);
      objectList := objectList + [Object(obj)];
    }
    assert rows[..|rows|] == rows;
    return Array(objectList);
  }

  // ----- Properties -----

  /** Every key of a row object is written once. */
  lemma {:induction false} RowKeysDistinct(row: Row, names: seq<string>, types: seq<string>, p: Parsers, n: nat)
    requires n <= |names| && n <= |types|
    ensures DistinctKeys(RowMembers(row, names, types, p, n))
  {
    if n > 0 {
      RowKeysDistinct(row, names, types, p, n - 1);
      var before := RowMembers(row, names, types, p, n - 1);
      if !IsBlank(names[n - 1]) {
        PutKeepsDistinct(before, names[n - 1], ConvertCell(CellText(row, n - 1), types[n - 1], p));
      }
    }
  }

  /** The last index below `n` that holds `name`. */
  function LastIndexOf(names: seq<string>, name: string, n: nat): (r: Option<nat>)
    requires n <= |names|
    ensures r.Some? ==> r.value < n && names[r.value] == name
    ensures r.Some? ==> forall j :: r.value < j < n ==> names[j] != name
    ensures r.None? ==> forall j :: 0 <= j < n ==> names[j] != name
  {
    if n == 0 then None
    else if names[n - 1] == name then Some(n - 1)
    else LastIndexOf(names, name, n - 1)
  }

  /** The value a row object should hold under `name`: none for a blank
      or absent name, otherwise the converted cell of the LAST field with
      that name among the first `n`. */
  function LastWrite(row: Row, names: seq<string>, types: seq<string>, p: Parsers, n: nat, name: string): Option<Value>
    requires n <= |names| && n <= |types|
  {
    if IsBlank(name) then None
    else match LastIndexOf(names, name, n)
      case None => None
      case Some(j) => Some(ConvertCell(CellText(row, j), types[j], p))
  }

  /** Row objects are keyed by the raw field names, and a repeated name
      keeps the value of its last occurrence. */
  lemma {:induction false} RowLookup(row: Row, names: seq<string>, types: seq<string>, p: Parsers, n: nat, name: string)
    requires n <= |names| && n <= |types|
    ensures Lookup(RowMembers(row, names, types, p, n), name) == LastWrite(row, names, types, p, n, name)
  {
    if n > 0 {
      RowLookup(row, names, types, p, n - 1, name);
      var before := RowMembers(row, names, types, p, n - 1);
      var last := names[n - 1];
      if IsBlank(last) {
        assert RowMembers(row, names, types, p, n) == before;
        if !IsBlank(name) {
          assert last != name;
          assert LastIndexOf(names, name, n) == LastIndexOf(names, name, n - 1);
        }
      } else {
        var v := ConvertCell(CellText(row, n - 1), types[n - 1], p);
        var after := Put(before, last, v);
        assert RowMembers(row, names, types, p, n) == after;
        if last == name {
          assert LastIndexOf(names, name, n) == Some(n - 1);
          assert Lookup(after, name) == Some(v);
        } else {
          assert Lookup(after, name) == Lookup(before, name);
          assert LastIndexOf(names, name, n) == LastIndexOf(names, name, n - 1);
        }
      }
    }
  }

  /** TrimAll leaves trimmed pieces as they are. */
  lemma {:induction false} TrimAllTrimmed(pieces: seq<string>)
    requires forall i :: 0 <= i < |pieces| ==> Trim(pieces[i]) == pieces[i]
    ensures TrimAll(pieces) == pieces
  {
  }

  /** Dropping empty pieces leaves non-empty ones as they are. */
  lemma {:induction false} NonEmptyAll(pieces: seq<string>)
    requires forall i :: 0 <= i < |pieces| ==> pieces[i] != ""
    ensures NonEmpty(pieces) == pieces
    decreases |pieces|
  {
    if pieces != [] {
      NonEmptyAll(pieces[1..]);
      assert [pieces[0]] + pieces[1..] == pieces;
    }
  }

  /** An array cell written as its items joined by commas reads back as
      those items, when each is non-empty, trimmed and comma-free. */
  lemma ComponentsRoundTrip(items: seq<string>)
    requires forall i :: 0 <= i < |items| ==> items[i] != "" && ',' !in items[i] && Trim(items[i]) == items[i]
    ensures Components(Join(",", items)) == items
  {
    if items == [] {
      assert Split("", ',') == [""];
      assert TrimAll([""]) == [""];
    } else {
      SplitJoin(items, ',');
      assert [','] == ",";
      TrimAllTrimmed(items);
      NonEmptyAll(items);
    }
  }

  /** The zero each primitive takes for a missing or empty cell. */
  function Zero(k: Primitive): Value {
    match k
    case Int => Int32(0)
    case Float => Single(0.0)
    case Double => Float64(0.0)
    case Bool => Boolean(false)
    case String => Str("")
  }

  /** A resolved token is either a keyword (then neither array nor pair
      syntax, and not starting with `pair<`) or a pair token. */
  lemma SystemTypeShape(t: string)
    requires SystemType(t).Some?
    ensures !IsArraySyntax(t)
    ensures SystemType(t).value.PairOf? <==> IsPairSyntax(t)
    ensures SystemType(t).value.Prim? ==> !StartsWith(ToLower(t), "pair<")
    ensures SystemType(t).value.Prim? || SystemType(t).value.PairOf?
  {
    var lower := ToLower(t);
    if IsPairSyntax(t) {
      PairNotArray(t);
    } else {
      KeywordShape(lower);
    }
  }

  lemma KeywordShape(lower: string)
    requires lower == "int" || lower == "float" || lower == "double" || lower == "bool" || lower == "string"
    ensures !EndsWith(lower, "[]") && !StartsWith(lower, "pair<")
  {
    assert lower[|lower| - 1] != ']';
    assert lower[0] != 'p';
  }

  /** A token that is neither array nor pair syntax takes the scalar
      branch. */
  lemma ScalarBranch(value: Option<string>, t: string, p: Parsers)
    requires !IsArraySyntax(t) && !IsPairSyntax(t)
    ensures ConvertCell(value, t, p)
      == if IsNullOrEmpty(value) then PrimitiveDefault(ToLower(t)) else ConvertText(value.value, ToLower(t), p)
  {
  }

  /** Outside pair syntax, GetSystemType and GetPrimitiveDefault know the
      same five keywords. */
  lemma DefaultOfSystemType(t: string)
    requires !IsPairSyntax(t)
    ensures SystemType(t).Some? ==>
      (SystemType(t).value.Prim? && PrimitiveDefault(ToLower(t)) == Zero(SystemType(t).value.kind))
    ensures SystemType(t).None? <==> PrimitiveDefault(ToLower(t)) == Null
  {
  }

  /** The scalar branch: an empty cell under a keyword is that keyword's
      zero, and under any other scalar token null. */
  lemma EmptyCell(value: Option<string>, t: string, p: Parsers)
    requires IsNullOrEmpty(value) && !IsArraySyntax(t) && !IsPairSyntax(t)
    ensures SystemType(t).Some? ==> ConvertCell(value, t, p) == Zero(SystemType(t).value.kind)
    ensures SystemType(t).None? <==> ConvertCell(value, t, p) == Null
  {
    ScalarBranch(value, t, p);
    DefaultOfSystemType(t);
  }

  /** Non-empty text under a keyword: an int or a float is the parsed
      number, or zero when it does not parse; a bool is true only when the
      text parses as true; a string is the text. Under any other scalar
      token the text is kept as a string. */
  lemma TextCell(x: string, t: string, p: Parsers)
    requires x != "" && !IsArraySyntax(t) && !IsPairSyntax(t)
    ensures var r := ConvertCell(Some(x), t, p);
      match SystemType(t)
      case None => r == Str(x)
      case Some(Prim(Int)) => r == (if p.parseInt(x).Some? then Int32(p.parseInt(x).value) else Zero(Int))
      case Some(Prim(Float)) => r == (if p.parseFloat(x).Some? then Single(p.parseFloat(x).value) else Zero(Float))
      case Some(Prim(Double)) => r == (if p.parseDouble(x).Some? then Float64(p.parseDouble(x).value) else Zero(Double))
      case Some(Prim(Bool)) => r.Boolean? && (r.b <==> p.parseBool(x) == Some(true))
      case Some(Prim(String)) => r == Str(x)
      case Some(_) => false
  {
    ScalarBranch(Some(x), t, p);
  }

  /** A resolved primitive token never converts to null. */
  lemma PrimitiveNeverNull(value: Option<string>, t: string, p: Parsers)
    requires SystemType(t).Some? && SystemType(t).value.Prim?
    ensures ConvertCell(value, t, p) != Null
  {
    SystemTypeShape(t);
    if IsNullOrEmpty(value) {
      EmptyCell(value, t, p);
    } else {
      TextCell(value.value, t, p);
    }
  }

  /** The i-th converted item is the conversion of the i-th item. */
  lemma {:induction false} ConvertEachAt(items: seq<string>, elementType: string, p: Parsers, i: nat)
    requires i < |items|
    ensures ConvertEach(items, elementType, p)[i] == ConvertCell(Some(items[i]), elementType, p)
    decreases |items|
  {
    if i < |items| - 1 {
      ConvertEachAt(items[..|items| - 1], elementType, p, i);
    }
  }

  /** Array tokens: an element token that does not resolve gives null
      whatever the cell; a blank cell gives the empty list; otherwise each
      item of the cell (regex groups for pair elements, comma components
      for the others) converts under the element token, in order. */
  lemma ArrayCell(value: Option<string>, t: string, p: Parsers)
    requires IsArraySyntax(t)
    ensures var e := t[..|t| - 2];
      var r := ConvertCell(value, t, p);
      if SystemType(e).None? then r == Null
      else if IsNullOrBlank(value) then r == Array([])
      else
        var items := if SystemType(e).value.PairOf? then GroupCells(value.value) else Components(value.value);
        r.Array? && |r.items| == |items|
        && forall i :: 0 <= i < |items| ==> r.items[i] == ConvertCell(Some(items[i]), e, p)
  {
    var e := t[..|t| - 2];
    if SystemType(e).Some? && !IsNullOrBlank(value) {
      SystemTypeShape(e);
      var items := ElementCells(value.value, e);
      forall i | 0 <= i < |items|
        ensures ConvertEach(items, e, p)[i] == ConvertCell(Some(items[i]), e, p)
      {
        ConvertEachAt(items, e, p, i);
      }
    }
  }

  /** Pairs do not nest: a resolvable token without a comma is a keyword,
      since a pair token needs a comma between its two arguments. */
  lemma PairsDoNotNest(t: string)
    requires ',' !in t
    ensures SystemType(t).None? || SystemType(t).value.Prim?
  {
    if IsPairSyntax(t) {
      var inner := PairInner(t);
      assert inner == t[5..|t| - 1];
      assert ',' !in inner by {
        forall i | 0 <= i < |inner|
          ensures inner[i] != ','
        {
          assert inner[i] == t[5 + i];
        }
      }
      SplitNoSeparator(inner, ',');
    }
  }

  /** A parenthesised text is already trimmed. */
  lemma TrimParenthesized(inner: string)
    ensures Trim("(" + inner + ")") == "(" + inner + ")"
  {
    var s := "(" + inner + ")";
    assert s[0] == '(' && s[|s| - 1] == ')';
    TrimOfTrimmed(s);
  }

  /** A parenthesised text loses exactly its outer parentheses. */
  lemma ParensStripped(inner: string)
    ensures StripParens(Trim("(" + inner + ")")) == inner
  {
    TrimParenthesized(inner);
    StripOfParenthesized(inner);
  }

  lemma StripOfParenthesized(inner: string)
    ensures StripParens("(" + inner + ")") == inner
  {
    var s := "(" + inner + ")";
    assert s[..1] == "(";
    assert s[|s| - 1..] == ")";
    assert s[1..|s| - 1] == inner;
  }

  /** The parts of a pair cell `(a,b)` with comma-free trimmed a and b. */
  lemma PairPartsOf(a: string, b: string)
    requires ',' !in a && ',' !in b
    requires Trim(a) == a && Trim(b) == b
    ensures PairParts("(" + a + "," + b + ")") == [a, b]
  {
    var inner := a + [','] + b;
    CommaPair(a, b);
    ParensStripped(inner);
    SplitTwo(a, b, ',');
    TrimAllTwo(a, b);
    assert PairParts("(" + inner + ")") == TrimAll(Split(inner, ','));
  }

  lemma CommaPair(a: string, b: string)
    ensures "(" + a + "," + b + ")" == "(" + (a + [','] + b) + ")"
  {
  }

  /** Pair tokens: the cell `(a,b)` converts to the pair of a and b, each
      under its own argument token, whenever both arguments resolve. */
  lemma {:induction false} PairCell(a: string, b: string, t: string, p: Parsers)
    requires IsPairSyntax(t)
    requires |PairArgs(t)| == 2 && SystemType(PairArgs(t)[0]).Some? && SystemType(PairArgs(t)[1]).Some?
    requires ',' !in a && ',' !in b
    requires Trim(a) == a && Trim(b) == b
    ensures ConvertCell(Some("(" + a + "," + b + ")"), t, p)
      == Pair(ConvertCell(Some(a), PairArgs(t)[0], p), ConvertCell(Some(b), PairArgs(t)[1], p))
  {
    var args := PairArgs(t);
    var s := "(" + a + "," + b + ")";
    PairNotArray(t);
    ParenNotBlank(a + "," + b);
    PairPartsOf(a, b);
    var parts := PairParts(s);
    assert parts[0] == a && parts[1] == b;
    PairsDoNotNest(args[0]);
    PairsDoNotNest(args[1]);
    PrimitiveNeverNull(Some(a), args[0], p);
    PrimitiveNeverNull(Some(b), args[1], p);
    PairBranch(s, t, p);
  }

  lemma ParenNotBlank(inner: string)
    ensures !IsNullOrBlank(Some("(" + inner + ")"))
  {
    assert ("(" + inner + ")")[0] == '(';
  }

  /** The last branch of a pair token, for a cell of exactly two parts
      that both convert. */
  lemma {:induction false} PairBranch(s: string, t: string, p: Parsers)
    requires IsPairSyntax(t) && !IsArraySyntax(t)
    requires |PairArgs(t)| == 2 && SystemType(PairArgs(t)[0]).Some? && SystemType(PairArgs(t)[1]).Some?
    requires !IsNullOrBlank(Some(s)) && |PairParts(s)| == 2
    requires ConvertCell(Some(PairParts(s)[0]), PairArgs(t)[0], p) != Null
    requires ConvertCell(Some(PairParts(s)[1]), PairArgs(t)[1], p) != Null
    ensures ConvertCell(Some(s), t, p)
      == Pair(ConvertCell(Some(PairParts(s)[0]), PairArgs(t)[0], p), ConvertCell(Some(PairParts(s)[1]), PairArgs(t)[1], p))
  {
    assert ConvertCell(Some(s), t, p) == ConvertPairCell(Some(s), t, p);
    var args, parts := PairArgs(t), PairParts(s);
    var k := ConvertCell(Some(parts[0]), args[0], p);
    var v := ConvertCell(Some(parts[1]), args[1], p);
    assert ConvertPairCell(Some(s), t, p) == if k.Null? || v.Null? then Null else Pair(k, v);
  }

  /** Groups written as `(g)` followed by a separator, as in
      `(1,a), (2,b)`. */
  function Parenthesized(groups: seq<string>, separator: string): string {
    if groups == [] then "" else "(" + groups[0] + ")" + separator + Parenthesized(groups[1..], separator)
  }

  /** Text without `(` before the first match is skipped. */
  lemma PairGroupsSkip(a: string, b: string)
    requires '(' !in a
    ensures PairGroups(a + b) == PairGroups(b)
  {
    assert forall j :: 0 <= j < |a| ==> a[j] != '(';
    IndexOfAfter(a, b, '(');
    match IndexOf(b, '(')
    case None =>
    case Some(i) =>
      PairGroupsAt(a + b, |a| + i);
      PairGroupsAt(b, i);
      assert (a + b)[|a| + i + 1..] == b[i + 1..];
  }

  lemma GroupsAfterAt(after: string, j: nat)
    requires IndexOf(after, ')') == Some(j)
    ensures GroupsAfter(after) == [after[..j]] + PairGroups(after[j + 1..])
  {
  }

  lemma ParenthesizedStep(groups: seq<string>, separator: string)
    requires groups != []
    ensures Parenthesized(groups, separator)
      == "(" + (groups[0] + ")" + (separator + Parenthesized(groups[1..], separator)))
    ensures groups == [groups[0]] + groups[1..]
  {
  }

  /** A leading `(` opens the first match. */
  lemma OpenParen(after: string)
    ensures PairGroups("(" + after) == GroupsAfter(after)
  {
    var s := "(" + after;
    assert s[0] == '(';
    PairGroupsAt(s, 0);
    assert s[1..] == after;
  }

  /** The first `)` closes the match. */
  lemma CloseParen(g: string, rest: string)
    requires ')' !in g
    ensures GroupsAfter(g + ")" + rest) == [g] + PairGroups(rest)
  {
    var after := g + ")" + rest;
    assert forall j :: 0 <= j < |g| ==> g[j] != ')';
    assert after == g + (")" + rest);
    IndexOfAfter(g, ")" + rest, ')');
    GroupsAfterAt(after, |g|);
    assert after[..|g|] == g;
    assert after[|g| + 1..] == rest;
  }

  lemma PairGroupsAt(s: string, i: nat)
    requires IndexOf(s, '(') == Some(i)
    ensures PairGroups(s) == GroupsAfter(s[i + 1..])
  {
  }

  /** The regex reads back every parenthesised group, in order, when no
      group holds a `)` and no separator holds a `(`. */
  lemma {:induction false} PairGroupsRoundTrip(groups: seq<string>, separator: string)
    requires forall g :: g in groups ==> ')' !in g
    requires '(' !in separator
    ensures PairGroups(Parenthesized(groups, separator)) == groups
    decreases |groups|
  {
    if groups != [] {
      var g := groups[0];
      assert g in groups;
      var rest := Parenthesized(groups[1..], separator);
      ParenthesizedStep(groups, separator);
      OpenParen(g + ")" + (separator + rest));
      CloseParen(g, separator + rest);
      PairGroupsSkip(separator, rest);
      PairGroupsRoundTrip(groups[1..], separator);
    }
  }
}
