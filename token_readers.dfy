/** How the two readers of a header type token relate: the class that
    ClassGenerator writes and the JSON that JsonGenerator produces for the
    same sheet must meet when the JSON is deserialised into the class. */
module TokenReaders {
  import opened Wrappers
  import opened Text
  import opened TypeTokens
  import opened SheetData
  import opened ClassGenerator
  import opened JsonGenerator

  /** A JSON value a member of the given shape can take: the value of the
      matching primitive, a list or a pair whose parts fit, the default pair
      of the same argument shapes, or null for a list or a pair. Any value
      fits `object`. */
  predicate Fits(v: Value, t: FieldType)
    decreases t
  {
    match t
    case Prim(k) => FitsPrimitive(v, k)
    case ListOf(e) => v.Null? || (v.Array? && forall i :: 0 <= i < |v.items| ==> Fits(v.items[i], e))
    case PairOf(k, w) =>
      v.Null? || (v.DefaultPair? && v.keyType == k && v.valueType == w)
      || (v.Pair? && Fits(v.first, k) && Fits(v.second, w))
    case Opaque => true
  }

  predicate FitsPrimitive(v: Value, k: Primitive) {
    match k
    case Int => v.Int32?
    case Float => v.Single?
    case Double => v.Float64?
    case Bool => v.Boolean?
    case String => v.Str?
  }

  /** The keywords only the class reader knows. */
  predicate IsAlias(lower: string) {
    lower == "integer" || lower == "number" || lower == "boolean"
  }

  /** Wherever the JSON reader resolves a token, the class reader reads the
      same shape. */
  lemma {:induction false} SystemTypeAgrees(t: string)
    requires SystemType(t).Some?
    ensures ClassFieldType(t) == SystemType(t).value
    decreases |t|
  {
    SystemTypeShape(t);
    if IsPairSyntax(t) {
      var args := PairArgs(t);
      SystemTypeAgrees(args[0]);
      SystemTypeAgrees(args[1]);
    } else {
      KeywordShape(ToLower(t));
    }
  }

  lemma ZeroFits(k: Primitive)
    ensures FitsPrimitive(Zero(k), k)
  {
  }

  /** A keyword token converts to a value of its own primitive, whatever
      the cell holds. */
  lemma KeywordFits(value: Option<string>, t: string, p: Parsers)
    requires SystemType(t).Some? && SystemType(t).value.Prim?
    ensures FitsPrimitive(ConvertCell(value, t, p), SystemType(t).value.kind)
  {
    SystemTypeShape(t);
    var k := SystemType(t).value.kind;
    if IsNullOrEmpty(value) {
      EmptyCell(value, t, p);
      ZeroFits(k);
    } else {
      TextCell(value.value, t, p);
    }
  }

  /** What a pair token with two resolvable arguments gives: null, the
      default pair, or the pair of the two parts converted under the two
      arguments. */
  lemma PairCellShape(value: Option<string>, t: string, p: Parsers)
    requires IsPairSyntax(t) && SystemType(t).Some?
    ensures var args, r := PairArgs(t), ConvertCell(value, t, p);
      |args| == 2
      && (r.Null?
          || r == DefaultPair(SystemType(args[0]).value, SystemType(args[1]).value)
          || (!IsNullOrBlank(value) && |PairParts(value.value)| == 2
              && r == Pair(ConvertCell(Some(PairParts(value.value)[0]), args[0], p),
                           ConvertCell(Some(PairParts(value.value)[1]), args[1], p))))
  {
    PairNotArray(t);
    assert ConvertCell(value, t, p) == ConvertPairCell(value, t, p);
  }

  /** A pair token that does not resolve always gives null. */
  lemma UnresolvedPairCell(value: Option<string>, t: string, p: Parsers)
    requires IsPairSyntax(t) && SystemType(t).None?
    ensures ConvertCell(value, t, p) == Null
  {
    PairNotArray(t);
    assert ConvertCell(value, t, p) == ConvertPairCell(value, t, p);
  }

  /** Every conversion under a resolvable token fits the resolved shape. */
  lemma {:induction false} ResolvedFits(value: Option<string>, t: string, p: Parsers)
    requires SystemType(t).Some?
    ensures Fits(ConvertCell(value, t, p), SystemType(t).value)
    decreases |t|
  {
    SystemTypeShape(t);
    if IsPairSyntax(t) {
      var args := PairArgs(t);
      PairCellShape(value, t, p);
      if !IsNullOrBlank(value) && |PairParts(value.value)| == 2 {
        var parts := PairParts(value.value);
        ResolvedFits(Some(parts[0]), args[0], p);
        ResolvedFits(Some(parts[1]), args[1], p);
      }
    } else {
      KeywordFits(value, t, p);
    }
  }

  /** An array token gives null, or an array whose every item fits the
      class reading of the element token. */
  lemma ArrayFits(value: Option<string>, t: string, p: Parsers)
    requires IsArraySyntax(t)
    ensures Fits(ConvertCell(value, t, p), ClassFieldType(t))
  {
    var e := t[..|t| - 2];
    ArrayCell(value, t, p);
    var r := ConvertCell(value, t, p);
    assert ClassFieldType(t) == ListOf(ClassFieldType(e));
    if SystemType(e).Some? && !IsNullOrBlank(value) {
      SystemTypeAgrees(e);
      forall i | 0 <= i < |r.items|
        ensures Fits(r.items[i], ClassFieldType(e))
      {
        var items := if SystemType(e).value.PairOf? then GroupCells(value.value) else Components(value.value);
        ResolvedFits(Some(items[i]), e, p);
      }
    }
  }

  /** Outside the three aliases, the JSON of every cell fits the type of the
      member the class declares for it. */
  lemma FitsClassType(value: Option<string>, t: string, p: Parsers)
    requires !IsAlias(ToLower(t))
    ensures Fits(ConvertCell(value, t, p), ClassFieldType(t))
  {
    if IsArraySyntax(t) {
      ArrayFits(value, t, p);
    } else if SystemType(t).Some? {
      ResolvedFits(value, t, p);
      SystemTypeAgrees(t);
    } else if IsPairSyntax(t) {
      UnresolvedPairCell(value, t, p);
    } else {
      assert ClassFieldType(t) == KeywordType(ToLower(t));
    }
  }

  /** The aliases, in any letter case: the class declares a number or a
      bool, but the JSON reader does not resolve the token and keeps the
      text as a string (or null for an empty cell), so the two disagree.
      With FitsClassType this makes the aliases exactly the plain tokens
      whose JSON does not fit the class. */
  lemma AliasDiverges(t: string, x: string, p: Parsers)
    requires IsAlias(ToLower(t)) && x != ""
    ensures ClassFieldType(t).Prim? && SystemType(t).None?
    ensures ConvertCell(Some(x), t, p) == Str(x)
    ensures !Fits(ConvertCell(Some(x), t, p), ClassFieldType(t))
    ensures ConvertCell(None, t, p) == Null
  {
    var lower := ToLower(t);
    assert lower[|lower| - 1] in "rn";
    assert !IsArraySyntax(t) by {
      assert lower[|lower| - 1] != ']';
    }
    assert !IsPairSyntax(t) by {
      assert lower[0] != 'p';
    }
    assert ClassFieldType(t) == KeywordType(lower);
    TextCell(x, t, p);
    EmptyCell(None, t, p);
  }

  /** Nested arrays: the class reads `T[][]` as a list of lists, but the JSON
      reader cannot resolve an array element token, so every cell is null. */
  lemma NestedArrayIsNull(value: Option<string>, e: string, p: Parsers)
    requires IsArraySyntax(e)
    ensures ClassFieldType(e + "[]").ListOf? && ClassFieldType(e + "[]").element.ListOf?
    ensures ConvertCell(value, e + "[]", p) == Null
  {
    ArrayTokenRead(e);
    var t := e + "[]";
    ArrayTokenRead(e[..|e| - 2]);
    assert e[..|e| - 2] + "[]" == e by {
      assert ToLower(e)[|e| - 2..] == "[]";
    }
    assert t[..|t| - 2] == e;
    if SystemType(e).Some? {
      SystemTypeShape(e);
    }
    ArrayCell(value, t, p);
  }

  /** Keys against member names: a field with a non-blank name keeps that
      name as its JSON key, and the class member of the same field carries
      that name exactly when its token is not an array token; an array
      member's name is pluralised, so the JSON key never names it. */
  lemma KeysNotPluralised(row: Row, names: seq<string>, types: seq<string>, p: Parsers, i: nat)
    requires i < FieldCount(names, types) && !IsBlank(names[i])
    ensures Lookup(RowMembers(row, names, types, p, FieldCount(names, types)), names[i]).Some?
    ensures MemberName(names[i], types[i]) == names[i] <==> !IsArraySyntax(types[i])
  {
    var n := FieldCount(names, types);
    RowLookup(row, names, types, p, n, names[i]);
    assert LastIndexOf(names, names[i], n).Some?;
    if IsArraySyntax(types[i]) {
      PluralizeChanges(names[i]);
    }
  }
}
