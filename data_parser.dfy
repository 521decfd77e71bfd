/** DataParser: turns the grid of a sheet into a `ParsedSheetData`. A table
    sheet has its type tokens in row 0, its field names in row 1 and data
    from row 2 on; a const sheet has one field per row (type, name, value in
    columns 0, 1, 2) and yields a single data row. */
module DataParser {
  import opened Wrappers
  import opened Text
  import opened SheetData
  import opened Seqs

  /** GetCellString: the trimmed text of a cell; a missing row, a missing
      cell or a null cell reads as "". */
  function GetCellString(row: Option<Row>, index: nat): (r: string)
    ensures row.None? || index >= |row.value| ==> r == ""
    ensures row.Some? && index < |row.value| ==> r == Trim(OrEmpty(row.value[index]))
  {
    if row.None? || index >= |row.value| then "" else Trim(OrEmpty(row.value[index]))
  }

  /** Cell texts are always trimmed. */
  lemma CellStringTrimmed(row: Option<Row>, index: nat)
    ensures Trim(GetCellString(row, index)) == GetCellString(row, index)
  {
    TrimOfTrimmed(GetCellString(row, index));
  }

  /** `row.Select(c => c?.ToString()?.Trim() ?? string.Empty)` */
  function HeaderStrings(row: Row): (texts: seq<string>)
    ensures |texts| == |row|
    ensures forall i :: 0 <= i < |row| ==> texts[i] == GetCellString(Some(row), i)
  {
    seq(|row|, i requires 0 <= i < |row| => Trim(OrEmpty(row[i])))
  }

  /** One field of a const sheet. */
  datatype ConstEntry = ConstEntry(typeName: string, name: string, data: Cell)

  /** What one row of a const sheet contributes: nothing when its trimmed
      name is blank; otherwise the trimmed type, the trimmed name and the
      raw value cell, with a missing or null value read as "". */
  function EntryOf(row: Row): Option<ConstEntry> {
    var name := GetCellString(Some(row), 1);
    if IsBlank(name) then None
    else
      var data := if |row| > 2 then OrEmpty(row[2]) else "";
      Some(ConstEntry(GetCellString(Some(row), 0), name, Some(data)))
  }

  /** Which rows contribute, and what. */
  lemma EntryOfShape(row: Row)
    ensures EntryOf(row).Some? <==> !IsBlank(GetCellString(Some(row), 1))
    ensures EntryOf(row).Some? ==> EntryOf(row).value.name == GetCellString(Some(row), 1)
  {
  }

  /** The fields of a const sheet, in row order. */
  function ConstEntries(rows: seq<Row>): (es: seq<ConstEntry>)
    ensures |es| <= |rows|
  {
    Collect(rows, EntryOf)
  }

  function TypesOf(entries: seq<ConstEntry>): (r: seq<string>)
    ensures |r| == |entries|
  {
    seq(|entries|, i requires 0 <= i < |entries| => entries[i].typeName)
  }

  function NamesOf(entries: seq<ConstEntry>): (r: seq<string>)
    ensures |r| == |entries|
  {
    seq(|entries|, i requires 0 <= i < |entries| => entries[i].name)
  }

  function DataOf(entries: seq<ConstEntry>): (r: Row)
    ensures |r| == |entries|
  {
    seq(|entries|, i requires 0 <= i < |entries| => entries[i].data)
  }

  lemma ColumnsAppend(entries: seq<ConstEntry>, e: ConstEntry)
    ensures TypesOf(entries + [e]) == TypesOf(entries) + [e.typeName]
    ensures NamesOf(entries + [e]) == NamesOf(entries) + [e.name]
    ensures DataOf(entries + [e]) == DataOf(entries) + [e.data]
  {
  }

  /** Const fields keep the order of their rows: the fields of two blocks
      of rows are the fields of the first block, then those of the
      second. */
  lemma ConstEntriesAppend(a: seq<Row>, b: seq<Row>)
    ensures ConstEntries(a + b) == ConstEntries(a) + ConstEntries(b)
  {
    CollectAppend(a, b, EntryOf);
  }

  predicate CleanName(e: ConstEntry) {
    !IsBlank(e.name) && Trim(e.name) == e.name
  }

  /** Every collected name is non-blank and trimmed. */
  lemma ConstNamesClean(rows: seq<Row>)
    ensures var es := ConstEntries(rows);
      forall i :: 0 <= i < |es| ==> !IsBlank(es[i].name) && Trim(es[i].name) == es[i].name
  {
    forall j | 0 <= j < |rows| && EntryOf(rows[j]).Some?
      ensures CleanName(EntryOf(rows[j]).value)
    {
      EntryOfShape(rows[j]);
      CellStringTrimmed(Some(rows[j]), 1);
    }
    CollectAll(rows, EntryOf, CleanName);
  }

  /** A const sheet yields no field exactly when every row's trimmed name is
      blank. */
  lemma ConstEntriesEmpty(rows: seq<Row>)
    ensures ConstEntries(rows) == [] <==> forall i :: 0 <= i < |rows| ==> IsBlank(GetCellString(Some(rows[i]), 1))
  {
    CollectEmpty(rows, EntryOf);
    forall j | 0 <= j < |rows| {
      EntryOfShape(rows[j]);
    }
  }

  /** Parse, for the whole grid: a missing grid gives the default record of
      the requested sheet type with an empty class name, which callers take
      as a failed parse. */
  method Parse(sheetName: string, values: Option<seq<Row>>, sheetType: SheetDataType) returns (parsed: ParsedSheetData)
    ensures fresh(parsed)
    ensures parsed.SheetType == sheetType
    ensures values.None? ==>
      parsed.ClassName == "" && parsed.FieldTypes == [] && parsed.FieldNames == [] && parsed.DataRows == []
    ensures values.Some? ==> parsed.ClassName == sheetName
    ensures values.Some? && sheetType == Table ==> TableParsed(values.value, parsed)
    ensures values.Some? && sheetType == Const ==> ConstParsed(values.value, parsed)
  {
    parsed := new ParsedSheetData();
    parsed.SheetType := sheetType;
    if values.None? {
      return;
    }
    parsed.ClassName := sheetName;
    match sheetType
    case Const => ParseConstSheet(values.value, parsed);
    case Table => ParseTableSheet(values.value, parsed);
  }

  /** The lists a table sheet yields from an empty record. */
  predicate TableParsed(rows: seq<Row>, parsed: ParsedSheetData)
    reads parsed
  {
    if |rows| < 2 then parsed.FieldTypes == [] && parsed.FieldNames == [] && parsed.DataRows == []
    else
      parsed.FieldTypes == HeaderStrings(rows[0]) && parsed.FieldNames == HeaderStrings(rows[1])
      && parsed.DataRows == rows[2..]
  }

  /** The lists a const sheet yields from an empty record. */
  predicate ConstParsed(rows: seq<Row>, parsed: ParsedSheetData)
    reads parsed
  {
    var entries := ConstEntries(rows);
    parsed.FieldTypes == TypesOf(entries) && parsed.FieldNames == NamesOf(entries)
    && parsed.DataRows == (if entries == [] then [] else [DataOf(entries)])
  }

  /** ParseTableSheet: fewer than two rows leave the record as it is;
      otherwise row 0 gives the types, row 1 the names (both trimmed) and
      the remaining rows, untouched, the data. */
  method ParseTableSheet(rows: seq<Row>, parsed: ParsedSheetData)
    modifies parsed
    ensures parsed.ClassName == old(parsed.ClassName) && parsed.SheetType == old(parsed.SheetType)
    ensures |rows| < 2 ==>
      parsed.FieldTypes == old(parsed.FieldTypes) && parsed.FieldNames == old(parsed.FieldNames)
      && parsed.DataRows == old(parsed.DataRows)
    ensures |rows| >= 2 ==>
      parsed.FieldTypes == HeaderStrings(rows[0]) && parsed.FieldNames == HeaderStrings(rows[1])
      && parsed.DataRows == rows[2..]
  {
    if |rows| < 2 {
      return;
    }
    parsed.FieldTypes := HeaderStrings(rows[0]);
    parsed.FieldNames := HeaderStrings(rows[1]);
    parsed.DataRows := rows[2..];
  }

  /** One row of a const sheet: a blank name adds no entry, any other
      name adds its type, name and value to the three columns. */
  lemma ConstRowStep(rows: seq<Row>, i: nat)
    requires i < |rows|
    ensures var before, after := ConstEntries(rows[..i]), ConstEntries(rows[..i + 1]);
      var row := rows[i];
      var name := GetCellString(Some(row), 1);
      (IsBlank(name) ==> after == before)
      && (!IsBlank(name) ==>
            TypesOf(after) == TypesOf(before) + [GetCellString(Some(row), 0)]
            && NamesOf(after) == NamesOf(before) + [name]
            && DataOf(after) == DataOf(before) + [Some(OrEmpty(if |row| > 2 then row[2] else Some("")))])
  {
    var before := ConstEntries(rows[..i]);
    CollectStep(rows, EntryOf, i);
    var name := GetCellString(Some(rows[i]), 1);
    if IsBlank(name) {
      assert ConstEntries(rows[..i + 1]) == before + [];
    } else {
      var e := EntryOf(rows[i]).value;
      assert ConstEntries(rows[..i + 1]) == before + [e];
      ColumnsAppend(before, e);
    }
  }

  /** ParseConstSheet: appends the type, name and value of every row with a
      non-blank name to the three lists, in lockstep, then appends the
      collected values as one data row if the record has any name. */
  method ParseConstSheet(rows: seq<Row>, parsed: ParsedSheetData)
    modifies parsed
    ensures parsed.ClassName == old(parsed.ClassName) && parsed.SheetType == old(parsed.SheetType)
    ensures rows == [] ==>
      parsed.FieldTypes == old(parsed.FieldTypes) && parsed.FieldNames == old(parsed.FieldNames)
      && parsed.DataRows == old(parsed.DataRows)
    ensures rows != [] ==>
      parsed.FieldTypes == old(parsed.FieldTypes) + TypesOf(ConstEntries(rows))
      && parsed.FieldNames == old(parsed.FieldNames) + NamesOf(ConstEntries(rows))
      && parsed.DataRows == old(parsed.DataRows)
           + (if parsed.FieldNames == [] then [] else [DataOf(ConstEntries(rows))])
  {
    if |rows| == 0 {
      return;
    }
    var constRow: Row := [];
    ghost var types0, names0 := parsed.FieldTypes, parsed.FieldNames;
    assert ConstEntries(rows[..0]) == [];
    for i := 0 to |rows|
      invariant parsed.ClassName == old(parsed.ClassName) && parsed.SheetType == old(parsed.SheetType)
      invariant parsed.FieldTypes == types0 + TypesOf(ConstEntries(rows[..i]))
      invariant parsed.FieldNames == names0 + NamesOf(ConstEntries(rows[..i]))
      invariant parsed.DataRows == old(parsed.DataRows)
      invariant constRow == DataOf(ConstEntries(rows[..i]))
    {
      var row := rows[i];
      var typeCell := GetCellString(Some(row), 0);
      var nameCell := GetCellString(Some(row), 1);
      var dataCell := if |row| > 2 then row[2] else Some("");
      ConstRowStep(rows, i);
      if !IsBlank(nameCell) {
        assert types0 + TypesOf(ConstEntries(rows[..i + 1])) == parsed.FieldTypes + [typeCell] by {
          Assoc(types0, TypesOf(ConstEntries(rows[..i])), [typeCell]);
        }
        assert names0 + NamesOf(ConstEntries(rows[..i + 1])) == parsed.FieldNames + [nameCell] by {
          Assoc(names0, NamesOf(ConstEntries(rows[..i])), [nameCell]);
        }
        parsed.FieldTypes := parsed.FieldTypes + [typeCell];
        parsed.FieldNames := parsed.FieldNames + [nameCell];
        constRow := constRow + [Some(OrEmpty(dataCell))];
      }
    }
    assert rows[..|rows|] == rows;
    if |parsed.FieldNames| > 0 {
      parsed.DataRows := parsed.DataRows + [constRow];
    }
  }

  /** The three lists of a const sheet have one element per field and the
      data row exists exactly when some field was collected. */
  lemma ConstLockstep(rows: seq<Row>, parsed: ParsedSheetData)
    requires ConstParsed(rows, parsed)
    ensures |parsed.FieldTypes| == |parsed.FieldNames| == |ConstEntries(rows)|
    ensures |parsed.DataRows| == 1 <==> parsed.FieldNames != []
    ensures parsed.DataRows != [] ==> |parsed.DataRows[0]| == |parsed.FieldNames|
  {
  }
}
