/** The parsed form of one sheet, which the parser fills in and both
    generators read. */
module SheetData {
  import opened Wrappers

  datatype SheetDataType = Table | Const

  /** A grid cell after `ToString()`; `None` is a null cell. */
  type Cell = Option<string>

  type Row = seq<Cell>

  /** The mutable result record of the parser: the class name, the type
      tokens of the header, the field names and the data rows. */
  class ParsedSheetData {
    var ClassName: string
    var FieldTypes: seq<string>
    var FieldNames: seq<string>
    var DataRows: seq<Row>
    var SheetType: SheetDataType

    /** The parameterless constructor: an empty name, empty lists, Table. */
    constructor ()
      ensures ClassName == ""
      ensures FieldTypes == [] && FieldNames == [] && DataRows == []
      ensures SheetType == Table
    {
      ClassName := "";
      FieldTypes := [];
      FieldNames := [];
      DataRows := [];
      SheetType := Table;
    }

    /** Callers treat an empty class name as a failed parse. */
    predicate IsParseFailure()
      reads this
    {
      ClassName == ""
    }
  }
}
