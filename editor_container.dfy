/** EditorContainer: the ScriptableObject container class the generator
    window writes — the variant that carries the sheet's id and name — and
    what the asset builder does with it. */
module EditorContainer {
  import opened Text
  import opened SheetData
  import opened GenerationUtilities
  import opened AssetBuilder

  // ---------------------------------------------------------------------
  // The container class with sheet metadata

  function AssetMenuLine(scriptableClassName: string): string {
    "[CreateAssetMenu(fileName = \"" + scriptableClassName + "\", menuName = \"GSheetToData/" + scriptableClassName + "\")]"
  }

  /** The private id and name fields and their read-only accessors. */
  function MetadataFieldLines(): seq<string> {
    ["    [SerializeField] private string sheetId = string.Empty;",
     "    [SerializeField] private string sheetName = string.Empty;",
     "",
     "    public string SheetId => sheetId;",
     "    public string SheetName => sheetName;",
     ""]
  }

  /** `SetSheetMetadata`, assigning both fields. */
  function SetSheetMetadataLines(): seq<string> {
    ["    public void SetSheetMetadata(string newSheetId, string newSheetName)",
     "    {",
     "        sheetId = newSheetId;",
     "        sheetName = newSheetName;",
     "    }"]
  }

  /** The usings of the window's container: the generic collections for a
      table sheet, then Unity; never the data class's namespace. */
  function EditorUsings(sheetType: SheetDataType): seq<string> {
    (if sheetType == Table then ["using System.Collections.Generic;"] else []) + ["using UnityEngine;"]
  }

  /** The blank line after the usings, the asset-menu attribute and the
      class header. */
  function ClassOpening(scriptableClassName: string): seq<string> {
    ["", AssetMenuLine(scriptableClassName), "public class " + scriptableClassName + " : ScriptableObject", "{"]
  }

  /** What follows `SetSheetMetadata`: a blank line and `SetValue` for a
      const sheet only. */
  function ConstTail(dataClassName: string, sheetType: SheetDataType): seq<string> {
    if sheetType == Const then [""] + SetValueLines(dataClassName) else []
  }

  /** The lines of the window's GenerateScriptableObjectClass. */
  function EditorScriptableObjectLines(dataClassName: string, scriptableClassName: string, sheetType: SheetDataType)
    : seq<string>
  {
    EditorUsings(sheetType)
    + ClassOpening(scriptableClassName)
    + MetadataFieldLines()
    + ValueMembers(dataClassName, sheetType)
    + [""]
    + SetSheetMetadataLines()
    + ConstTail(dataClassName, sheetType)
    + ["}"]
  }

  /** GenerateScriptableObjectClass of the generator window: one
      `AppendLine` per line. */
  function EditorScriptableObjectClass(dataClassName: string, scriptableClassName: string, sheetType: SheetDataType,
                                       nl: string): string
  {
    Lines(EditorScriptableObjectLines(dataClassName, scriptableClassName, sheetType), nl)
  }

  /** Where each part of a container's lines lands. */
  lemma Layout(usings: seq<string>, opening: seq<string>, metadata: seq<string>, members: seq<string>,
               setter: seq<string>, tail: seq<string>)
    ensures var ls := usings + opening + metadata + members + [""] + setter + tail + ["}"];
      var a := |usings|;
      var b := a + |opening|;
      var c := b + |metadata|;
      var d := c + |members|;
      var e := d + 1 + |setter|;
      |ls| == e + |tail| + 1
      && ls[..a] == usings && ls[a..b] == opening && ls[b..c] == metadata && ls[c..d] == members
      && ls[d] == "" && ls[d + 1..e] == setter && ls[e..e + |tail|] == tail && ls[|ls| - 1] == "}"
  {
    var ls := usings + opening + metadata + members + [""] + setter + tail + ["}"];
    var e := |usings| + |opening| + |metadata| + |members| + 1 + |setter|;
    assert ls[e..e + |tail|] == tail;
  }

  /** The usings are the generic collections, for a table sheet only, and
      Unity: never the data class's namespace, unlike the shared variant. */
  lemma EditorUsingsShape(sheetType: SheetDataType)
    ensures var us := EditorUsings(sheetType);
      (sheetType == Table ==> us == ["using System.Collections.Generic;", "using UnityEngine;"])
      && (sheetType == Const ==> us == ["using UnityEngine;"])
  {
  }

  /** The window's container, part by part: the usings; the blank line,
      the asset-menu attribute and the class header; the private `sheetId`
      and `sheetName` fields and their accessors; the data member (the
      `Values` list for a table sheet, the private `value` field and the
      `Value` accessor for a const sheet); a blank line; `SetSheetMetadata`;
      for a const sheet a blank line and `SetValue`; "}" last. */
  lemma EditorScriptableObjectParts(dataClassName: string, scriptableClassName: string, sheetType: SheetDataType)
    ensures var ls := EditorScriptableObjectLines(dataClassName, scriptableClassName, sheetType);
      var a := if sheetType == Table then 2 else 1;
      var m := if sheetType == Table then 1 else 2;
      var d := a + 10 + m;
      |ls| == d + 7 + (if sheetType == Const then 5 else 0)
      && ls[..a] == EditorUsings(sheetType)
      && ls[a..a + 4] == ClassOpening(scriptableClassName)
      && ls[a + 4..a + 10] == MetadataFieldLines()
      && ls[a + 10..d] == ValueMembers(dataClassName, sheetType)
      && ls[d] == ""
      && ls[d + 1..d + 6] == SetSheetMetadataLines()
      && (sheetType == Const ==> ls[d + 6..d + 11] == [""] + SetValueLines(dataClassName))
      && ls[|ls| - 1] == "}"
  {
    Layout(EditorUsings(sheetType), ClassOpening(scriptableClassName), MetadataFieldLines(),
           ValueMembers(dataClassName, sheetType), SetSheetMetadataLines(), ConstTail(dataClassName, sheetType));
  }

  // ---------------------------------------------------------------------
  // What the asset builder finds on the two container variants

  /** The members of the shared variant the builder can look up by name:
      the `Values` list (a public field) for a table sheet; the private
      `value` field and `SetValue` for a const sheet. `Value` is a property,
      which a field lookup does not find. */
  function SharedContainerMembers(sheetType: SheetDataType): Declared {
    if sheetType == Table then Declared({"Values"}, {}, {})
    else Declared({}, {"value"}, {"SetValue"})
  }

  /** The window's variant adds the private `sheetId` and `sheetName`
      fields and `SetSheetMetadata`; `SheetId` and `SheetName` are
      properties. */
  function EditorContainerMembers(sheetType: SheetDataType): Declared {
    var shared := SharedContainerMembers(sheetType);
    Declared(shared.publicFields, shared.privateFields + {"sheetId", "sheetName"},
             shared.methods + {"SetSheetMetadata"})
  }

  /** The builder's metadata step finds nothing on the shared variant: an
      asset built from it keeps empty sheet metadata. */
  lemma SharedContainerGetsNoMetadata(sheetType: SheetDataType, sheetId: string, sheetName: string)
    ensures MetadataEffects(SharedContainerMembers(sheetType), sheetId, sheetName) == []
  {
    var t := SharedContainerMembers(sheetType);
    assert "SetSheetMetadata" !in t.methods && "sheetId" !in t.privateFields && "SheetId" !in t.publicFields;
    assert "sheetName" !in t.privateFields && "SheetName" !in t.publicFields;
  }

  /** On the window's variant the metadata step is exactly one call of
      `SetSheetMetadata` with the job's id and name. */
  lemma EditorContainerGetsMetadata(sheetType: SheetDataType, sheetId: string, sheetName: string)
    ensures MetadataEffects(EditorContainerMembers(sheetType), sheetId, sheetName)
      == [Invoke("SetSheetMetadata", [TextArg(sheetId), TextArg(sheetName)])]
  {
    assert "SetSheetMetadata" in EditorContainerMembers(sheetType).methods;
  }

  /** Both variants take the data: a table sheet through its `Values`
      field, a const sheet through `SetValue`, with nothing logged. */
  lemma ContainersTakeData(typeName: string, sheetType: SheetDataType, data: Data)
    ensures var shared, editor := SharedContainerMembers(sheetType), EditorContainerMembers(sheetType);
      (sheetType == Table ==>
         TableEffects(typeName, shared, data) == Probe([SetField("Values", DataArg(data))], [])
         && TableEffects(typeName, editor, data) == Probe([SetField("Values", DataArg(data))], []))
      && (sheetType == Const ==>
         ConstEffects(typeName, shared, data) == Probe([Invoke("SetValue", [DataArg(data)])], [])
         && ConstEffects(typeName, editor, data) == Probe([Invoke("SetValue", [DataArg(data)])], []))
  {
    if sheetType == Table {
      assert "Values" in SharedContainerMembers(sheetType).publicFields;
      assert "Values" in EditorContainerMembers(sheetType).publicFields;
    } else {
      assert "SetValue" in SharedContainerMembers(sheetType).methods;
      assert "SetValue" in EditorContainerMembers(sheetType).methods;
    }
  }
}
