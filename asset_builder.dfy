/** AssetBuilder: turns one pending job into a ScriptableObject asset once
    its classes exist. Reflection is an abstract environment — the loaded
    assemblies map full type names to what a type declares — and the asset
    database is a map from asset paths to assets. What reflection does to the
    new instance is recorded as a list of effects, in the order they happen. */
module AssetBuilder {
  import opened Wrappers
  import opened Text
  import opened SheetData
  import opened Jobs

  /** The members the builder looks up by name: fields by visibility, and
      methods of any visibility. */
  datatype Declared = Declared(publicFields: set<string>, privateFields: set<string>, methods: set<string>)

  /** A loaded type: whether it derives from ScriptableObject, its simple
      name (`Type.Name`, without the namespace) and what it declares. */
  datatype TypeInfo = TypeInfo(isScriptableObject: bool, name: string, members: Declared)

  /** One loaded assembly: the types it defines, by full name. */
  type Assembly = map<string, TypeInfo>

  /** The type of the first assembly, in load order, that defines the name. */
  function FirstDefining(assemblies: seq<Assembly>, fullName: string): Option<TypeInfo> {
    if assemblies == [] then None
    else if fullName in assemblies[0] then Some(assemblies[0][fullName])
    else FirstDefining(assemblies[1..], fullName)
  }

  /** The first assembly wins: the type found is the one of the earliest
      assembly that defines the name, and nothing is found when none does. */
  lemma {:induction false} FirstDefiningWins(assemblies: seq<Assembly>, fullName: string, i: nat)
    requires i < |assemblies| && fullName in assemblies[i]
    requires forall j :: 0 <= j < i ==> fullName !in assemblies[j]
    ensures FirstDefining(assemblies, fullName) == Some(assemblies[i][fullName])
  {
    if i > 0 {
      assert fullName !in assemblies[0];
      FirstDefiningWins(assemblies[1..], fullName, i - 1);
    }
  }

  lemma {:induction false} FirstDefiningNone(assemblies: seq<Assembly>, fullName: string)
    ensures FirstDefining(assemblies, fullName).None?
        <==> forall j :: 0 <= j < |assemblies| ==> fullName !in assemblies[j]
  {
    if assemblies != [] {
      FirstDefiningNone(assemblies[1..], fullName);
      assert forall j :: 1 <= j < |assemblies| ==> assemblies[j] == assemblies[1..][j - 1];
    }
  }

  /** FindType: nothing for a blank name; otherwise the assemblies are asked
      in load order and the first answer is taken. */
  method FindType(assemblies: seq<Assembly>, fullName: string) returns (t: Option<TypeInfo>)
    ensures IsBlank(fullName) ==> t.None?
    ensures !IsBlank(fullName) ==> t == FirstDefining(assemblies, fullName)
  {
    if IsBlank(fullName) {
      return None;
    }
    for i := 0 to |assemblies|
      invariant FirstDefining(assemblies, fullName) == FirstDefining(assemblies[i..], fullName)
    {
      assert assemblies[i..][1..] == assemblies[i + 1..];
      if fullName in assemblies[i] {
        return Some(assemblies[i][fullName]);
      }
    }
    return None;
  }

  /** The object handed to the asset: the payload deserialised as one record
      or as a list of records, or the fresh record or empty list used when
      the payload deserialises to null. */
  datatype Data =
    | Record(dataType: string, json: string)
    | RecordList(dataType: string, json: string)
    | NewRecord(dataType: string)
    | EmptyList(dataType: string)

  datatype Arg = DataArg(data: Data) | TextArg(text: string)

  /** What reflection does to the new instance. */
  datatype Effect = SetField(field: string, arg: Arg) | Invoke(name: string, args: seq<Arg>)

  datatype LogEntry = Info(message: string) | Warning(message: string) | Error(message: string)

  /** What one probe step does to the instance and writes to the console. */
  datatype Probe = Probe(effects: seq<Effect>, logs: seq<LogEntry>)

  /** A stored asset: its container type and what was done to it. */
  datatype Asset = Asset(typeName: string, effects: seq<Effect>)

  /** A built instance and the console lines written while building it. */
  datatype Building = Building(asset: Asset, logs: seq<LogEntry>)

  /** The data for a job: for a const sheet one record, for a table sheet a
      list; `isNullJson` tells which payloads deserialise to null. */
  function PayloadData(job: GenerationJob, isNullJson: string -> bool): (d: Data)
    ensures job.SheetType == Const ==> d.Record? || d.NewRecord?
    ensures job.SheetType == Table ==> d.RecordList? || d.EmptyList?
    ensures d.dataType == job.DataClassFullName
  {
    if job.SheetType == Const then
      if isNullJson(job.JsonPayload) then NewRecord(job.DataClassFullName) else Record(job.DataClassFullName, job.JsonPayload)
    else
      if isNullJson(job.JsonPayload) then EmptyList(job.DataClassFullName) else RecordList(job.DataClassFullName, job.JsonPayload)
  }

  /** AssignTableValues: only a field named `Values`, of either visibility. */
  function TableEffects(typeName: string, t: Declared, values: Data): Probe {
    if "Values" in t.publicFields || "Values" in t.privateFields then Probe([SetField("Values", DataArg(values))], [])
    else Probe([], [Warning("[GSheetToData] Unable to populate data because " + typeName + " is missing a Values field.")])
  }

  /** AssignConstValue: the `SetValue` method first, else the private field
      `value`, else the public field `Value`. */
  function ConstEffects(typeName: string, t: Declared, value: Data): Probe {
    if "SetValue" in t.methods then Probe([Invoke("SetValue", [DataArg(value)])], [])
    else if "value" in t.privateFields then Probe([SetField("value", DataArg(value))], [])
    else if "Value" in t.publicFields then Probe([SetField("Value", DataArg(value))], [])
    else Probe([], [Warning("[GSheetToData] Unable to store CONST data because " + typeName + " has no suitable field.")])
  }

  /** The private field, else the public one, of the two spellings. */
  function MetadataField(t: Declared, privateName: string, publicName: string): Option<string> {
    if privateName in t.privateFields then Some(privateName)
    else if publicName in t.publicFields then Some(publicName)
    else None
  }

  /** ApplyMetadata: `SetSheetMetadata` if the type has it; otherwise the
      id field and the name field, each on its own, when present. */
  function MetadataEffects(t: Declared, sheetId: string, sheetName: string): seq<Effect> {
    if "SetSheetMetadata" in t.methods then [Invoke("SetSheetMetadata", [TextArg(sheetId), TextArg(sheetName)])]
    else
      var idField := MetadataField(t, "sheetId", "SheetId");
      var nameField := MetadataField(t, "sheetName", "SheetName");
      (if idField.Some? then [SetField(idField.value, TextArg(sheetId))] else [])
      + (if nameField.Some? then [SetField(nameField.value, TextArg(sheetName))] else [])
  }

  /** The data is handed over at most once, through the first member found
      in probe order; with none of the three members nothing is handed over
      and a warning is logged. */
  lemma ConstProbeOrder(typeName: string, t: Declared, value: Data)
    ensures var effects, logs := ConstEffects(typeName, t, value).effects, ConstEffects(typeName, t, value).logs;
      |effects| + |logs| == 1
      && (effects == [] <==> "SetValue" !in t.methods && "value" !in t.privateFields && "Value" !in t.publicFields)
      && ("SetValue" in t.methods ==> effects == [Invoke("SetValue", [DataArg(value)])])
      && (effects != [] ==> effects[0].Invoke? || effects[0].arg == DataArg(value))
  {
  }

  /** With `SetSheetMetadata` the method is the only effect; without it, at
      most two field writes, the id before the name. */
  lemma MetadataProbeOrder(t: Declared, sheetId: string, sheetName: string)
    ensures var effects := MetadataEffects(t, sheetId, sheetName);
      ("SetSheetMetadata" in t.methods ==> |effects| == 1 && effects[0].Invoke?)
      && ("SetSheetMetadata" !in t.methods ==>
            (|effects| <= 2
             && (forall k :: 0 <= k < |effects| ==> effects[k].SetField?)
             && (|effects| == 2 ==> effects[0].arg == TextArg(sheetId) && effects[1].arg == TextArg(sheetName))))
  {
  }

  /** Whether both type names of a job resolve. */
  predicate Resolves(assemblies: seq<Assembly>, job: GenerationJob) {
    !IsBlank(job.DataClassFullName) && FirstDefining(assemblies, job.DataClassFullName).Some?
    && !IsBlank(job.ScriptableObjectFullName) && FirstDefining(assemblies, job.ScriptableObjectFullName).Some?
  }

  /** The container instance a job yields, with what it logs on the way; the
      probe warnings name the container by its simple name. */
  function Built(job: GenerationJob, container: TypeInfo, isNullJson: string -> bool): Building {
    var data := PayloadData(job, isNullJson);
    var probe := if job.SheetType == Const then ConstEffects(container.name, container.members, data)
                    else TableEffects(container.name, container.members, data);
    Building(Asset(job.ScriptableObjectFullName, probe.effects + MetadataEffects(container.members, job.SheetId, job.SheetName)),
             probe.logs)
  }

  /** Building logs nothing when the container has the member the sheet
      type needs, and otherwise exactly one warning that names the container
      by its simple name. */
  lemma BuildWarnings(job: GenerationJob, container: TypeInfo, isNullJson: string -> bool)
    ensures var t, logs := container.members, Built(job, container, isNullJson).logs;
      (job.SheetType == Table ==>
         (logs == [] <==> "Values" in t.publicFields || "Values" in t.privateFields)
         && (logs != [] ==> logs == [Warning("[GSheetToData] Unable to populate data because " + container.name + " is missing a Values field.")]))
      && (job.SheetType == Const ==>
         (logs == [] <==> "SetValue" in t.methods || "value" in t.privateFields || "Value" in t.publicFields)
         && (logs != [] ==> logs == [Warning("[GSheetToData] Unable to store CONST data because " + container.name + " has no suitable field.")]))
  {
  }

  /** The asset database and the console. */
  class AssetDatabase {
    var assets: map<string, Asset>
    var log: seq<LogEntry>

    constructor (assets: map<string, Asset>)
      ensures this.assets == assets && log == []
    {
      this.assets := assets;
      log := [];
    }
  }

  /** TryCreate: true when the job is finished with — a null job, a
      container that is not a ScriptableObject (logged as an error), or an
      asset created or updated in place — and false, with no effect, while
      either type is not compiled yet. */
  method TryCreate(job: Option<GenerationJob>, assemblies: seq<Assembly>, db: AssetDatabase, isNullJson: string -> bool)
    returns (created: bool)
    modifies db
    ensures !created <==> job.Some? && !Resolves(assemblies, job.value)
    ensures !created || job.None? ==> db.assets == old(db.assets) && db.log == old(db.log)
    ensures created && job.Some? ==>
      var container := FirstDefining(assemblies, job.value.ScriptableObjectFullName).value;
      var path := job.value.AssetRelativePath;
      if !container.isScriptableObject then
        db.assets == old(db.assets)
        && db.log == old(db.log) + [Error("[GSheetToData] " + job.value.ScriptableObjectFullName + " is not a ScriptableObject.")]
      else
        var built := Built(job.value, container, isNullJson);
        db.assets == old(db.assets)[path := built.asset]
        && db.log == old(db.log) + built.logs
           + [if path in old(db.assets) then Info("[GSheetToData] Updated ScriptableObject at " + path + ".")
              else Info("[GSheetToData] Created ScriptableObject at " + path + ".")]
  {
    if job.None? {
      return true;
    }
    var j := job.value;
    var dataType := FindType(assemblies, j.DataClassFullName);
    var scriptableType := FindType(assemblies, j.ScriptableObjectFullName);
    if dataType.None? || scriptableType.None? {
      return false;
    }
    var container := scriptableType.value;
    if !container.isScriptableObject {
      db.log := db.log + [Error("[GSheetToData] " + j.ScriptableObjectFullName + " is not a ScriptableObject.")];
      return true;
    }
    var built := Built(j, container, isNullJson);
    var asset, logs := built.asset, built.logs;
    db.log := db.log + logs;
    var path := j.AssetRelativePath;
    if path !in db.assets {
      db.assets := db.assets[path := asset];
      db.log := db.log + [Info("[GSheetToData] Created ScriptableObject at " + path + ".")];
    } else {
      db.assets := db.assets[path := asset];
      db.log := db.log + [Info("[GSheetToData] Updated ScriptableObject at " + path + ".")];
    }
    return true;
  }
}
