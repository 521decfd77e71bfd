/** EditorWindow: the generator window's generation step, which checks the
    settings, writes both scripts to the script folder and queues one job.
    Its namespace wrapping, full names and project-relative check are
    textually the shared ones of GenerationUtilities and are used from
    there. */
module EditorWindow {
  import opened Wrappers
  import opened Text
  import opened SheetData
  import opened PathUtility
  import opened Settings
  import opened GenerationUtilities
  import opened Jobs
  import opened EditorContainer
  import opened EditorValidation
  import ClassGenerator

  // ---------------------------------------------------------------------
  // The generation step

  /** What a generated script holds: the record class of a sheet, or the
      window's container class for it. */
  datatype ScriptSource =
    | RecordClass(className: string, names: seq<string>, types: seq<string>)
    | Container(dataClassName: string, scriptableClassName: string, sheetType: SheetDataType)

  /** A script file the step writes: the folder setting it goes to, its
      file name, the namespace it is wrapped in and what it holds. */
  datatype ScriptFile = ScriptFile(folder: string, fileName: string, namespaceName: string, source: ScriptSource)

  /** The code of a script before namespace wrapping. */
  function Render(source: ScriptSource, nl: string): string {
    match source
    case RecordClass(className, names, types) => Lines(ClassGenerator.ClassLines(className, names, types), nl)
    case Container(dataClassName, scriptableClassName, sheetType) =>
      EditorScriptableObjectClass(dataClassName, scriptableClassName, sheetType, nl)
  }

  /** The text written to a script file. */
  function ScriptText(file: ScriptFile, nl: string): string {
    Wrapped(file.namespaceName, Render(file.source, nl), nl)
  }

  /** What a press of "Generate ScriptableObject" comes to: nothing while a
      generation runs; a dialog for a failed check; an error after the
      listed scripts were written (none when parsing failed); or the
      scripts written and the job queued. */
  datatype Outcome =
    | Busy
    | Invalid(dialog: string)
    | Failed(reason: string, written: seq<ScriptFile>)
    | Queued(written: seq<ScriptFile>, job: GenerationJob)

  /** The two scripts, both in the script folder and in the settings'
      namespace: the record class, then the container named by its plural. */
  function EditorScripts(s: AppSettings, className: string, names: seq<string>, types: seq<string>,
                         sheetType: SheetDataType): seq<ScriptFile>
  {
    var scriptableClassName := ClassGenerator.Pluralize(className);
    [ScriptFile(s.ScriptOutputPath, className + ".cs", s.Namespace, RecordClass(className, names, types)),
     ScriptFile(s.ScriptOutputPath, scriptableClassName + ".cs", s.Namespace,
                Container(className, scriptableClassName, sheetType))]
  }

  /** The job the window queues; everything but the clock comes from the
      window's fields and the parsed sheet. */
  function EditorJob(s: AppSettings, sheetId: string, sheetName: string, className: string, sheetType: SheetDataType,
                     assetRelativePath: string, jsonPayload: string, now: string): GenerationJob
  {
    NewJob(now).(SheetId := sheetId, SheetName := sheetName,
                 DataClassFullName := BuildFullName(s.Namespace, className),
                 ScriptableObjectFullName := BuildFullName(s.Namespace, ClassGenerator.Pluralize(className)),
                 AssetRelativePath := assetRelativePath, JsonPayload := jsonPayload, SheetType := sheetType)
  }

  /** Both scripts go to the script folder, named after the record class
      and its plural, which is the container class; the job names those
      two classes in the settings' namespace, keeps the construction stamp,
      and is removed from the store exactly by a job with the same stamp
      naming the same container. */
  lemma EditorGenerationShape(s: AppSettings, sheetId: string, sheetName: string, className: string,
                              names: seq<string>, types: seq<string>, sheetType: SheetDataType,
                              assetRelativePath: string, jsonPayload: string, now: string, other: GenerationJob)
    requires !IsBlank(s.Namespace)
    ensures var scripts := EditorScripts(s, className, names, types, sheetType);
      var job := EditorJob(s, sheetId, sheetName, className, sheetType, assetRelativePath, jsonPayload, now);
      var scriptable := ClassGenerator.Pluralize(className);
      |scripts| == 2
      && scripts[0].folder == s.ScriptOutputPath && scripts[1].folder == s.ScriptOutputPath
      && scripts[0].fileName == className + ".cs" && scripts[1].fileName == scriptable + ".cs"
      && scripts[1].source == Container(className, scriptable, sheetType)
      && job.DataClassFullName == s.Namespace + "." + className
      && job.ScriptableObjectFullName == s.Namespace + "." + scriptable
      && job.EnqueuedAtUtc == now
      && (SameIdentity(other, job) <==> other.EnqueuedAtUtc == now && other.ScriptableObjectFullName == s.Namespace + "." + scriptable)
  {
  }

  /** Line `i` of the code sits, indented, at line `i + 2` of the
      namespace block. */
  lemma WrappedLineAt(namespaceName: string, lines: seq<string>, i: nat)
    requires i < |lines|
    ensures |WrappedLines(namespaceName, lines)| == |lines| + 3
    ensures WrappedLines(namespaceName, lines)[i + 2] == Indent(lines[i])
  {
    WrappedShape(namespaceName, lines);
  }

  /** The wrapped record script opens the namespace and declares the class. */
  lemma RecordDeclares(namespaceName: string, className: string, names: seq<string>, types: seq<string>)
    ensures var ws := WrappedLines(namespaceName, ClassGenerator.ClassLines(className, names, types));
      |ws| > 7 && ws[0] == "namespace " + namespaceName && ws[7] == "    public class " + className
  {
    var ls := ClassGenerator.ClassLines(className, names, types);
    ClassGenerator.ClassLinesShape(className, names, types);
    WrappedLineAt(namespaceName, ls, 5);
  }

  /** The wrapped container script opens the namespace and declares the
      container class, after the usings, a blank line and the asset-menu
      attribute. */
  lemma ContainerDeclares(namespaceName: string, className: string, scriptable: string, sheetType: SheetDataType)
    ensures var ws := WrappedLines(namespaceName, EditorScriptableObjectLines(className, scriptable, sheetType));
      var a := if sheetType == Table then 2 else 1;
      |ws| > a + 4 && ws[0] == "namespace " + namespaceName
      && ws[a + 4] == "    public class " + scriptable + " : ScriptableObject"
  {
    var ls := EditorScriptableObjectLines(className, scriptable, sheetType);
    var a := if sheetType == Table then 2 else 1;
    var head := EditorUsings(sheetType) + ClassOpening(scriptable);
    assert |EditorUsings(sheetType)| == a;
    assert head[a + 2] == "public class " + scriptable + " : ScriptableObject";
    assert ls[a + 2] == head[a + 2];
    WrappedLineAt(namespaceName, ls, a + 2);
  }

  /** The full names the job hands to the asset builder are the classes
      the two scripts declare: wrapping a script's lines opens the
      settings' namespace on its first line and keeps the class header
      indented inside the block, and each full name joins that namespace
      and that class with '.'. */
  lemma JobNamesDeclaredClasses(s: AppSettings, sheetId: string, sheetName: string, className: string,
                                names: seq<string>, types: seq<string>, sheetType: SheetDataType,
                                assetRelativePath: string, jsonPayload: string, now: string)
    requires !IsBlank(s.Namespace)
    ensures var scripts := EditorScripts(s, className, names, types, sheetType);
      var job := EditorJob(s, sheetId, sheetName, className, sheetType, assetRelativePath, jsonPayload, now);
      var scriptable := ClassGenerator.Pluralize(className);
      var record := WrappedLines(scripts[0].namespaceName, ClassGenerator.ClassLines(className, names, types));
      var container := WrappedLines(scripts[1].namespaceName,
                                    EditorScriptableObjectLines(className, scriptable, sheetType));
      var a := if sheetType == Table then 2 else 1;
      |record| > 7 && |container| > a + 4
      && record[0] == "namespace " + s.Namespace && record[7] == "    public class " + className
      && container[0] == "namespace " + s.Namespace
      && container[a + 4] == "    public class " + scriptable + " : ScriptableObject"
      && job.DataClassFullName == s.Namespace + "." + className
      && job.ScriptableObjectFullName == s.Namespace + "." + scriptable
  {
    RecordDeclares(s.Namespace, className, names, types);
    ContainerDeclares(s.Namespace, className, ClassGenerator.Pluralize(className), sheetType);
  }

  /** What a press comes to, given whether a generation runs, the first
      failed check (`FirstFailure`), the window's fields, the parsed sheet
      (its class name, field names and types, and sheet type) and the
      asset path built for its container (`BuildAssetRelativePath`). */
  function GenerationOutcome(busy: bool, failure: Option<Check>, s: AppSettings, sheetId: string, sheetName: string,
                             className: string, names: seq<string>, types: seq<string>, sheetType: SheetDataType,
                             assetPath: Result<string, string>, jsonPayload: string, now: string): Outcome
  {
    if busy then Busy
    else if failure.Some? then Invalid(Message(failure.value))
    else if className == "" then Failed("Failed to parse sheet data.", [])
    else
      var scripts := EditorScripts(s, className, names, types, sheetType);
      if assetPath.Failure? then Failed(assetPath.error, scripts)
      else Queued(scripts, EditorJob(s, sheetId, sheetName, className, sheetType, assetPath.value, jsonPayload, now))
  }

  /** A press is ignored while a generation runs, stops at the first failed
      check with its dialog, and fails with nothing written when the parse
      gave no class name. */
  lemma GenerationGate(busy: bool, failure: Option<Check>, s: AppSettings, sheetId: string, sheetName: string,
                       className: string, names: seq<string>, types: seq<string>, sheetType: SheetDataType,
                       assetPath: Result<string, string>, jsonPayload: string, now: string)
    ensures var o := GenerationOutcome(busy, failure, s, sheetId, sheetName, className, names, types, sheetType,
                                       assetPath, jsonPayload, now);
      (o == Busy <==> busy)
      && (o.Invalid? <==> !busy && failure.Some?)
      && (o.Invalid? ==> o.dialog == Message(failure.value))
      && (!busy && failure.None? && className == "" ==> o == Failed("Failed to parse sheet data.", []))
  {
  }

  /** Past the gate both scripts are written to the script folder; the job
      is queued exactly when the asset path was built, which puts it inside
      "Assets", and it carries that path, the sheet key and type, the
      payload and the stamp. */
  lemma GenerationQueues(failure: Option<Check>, s: AppSettings, sheetId: string, sheetName: string, root: string,
                         className: string, names: seq<string>, types: seq<string>, sheetType: SheetDataType,
                         jsonPayload: string, now: string)
    requires failure.None? && className != ""
    ensures var assetPath := BuildAssetRelativePath(root, ClassGenerator.Pluralize(className), s.AssetOutputPath);
      var o := GenerationOutcome(false, failure, s, sheetId, sheetName, className, names, types, sheetType,
                                 assetPath, jsonPayload, now);
      (o.Failed? || o.Queued?)
      && |o.written| == 2 && o.written[0].folder == s.ScriptOutputPath && o.written[1].folder == s.ScriptOutputPath
      && (o.Queued? <==> assetPath.Success?)
      && (o.Failed? ==> o.reason == assetPath.error)
      && (o.Queued? ==>
            o.job.AssetRelativePath == assetPath.value && StartsWithIgnoreCase(o.job.AssetRelativePath, AssetsFolder)
            && o.job.SheetId == sheetId && o.job.SheetName == sheetName && o.job.SheetType == sheetType
            && o.job.JsonPayload == jsonPayload && o.job.EnqueuedAtUtc == now)
  {
  }

  /** The generator window's state. `isGenerating` is set and cleared
      within one generation, so here it only decides whether a press is
      ignored. */
  class GeneratorWindow {
    var appSettings: AppSettings
    var sheetId: string
    var sheetName: string
    var sheetType: SheetDataType
    var isGenerating: bool

    /** The window opened: the loaded settings, an empty sheet key, a table
        sheet, nothing running. */
    constructor (loaded: AppSettings)
      ensures appSettings == loaded && sheetId == "" && sheetName == "" && sheetType == Table && !isGenerating
    {
      appSettings := loaded;
      sheetId := "";
      sheetName := "";
      sheetType := Table;
      isGenerating := false;
    }

    /** ValidateSettings: the checks in order, the first failure showing its
        dialog and returning false. */
    method ValidateSettings(root: string, files: set<string>) returns (ok: bool, dialog: Option<string>)
      ensures ok <==> FirstFailure(appSettings, sheetId, sheetName, root, files).None?
      ensures ok ==> dialog == None
      ensures !ok ==> dialog == Some(Message(FirstFailure(appSettings, sheetId, sheetName, root, files).value))
    {
      if !HasRequiredPaths(appSettings) {
        return false, Some(Message(RequiredPaths));
      }
      if IsBlank(appSettings.Namespace) {
        return false, Some(Message(NamespaceSet));
      }
      var clientSecretPath := GetResolvedClientSecretPath(appSettings, root);
      if IsBlank(clientSecretPath) || clientSecretPath !in files {
        return false, Some(Message(ClientSecretFile));
      }
      if IsBlank(sheetId) || IsBlank(sheetName) {
        return false, Some(Message(SheetKey));
      }
      var script := EnsureProjectRelative(root, appSettings.ScriptOutputPath);
      if script.Failure? {
        return false, Some(Message(ProjectPaths(script.error)));
      }
      var asset := EnsureProjectRelative(root, appSettings.AssetOutputPath);
      if asset.Failure? {
        return false, Some(Message(ProjectPaths(asset.error)));
      }
      return true, None;
    }

    /** The two scripts of a parsed sheet with a class name, and the texts
        written for them, generated and wrapped the way `GenerateAsync`
        does it. `Generate` lists the same files in its outcome; this is
        what goes into them. */
    method WriteScripts(parsed: ParsedSheetData, nl: string) returns (written: seq<ScriptFile>, texts: seq<string>)
      requires parsed.ClassName != ""
      ensures written == EditorScripts(appSettings, parsed.ClassName, parsed.FieldNames, parsed.FieldTypes, parsed.SheetType)
      ensures |texts| == |written| && forall i :: 0 <= i < |written| ==> texts[i] == ScriptText(written[i], nl)
    {
      var className := parsed.ClassName;
      var classCode := ClassGenerator.GenerateClassString(parsed, nl);
      var baseClassCode := WrapWithNamespace(appSettings.Namespace, classCode, nl);
      var scriptableClassName := ClassGenerator.Pluralize(className);
      var scriptableCode := WrapWithNamespace(appSettings.Namespace,
                                              EditorScriptableObjectClass(className, scriptableClassName, parsed.SheetType, nl), nl);
      written := EditorScripts(appSettings, className, parsed.FieldNames, parsed.FieldTypes, parsed.SheetType);
      texts := [baseClassCode, scriptableCode];
    }

    /** One press of "Generate ScriptableObject", after the sheet was loaded
        and parsed into `parsed`. The outcome lists the scripts written,
        whose texts are those of `WriteScripts`. `jsonPayload` stands for
        the serialised text of `JsonGenerator.GenerateJson` of `parsed`,
        which the window computes before queueing. Processing is not
        requested: only the store changes, by the queued job. */
    method Generate(root: string, files: set<string>, parsed: ParsedSheetData, jsonPayload: string, now: string,
                    nl: string, store: JobStore)
      returns (outcome: Outcome)
      modifies store
      ensures outcome == GenerationOutcome(isGenerating, FirstFailure(appSettings, sheetId, sheetName, root, files),
                                           appSettings, sheetId, sheetName, parsed.ClassName, parsed.FieldNames,
                                           parsed.FieldTypes, parsed.SheetType,
                                           BuildAssetRelativePath(root, ClassGenerator.Pluralize(parsed.ClassName),
                                                                  appSettings.AssetOutputPath),
                                           jsonPayload, now)
      ensures outcome.Queued? ==> store.slot == Some(old(store.LoadAll()) + [outcome.job])
      ensures !outcome.Queued? ==> store.slot == old(store.slot)
    {
      if isGenerating {
        outcome := Busy;
      } else {
        var ok, dialog := ValidateSettings(root, files);
        if !ok {
          outcome := Invalid(dialog.value);
        } else if parsed.ClassName == "" {
          outcome := Failed("Failed to parse sheet data.", []);
        } else {
          var className := parsed.ClassName;
          var written := EditorScripts(appSettings, className, parsed.FieldNames, parsed.FieldTypes, parsed.SheetType);
          var assetPath := BuildAssetRelativePath(root, ClassGenerator.Pluralize(className), appSettings.AssetOutputPath);
          if assetPath.Failure? {
            outcome := Failed(assetPath.error, written);
          } else {
            var job := EditorJob(appSettings, sheetId, sheetName, className, parsed.SheetType, assetPath.value,
                                 jsonPayload, now);
            store.Enqueue(job);
            outcome := Queued(written, job);
          }
        }
      }
    }
  }
}
