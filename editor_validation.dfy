/** EditorValidation: the order of the generator window's settings checks
    and the dialog each failed check shows. */
module EditorValidation {
  import opened Wrappers
  import opened Text
  import opened PathUtility
  import opened Settings
  import opened GenerationUtilities

  // ---------------------------------------------------------------------
  // ValidateSettings

  /** The checks of `ValidateSettings`, in the order they run. */
  datatype Check = RequiredPaths | NamespaceSet | ClientSecretFile | SheetKey | ProjectPaths(reason: string)

  /** The dialog text of a failed check. */
  function Message(c: Check): string {
    match c
    case RequiredPaths => "Enter script and asset output paths."
    case NamespaceSet => "Enter a namespace."
    case ClientSecretFile => "Verify the client_secret.json path."
    case SheetKey => "Enter both the Sheet ID and Sheet Name."
    case ProjectPaths(reason) => "Path validation failed: " + reason
  }

  /** The resolved client secret is set and names an existing file. */
  predicate ClientSecretFound(s: AppSettings, root: string, files: set<string>) {
    var path := GetResolvedClientSecretPath(s, root);
    !IsBlank(path) && path in files
  }

  /** The first failing project-relative check, script folder first. */
  function PathFailure(s: AppSettings, root: string): (r: Option<string>)
    ensures r.None? <==>
      EnsureProjectRelative(root, s.ScriptOutputPath).Success? && EnsureProjectRelative(root, s.AssetOutputPath).Success?
    ensures EnsureProjectRelative(root, s.ScriptOutputPath).Failure? ==>
      r == Some(EnsureProjectRelative(root, s.ScriptOutputPath).error)
  {
    var script := EnsureProjectRelative(root, s.ScriptOutputPath);
    if script.Failure? then Some(script.error)
    else
      var asset := EnsureProjectRelative(root, s.AssetOutputPath);
      if asset.Failure? then Some(asset.error) else None
  }

  /** The check `ValidateSettings` stops at, if any; `files` are the files
      that exist. */
  function FirstFailure(s: AppSettings, sheetId: string, sheetName: string, root: string, files: set<string>)
    : Option<Check>
  {
    if !HasRequiredPaths(s) then Some(RequiredPaths)
    else if IsBlank(s.Namespace) then Some(NamespaceSet)
    else if !ClientSecretFound(s, root, files) then Some(ClientSecretFile)
    else if IsBlank(sheetId) || IsBlank(sheetName) then Some(SheetKey)
    else if PathFailure(s, root).Some? then Some(ProjectPaths(PathFailure(s, root).value))
    else None
  }

  /** Each check is reached only when all earlier ones pass, and settings
      pass exactly when every check does. */
  lemma ChecksInOrder(s: AppSettings, sheetId: string, sheetName: string, root: string, files: set<string>)
    ensures var r := FirstFailure(s, sheetId, sheetName, root, files);
      (r == Some(RequiredPaths) <==> !HasRequiredPaths(s))
      && (r == Some(NamespaceSet) <==> HasRequiredPaths(s) && IsBlank(s.Namespace))
      && (r == Some(ClientSecretFile) <==>
         HasRequiredPaths(s) && !IsBlank(s.Namespace) && !ClientSecretFound(s, root, files))
      && (r == Some(SheetKey) <==>
         HasRequiredPaths(s) && !IsBlank(s.Namespace) && ClientSecretFound(s, root, files)
         && (IsBlank(sheetId) || IsBlank(sheetName)))
      && (r.Some? && r.value.ProjectPaths? <==>
         HasRequiredPaths(s) && !IsBlank(s.Namespace) && ClientSecretFound(s, root, files)
         && !IsBlank(sheetId) && !IsBlank(sheetName) && PathFailure(s, root).Some?)
      && (r.None? <==>
         HasRequiredPaths(s) && !IsBlank(s.Namespace) && ClientSecretFound(s, root, files)
         && !IsBlank(sheetId) && !IsBlank(sheetName)
         && EnsureProjectRelative(root, s.ScriptOutputPath).Success? && EnsureProjectRelative(root, s.AssetOutputPath).Success?)
  {
  }

  /** Fresh settings have both output paths and a namespace but no client
      secret, so validation stops at the client-secret check whatever else
      is given. */
  lemma FreshSettingsNeedSecret(scriptablePath: string, scriptableNamespace: string, linkPaths: bool,
                                linkNamespaces: bool, sheetId: string, sheetName: string, root: string,
                                files: set<string>)
    ensures FirstFailure(NewAppSettings(scriptablePath, scriptableNamespace, linkPaths, linkNamespaces),
                         sheetId, sheetName, root, files) == Some(ClientSecretFile)
  {
    var s := NewAppSettings(scriptablePath, scriptableNamespace, linkPaths, linkNamespaces);
    DefaultPathsNotBlank();
    assert !IsBlank(s.Namespace) by {
      assert s.Namespace[0] == 'G';
    }
  }

  /** A script folder outside "Assets" makes the path check fail with its
      reason, even when the asset folder is fine. */
  lemma ScriptFolderOutsideAssets(s: AppSettings, sheetId: string, sheetName: string, root: string,
                                  files: set<string>)
    requires Normalize(root) == root && root != ""
    requires !IsBlank(s.ScriptOutputPath) && Normalize(s.ScriptOutputPath) == s.ScriptOutputPath
    requires !IsRooted(s.ScriptOutputPath) && !StartsWithIgnoreCase(s.ScriptOutputPath, AssetsFolder)
    requires HasRequiredPaths(s) && !IsBlank(s.Namespace) && ClientSecretFound(s, root, files)
    requires !IsBlank(sheetId) && !IsBlank(sheetName)
    ensures FirstFailure(s, sheetId, sheetName, root, files)
      == Some(ProjectPaths("Path must reside under the Assets folder."))
  {
    OutsideAssetsRefused(root, s.ScriptOutputPath);
  }

  /** Normalised relative output folders under "Assets" pass the path
      check, so such settings validate once the other checks pass. */
  lemma AssetsFoldersValidate(s: AppSettings, sheetId: string, sheetName: string, root: string, files: set<string>)
    requires Normalize(root) == root && root != ""
    requires Normalize(s.ScriptOutputPath) == s.ScriptOutputPath && !IsRooted(s.ScriptOutputPath)
    requires Normalize(s.AssetOutputPath) == s.AssetOutputPath && !IsRooted(s.AssetOutputPath)
    requires StartsWithIgnoreCase(s.ScriptOutputPath, AssetsFolder) && StartsWithIgnoreCase(s.AssetOutputPath, AssetsFolder)
    requires !IsBlank(s.Namespace) && ClientSecretFound(s, root, files)
    requires !IsBlank(sheetId) && !IsBlank(sheetName)
    ensures FirstFailure(s, sheetId, sheetName, root, files) == None
  {
    AssetsPathNotBlank(s.ScriptOutputPath);
    AssetsPathNotBlank(s.AssetOutputPath);
    AssetsPathAccepted(root, s.ScriptOutputPath);
    AssetsPathAccepted(root, s.AssetOutputPath);
  }
}
