/** Settings: the generator's settings object, and the store that keeps its
    shared part in a project settings asset and the two per-user paths in
    the editor preferences.

    The store and the asset manager also read and write four members that
    neither the settings class nor the project settings asset declares:
    the scriptable-class script path, the scriptable-class namespace, and
    the two flags that link them to the data-class path and namespace. The
    model assumes they exist as plain fields of both; their initial values
    are parameters. */
module Settings {
  import opened Wrappers
  import opened Text
  import opened PathUtility
  import opened Registry

  datatype AppSettings = AppSettings(
    ScriptOutputPath: string,
    AssetOutputPath: string,
    Namespace: string,
    ClientSecretPath: string,
    TokenStorePath: string,
    // assumed members, see the module comment
    ScriptableScriptOutputPath: string,
    ScriptableNamespace: string,
    LinkScriptPaths: bool,
    LinkNamespaces: bool)

  const DefaultScriptOutputPath: string := "Assets/GSheetToData/Generated/Scripts"
  const DefaultAssetOutputPath: string := "Assets/GSheetToData/Generated/Assets"
  const DefaultNamespace: string := "Game.Data"

  /** `new GSheetToDataAppSettings()`: the declared fields take their
      initialisers; the assumed ones take the given values. */
  function NewAppSettings(scriptablePath: string, scriptableNamespace: string, linkPaths: bool, linkNamespaces: bool)
    : (s: AppSettings)
    ensures s.ScriptOutputPath == DefaultScriptOutputPath && s.AssetOutputPath == DefaultAssetOutputPath
    ensures s.Namespace == DefaultNamespace && s.ClientSecretPath == "" && s.TokenStorePath == ""
  {
    AppSettings(DefaultScriptOutputPath, DefaultAssetOutputPath, DefaultNamespace, "", "",
                scriptablePath, scriptableNamespace, linkPaths, linkNamespaces)
  }

  predicate HasRequiredPaths(s: AppSettings) {
    !IsBlank(s.ScriptOutputPath) && !IsBlank(s.AssetOutputPath)
  }

  /** GetResolvedClientSecretPath: "" exactly when no path is set,
      otherwise the path made absolute against the project root. */
  function GetResolvedClientSecretPath(s: AppSettings, root: string): (r: string)
    ensures r == "" <==> IsBlank(s.ClientSecretPath)
    ensures !IsBlank(s.ClientSecretPath) ==> r == ToAbsolutePath(root, s.ClientSecretPath)
  {
    if IsBlank(s.ClientSecretPath) then "" else ToAbsolutePath(root, s.ClientSecretPath)
  }

  /** GetResolvedTokenStorePath: the default Temp/GSheetToData folder,
      created on the way, when no path is set; otherwise the path made
      absolute, with no file-system effect. */
  method GetResolvedTokenStorePath(s: AppSettings, root: string, fs: FileSystem) returns (r: string)
    modifies fs
    ensures IsBlank(s.TokenStorePath) ==> r == DefaultTokenStoreDirectory(root) && fs.directories == old(fs.directories) + {r}
    ensures !IsBlank(s.TokenStorePath) ==> r == ToAbsolutePath(root, s.TokenStorePath) && fs.directories == old(fs.directories)
  {
    if IsBlank(s.TokenStorePath) {
      r := fs.GetDefaultTokenStorePath(root);
      return;
    }
    return ToAbsolutePath(root, s.TokenStorePath);
  }

  lemma DefaultPathsNotBlank()
    ensures !IsBlank(DefaultScriptOutputPath) && !IsBlank(DefaultAssetOutputPath) && !IsBlank(DefaultNamespace)
  {
    assert !IsWhiteSpace(DefaultScriptOutputPath[0]);
    assert !IsWhiteSpace(DefaultAssetOutputPath[0]);
    assert !IsWhiteSpace(DefaultNamespace[0]);
  }

  /** Fresh settings have both required paths and a namespace, but no
      client secret: they fail validation only at the secret check. */
  lemma NewSettingsShape(scriptablePath: string, scriptableNamespace: string, linkPaths: bool, linkNamespaces: bool,
                         root: string)
    ensures var s := NewAppSettings(scriptablePath, scriptableNamespace, linkPaths, linkNamespaces);
      HasRequiredPaths(s) && !IsBlank(s.Namespace) && GetResolvedClientSecretPath(s, root) == ""
  {
    DefaultPathsNotBlank();
  }

  /** The persisted project settings asset, with the assumed members. */
  datatype ProjectSettings = ProjectSettings(
    ScriptOutputPath: string,
    ScriptableScriptOutputPath: string,
    AssetOutputPath: string,
    Namespace: string,
    ScriptableNamespace: string,
    LinkScriptPaths: bool,
    LinkNamespaces: bool)

  const ClientSecretPrefsKey: string := "GSheetToDataForUnity.ClientSecretPath"
  const TokenStorePrefsKey: string := "GSheetToDataForUnity.TokenStorePath"

  /** `EditorPrefs.GetString(key, default)` */
  function GetPref(prefs: map<string, string>, key: string, default: string): string {
    if key in prefs then prefs[key] else default
  }

  /** Applies the two link flags: a linked scriptable path or namespace is
      the data-class one. */
  function Linked(s: AppSettings): (r: AppSettings)
    ensures r.LinkScriptPaths ==> r.ScriptableScriptOutputPath == r.ScriptOutputPath
    ensures r.LinkNamespaces ==> r.ScriptableNamespace == r.Namespace
    ensures r.(ScriptableScriptOutputPath := s.ScriptableScriptOutputPath, ScriptableNamespace := s.ScriptableNamespace) == s
  {
    var r := if s.LinkScriptPaths then s.(ScriptableScriptOutputPath := s.ScriptOutputPath) else s;
    if r.LinkNamespaces then r.(ScriptableNamespace := r.Namespace) else r
  }

  /** The settings `Load` builds: the asset's fields, the two preferences
      with "" for a missing key, then the link rule. */
  function Loaded(p: ProjectSettings, prefs: map<string, string>): (s: AppSettings)
    ensures s.LinkScriptPaths ==> s.ScriptableScriptOutputPath == s.ScriptOutputPath
    ensures s.LinkNamespaces ==> s.ScriptableNamespace == s.Namespace
    ensures s.ScriptOutputPath == p.ScriptOutputPath && s.AssetOutputPath == p.AssetOutputPath && s.Namespace == p.Namespace
    ensures s.LinkScriptPaths == p.LinkScriptPaths && s.LinkNamespaces == p.LinkNamespaces
    ensures !p.LinkScriptPaths ==> s.ScriptableScriptOutputPath == p.ScriptableScriptOutputPath
    ensures !p.LinkNamespaces ==> s.ScriptableNamespace == p.ScriptableNamespace
    ensures s.ClientSecretPath == GetPref(prefs, ClientSecretPrefsKey, "")
    ensures s.TokenStorePath == GetPref(prefs, TokenStorePrefsKey, "")
  {
    Linked(AppSettings(p.ScriptOutputPath, p.AssetOutputPath, p.Namespace,
                       GetPref(prefs, ClientSecretPrefsKey, ""), GetPref(prefs, TokenStorePrefsKey, ""),
                       p.ScriptableScriptOutputPath, p.ScriptableNamespace, p.LinkScriptPaths, p.LinkNamespaces))
  }

  /** What `Save` writes into the asset: a linked scriptable value is
      stored as the data-class one. Every field is overwritten. */
  function Persisted(s: AppSettings): (p: ProjectSettings)
    ensures p.LinkScriptPaths ==> p.ScriptableScriptOutputPath == p.ScriptOutputPath
    ensures p.LinkNamespaces ==> p.ScriptableNamespace == p.Namespace
    ensures p.ScriptOutputPath == s.ScriptOutputPath && p.AssetOutputPath == s.AssetOutputPath && p.Namespace == s.Namespace
    ensures p.LinkScriptPaths == s.LinkScriptPaths && p.LinkNamespaces == s.LinkNamespaces
    ensures !s.LinkScriptPaths ==> p.ScriptableScriptOutputPath == s.ScriptableScriptOutputPath
    ensures !s.LinkNamespaces ==> p.ScriptableNamespace == s.ScriptableNamespace
  {
    ProjectSettings(s.ScriptOutputPath,
                    if s.LinkScriptPaths then s.ScriptOutputPath else s.ScriptableScriptOutputPath,
                    s.AssetOutputPath, s.Namespace,
                    if s.LinkNamespaces then s.Namespace else s.ScriptableNamespace,
                    s.LinkScriptPaths, s.LinkNamespaces)
  }

  /** The preferences after `Save`. */
  function SavedPrefs(prefs: map<string, string>, s: AppSettings): map<string, string> {
    prefs[ClientSecretPrefsKey := s.ClientSecretPath][TokenStorePrefsKey := s.TokenStorePath]
  }

  /** Saving and loading again gives the saved settings back, with the link
      rule applied. */
  lemma SaveLoadRoundTrip(s: AppSettings, prefs: map<string, string>)
    ensures Loaded(Persisted(s), SavedPrefs(prefs, s)) == Linked(s)
  {
    assert ClientSecretPrefsKey != TokenStorePrefsKey by {
      assert ClientSecretPrefsKey[21] != TokenStorePrefsKey[21];
    }
  }

  /** Settings that already obey the links are given back exactly. */
  lemma LinkedSettingsRoundTrip(s: AppSettings, prefs: map<string, string>)
    requires s.LinkScriptPaths ==> s.ScriptableScriptOutputPath == s.ScriptOutputPath
    requires s.LinkNamespaces ==> s.ScriptableNamespace == s.Namespace
    ensures Loaded(Persisted(s), SavedPrefs(prefs, s)) == s
  {
    SaveLoadRoundTrip(s, prefs);
  }

  /** Saving what was loaded leaves the asset as it was, up to the link
      rule. */
  lemma LoadSaveStable(p: ProjectSettings, prefs: map<string, string>)
    requires p.LinkScriptPaths ==> p.ScriptableScriptOutputPath == p.ScriptOutputPath
    requires p.LinkNamespaces ==> p.ScriptableNamespace == p.Namespace
    ensures Persisted(Loaded(p, prefs)) == p
  {
  }

  /** The settings and registry assets of the project and the editor
      preferences. `created` is what a newly created settings asset holds. */
  class SettingsStore {
    var settingsAsset: Option<ProjectSettings>
    var registryAsset: AssetRegistry?
    var prefs: map<string, string>
    const created: ProjectSettings

    /** The three declared fields of a new settings asset take their
        initialisers. */
    constructor (settingsAsset: Option<ProjectSettings>, registryAsset: AssetRegistry?, prefs: map<string, string>,
                 created: ProjectSettings)
      requires created.ScriptOutputPath == DefaultScriptOutputPath && created.AssetOutputPath == DefaultAssetOutputPath
      requires created.Namespace == DefaultNamespace
      ensures this.settingsAsset == settingsAsset && this.registryAsset == registryAsset && this.prefs == prefs
      ensures this.created == created
    {
      this.settingsAsset := settingsAsset;
      this.registryAsset := registryAsset;
      this.prefs := prefs;
      this.created := created;
    }

    /** LoadOrCreateRegistry: the stored registry if there is one, else a
        new empty registry stored at the fixed path. */
    method LoadOrCreateRegistry() returns (r: AssetRegistry)
      modifies this`registryAsset
      ensures old(registryAsset) != null ==> r == old(registryAsset)
      ensures old(registryAsset) == null ==> fresh(r) && r.entries == []
      ensures registryAsset == r
    {
      if registryAsset != null {
        return registryAsset;
      }
      r := new AssetRegistry();
      registryAsset := r;
    }

    /** LoadOrCreateAsset: the stored settings asset if there is one, else
        a new one stored at the fixed path. */
    method LoadOrCreateAsset() returns (p: ProjectSettings)
      modifies this`settingsAsset
      ensures old(settingsAsset).Some? ==> p == old(settingsAsset).value
      ensures old(settingsAsset).None? ==> p == created
      ensures settingsAsset == Some(p)
    {
      if settingsAsset.Some? {
        return settingsAsset.value;
      }
      p := created;
      settingsAsset := Some(p);
    }

    /** Load: the settings read from the asset and the preferences. */
    method Load() returns (s: AppSettings)
      modifies this`settingsAsset
      ensures settingsAsset == Some(old(settingsAsset).GetOr(created))
      ensures s == Loaded(settingsAsset.value, prefs)
    {
      var p := LoadOrCreateAsset();
      s := AppSettings(p.ScriptOutputPath, p.AssetOutputPath, p.Namespace,
                       GetPref(prefs, ClientSecretPrefsKey, ""), GetPref(prefs, TokenStorePrefsKey, ""),
                       p.ScriptableScriptOutputPath, p.ScriptableNamespace, p.LinkScriptPaths, p.LinkNamespaces);
      if s.LinkScriptPaths {
        s := s.(ScriptableScriptOutputPath := s.ScriptOutputPath);
      }
      if s.LinkNamespaces {
        s := s.(ScriptableNamespace := s.Namespace);
      }
    }

    /** Save: nothing for a null settings object; otherwise every field of
        the asset and the two preferences are overwritten. */
    method Save(settings: Option<AppSettings>)
      modifies this`settingsAsset, this`prefs
      ensures settings.None? ==> settingsAsset == old(settingsAsset) && prefs == old(prefs)
      ensures settings.Some? ==>
        settingsAsset == Some(Persisted(settings.value)) && prefs == SavedPrefs(old(prefs), settings.value)
    {
      if settings.None? {
        return;
      }
      var s := settings.value;
      var p := LoadOrCreateAsset();
      p := p.(ScriptOutputPath := s.ScriptOutputPath,
              ScriptableScriptOutputPath := if s.LinkScriptPaths then s.ScriptOutputPath else s.ScriptableScriptOutputPath,
              AssetOutputPath := s.AssetOutputPath,
              Namespace := s.Namespace,
              ScriptableNamespace := if s.LinkNamespaces then s.Namespace else s.ScriptableNamespace,
              LinkScriptPaths := s.LinkScriptPaths,
              LinkNamespaces := s.LinkNamespaces);
      settingsAsset := Some(p);
      prefs := prefs[ClientSecretPrefsKey := s.ClientSecretPath];
      prefs := prefs[TokenStorePrefsKey := s.TokenStorePath];
    }
  }
}
