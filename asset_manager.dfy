/** AssetManager: the logic of the asset manager window that is not drawing
    — the schema diff and its confirmation gate, the diff message, which
    settings a registered sheet is generated with, adding a sheet, and the
    two asset-path helpers. */
module AssetManager {
  import opened Wrappers
  import opened Text
  import opened SheetData
  import opened PathUtility
  import opened Registry
  import opened Settings

  /** The position of the first occurrence of `x`. */
  function FirstIndex(s: seq<string>, x: string): (k: nat)
    requires x in s
    ensures k < |s| && s[k] == x && x !in s[..k]
  {
    if s[0] == x then 0
    else
      var k := FirstIndex(s[1..], x) + 1;
      assert s[..k] == [s[0]] + s[1..][..k - 1];
      k
  }

  /** The first occurrence is the only occurrence with nothing equal before
      it. */
  lemma FirstIndexUnique(s: seq<string>, x: string, k: nat)
    requires k < |s| && s[k] == x && x !in s[..k]
    ensures FirstIndex(s, x) == k
  {
  }

  /** `source.Except(target).Where(s => !IsNullOrWhiteSpace(s))`: the
      distinct non-blank names of `source` that are not in `target`, in the
      order they first occur. */
  function NewNames(source: seq<string>, target: seq<string>): (r: seq<string>)
    ensures forall x :: x in r <==> x in source && x !in target && !IsBlank(x)
    ensures forall i, j :: 0 <= i < j < |r| ==> r[i] != r[j]
    ensures forall i, j :: 0 <= i < j < |r| ==> FirstIndex(source, r[i]) < FirstIndex(source, r[j])
    decreases |source|
  {
    if source == [] then []
    else
      var init, x := source[..|source| - 1], source[|source| - 1];
      var rest := NewNames(init, target);
      NewNamesStep(source, target, rest);
      if x in target || x in init || IsBlank(x) then rest else rest + [x]
  }

  /** The step of `NewNames`: the names of the shorter sequence, extended
      by the last name when it is new, keep the three properties. */
  lemma NewNamesStep(source: seq<string>, target: seq<string>, rest: seq<string>)
    requires source != []
    requires forall x :: x in rest <==> x in source[..|source| - 1] && x !in target && !IsBlank(x)
    requires forall i, j :: 0 <= i < j < |rest| ==> rest[i] != rest[j]
    requires forall i :: 0 <= i < |rest| ==> rest[i] in source[..|source| - 1]
    requires forall i, j :: 0 <= i < j < |rest| ==>
      FirstIndex(source[..|source| - 1], rest[i]) < FirstIndex(source[..|source| - 1], rest[j])
    ensures var init, x := source[..|source| - 1], source[|source| - 1];
      var r := if x in target || x in init || IsBlank(x) then rest else rest + [x];
      (forall y :: y in r <==> y in source && y !in target && !IsBlank(y))
      && (forall i, j :: 0 <= i < j < |r| ==> r[i] != r[j])
      && (forall i, j :: 0 <= i < j < |r| ==> FirstIndex(source, r[i]) < FirstIndex(source, r[j]))
  {
    var init, x := source[..|source| - 1], source[|source| - 1];
    assert source == init + [x];
    NewNamesOrderStep(source, rest);
    assert forall i :: 0 <= i < |rest| ==> FirstIndex(source, rest[i]) == FirstIndex(init, rest[i]);
    if !(x in target || x in init || IsBlank(x)) {
      var r := rest + [x];
      assert forall i :: 0 <= i < |rest| ==> FirstIndex(source, r[i]) < |init| by {
        forall i | 0 <= i < |rest| ensures FirstIndex(source, r[i]) < |init| {
          assert r[i] == rest[i];
        }
      }
      assert FirstIndex(source, r[|rest|]) == |init|;
    }
  }

  /** Names first seen before the last position keep their first position
      in the longer sequence, and a name seen only at the last position has
      it as its first. */
  lemma NewNamesOrderStep(source: seq<string>, rest: seq<string>)
    requires source != []
    requires forall y :: y in rest ==> y in source[..|source| - 1]
    ensures forall y :: y in rest ==> FirstIndex(source, y) == FirstIndex(source[..|source| - 1], y)
    ensures source[|source| - 1] !in source[..|source| - 1] ==>
      FirstIndex(source, source[|source| - 1]) == |source| - 1
  {
    var init := source[..|source| - 1];
    forall y | y in rest
      ensures FirstIndex(source, y) == FirstIndex(init, y)
    {
      var k := FirstIndex(init, y);
      assert source[..k] == init[..k];
      FirstIndexUnique(source, y, k);
    }
    if source[|source| - 1] !in init {
      FirstIndexUnique(source, source[|source| - 1], |source| - 1);
    }
  }

  /** ComputeDiff: a null list counts as empty. */
  function ComputeDiff(source: Option<seq<string>>, target: Option<seq<string>>): (r: seq<string>)
    ensures source.None? ==> r == []
    ensures forall x :: x in r <==> x in source.GetOr([]) && x !in target.GetOr([]) && !IsBlank(x)
  {
    NewNames(source.GetOr([]), target.GetOr([]))
  }

  /** The non-blank names of a list. */
  function NamedSet(names: seq<string>): set<string> {
    set x | x in names && !IsBlank(x)
  }

  /** The schema-change gate: confirmation is asked only when the entry
      remembers a non-empty list of names and a name was added or removed. */
  predicate AsksToConfirm(parsedNames: seq<string>, lastNames: Option<seq<string>>) {
    var added := ComputeDiff(Some(parsedNames), lastNames);
    var removed := ComputeDiff(lastNames, Some(parsedNames));
    (|added| > 0 || |removed| > 0) && lastNames.Some? && |lastNames.value| > 0
  }

  /** The gate asks exactly when names were remembered and the non-blank
      names differ as sets: reordering or repeating names, or changing blank
      ones, does not ask. */
  lemma AsksToConfirmIff(parsedNames: seq<string>, lastNames: Option<seq<string>>)
    ensures AsksToConfirm(parsedNames, lastNames)
        <==> lastNames.Some? && |lastNames.value| > 0 && NamedSet(parsedNames) != NamedSet(lastNames.value)
  {
    if lastNames.Some? {
      var added := ComputeDiff(Some(parsedNames), lastNames);
      var removed := ComputeDiff(lastNames, Some(parsedNames));
      var a, b := NamedSet(parsedNames), NamedSet(lastNames.value);
      if a != b {
        if x :| x in a && x !in b {
          assert x in added;
        } else {
          var y :| y in b && y !in a;
          assert y in removed;
        }
      }
      if |added| > 0 {
        assert added[0] in a && added[0] !in b;
      }
      if |removed| > 0 {
        assert removed[0] in b && removed[0] !in a;
      }
    }
  }

  /** Whether generation goes on past the gate, given the answer the user
      would give to the dialog. */
  predicate PassesGate(parsedNames: seq<string>, lastNames: Option<seq<string>>, confirmed: bool) {
    !AsksToConfirm(parsedNames, lastNames) || confirmed
  }

  /** A first generation, or one with the same names as last time, never
      asks and so cannot be cancelled at the gate. */
  lemma GateOpenWhenUnchanged(parsedNames: seq<string>, lastNames: Option<seq<string>>, confirmed: bool)
    requires lastNames.None? || lastNames.value == [] || NamedSet(lastNames.value) == NamedSet(parsedNames)
    ensures PassesGate(parsedNames, lastNames, confirmed)
  {
    AsksToConfirmIff(parsedNames, lastNames);
  }

  /** A changed schema is written only when the user confirms. */
  lemma GateClosedOnCancel(parsedNames: seq<string>, lastNames: seq<string>)
    requires lastNames != [] && NamedSet(lastNames) != NamedSet(parsedNames)
    ensures !PassesGate(parsedNames, Some(lastNames), false)
  {
    AsksToConfirmIff(parsedNames, Some(lastNames));
  }

  const DiffHeader: string := "Sheet schema changed:"
  const AddedPrefix: string := " + Added: "
  const RemovedPrefix: string := " - Removed: "
  const DiffQuestion: string := "Re-generate with the new schema?"

  /** The lines `BuildDiffMessage` ends with a line break. */
  function DiffMessageLines(added: seq<string>, removed: seq<string>): seq<string> {
    [DiffHeader]
    + (if |added| > 0 then [AddedPrefix + Join(", ", added)] else [])
    + (if |removed| > 0 then [RemovedPrefix + Join(", ", removed)] else [])
    + [""]
  }

  /** BuildDiffMessage: the header, an added line and a removed line when
      there is something to list, a blank line and the question. */
  function BuildDiffMessage(added: seq<string>, removed: seq<string>, nl: string): string {
    Lines(DiffMessageLines(added, removed), nl) + DiffQuestion
  }

  /** The message always opens with the header and ends with a blank line
      and the question; it has an added line exactly when something was
      added and a removed line exactly when something was removed, the
      added one first. */
  lemma DiffMessageShape(added: seq<string>, removed: seq<string>)
    ensures var ls := DiffMessageLines(added, removed);
      ls[0] == DiffHeader && ls[|ls| - 1] == ""
      && ((exists i :: 0 <= i < |ls| && StartsWith(ls[i], AddedPrefix)) <==> |added| > 0)
      && ((exists i :: 0 <= i < |ls| && StartsWith(ls[i], RemovedPrefix)) <==> |removed| > 0)
      && (|added| > 0 ==> ls[1] == AddedPrefix + Join(", ", added))
  {
    var ls := DiffMessageLines(added, removed);
    forall i | 0 <= i < |ls|
      ensures StartsWith(ls[i], AddedPrefix) ==> |added| > 0 && i == 1
      ensures StartsWith(ls[i], RemovedPrefix) ==> |removed| > 0
    {
      if StartsWith(ls[i], AddedPrefix) {
        assert ls[i][1] == '+';
        assert ls[i] != DiffHeader && ls[i] != "" by {
          assert DiffHeader[1] != '+';
        }
      }
      if StartsWith(ls[i], RemovedPrefix) {
        assert ls[i][1] == '-';
        assert ls[i] != DiffHeader && ls[i] != "" by {
          assert DiffHeader[1] != '-';
        }
        assert ls[i] != AddedPrefix + Join(", ", added) by {
          assert AddedPrefix[1] != '-';
        }
      }
    }
    if |added| > 0 {
      assert StartsWith(ls[1], AddedPrefix);
    }
    if |removed| > 0 {
      var k := if |added| > 0 then 2 else 1;
      assert StartsWith(ls[k], RemovedPrefix);
    }
  }

  lemma JoinIsLine(parts: seq<string>)
    requires forall i :: 0 <= i < |parts| ==> IsLine(parts[i])
    ensures IsLine(Join(", ", parts))
  {
    if |parts| > 1 {
      JoinIsLine(parts[1..]);
    }
  }

  /** Text written line by line, followed by more text, splits into the
      lines and then the pieces of the rest. */
  lemma {:induction false} SplitLinesAfterLines(ls: seq<string>, nl: string, rest: string)
    requires nl == "\n" || nl == "\r\n"
    requires forall i :: 0 <= i < |ls| ==> IsLine(ls[i])
    ensures SplitLines(Lines(ls, nl) + rest) == ls + SplitLines(rest)
  {
    if ls != [] {
      var tail := Lines(ls[1..], nl) + rest;
      SplitLinesAfterLines(ls[1..], nl, rest);
      LinesThenRest(ls, nl, rest);
      SplitLinesPrefix(ls[0], nl, tail);
      ConsThenConcat(ls, SplitLines(rest));
    } else {
      assert Lines(ls, nl) + rest == rest;
    }
  }

  lemma LinesThenRest(ls: seq<string>, nl: string, rest: string)
    requires ls != []
    ensures Lines(ls, nl) + rest == ls[0] + nl + (Lines(ls[1..], nl) + rest)
  {
  }

  lemma ConsThenConcat(ls: seq<string>, more: seq<string>)
    requires ls != []
    ensures [ls[0]] + (ls[1..] + more) == ls + more
  {
    assert ls == [ls[0]] + ls[1..];
  }

  /** Lines followed by one more line without a break read back as those
      lines and that line. */
  lemma LinesThenLine(ls: seq<string>, last: string, nl: string)
    requires nl == "\n" || nl == "\r\n"
    requires forall i :: 0 <= i < |ls| ==> IsLine(ls[i])
    requires IsLine(last)
    ensures SplitLines(Lines(ls, nl) + last) == ls + [last]
  {
    SplitLinesAfterLines(ls, nl, last);
    SplitLinesOfLine(last);
  }

  /** Read back line by line, the message is its lines and the question,
      provided no field name holds a line break. */
  lemma DiffMessageReadBack(added: seq<string>, removed: seq<string>, nl: string)
    requires nl == "\n" || nl == "\r\n"
    requires forall i :: 0 <= i < |added| ==> IsLine(added[i])
    requires forall i :: 0 <= i < |removed| ==> IsLine(removed[i])
    ensures SplitLines(BuildDiffMessage(added, removed, nl)) == DiffMessageLines(added, removed) + [DiffQuestion]
  {
    JoinIsLine(added);
    JoinIsLine(removed);
    HeaderIsLine();
    AddedPrefixIsLine();
    RemovedPrefixIsLine();
    QuestionIsLine();
    PrefixedLine(AddedPrefix, Join(", ", added));
    PrefixedLine(RemovedPrefix, Join(", ", removed));
    var ls := DiffMessageLines(added, removed);
    assert forall i :: 0 <= i < |ls| ==> IsLine(ls[i]);
    LinesThenLine(ls, DiffQuestion, nl);
  }

  lemma PrefixedLine(prefix: string, l: string)
    requires IsLine(prefix) && IsLine(l)
    ensures IsLine(prefix + l)
  {
  }

  lemma HeaderIsLine()
    ensures IsLine(DiffHeader)
  {
  }

  lemma AddedPrefixIsLine()
    ensures IsLine(AddedPrefix)
  {
  }

  lemma RemovedPrefixIsLine()
    ensures IsLine(RemovedPrefix)
  {
  }

  lemma QuestionIsLine()
    ensures IsLine(DiffQuestion)
  {
  }

  /** The window's default for the scriptable-class script folder. */
  function GetDefaultScriptablePath(s: AppSettings): (r: string)
    ensures s.LinkScriptPaths ==> r == s.ScriptOutputPath
    ensures !s.LinkScriptPaths ==> r == s.ScriptableScriptOutputPath
  {
    if s.LinkScriptPaths then s.ScriptOutputPath else s.ScriptableScriptOutputPath
  }

  /** The window's default for the scriptable-class namespace. */
  function GetDefaultScriptableNamespace(s: AppSettings): (r: string)
    ensures s.LinkNamespaces ==> r == s.Namespace
    ensures !s.LinkNamespaces ==> r == s.ScriptableNamespace
  {
    if s.LinkNamespaces then s.Namespace else s.ScriptableNamespace
  }

  /** On loaded settings the window's defaults are the stored scriptable
      values, because loading already applied the links. */
  lemma LoadedDefaultsAreStored(p: ProjectSettings, prefs: map<string, string>)
    ensures GetDefaultScriptablePath(Loaded(p, prefs)) == Loaded(p, prefs).ScriptableScriptOutputPath
    ensures GetDefaultScriptableNamespace(Loaded(p, prefs)) == Loaded(p, prefs).ScriptableNamespace
  {
  }

  /** The placement a generation run uses: each of the five settings is
      the entry's own when its override flag is set, else the project
      default. The settings object's scriptable getters, which it does not
      declare, are taken to be the window's own two defaults. */
  function Resolve(e: RegistryEntry, defaults: AppSettings): (p: Placement)
    ensures p.ScriptOutputPath == (if e.OverrideScriptOutputPath then e.ScriptOutputPath else defaults.ScriptOutputPath)
    ensures p.ScriptableScriptOutputPath
         == (if e.OverrideScriptableScriptOutputPath then e.ScriptableScriptOutputPath else GetDefaultScriptablePath(defaults))
    ensures p.AssetOutputPath == (if e.OverrideAssetOutputPath then e.AssetOutputPath else defaults.AssetOutputPath)
    ensures p.Namespace == (if e.OverrideNamespace then e.Namespace else defaults.Namespace)
    ensures p.ScriptableNamespace
         == (if e.OverrideScriptableNamespace then e.ScriptableNamespace else GetDefaultScriptableNamespace(defaults))
    ensures p.OverrideScriptOutputPath == e.OverrideScriptOutputPath
    ensures p.OverrideScriptableScriptOutputPath == e.OverrideScriptableScriptOutputPath
    ensures p.OverrideAssetOutputPath == e.OverrideAssetOutputPath
    ensures p.OverrideNamespace == e.OverrideNamespace && p.OverrideScriptableNamespace == e.OverrideScriptableNamespace
  {
    Placement(
      if e.OverrideScriptOutputPath then e.ScriptOutputPath else defaults.ScriptOutputPath,
      if e.OverrideScriptableScriptOutputPath then e.ScriptableScriptOutputPath else GetDefaultScriptablePath(defaults),
      if e.OverrideAssetOutputPath then e.AssetOutputPath else defaults.AssetOutputPath,
      if e.OverrideNamespace then e.Namespace else defaults.Namespace,
      if e.OverrideScriptableNamespace then e.ScriptableNamespace else GetDefaultScriptableNamespace(defaults),
      e.OverrideScriptOutputPath, e.OverrideScriptableScriptOutputPath, e.OverrideAssetOutputPath,
      e.OverrideNamespace, e.OverrideScriptableNamespace)
  }

  /** The placement with the project defaults everywhere. */
  function DefaultPlacement(defaults: AppSettings, overrides: Placement): Placement {
    overrides.(ScriptOutputPath := defaults.ScriptOutputPath,
               ScriptableScriptOutputPath := GetDefaultScriptablePath(defaults),
               AssetOutputPath := defaults.AssetOutputPath,
               Namespace := defaults.Namespace,
               ScriptableNamespace := GetDefaultScriptableNamespace(defaults))
  }

  /** The resolved placement is recorded in the entry after a run, and
      resolving the recorded entry again gives the same placement: an
      overridden value is kept and a default one is the default again. */
  lemma ResolveRecorded(e: RegistryEntry, defaults: AppSettings, job: Jobs.GenerationJob, className: string,
                        names: seq<string>, types: seq<string>, scriptableClassName: string, now: string)
    ensures var p := Resolve(e, defaults);
      Resolve(EntryFor(job, className, names, types, scriptableClassName, p, now), defaults) == p
  {
  }

  /** An entry that overrides nothing is generated with the defaults; one
      that overrides everything, with its own values. */
  lemma ResolveExtremes(e: RegistryEntry, defaults: AppSettings)
    ensures !e.OverrideScriptOutputPath && !e.OverrideScriptableScriptOutputPath && !e.OverrideAssetOutputPath
            && !e.OverrideNamespace && !e.OverrideScriptableNamespace
            ==> Resolve(e, defaults) == DefaultPlacement(defaults, PlacementOf(e))
    ensures e.OverrideScriptOutputPath && e.OverrideScriptableScriptOutputPath && e.OverrideAssetOutputPath
            && e.OverrideNamespace && e.OverrideScriptableNamespace
            ==> Resolve(e, defaults) == PlacementOf(e)
  {
  }

  /** The entry `AddNewEntry` registers: the trimmed key, the project
      defaults, no overrides, no asset yet, empty remembered lists, and the
      sync stamp the entry's field initialiser takes from the clock, `now`. */
  function NewEntry(sheetId: string, sheetName: string, sheetType: SheetDataType, defaults: AppSettings, now: string): (e: RegistryEntry)
    ensures e.SheetId == Trim(sheetId) && e.SheetName == Trim(sheetName) && e.SheetType == sheetType
    ensures PlacementOf(e) == DefaultPlacement(defaults, PlacementOf(e))
    ensures !e.OverrideScriptOutputPath && !e.OverrideScriptableScriptOutputPath && !e.OverrideAssetOutputPath
    ensures !e.OverrideNamespace && !e.OverrideScriptableNamespace
    ensures e.AssetRelativePath == "" && e.LastFieldNames == Some([]) && e.LastFieldTypes == Some([])
    ensures e.LastSyncedUtc == now
  {
    RegistryEntry(Trim(sheetId), Trim(sheetName), sheetType, "", "", "", "",
                  defaults.ScriptOutputPath, GetDefaultScriptablePath(defaults), defaults.AssetOutputPath,
                  defaults.Namespace, GetDefaultScriptableNamespace(defaults),
                  false, false, false, false, false, "", now, Some([]), Some([]))
  }

  /** A new entry is generated with the defaults of the moment it is
      generated, since it overrides nothing. */
  lemma NewEntryFollowsDefaults(sheetId: string, sheetName: string, sheetType: SheetDataType,
                                defaults: AppSettings, now: string, later: AppSettings)
    ensures var e := NewEntry(sheetId, sheetName, sheetType, defaults, now);
      Resolve(e, later) == DefaultPlacement(later, PlacementOf(e))
  {
  }

  /** The state of the window that `AddNewEntry` reads and writes. */
  class AssetManagerWindow {
    var registry: AssetRegistry
    var defaults: AppSettings
    var selectedIndex: int
    var newSheetId: string
    var newSheetName: string
    var newSheetType: SheetDataType

    constructor (registry: AssetRegistry, defaults: AppSettings)
      ensures this.registry == registry && this.defaults == defaults
      ensures selectedIndex == -1 && newSheetId == "" && newSheetName == "" && newSheetType == Table
    {
      this.registry := registry;
      this.defaults := defaults;
      selectedIndex := -1;
      newSheetId := "";
      newSheetName := "";
      newSheetType := Table;
    }

    /** AddNewEntry: a blank id or name is refused with nothing changed;
        otherwise the new entry, stamped with the current UTC time `now`, is
        upserted, the last entry is selected and the two input fields are
        cleared. */
    method AddNewEntry(now: string) returns (added: bool)
      modifies this, registry
      ensures added <==> !IsBlank(old(newSheetId)) && !IsBlank(old(newSheetName))
      ensures registry == old(registry) && defaults == old(defaults) && newSheetType == old(newSheetType)
      ensures !added ==>
        registry.entries == old(registry.entries) && selectedIndex == old(selectedIndex)
        && newSheetId == old(newSheetId) && newSheetName == old(newSheetName)
      ensures added ==>
        registry.entries == Upserted(old(registry.entries), NewEntry(old(newSheetId), old(newSheetName), newSheetType, defaults, now))
        && selectedIndex == |registry.entries| - 1 && newSheetId == "" && newSheetName == ""
    {
      if IsBlank(newSheetId) || IsBlank(newSheetName) {
        return false;
      }
      var entry := NewEntry(newSheetId, newSheetName, newSheetType, defaults, now);
      registry.Upsert(entry);
      selectedIndex := |registry.entries| - 1;
      newSheetId := "";
      newSheetName := "";
      return true;
    }
  }

  /** After adding a sheet that was not registered, the selection is the
      new entry; when the key was already there the entry is overwritten in
      place and the selection is the last entry, whichever it is. */
  lemma AddedEntrySelection(entries: seq<RegistryEntry>, e: RegistryEntry)
    ensures var after := Upserted(entries, e);
      var found := FindIndex(entries, e.SheetId, e.SheetName);
      (found.None? ==> after[|after| - 1] == e)
      && (found.Some? ==> |after| == |entries| && SameKey(after[found.value], e.SheetId, e.SheetName))
  {
    var found := FindIndex(entries, e.SheetId, e.SheetName);
    if found.Some? {
      var after := Upserted(entries, e);
      assert after[found.value].SheetId == entries[found.value].SheetId;
      assert after[found.value].SheetName == entries[found.value].SheetName;
    }
  }

  /** No two consecutive '/' characters. */
  predicate NoDoubleSlash(s: string) {
    forall i :: 0 <= i < |s| - 1 ==> !(s[i] == '/' && s[i + 1] == '/')
  }

  lemma {:induction false} ReplaceAbsent(s: string)
    requires NoDoubleSlash(s)
    ensures Replace(s, "//", "/") == s
    decreases |s|
  {
    if |s| >= 2 {
      assert s[..2] != "//" by {
        assert !(s[0] == '/' && s[1] == '/');
      }
      ReplaceAbsent(s[1..]);
      assert [s[0]] + s[1..] == s;
    }
  }

  /** CombineAssetPath: "" for a blank folder; otherwise the folder with
      forward slashes and no trailing '/', a '/', and the file name, then
      every "//" replaced by "/". */
  function CombineAssetPath(folder: string, fileName: string): (r: string)
    ensures IsBlank(folder) ==> r == ""
    ensures !IsBlank(folder) ==> r == Replace(Normalize(folder) + "/" + fileName, "//", "/")
  {
    if IsBlank(folder) then ""
    else
      var normalized := TrimEndChar(ReplaceChar(folder, '\\', '/'), '/');
      Replace(normalized + "/" + fileName, "//", "/")
  }

  /** A folder without doubled slashes and a plain file name are joined
      with exactly one '/'. */
  lemma CombineAssetPathJoins(folder: string, fileName: string)
    requires !IsBlank(folder) && NoDoubleSlash(Normalize(folder))
    requires '/' !in fileName
    ensures CombineAssetPath(folder, fileName) == Normalize(folder) + "/" + fileName
  {
    var n := Normalize(folder);
    var s := n + "/" + fileName;
    forall i | 0 <= i < |s| - 1
      ensures !(s[i] == '/' && s[i + 1] == '/')
    {
      if i < |n| - 1 {
        assert s[i] == n[i] && s[i + 1] == n[i + 1];
      } else if i == |n| - 1 {
        assert s[i] == n[|n| - 1];
      } else {
        assert s[i + 1] == fileName[i - |n|];
      }
    }
    ReplaceAbsent(s);
  }

  /** NormalizeAssetPath: "" for a blank path; a path that, with forward
      slashes, starts with "Assets" in any case is kept; anything else is
      made absolute and then project-relative, which fails outside the
      project. */
  function NormalizeAssetPath(root: string, path: string): (r: Result<string, string>)
    ensures IsBlank(path) ==> r == Success("")
    ensures !IsBlank(path) && StartsWithIgnoreCase(ReplaceChar(path, '\\', '/'), AssetsFolder) ==>
      r == Success(ReplaceChar(path, '\\', '/'))
    ensures r.Success? ==> '\\' !in r.value
  {
    if IsBlank(path) then Success("")
    else
      var normalized := ReplaceChar(path, '\\', '/');
      if StartsWithIgnoreCase(normalized, AssetsFolder) then Success(normalized)
      else ToAssetRelative(root, ToAbsolutePath(root, normalized))
  }

  /** An absolute path inside the project comes out as its project-relative
      part. */
  lemma NormalizeAbsoluteAssetPath(root: string, relative: string)
    requires IsRooted(root) && Normalize(root) == root
    requires relative != [] && Normalize(relative) == relative
    ensures NormalizeAssetPath(root, RootPrefix(root) + relative) == Success(relative)
  {
    var path := RootPrefix(root) + relative;
    assert path[0] == '/';
    assert !IsBlank(path) by {
      assert !IsWhiteSpace(path[0]);
    }
    NormalizeFixedPoints(relative);
    assert '\\' !in path;
    ReplaceCharAbsent(path, '\\', '/');
    assert !StartsWithIgnoreCase(path, AssetsFolder) by {
      if |AssetsFolder| <= |path| {
        assert ToLower(path[..|AssetsFolder|])[0] == '/';
      }
    }
    AssetRelativeRoundTrip(root, relative);
  }

  /** A path under "Assets" with forward slashes is kept as it is. */
  lemma AssetsPathKept(root: string, path: string)
    requires '\\' !in path && StartsWithIgnoreCase(path, AssetsFolder)
    ensures NormalizeAssetPath(root, path) == Success(path)
  {
    ReplaceCharAbsent(path, '\\', '/');
    assert !IsBlank(path) by {
      assert ToLower(path[..|AssetsFolder|])[0] == ToLower(AssetsFolder)[0];
      assert !IsWhiteSpace(path[0]);
    }
  }

  /** A path the helper returns under "Assets" is returned unchanged by a
      second call. */
  lemma NormalizeAssetPathStable(root: string, path: string)
    requires NormalizeAssetPath(root, path).Success?
    requires StartsWithIgnoreCase(NormalizeAssetPath(root, path).value, AssetsFolder)
    ensures NormalizeAssetPath(root, NormalizeAssetPath(root, path).value) == NormalizeAssetPath(root, path)
  {
    AssetsPathKept(root, NormalizeAssetPath(root, path).value);
  }
}
