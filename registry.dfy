/** The asset registry: one entry per registered sheet, keyed by sheet id
    and sheet name compared ordinal-ignore-case, and the helper that records
    a generation run in it. */
module Registry {
  import opened Wrappers
  import opened Text
  import opened SheetData
  import opened Jobs

  /** What the registry remembers about one sheet. The two field lists may
      be null in a deserialised entry. */
  datatype RegistryEntry = RegistryEntry(
    SheetId: string,
    SheetName: string,
    SheetType: SheetDataType,
    DataClassName: string,
    ScriptableClassName: string,
    DataClassFullName: string,
    ScriptableObjectFullName: string,
    ScriptOutputPath: string,
    ScriptableScriptOutputPath: string,
    AssetOutputPath: string,
    Namespace: string,
    ScriptableNamespace: string,
    OverrideScriptOutputPath: bool,
    OverrideScriptableScriptOutputPath: bool,
    OverrideAssetOutputPath: bool,
    OverrideNamespace: bool,
    OverrideScriptableNamespace: bool,
    AssetRelativePath: string,
    LastSyncedUtc: string,
    LastFieldNames: Option<seq<string>>,
    LastFieldTypes: Option<seq<string>>)

  /** The key match of `Upsert`, `Remove` and the windows. */
  predicate SameKey(e: RegistryEntry, sheetId: string, sheetName: string) {
    EqualsIgnoreCase(e.SheetId, sheetId) && EqualsIgnoreCase(e.SheetName, sheetName)
  }

  predicate KeysUnique(entries: seq<RegistryEntry>) {
    forall i, j {:trigger SameKey(entries[i], entries[j].SheetId, entries[j].SheetName)} :: 0 <= i < j < |entries| ==> !SameKey(entries[i], entries[j].SheetId, entries[j].SheetName)
  }

  /** `List.Find`: the index of the first entry with the key. */
  function FindIndex(entries: seq<RegistryEntry>, sheetId: string, sheetName: string): (r: Option<nat>)
    ensures r.Some? ==> r.value < |entries| && SameKey(entries[r.value], sheetId, sheetName)
    ensures r.Some? ==> forall k :: 0 <= k < r.value ==> !SameKey(entries[k], sheetId, sheetName)
    ensures r.None? ==> forall k :: 0 <= k < |entries| ==> !SameKey(entries[k], sheetId, sheetName)
  {
    FindFrom(entries, sheetId, sheetName, 0)
  }

  /** The scan of `List.Find` from position `from` on. */
  function FindFrom(entries: seq<RegistryEntry>, sheetId: string, sheetName: string, from: nat): (r: Option<nat>)
    requires from <= |entries|
    ensures r.Some? ==> from <= r.value < |entries| && SameKey(entries[r.value], sheetId, sheetName)
    ensures r.Some? ==> forall k :: from <= k < r.value ==> !SameKey(entries[k], sheetId, sheetName)
    ensures r.None? ==> forall k :: from <= k < |entries| ==> !SameKey(entries[k], sheetId, sheetName)
    decreases |entries| - from
  {
    if from == |entries| then None
    else if SameKey(entries[from], sheetId, sheetName) then Some(from)
    else FindFrom(entries, sheetId, sheetName, from + 1)
  }

  /** The update branch of `Upsert`: every field of the new entry except the
      key, whose stored spelling is kept; the field lists are copied, a null
      list as an empty one. */
  function Overwrite(existing: RegistryEntry, entry: RegistryEntry): (r: RegistryEntry)
    ensures r.SheetId == existing.SheetId && r.SheetName == existing.SheetName
    ensures r.LastFieldNames == Some(entry.LastFieldNames.GetOr([]))
    ensures r.LastFieldTypes == Some(entry.LastFieldTypes.GetOr([]))
    ensures r.(SheetId := entry.SheetId, SheetName := entry.SheetName,
               LastFieldNames := entry.LastFieldNames, LastFieldTypes := entry.LastFieldTypes) == entry
  {
    entry.(SheetId := existing.SheetId, SheetName := existing.SheetName,
           LastFieldNames := Some(entry.LastFieldNames.GetOr([])),
           LastFieldTypes := Some(entry.LastFieldTypes.GetOr([])))
  }

  /** Keys compare as ASCII-lowered strings, so matching is an
      equivalence. */
  lemma SameKeyTransitive(a: RegistryEntry, b: RegistryEntry, c: RegistryEntry)
    requires SameKey(a, b.SheetId, b.SheetName) && SameKey(b, c.SheetId, c.SheetName)
    ensures SameKey(a, c.SheetId, c.SheetName)
  {
  }

  /** The entries after `Upsert`: a new key is appended at the end;
      otherwise the first entry with the key is overwritten where it stands.
      Entries under other keys stay where they were. */
  function Upserted(entries: seq<RegistryEntry>, entry: RegistryEntry): (r: seq<RegistryEntry>)
    ensures FindIndex(entries, entry.SheetId, entry.SheetName).None? ==> |r| == |entries| + 1 && r[|entries|] == entry
    ensures FindIndex(entries, entry.SheetId, entry.SheetName).Some? ==> |r| == |entries|
    ensures forall k {:trigger r[k]} :: 0 <= k < |entries| && !SameKey(entries[k], entry.SheetId, entry.SheetName) ==> r[k] == entries[k]
    ensures forall k {:trigger r[k]} :: 0 <= k < |entries| ==> r[k].SheetId == entries[k].SheetId && r[k].SheetName == entries[k].SheetName
  {
    var found := FindIndex(entries, entry.SheetId, entry.SheetName);
    if found.None? then entries + [entry]
    else entries[found.value := Overwrite(entries[found.value], entry)]
  }

  class AssetRegistry {
    var entries: seq<RegistryEntry>

    constructor ()
      ensures entries == []
    {
      entries := [];
    }

    /** Upsert: `Find` on the key, then `Add` or a field-by-field overwrite
        of the match. */
    method Upsert(entry: RegistryEntry)
      modifies this
      ensures entries == Upserted(old(entries), entry)
      ensures KeysUnique(old(entries)) ==> KeysUnique(entries)
    {
      var found := FindIndex(entries, entry.SheetId, entry.SheetName);
      if found.None? {
        entries := entries + [entry];
      } else {
        var i := found.value;
        entries := entries[i := Overwrite(entries[i], entry)];
      }
      if KeysUnique(old(entries)) {
        UniqueAfterUpsert(old(entries), entry);
      }
    }

    /** Remove: drops every entry with the key. */
    method Remove(sheetId: string, sheetName: string)
      modifies this
      ensures entries == Without(old(entries), sheetId, sheetName)
    {
      entries := Without(entries, sheetId, sheetName);
    }

    method Clear()
      modifies this
      ensures entries == []
    {
      entries := [];
    }
  }

  /** `RemoveAll` of the entries with the key, the others in order. */
  function Without(entries: seq<RegistryEntry>, sheetId: string, sheetName: string): (r: seq<RegistryEntry>)
    ensures |r| <= |entries|
    ensures forall k :: 0 <= k < |r| ==> !SameKey(r[k], sheetId, sheetName)
  {
    if entries == [] then []
    else
      var rest := Without(entries[..|entries| - 1], sheetId, sheetName);
      if SameKey(entries[|entries| - 1], sheetId, sheetName) then rest else rest + [entries[|entries| - 1]]
  }

  /** Exactly the entries without the key are kept. */
  lemma {:induction false} WithoutMembers(entries: seq<RegistryEntry>, sheetId: string, sheetName: string, e: RegistryEntry)
    ensures e in Without(entries, sheetId, sheetName) <==> e in entries && !SameKey(e, sheetId, sheetName)
    decreases |entries|
  {
    if entries != [] {
      var init := entries[..|entries| - 1];
      WithoutMembers(init, sheetId, sheetName, e);
      assert entries == init + [entries[|entries| - 1]];
    }
  }

  /** Upsert keeps the keys unique. */
  lemma UniqueAfterUpsert(entries: seq<RegistryEntry>, entry: RegistryEntry)
    requires KeysUnique(entries)
    ensures KeysUnique(Upserted(entries, entry))
  {
    var after := Upserted(entries, entry);
    forall a, b | 0 <= a < b < |after|
      ensures !SameKey(after[a], after[b].SheetId, after[b].SheetName)
    {
      if b == |entries| {
        assert after[b] == entry;
        assert !SameKey(entries[a], entry.SheetId, entry.SheetName);
      } else {
        assert !SameKey(entries[a], entries[b].SheetId, entries[b].SheetName);
      }
    }
  }

  /** Under unique keys, exactly one entry has the key afterwards: the
      appended entry, or the overwritten first match. */
  lemma UpsertedOnce(entries: seq<RegistryEntry>, entry: RegistryEntry)
    requires KeysUnique(entries)
    ensures var found := FindIndex(entries, entry.SheetId, entry.SheetName);
      var after := Upserted(entries, entry);
      var i := if found.None? then |entries| else found.value;
      i < |after| && SameKey(after[i], entry.SheetId, entry.SheetName)
      && (forall k :: 0 <= k < |after| && k != i ==> !SameKey(after[k], entry.SheetId, entry.SheetName))
  {
    var found := FindIndex(entries, entry.SheetId, entry.SheetName);
    if found.Some? {
      var i := found.value;
      forall k | 0 <= k < |entries| && k != i
        ensures !SameKey(entries[k], entry.SheetId, entry.SheetName)
      {
        if k > i && SameKey(entries[k], entry.SheetId, entry.SheetName) {
          SymmetricKey(entries[k], entry);
          SameKeyTransitive(entries[i], entry, entries[k]);
        }
      }
    }
  }

  lemma SymmetricKey(a: RegistryEntry, b: RegistryEntry)
    requires SameKey(a, b.SheetId, b.SheetName)
    ensures SameKey(b, a.SheetId, a.SheetName)
  {
  }

  /** Where a sheet's outputs go: the three output folders, the two
      namespaces, and whether each one overrides the project default. */
  datatype Placement = Placement(
    ScriptOutputPath: string,
    ScriptableScriptOutputPath: string,
    AssetOutputPath: string,
    Namespace: string,
    ScriptableNamespace: string,
    OverrideScriptOutputPath: bool,
    OverrideScriptableScriptOutputPath: bool,
    OverrideAssetOutputPath: bool,
    OverrideNamespace: bool,
    OverrideScriptableNamespace: bool)

  function PlacementOf(e: RegistryEntry): Placement {
    Placement(e.ScriptOutputPath, e.ScriptableScriptOutputPath, e.AssetOutputPath, e.Namespace, e.ScriptableNamespace,
              e.OverrideScriptOutputPath, e.OverrideScriptableScriptOutputPath, e.OverrideAssetOutputPath,
              e.OverrideNamespace, e.OverrideScriptableNamespace)
  }

  /** The entry recorded for a generation run: the key, sheet type, full
      type names and asset path from the job; the data class name and a copy
      of the field lists from the parse; the rest from the caller; stamped
      with `now`. */
  function EntryFor(job: GenerationJob, className: string, fieldNames: seq<string>, fieldTypes: seq<string>,
                    scriptableClassName: string, p: Placement, now: string): (e: RegistryEntry)
    ensures e.SheetId == job.SheetId && e.SheetName == job.SheetName && e.SheetType == job.SheetType
    ensures e.DataClassFullName == job.DataClassFullName && e.ScriptableObjectFullName == job.ScriptableObjectFullName
    ensures e.AssetRelativePath == job.AssetRelativePath
    ensures e.DataClassName == className && e.ScriptableClassName == scriptableClassName
    ensures PlacementOf(e) == p && e.LastSyncedUtc == now
    ensures e.LastFieldNames == Some(fieldNames) && e.LastFieldTypes == Some(fieldTypes)
  {
    RegistryEntry(job.SheetId, job.SheetName, job.SheetType, className, scriptableClassName,
                  job.DataClassFullName, job.ScriptableObjectFullName,
                  p.ScriptOutputPath, p.ScriptableScriptOutputPath, p.AssetOutputPath, p.Namespace, p.ScriptableNamespace,
                  p.OverrideScriptOutputPath, p.OverrideScriptableScriptOutputPath, p.OverrideAssetOutputPath,
                  p.OverrideNamespace, p.OverrideScriptableNamespace,
                  job.AssetRelativePath, now, Some(fieldNames), Some(fieldTypes))
  }

  /** UpsertEntry: records a generation run in the registry under the job's
      key. The clock reading is the parameter `now`. */
  method UpsertEntry(registry: AssetRegistry, job: GenerationJob, parsed: ParsedSheetData,
                     scriptableClassName: string, p: Placement, now: string)
    modifies registry
    ensures registry.entries
         == Upserted(old(registry.entries),
                     EntryFor(job, parsed.ClassName, parsed.FieldNames, parsed.FieldTypes, scriptableClassName, p, now))
    ensures KeysUnique(old(registry.entries)) ==> KeysUnique(registry.entries)
  {
    var entry := EntryFor(job, parsed.ClassName, parsed.FieldNames, parsed.FieldTypes, scriptableClassName, p, now);
    registry.Upsert(entry);
  }

  /** After recording a run, an entry under the job's key carries every
      recorded value (the key keeps its stored spelling), and entries under
      other keys are untouched. */
  lemma UpsertEntryRecords(entries: seq<RegistryEntry>, e: RegistryEntry)
    requires e.LastFieldNames.Some? && e.LastFieldTypes.Some?
    ensures var after := Upserted(entries, e);
      (exists i :: 0 <= i < |after| && SameKey(after[i], e.SheetId, e.SheetName)
                   && after[i].(SheetId := e.SheetId, SheetName := e.SheetName) == e)
      && forall k :: 0 <= k < |entries| && !SameKey(entries[k], e.SheetId, e.SheetName) ==> after[k] == entries[k]
  {
    var after := Upserted(entries, e);
    var found := FindIndex(entries, e.SheetId, e.SheetName);
    var i := if found.None? then |entries| else found.value;
    if found.None? {
      assert after[i] == e;
      assert SameKey(e, e.SheetId, e.SheetName);
    }
    assert after[i].(SheetId := e.SheetId, SheetName := e.SheetName) == e;
  }
}
