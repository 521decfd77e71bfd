# GSheetToData for Unity, modelled in Dafny

GSheetToData is a Unity editor package. It turns a Google Sheet into three things:
- a C# record class, built from the sheet's header rows;
- a ScriptableObject container class;
- a JSON payload that becomes the container's asset once the editor has compiled the new classes.

Generated data survives the script reload in a pending-job queue. A drain pass after every reload builds the assets whose classes now exist. It retries the rest on the next editor update.

This project models that pipeline and proves properties of it. The modules:

- `TypeTokens`, `ClassGenerator`, `JsonGenerator`, `TokenReaders` cover the header type tokens (`int`, `string[]`, `pair<int,string>`). The class generator and the JSON generator each read them their own way, and `TokenReaders` states where the two readings agree and where they part.
  - `ClassGenerator` renders the record class.
  - `JsonGenerator` converts cells into an RFC 8259 JSON value tree.
- `SheetData` and `DataParser` turn a sheet's grid into field types, field names and data rows. A table sheet has one record per row; a const sheet has one field per row.
- `GenerationUtilities` covers namespace wrapping, full names, the project-relative check and the shared container class. `EditorContainer` is the generator window's container variant, which has sheet metadata.
- `Jobs` is the job record and the job store. `JobProcessor` is the drain pass. `AssetBuilder` builds one asset from a job against an abstract reflection environment and asset database.
- `Registry` is the asset registry: a case-insensitive keyed upsert and remove, and the entry recorded after each run.
- `PathUtility` derives path strings from the project root. `Settings` covers the settings object, its link rules, and the store that persists it.
- `AssetManager` holds the asset manager window's logic: the schema diff and its confirmation gate, the diff message, override resolution, adding a sheet, and the asset-path helpers. `EditorValidation` and `EditorWindow` cover the generator window's validation order and generation step.
- `Wrappers`, `Seqs` and `Text` hold Option/Result and the string primitives of the .NET base library the code relies on. Examples are trimming, splitting, line splitting, ASCII lower-casing and character replacement.

The model follows each file's form:
- Code that fills lists in loops becomes a method with loop invariants, proved equal to a reference function. Examples are the class generator, the row converter and the parsers.
- Objects whose fields change become classes. Examples are the parsed sheet, the job store, the registry, the settings store, the asset database and the windows.
- Pure string logic becomes functions with lemmas.

`Environment.NewLine` and the current time are parameters. The project root is a parameter too.

The job store's drain removes only the jobs whose build returned true, plus any stored job with the same identity (enqueue time and container name). Jobs whose classes are not yet compiled stay for the next pass. The model follows this code.

## Model

| member | source | states |
|---|---|---|
| ClassGenerator.Pluralize | Packages/com.arandra.gsheet-to-data/Editor/GSheetToDataCore/ClassGenerator.cs:50-70 | A blank name comes back unchanged; any other name gets a result ending in "s" that is longer than the name and keeps all of it except possibly its last character (the "es", "ies" and "s" rules). |
| ClassGenerator.PluralizeChanges | Packages/com.arandra.gsheet-to-data/Editor/GSheetToDataCore/ClassGenerator.cs:50-70 | Pluralising a non-blank name always changes it. |
| ClassGenerator.GetCSharpType | Packages/com.arandra.gsheet-to-data/Editor/GSheetToDataCore/ClassGenerator.cs:112-150 | The rendered type is a `List<...>` exactly when the token ends in `[]`, in any letter case. |
| ClassGenerator.GetDefaultValue | Packages/com.arandra.gsheet-to-data/Editor/GSheetToDataCore/ClassGenerator.cs:72-110 | The default literal is the untyped `default` exactly when the rendered type is `object`. |
| ClassGenerator.DefaultMatchesType | Packages/com.arandra.gsheet-to-data/Editor/GSheetToDataCore/ClassGenerator.cs:72-150 | Both renderers read a token the same way: a list type's default is `new List<..>()`, a pair type's is `default(Pair<..>)`, and `object` goes with `default`. |
| ClassGenerator.PairArityFallback | Packages/com.arandra.gsheet-to-data/Editor/GSheetToDataCore/ClassGenerator.cs:116-130 | A pair token whose arguments do not split into exactly two renders as `object`, with the untyped `default`. |
| ClassGenerator.ThreeArgumentPairFallback | Packages/com.arandra.gsheet-to-data/Editor/GSheetToDataCore/ClassGenerator.cs:122-130 | A pair token with three comma-free arguments renders as `object` with `default`. |
| ClassGenerator.NestedPairFallback | Packages/com.arandra.gsheet-to-data/Editor/GSheetToDataCore/ClassGenerator.cs:122-130 | A pair argument that is itself a pair, `pair<pair<K,V>,W>` with comma-free K, V and W, splits into three arguments on the inner comma. The token renders as `object` with `default`. |
| ClassGenerator.SingleArgumentPairFallback | Packages/com.arandra.gsheet-to-data/Editor/GSheetToDataCore/ClassGenerator.cs:122-130 | `pair<A>` with a comma-free A has one argument and renders as `object` with `default`. |
| ClassGenerator.ListRenderIffList | Packages/com.arandra.gsheet-to-data/Editor/GSheetToDataCore/ClassGenerator.cs:33-41 | A rendered type starts with "List<" exactly when the token reads as a list. |
| ClassGenerator.MemberName | Packages/com.arandra.gsheet-to-data/Editor/GSheetToDataCore/ClassGenerator.cs:36-40 | An array token gives a member named by the pluralised field name; any other token keeps the raw name, with no validation. |
| ClassGenerator.MemberLines | Packages/com.arandra.gsheet-to-data/Editor/GSheetToDataCore/ClassGenerator.cs:27-43 | There is one member line per index below both list lengths, in schema order. |
| ClassGenerator.ClassLinesShape | Packages/com.arandra.gsheet-to-data/Editor/GSheetToDataCore/ClassGenerator.cs:17-47 | The class is the fixed header with `public class <name>`, then exactly one member line per field that has both a name and a type, then "}". |
| ClassGenerator.SurplusIgnored | Packages/com.arandra.gsheet-to-data/Editor/GSheetToDataCore/ClassGenerator.cs:27-30 | Names or types beyond the shorter list produce no line. |
| ClassGenerator.GenerateClassString | Packages/com.arandra.gsheet-to-data/Editor/GSheetToDataCore/ClassGenerator.cs:10-48 | The text is empty for a missing sheet or an empty class name. Otherwise it is the class lines, each ended by the line break. |
| ClassGenerator.ArrayTokenRead | Packages/com.arandra.gsheet-to-data/Editor/GSheetToDataCore/ClassGenerator.cs:116-120 | A `[]` suffix reads as a list of what precedes it, recursively. |
| ClassGenerator.PairTokenRead | Packages/com.arandra.gsheet-to-data/Editor/GSheetToDataCore/ClassGenerator.cs:122-136 | `pair<K,V>` with comma-free, trimmed arguments reads as the pair of the two readings. |
| ClassGenerator.PlainTokenRead | Packages/com.arandra.gsheet-to-data/Editor/GSheetToDataCore/ClassGenerator.cs:138-149 | A lower-case token that ends in neither `]` nor `>` goes to the keyword switch. |
| ClassGenerator.KeywordTokenRead | Packages/com.arandra.gsheet-to-data/Editor/GSheetToDataCore/ClassGenerator.cs:138-149 | Keyword tokens and unknown tokens read back as themselves. |
| ClassGenerator.PrimKeyword | Packages/com.arandra.gsheet-to-data/Editor/GSheetToDataCore/ClassGenerator.cs:138-149 | Each of the five keywords reads as its primitive. |
| ClassGenerator.TokenRoundTrip | Packages/com.arandra.gsheet-to-data/Editor/GSheetToDataCore/ClassGenerator.cs:112-150 | Reading the canonical text of any token shape gives that shape back, as long as no pair argument itself contains a pair. |
| TypeTokens.PairNotArray | Packages/com.arandra.gsheet-to-data/Editor/GSheetToDataCore/ClassGenerator.cs:116-122 | A pair token ends in `>`, so the array check, which is made first, never takes it. |
| TypeTokens.PairArgs | Packages/com.arandra.gsheet-to-data/Editor/GSheetToDataCore/ClassGenerator.cs:124-125 | The pair arguments are the trimmed comma-separated pieces. There is at least one, and none contains a comma. |
| TypeTokens.PairArgsOf | Packages/com.arandra.gsheet-to-data/Editor/GSheetToDataCore/ClassGenerator.cs:124-125 | The arguments of `pair<K,V>` with comma-free, trimmed K and V are exactly [K, V]. |
| JsonGenerator.PairGroups | Packages/com.arandra.gsheet-to-data/Editor/GSheetToDataCore/JsonGenerator.cs:106-107 | Every match of the pair regex is free of `)` and shorter than the cell. |
| JsonGenerator.PairGroupsRoundTrip | Packages/com.arandra.gsheet-to-data/Editor/GSheetToDataCore/JsonGenerator.cs:106-115 | Parenthesised groups joined by any separator without `(` are read back by the regex, all of them and in order. |
| JsonGenerator.PairGroupsSkip | Packages/com.arandra.gsheet-to-data/Editor/GSheetToDataCore/JsonGenerator.cs:106-107 | Text without `(` before the first match is ignored. |
| JsonGenerator.Components | Packages/com.arandra.gsheet-to-data/Editor/GSheetToDataCore/JsonGenerator.cs:119 | The items of an array cell are non-empty and comma-free. |
| JsonGenerator.ComponentsRoundTrip | Packages/com.arandra.gsheet-to-data/Editor/GSheetToDataCore/JsonGenerator.cs:119 | Non-empty, trimmed, comma-free items joined by commas split back into the same items. |
| JsonGenerator.StripParens | Packages/com.arandra.gsheet-to-data/Editor/GSheetToDataCore/JsonGenerator.cs:158-162 | Exactly one enclosing pair of parentheses is removed, and only when both are present. |
| JsonGenerator.PairParts | Packages/com.arandra.gsheet-to-data/Editor/GSheetToDataCore/JsonGenerator.cs:157-163 | A pair cell always has at least one part. |
| JsonGenerator.PairPartsOf | Packages/com.arandra.gsheet-to-data/Editor/GSheetToDataCore/JsonGenerator.cs:157-165 | The cell `(a,b)` with comma-free, trimmed a and b has exactly the parts [a, b]. |
| JsonGenerator.GroupCells | Packages/com.arandra.gsheet-to-data/Editor/GSheetToDataCore/JsonGenerator.cs:110-114 | Each regex group is trimmed and put back in parentheses, one cell per group and in order. |
| JsonGenerator.ConvertEach | Packages/com.arandra.gsheet-to-data/Editor/GSheetToDataCore/JsonGenerator.cs:120-123 | One converted value per item. |
| JsonGenerator.ConvertToTypedObject | Packages/com.arandra.gsheet-to-data/Editor/GSheetToDataCore/JsonGenerator.cs:80-201 | The loop-based conversion gives exactly the reference conversion `ConvertCell`. |
| JsonGenerator.ConvertArray | Packages/com.arandra.gsheet-to-data/Editor/GSheetToDataCore/JsonGenerator.cs:84-126 | The array branch, which appends element by element, gives the reference array conversion. |
| JsonGenerator.ConvertPair | Packages/com.arandra.gsheet-to-data/Editor/GSheetToDataCore/JsonGenerator.cs:128-180 | The pair branch gives the reference pair conversion. |
| JsonGenerator.ScalarBranch | Packages/com.arandra.gsheet-to-data/Editor/GSheetToDataCore/JsonGenerator.cs:182-200 | A token that is neither array nor pair syntax goes through the empty-cell default or the keyword switch on its lower-cased form. |
| JsonGenerator.SystemTypeShape | Packages/com.arandra.gsheet-to-data/Editor/GSheetToDataCore/JsonGenerator.cs:222-257 | A resolved token is a keyword or a pair and never array syntax. It is a pair exactly when it has pair syntax. |
| JsonGenerator.DefaultOfSystemType | Packages/com.arandra.gsheet-to-data/Editor/GSheetToDataCore/JsonGenerator.cs:203-220 | Outside pair syntax, GetSystemType and GetPrimitiveDefault know the same five keywords. Each resolved keyword's default is its zero, and an unknown token's default is null. |
| JsonGenerator.EmptyCell | Packages/com.arandra.gsheet-to-data/Editor/GSheetToDataCore/JsonGenerator.cs:182-185 | An empty or null cell under a keyword is that keyword's zero. Under any other scalar token it is null, and only then. |
| JsonGenerator.TextCell | Packages/com.arandra.gsheet-to-data/Editor/GSheetToDataCore/JsonGenerator.cs:187-200 | Text under int, float or double is the parsed number, or zero when it does not parse. A bool is true only when the text parses as true. A string, or any other scalar token, keeps the text. |
| JsonGenerator.PrimitiveNeverNull | Packages/com.arandra.gsheet-to-data/Editor/GSheetToDataCore/JsonGenerator.cs:182-200 | A resolved keyword token never converts to null. |
| JsonGenerator.ArrayCell | Packages/com.arandra.gsheet-to-data/Editor/GSheetToDataCore/JsonGenerator.cs:84-126 | An element token that does not resolve gives null. A blank cell gives []. Otherwise each item converts in order under the element token, using regex groups for pair elements and comma components for the rest. |
| JsonGenerator.PairsDoNotNest | Packages/com.arandra.gsheet-to-data/Editor/GSheetToDataCore/JsonGenerator.cs:226-245 | A resolvable token without a comma is a keyword, so a pair's argument can never be a pair. |
| JsonGenerator.PairCell | Packages/com.arandra.gsheet-to-data/Editor/GSheetToDataCore/JsonGenerator.cs:128-179 | The cell `(a,b)` under a pair token whose two arguments resolve is the pair of a and b, each converted under its own argument. |
| JsonGenerator.PairBranch | Packages/com.arandra.gsheet-to-data/Editor/GSheetToDataCore/JsonGenerator.cs:157-179 | A cell of exactly two parts that both convert gives the pair of the converted parts. |
| JsonGenerator.CellText | Packages/com.arandra.gsheet-to-data/Editor/GSheetToDataCore/JsonGenerator.cs:73 | An index past the end of the row reads as a null cell. |
| JsonGenerator.Lookup | Packages/com.arandra.gsheet-to-data/Editor/GSheetToDataCore/JsonGenerator.cs:74 | A key has a value exactly when it was written. |
| JsonGenerator.Put | Packages/com.arandra.gsheet-to-data/Editor/GSheetToDataCore/JsonGenerator.cs:74 | After a write the key holds the new value and every other key keeps its value. An existing key keeps its place; a new key goes at the end. |
| JsonGenerator.PutKeepsDistinct | Packages/com.arandra.gsheet-to-data/Editor/GSheetToDataCore/JsonGenerator.cs:58-74 | A dictionary write keeps every key unique. |
| JsonGenerator.FieldCount | Packages/com.arandra.gsheet-to-data/Editor/GSheetToDataCore/JsonGenerator.cs:59-64 | The walk stops at the shorter of the name and type lists. |
| JsonGenerator.CreateObjectFromRow | Packages/com.arandra.gsheet-to-data/Editor/GSheetToDataCore/JsonGenerator.cs:56-78 | The loop gives the reference row object: blank names are skipped and each field's cell is converted under its type. |
| JsonGenerator.TableRows | Packages/com.arandra.gsheet-to-data/Editor/GSheetToDataCore/JsonGenerator.cs:47-51 | A table sheet gives one object per data row, in row order. |
| JsonGenerator.GenerateJson | Packages/com.arandra.gsheet-to-data/Editor/GSheetToDataCore/JsonGenerator.cs:22-54 | A missing sheet gives `[]`. Otherwise the result is the reference value: the first row's object for a const sheet (`{}` with no rows), and the row objects for a table sheet. |
| JsonGenerator.RowKeysDistinct | Packages/com.arandra.gsheet-to-data/Editor/GSheetToDataCore/JsonGenerator.cs:56-78 | Each key appears once in a row object. |
| JsonGenerator.RowLookup | Packages/com.arandra.gsheet-to-data/Editor/GSheetToDataCore/JsonGenerator.cs:59-75 | Row objects are keyed by raw field names. A repeated name holds the value of its last occurrence. |
| TokenReaders.SystemTypeAgrees | Packages/com.arandra.gsheet-to-data/Editor/GSheetToDataCore/JsonGenerator.cs:222-257 | Wherever the JSON reader resolves a token, the class reader reads the same shape. |
| TokenReaders.KeywordFits | Packages/com.arandra.gsheet-to-data/Editor/GSheetToDataCore/JsonGenerator.cs:182-200 | A keyword token converts to a value of its own primitive, whatever the cell holds. |
| TokenReaders.PairCellShape | Packages/com.arandra.gsheet-to-data/Editor/GSheetToDataCore/JsonGenerator.cs:128-179 | A resolvable pair token gives null, the default pair, or the pair of its two converted parts. |
| TokenReaders.UnresolvedPairCell | Packages/com.arandra.gsheet-to-data/Editor/GSheetToDataCore/JsonGenerator.cs:142-148 | A pair token whose arguments do not resolve gives null for every cell. |
| TokenReaders.ResolvedFits | Packages/com.arandra.gsheet-to-data/Editor/GSheetToDataCore/JsonGenerator.cs:80-201 | Every conversion under a resolvable token fits the resolved shape. |
| TokenReaders.ArrayFits | Packages/com.arandra.gsheet-to-data/Editor/GSheetToDataCore/JsonGenerator.cs:84-126 | An array token gives null, or an array whose every item fits the class reading of its element token. |
| TokenReaders.FitsClassType | Packages/com.arandra.gsheet-to-data/Editor/GSheetToDataCore/JsonGenerator.cs:80-201 | For every token except the three aliases, each cell's JSON fits the type of the member the class declares for it. |
| TokenReaders.AliasDiverges | Packages/com.arandra.gsheet-to-data/Editor/GSheetToDataCore/ClassGenerator.cs:138-149 | For each alias `integer`, `number` and `boolean`, in any letter case, the class declares a primitive, but the JSON reader does not resolve the token. It keeps non-empty text as a string, which does not fit, and gives null for an empty cell. With `FitsClassType`, the aliases are exactly the plain tokens whose JSON does not fit. |
| TokenReaders.NestedArrayIsNull | Packages/com.arandra.gsheet-to-data/Editor/GSheetToDataCore/JsonGenerator.cs:84-92 | The class reads `T[][]` as a list of lists, but every JSON cell under it is null. |
| TokenReaders.KeysNotPluralised | Packages/com.arandra.gsheet-to-data/Editor/GSheetToDataCore/JsonGenerator.cs:66-74 | Every field with a non-blank name keeps its raw name as its JSON key. The class member has that same name exactly when the token is not an array token. |
| DataParser.GetCellString | Packages/com.arandra.gsheet-to-data/Editor/GSheetToDataCore/DataParser.cs:78-86 | A missing row, a missing cell or a null cell reads as "". Any other cell reads as its trimmed text. |
| DataParser.CellStringTrimmed | Packages/com.arandra.gsheet-to-data/Editor/GSheetToDataCore/DataParser.cs:85 | Cell texts are always trimmed. |
| DataParser.HeaderStrings | Packages/com.arandra.gsheet-to-data/Editor/GSheetToDataCore/DataParser.cs:43-44 | A header row gives one trimmed text per cell. |
| DataParser.EntryOfShape | Packages/com.arandra.gsheet-to-data/Editor/GSheetToDataCore/DataParser.cs:58-65 | A const row contributes exactly when its trimmed name cell is not blank, and then under that name. |
| DataParser.ConstEntriesAppend | Packages/com.arandra.gsheet-to-data/Editor/GSheetToDataCore/DataParser.cs:56-70 | Const fields keep the order of their rows. |
| DataParser.ConstNamesClean | Packages/com.arandra.gsheet-to-data/Editor/GSheetToDataCore/DataParser.cs:59-68 | Every collected const name is non-blank and trimmed. |
| DataParser.ConstEntriesEmpty | Packages/com.arandra.gsheet-to-data/Editor/GSheetToDataCore/DataParser.cs:62-75 | A const sheet yields no field exactly when every row's name is blank. |
| DataParser.Parse | Packages/com.arandra.gsheet-to-data/Editor/GSheetToDataCore/DataParser.cs:10-34 | A missing grid gives an empty class name and empty lists. Otherwise the class name is the sheet name, and the table or const parse follows the sheet type, which is always recorded. |
| DataParser.ParseTableSheet | Packages/com.arandra.gsheet-to-data/Editor/GSheetToDataCore/DataParser.cs:36-46 | With fewer than two rows nothing changes. Otherwise the types are trimmed row 0, the names are trimmed row 1, and the data is rows 2 onward, untouched. |
| DataParser.ConstRowStep | Packages/com.arandra.gsheet-to-data/Editor/GSheetToDataCore/DataParser.cs:56-70 | A row with a blank name adds nothing. Any other row adds its type, name and raw value (null as "") to the three columns. |
| DataParser.ParseConstSheet | Packages/com.arandra.gsheet-to-data/Editor/GSheetToDataCore/DataParser.cs:48-76 | The loop appends the collected types and names, in lockstep, and adds the values as one data row when any name exists. |
| DataParser.ConstLockstep | Packages/com.arandra.gsheet-to-data/Editor/GSheetToDataCore/DataParser.cs:67-75 | The const types and names have one element per field. The data row exists exactly when some field was collected, and it then has one value per field. |
| SheetData.ParsedSheetData.constructor | Packages/com.arandra.gsheet-to-data/Editor/GSheetToDataCore/ParsedSheetData.cs:14-21 | A new record has an empty class name, empty lists and the Table type. |
| Jobs.NewJob | Packages/com.arandra.gsheet-to-data/Editor/GSheetToDataGenerationJob.cs:10-17 | Every string field of a new job is empty, its type is Table, and it is stamped with the construction time. |
| Jobs.RemoveMatching | Packages/com.arandra.gsheet-to-data/Editor/GSheetToDataJobStore.cs:41-43 | Removing the matches of one completed job never adds anything. |
| Jobs.Survivors | Packages/com.arandra.gsheet-to-data/Editor/GSheetToDataJobStore.cs:36-47 | The reference reading of removal keeps at most the stored jobs. |
| Jobs.RemoveMatchingSurvivors | Packages/com.arandra.gsheet-to-data/Editor/GSheetToDataJobStore.cs:39-44 | Removing one more completed job's matches from the survivors gives the survivors of all completed jobs. |
| Jobs.SurvivorsOfNone | Packages/com.arandra.gsheet-to-data/Editor/GSheetToDataJobStore.cs:36-47 | Removing no completed jobs leaves the store as it is. |
| Jobs.SurvivorsMembers | Packages/com.arandra.gsheet-to-data/Editor/GSheetToDataJobStore.cs:36-47 | A job stays exactly when it was stored and shares its identity with no completed job. |
| Jobs.SurvivorsOfStrangers | Packages/com.arandra.gsheet-to-data/Editor/GSheetToDataJobStore.cs:36-47 | Completed jobs that match no stored job leave the store as it is. |
| Jobs.JobStore.constructor | Packages/com.arandra.gsheet-to-data/Editor/GSheetToDataJobStore.cs:29-34 | The slot starts absent. |
| Jobs.JobStore.LoadAll | Packages/com.arandra.gsheet-to-data/Editor/GSheetToDataJobStore.cs:29-34 | An absent or null slot reads as no jobs. |
| Jobs.JobStore.Enqueue | Packages/com.arandra.gsheet-to-data/Editor/GSheetToDataJobStore.cs:22-27 | The job is appended at the end, earlier jobs keep their place, and the store then has jobs. |
| Jobs.JobStore.Remove | Packages/com.arandra.gsheet-to-data/Editor/GSheetToDataJobStore.cs:36-47 | The loop over completed jobs writes back exactly the survivors, in order. |
| Jobs.RemoveEnqueued | Packages/com.arandra.gsheet-to-data/Editor/GSheetToDataJobStore.cs:22-47 | Enqueueing a job with a new identity and then removing it restores the store. |
| JobProcessor.Scheduler.constructor | Packages/com.arandra.gsheet-to-data/Editor/GSheetToDataJobProcessor.cs:10-13 | Loading the class queues exactly one pass. |
| JobProcessor.Completed | Packages/com.arandra.gsheet-to-data/Editor/GSheetToDataJobProcessor.cs:24-31 | A pass finishes with at most the jobs it loaded. |
| JobProcessor.CompletedMembers | Packages/com.arandra.gsheet-to-data/Editor/GSheetToDataJobProcessor.cs:24-31 | A job is finished exactly when it was loaded and both its types resolve. |
| JobProcessor.ProcessPendingJobs | Packages/com.arandra.gsheet-to-data/Editor/GSheetToDataJobProcessor.cs:15-43 | The pass runs as a queued delayed call and uses it up. With no jobs, nothing else changes. Otherwise every job is attempted once, in order; the store keeps the survivors of the finished jobs; one pass is queued again exactly when jobs remain; and assets change only at the paths of resolving jobs. |
| JobProcessor.PassOutcome | Packages/com.arandra.gsheet-to-data/Editor/GSheetToDataJobProcessor.cs:24-36 | After a pass, a job whose types resolve is gone. A job whose types do not resolve is still there, unless it shares its identity with a finished job. |
| JobProcessor.AllResolvedDrains | Packages/com.arandra.gsheet-to-data/Editor/GSheetToDataJobProcessor.cs:33-42 | When every job resolves, the store ends empty. |
| JobProcessor.NoneResolvedKeeps | Packages/com.arandra.gsheet-to-data/Editor/GSheetToDataJobProcessor.cs:38-42 | When no job resolves, nothing is finished and the store is kept whole, so the pass is queued again. |
| AssetBuilder.FirstDefiningWins | Packages/com.arandra.gsheet-to-data/Editor/GSheetToDataAssetBuilder.cs:149-157 | The type found is the one in the earliest assembly that defines the name. |
| AssetBuilder.FirstDefiningNone | Packages/com.arandra.gsheet-to-data/Editor/GSheetToDataAssetBuilder.cs:149-159 | Nothing is found exactly when no assembly defines the name. |
| AssetBuilder.FindType | Packages/com.arandra.gsheet-to-data/Editor/GSheetToDataAssetBuilder.cs:142-160 | A blank name finds nothing. Otherwise the loop over the assemblies gives the first definition. |
| AssetBuilder.PayloadData | Packages/com.arandra.gsheet-to-data/Editor/GSheetToDataAssetBuilder.cs:43-55 | A const job gets one record, or a fresh one for a null payload. A table job gets a list, or an empty one. The data type is the job's data class. |
| AssetBuilder.ConstProbeOrder | Packages/com.arandra.gsheet-to-data/Editor/GSheetToDataAssetBuilder.cs:96-115 | The const value goes through exactly one of `SetValue`, then `value`, then `Value`. When none exists, nothing is set and one warning is logged. |
| AssetBuilder.MetadataProbeOrder | Packages/com.arandra.gsheet-to-data/Editor/GSheetToDataAssetBuilder.cs:117-140 | `SetSheetMetadata` is the only effect when the type has it. Otherwise at most two field writes happen, the id before the name. |
| AssetBuilder.AssetDatabase.constructor | Packages/com.arandra.gsheet-to-data/Editor/GSheetToDataAssetBuilder.cs:65-76 | The database holds the given assets and the console is empty. |
| AssetBuilder.TryCreate | Packages/com.arandra.gsheet-to-data/Editor/GSheetToDataAssetBuilder.cs:21-82 | A null job gives true and changes nothing. The result is false exactly for a job whose types do not yet resolve, and then nothing changes too. A container that is not a ScriptableObject logs an error. Otherwise the built asset is stored at the job's path, after any probe warning that names the container by its simple name, and "Created" or "Updated" is logged. |
| AssetBuilder.BuildWarnings | Packages/com.arandra.gsheet-to-data/Editor/GSheetToDataAssetBuilder.cs:84-115 | Building logs nothing when the container has the member its sheet type needs. Otherwise it logs exactly one warning, which names the container by its simple name. |
| Registry.FindIndex | Packages/com.arandra.gsheet-to-data/Editor/GSheetToDataAssetRegistry.cs:43-44 | The result is the first entry whose key matches, ignoring case, or none. |
| Registry.Overwrite | Packages/com.arandra.gsheet-to-data/Editor/GSheetToDataAssetRegistry.cs:52-70 | Every field of the new entry is copied except the key, whose stored spelling is kept. The field lists are copied, a null list as []. |
| Registry.SameKeyTransitive | Packages/com.arandra.gsheet-to-data/Editor/GSheetToDataAssetRegistry.cs:43-44 | Case-insensitive key matching is transitive. |
| Registry.Upserted | Packages/com.arandra.gsheet-to-data/Editor/GSheetToDataAssetRegistry.cs:41-72 | A new key is appended, so the count grows by one. An existing key is overwritten in place. Entries under other keys are unchanged, and no key is respelled. |
| Registry.AssetRegistry.constructor | Packages/com.arandra.gsheet-to-data/Editor/GSheetToDataAssetRegistry.cs:37 | A new registry is empty. |
| Registry.AssetRegistry.Upsert | Packages/com.arandra.gsheet-to-data/Editor/GSheetToDataAssetRegistry.cs:41-72 | The entries become `Upserted`, and unique keys stay unique. |
| Registry.AssetRegistry.Remove | Packages/com.arandra.gsheet-to-data/Editor/GSheetToDataAssetRegistry.cs:74-79 | Exactly the entries with the key are removed; the others keep their order. |
| Registry.AssetRegistry.Clear | Packages/com.arandra.gsheet-to-data/Editor/GSheetToDataAssetRegistry.cs:81-84 | The registry becomes empty. |
| Registry.Without | Packages/com.arandra.gsheet-to-data/Editor/GSheetToDataAssetRegistry.cs:76-78 | No remaining entry has the key. |
| Registry.WithoutMembers | Packages/com.arandra.gsheet-to-data/Editor/GSheetToDataAssetRegistry.cs:74-79 | An entry is kept exactly when it was there and does not have the key. |
| Registry.UniqueAfterUpsert | Packages/com.arandra.gsheet-to-data/Editor/GSheetToDataAssetRegistry.cs:41-72 | Upsert keeps keys unique. |
| Registry.UpsertedOnce | Packages/com.arandra.gsheet-to-data/Editor/GSheetToDataAssetRegistry.cs:41-72 | With unique keys, exactly one entry has the key afterwards: the appended entry or the overwritten first match. |
| Registry.EntryFor | Packages/com.arandra.gsheet-to-data/Editor/GSheetToDataAssetRegistryUtility.cs:27-50 | The key, sheet type, full names and asset path come from the job. The class name comes from the parse. The placement comes from the caller, and the stamp is the given time. |
| Registry.UpsertEntry | Packages/com.arandra.gsheet-to-data/Editor/GSheetToDataAssetRegistryUtility.cs:11-55 | The run is recorded by upserting its entry under the job's key, and unique keys stay unique. |
| Registry.UpsertEntryRecords | Packages/com.arandra.gsheet-to-data/Editor/GSheetToDataAssetRegistryUtility.cs:11-55 | Afterwards, an entry under the job's key carries every recorded value, and entries under other keys are untouched. |
| PathUtility.Combine | Packages/com.arandra.gsheet-to-data/Editor/GSheetToDataPathUtility.cs:13-23 | An empty second part gives the first. A rooted second part, or an empty first, gives the second. Otherwise the two are joined. |
| PathUtility.Normalize | Packages/com.arandra.gsheet-to-data/Editor/GSheetToDataPathUtility.cs:78-81 | The result has no back slash and no trailing '/'. |
| PathUtility.NormalizeIdempotent | Packages/com.arandra.gsheet-to-data/Editor/GSheetToDataPathUtility.cs:78-81 | Normalising twice is normalising once. |
| PathUtility.NormalizeFixedPoints | Packages/com.arandra.gsheet-to-data/Editor/GSheetToDataPathUtility.cs:78-81 | A path is normalised exactly when it has no back slash and does not end in '/'. |
| PathUtility.ToAbsolutePath | Packages/com.arandra.gsheet-to-data/Editor/GSheetToDataPathUtility.cs:13-23 | A blank path gives the root and a rooted path is kept. Anything else goes under the root. |
| PathUtility.ToAssetRelative | Packages/com.arandra.gsheet-to-data/Editor/GSheetToDataPathUtility.cs:35-46 | Success exactly when the normalised path starts with the normalised root and '/', ignoring case. The result is the rest of the path. |
| PathUtility.RootNotInside | Packages/com.arandra.gsheet-to-data/Editor/GSheetToDataPathUtility.cs:35-46 | The project root itself is refused. |
| PathUtility.AssetRelativeRoundTrip | Packages/com.arandra.gsheet-to-data/Editor/GSheetToDataPathUtility.cs:35-46 | A normalised relative path appended to the root comes back out. |
| PathUtility.UserInputRoundTrip | Packages/com.arandra.gsheet-to-data/Editor/GSheetToDataPathUtility.cs:48-52 | A normalised relative user path reads back as itself. |
| PathUtility.GetAbsoluteFromAssetPath | Packages/com.arandra.gsheet-to-data/Editor/GSheetToDataPathUtility.cs:54-57 | A relative asset path lands under the root. |
| PathUtility.AbsoluteFromAssetRoundTrip | Packages/com.arandra.gsheet-to-data/Editor/GSheetToDataPathUtility.cs:35-57 | The absolute path of an asset path maps back to it. |
| PathUtility.GetTempRelativePath | Packages/com.arandra.gsheet-to-data/Editor/GSheetToDataPathUtility.cs:64-76 | A path outside root/Temp is returned as given. Any other path becomes "Temp/" and its remainder. |
| PathUtility.TempRelativeIsAssetRelative | Packages/com.arandra.gsheet-to-data/Editor/GSheetToDataPathUtility.cs:64-76 | The Temp-relative form is the asset-relative form against the Temp folder, prefixed with "Temp/". |
| PathUtility.TempSubfolder | Packages/com.arandra.gsheet-to-data/Editor/GSheetToDataPathUtility.cs:64-76 | A folder directly under Temp shows as "Temp/" and its name. |
| PathUtility.DefaultTokenStoreInTemp | Packages/com.arandra.gsheet-to-data/Editor/GSheetToDataPathUtility.cs:59-76 | The default token folder shows as "Temp/GSheetToData". |
| PathUtility.FileSystem.constructor | Packages/com.arandra.gsheet-to-data/Editor/GSheetToDataPathUtility.cs:25-33 | The file system starts with the given directories. |
| PathUtility.FileSystem.EnsureDirectory | Packages/com.arandra.gsheet-to-data/Editor/GSheetToDataPathUtility.cs:25-33 | The argument is returned unchanged, and the directory exists afterwards. |
| PathUtility.FileSystem.GetDefaultTokenStorePath | Packages/com.arandra.gsheet-to-data/Editor/GSheetToDataPathUtility.cs:59-62 | The result is root/Temp/GSheetToData, which then exists. |
| Settings.NewAppSettings | Packages/com.arandra.gsheet-to-data/Editor/GSheetToDataAppSettings.cs:9-13 | A new settings object has the default script path, asset path and namespace, and an empty secret and token. |
| Settings.GetResolvedClientSecretPath | Packages/com.arandra.gsheet-to-data/Editor/GSheetToDataAppSettings.cs:21-26 | The result is "" exactly when no secret is set. Otherwise it is the absolute path. |
| Settings.GetResolvedTokenStorePath | Packages/com.arandra.gsheet-to-data/Editor/GSheetToDataAppSettings.cs:28-36 | A blank token path gives the default Temp/GSheetToData folder, created on the way. Otherwise it gives the absolute path. |
| Settings.DefaultPathsNotBlank | Packages/com.arandra.gsheet-to-data/Editor/GSheetToDataAppSettings.cs:9-19 | The default paths and namespace are not blank. |
| Settings.NewSettingsShape | Packages/com.arandra.gsheet-to-data/Editor/GSheetToDataAppSettings.cs:9-26 | Fresh settings have the required paths, but their client secret resolves to "". |
| Settings.Linked | Packages/com.arandra.gsheet-to-data/Editor/GSheetToDataSettingsStore.cs:51-59 | A linked scriptable path or namespace equals its primary value; nothing else changes. |
| Settings.Loaded | Packages/com.arandra.gsheet-to-data/Editor/GSheetToDataSettingsStore.cs:35-62 | The asset's fields and the link flags are copied, with the link rule applied. The secret and token come from the preferences, defaulting to "". |
| Settings.Persisted | Packages/com.arandra.gsheet-to-data/Editor/GSheetToDataSettingsStore.cs:72-82 | The asset gets the settings' fields, with the primary value in place of a linked scriptable value. |
| Settings.SaveLoadRoundTrip | Packages/com.arandra.gsheet-to-data/Editor/GSheetToDataSettingsStore.cs:35-90 | Saving and then loading gives the saved settings back, with the link rule applied. |
| Settings.LinkedSettingsRoundTrip | Packages/com.arandra.gsheet-to-data/Editor/GSheetToDataSettingsStore.cs:35-90 | Settings that already obey the links come back exactly. |
| Settings.LoadSaveStable | Packages/com.arandra.gsheet-to-data/Editor/GSheetToDataSettingsStore.cs:35-90 | Saving what was loaded leaves a link-consistent asset as it was. |
| Settings.SettingsStore.constructor | Packages/com.arandra.gsheet-to-data/Editor/GSheetToDataSettingsStore.cs:10-13 | The store holds the given assets and preferences. |
| Settings.SettingsStore.LoadOrCreateRegistry | Packages/com.arandra.gsheet-to-data/Editor/GSheetToDataSettingsStore.cs:15-33 | A stored registry is returned as it is. Otherwise a new empty one is stored and returned. |
| Settings.SettingsStore.LoadOrCreateAsset | Packages/com.arandra.gsheet-to-data/Editor/GSheetToDataSettingsStore.cs:92-110 | A stored settings asset is returned as it is. Otherwise a new default one is stored and returned. |
| Settings.SettingsStore.Load | Packages/com.arandra.gsheet-to-data/Editor/GSheetToDataSettingsStore.cs:35-62 | The result is `Loaded` of the asset, creating the asset if it is missing, and the preferences. |
| Settings.SettingsStore.Save | Packages/com.arandra.gsheet-to-data/Editor/GSheetToDataSettingsStore.cs:64-90 | A null settings object changes nothing. Otherwise the asset becomes `Persisted` and both preferences are written. |
| GenerationUtilities.EnsureProjectRelative | Packages/com.arandra.gsheet-to-data/Editor/GSheetToDataGenerationUtilities.cs:11-18 | Success exactly when the user path lies inside the project and its project-relative form starts with "Assets", ignoring case. Otherwise the first failure's reason is given. |
| GenerationUtilities.BlankPathRefused | Packages/com.arandra.gsheet-to-data/Editor/GSheetToDataGenerationUtilities.cs:11-18 | A blank path stands for the root and is refused. |
| GenerationUtilities.AssetsPathAccepted | Packages/com.arandra.gsheet-to-data/Editor/GSheetToDataGenerationUtilities.cs:11-18 | A normalised relative path under "Assets" is accepted as it is. |
| GenerationUtilities.OutsideAssetsRefused | Packages/com.arandra.gsheet-to-data/Editor/GSheetToDataGenerationUtilities.cs:11-18 | A path inside the project but outside "Assets" is refused with the Assets-folder message. |
| GenerationUtilities.BuildAssetRelativePath | Packages/com.arandra.gsheet-to-data/Editor/GSheetToDataGenerationUtilities.cs:33-47 | A successful result starts with "Assets" and has forward slashes only. |
| GenerationUtilities.AssetInOutputFolder | Packages/com.arandra.gsheet-to-data/Editor/GSheetToDataGenerationUtilities.cs:33-47 | For a normalised output folder under "Assets", the asset lands directly in that folder and is named after the container class. |
| GenerationUtilities.Indent | Packages/com.arandra.gsheet-to-data/Editor/GSheetToDataGenerationUtilities.cs:63-70 | An empty line stays empty. Any other line gets four spaces in front. |
| GenerationUtilities.UnindentIndent | Packages/com.arandra.gsheet-to-data/Editor/GSheetToDataGenerationUtilities.cs:63-70 | The indent can be removed again. |
| GenerationUtilities.Body | Packages/com.arandra.gsheet-to-data/Editor/GSheetToDataGenerationUtilities.cs:61-71 | There is one indented line per code line, in order. |
| GenerationUtilities.WrappedShape | Packages/com.arandra.gsheet-to-data/Editor/GSheetToDataGenerationUtilities.cs:56-74 | The wrapped lines are the code lines plus three: the namespace header first, "}" last, and each code line in its place. |
| GenerationUtilities.Unwrap | Packages/com.arandra.gsheet-to-data/Editor/GSheetToDataGenerationUtilities.cs:56-74 | Unwrapping gives one line per body line, with the indent removed. |
| GenerationUtilities.UnwrapWrapped | Packages/com.arandra.gsheet-to-data/Editor/GSheetToDataGenerationUtilities.cs:56-74 | Unwrapping gives back exactly the lines that were wrapped. |
| GenerationUtilities.WrapWithNamespace | Packages/com.arandra.gsheet-to-data/Editor/GSheetToDataGenerationUtilities.cs:49-75 | A blank namespace leaves the code as it is. Otherwise the loop writes the namespace block around the code's lines. |
| GenerationUtilities.SplitLinesAreLines | Packages/com.arandra.gsheet-to-data/Editor/GSheetToDataGenerationUtilities.cs:56 | Code without carriage returns splits into lines that contain no line break. |
| GenerationUtilities.WrapReadBack | Packages/com.arandra.gsheet-to-data/Editor/GSheetToDataGenerationUtilities.cs:49-75 | Reading the wrapped text back line by line gives the namespace block, and unwrapping it gives the code's lines. |
| GenerationUtilities.ScriptableObjectShape | Packages/com.arandra.gsheet-to-data/Editor/GSheetToDataGenerationUtilities.cs:84-95 | The data-namespace using comes first and only when that namespace is not blank. The generic-collections using is present only for a table sheet. The class ends with "}". |
| GenerationUtilities.ScriptableObjectMembers | Packages/com.arandra.gsheet-to-data/Editor/GSheetToDataGenerationUtilities.cs:96-113 | A table sheet gets the `Values` list. A const sheet gets `value`, `Value` and `SetValue`. No metadata member is emitted. |
| GenerationUtilities.BuildFullName | Packages/com.arandra.gsheet-to-data/Editor/GSheetToDataGenerationUtilities.cs:117-122 | A blank namespace gives the class name; otherwise the result is "namespace.class". |
| EditorContainer.Layout | Packages/com.arandra.gsheet-to-data/Editor/GSheetToDataEditorWindow.cs:292-336 | Each part of the container's lines lands at a known position. |
| EditorContainer.EditorUsingsShape | Packages/com.arandra.gsheet-to-data/Editor/GSheetToDataEditorWindow.cs:295-299 | The generic-collections using appears only for a table sheet, then the Unity using. The data namespace is never used. |
| EditorContainer.EditorScriptableObjectParts | Packages/com.arandra.gsheet-to-data/Editor/GSheetToDataEditorWindow.cs:292-336 | The parts in order: usings, the asset-menu attribute and class header, the `sheetId`/`sheetName` fields and their accessors, the data member, `SetSheetMetadata`, `SetValue` for a const sheet, and "}". |
| EditorContainer.SharedContainerGetsNoMetadata | Packages/com.arandra.gsheet-to-data/Editor/GSheetToDataAssetBuilder.cs:117-140 | On the shared container variant the builder's metadata step finds nothing. |
| EditorContainer.EditorContainerGetsMetadata | Packages/com.arandra.gsheet-to-data/Editor/GSheetToDataAssetBuilder.cs:117-124 | On the window's variant the metadata step is one `SetSheetMetadata` call with the job's id and name. |
| EditorContainer.ContainersTakeData | Packages/com.arandra.gsheet-to-data/Editor/GSheetToDataAssetBuilder.cs:84-115 | Both variants take the data, through `Values` for a table sheet or `SetValue` for a const sheet, with nothing logged. |
| EditorValidation.PathFailure | Packages/com.arandra.gsheet-to-data/Editor/GSheetToDataEditorWindow.cs:205-214 | The path check passes exactly when both folders pass. A script-folder failure is reported first. |
| EditorValidation.ChecksInOrder | Packages/com.arandra.gsheet-to-data/Editor/GSheetToDataEditorWindow.cs:178-217 | Each check fails only when every earlier one passes, and validation passes exactly when all of them pass. |
| EditorValidation.FreshSettingsNeedSecret | Packages/com.arandra.gsheet-to-data/Editor/GSheetToDataEditorWindow.cs:178-197 | Fresh settings always stop at the client-secret check. |
| EditorValidation.ScriptFolderOutsideAssets | Packages/com.arandra.gsheet-to-data/Editor/GSheetToDataEditorWindow.cs:205-226 | A script folder outside "Assets" fails the path check with its reason. |
| EditorValidation.AssetsFoldersValidate | Packages/com.arandra.gsheet-to-data/Editor/GSheetToDataEditorWindow.cs:178-217 | Normalised output folders under "Assets" validate once the other checks pass. |
| EditorWindow.EditorGenerationShape | Packages/com.arandra.gsheet-to-data/Editor/GSheetToDataEditorWindow.cs:130-159 | Both scripts go to the script folder, named after the class and its plural. The job names both classes in the settings' namespace, keeps its stamp, and is matched for removal exactly by that stamp and container. |
| EditorWindow.WrappedLineAt | Packages/com.arandra.gsheet-to-data/Editor/GSheetToDataEditorWindow.cs:264-290 | Line i of the code sits, indented, at line i + 2 of the namespace block. |
| EditorWindow.RecordDeclares | Packages/com.arandra.gsheet-to-data/Editor/GSheetToDataEditorWindow.cs:264-290 | The wrapped record script opens the namespace on its first line and declares `public class <name>` at line 7. |
| EditorWindow.ContainerDeclares | Packages/com.arandra.gsheet-to-data/Editor/GSheetToDataEditorWindow.cs:292-336 | The wrapped container script opens the namespace on its first line and declares the container class after the usings, a blank line and the asset-menu attribute. |
| EditorWindow.JobNamesDeclaredClasses | Packages/com.arandra.gsheet-to-data/Editor/GSheetToDataEditorWindow.cs:130-159 | The job's two full names join the namespace each wrapped script opens with the class that script declares. These are the names the asset builder looks up. |
| EditorWindow.GenerationGate | Packages/com.arandra.gsheet-to-data/Editor/GSheetToDataEditorWindow.cs:98-128 | A press is ignored while a generation runs. It stops at the first failed check with that check's dialog, and fails with nothing written when the parse gives no class name. |
| EditorWindow.GenerationQueues | Packages/com.arandra.gsheet-to-data/Editor/GSheetToDataEditorWindow.cs:130-159 | Past the gate, both scripts are written. The job is queued exactly when the asset path was built, inside "Assets", and it carries that path, the key, the type, the payload and the stamp. |
| EditorWindow.GeneratorWindow.constructor | Packages/com.arandra.gsheet-to-data/Editor/GSheetToDataEditorWindow.cs:15-32 | A new window has the loaded settings, an empty key, the Table type, and nothing running. |
| EditorWindow.GeneratorWindow.ValidateSettings | Packages/com.arandra.gsheet-to-data/Editor/GSheetToDataEditorWindow.cs:178-217 | The method returns true exactly when no check fails. Otherwise it shows the first failed check's dialog. |
| EditorWindow.GeneratorWindow.WriteScripts | Packages/com.arandra.gsheet-to-data/Editor/GSheetToDataEditorWindow.cs:130-141 | The two scripts and their wrapped texts. |
| EditorWindow.GeneratorWindow.Generate | Packages/com.arandra.gsheet-to-data/Editor/GSheetToDataEditorWindow.cs:98-176 | The outcome is `GenerationOutcome` of the window's state. Only a queued job changes the store, by being appended. |
| AssetManager.FirstIndex | Packages/com.arandra.gsheet-to-data/Editor/GSheetToDataAssetManagerWindow.cs:459 | The first occurrence of a name is found. |
| AssetManager.NewNames | Packages/com.arandra.gsheet-to-data/Editor/GSheetToDataAssetManagerWindow.cs:459 | The result is the distinct non-blank source names that are not in the target, in first-occurrence order. |
| AssetManager.ComputeDiff | Packages/com.arandra.gsheet-to-data/Editor/GSheetToDataAssetManagerWindow.cs:455-460 | A null list counts as empty. A name is in the diff exactly when it is non-blank, in the source and not in the target. |
| AssetManager.AsksToConfirmIff | Packages/com.arandra.gsheet-to-data/Editor/GSheetToDataAssetManagerWindow.cs:373-382 | Confirmation is asked exactly when names were remembered and the non-blank names differ as sets. |
| AssetManager.GateOpenWhenUnchanged | Packages/com.arandra.gsheet-to-data/Editor/GSheetToDataAssetManagerWindow.cs:373-382 | A first generation, or one with the same names, passes the gate. |
| AssetManager.GateClosedOnCancel | Packages/com.arandra.gsheet-to-data/Editor/GSheetToDataAssetManagerWindow.cs:375-381 | A changed schema stops at the gate unless the user confirms. |
| AssetManager.DiffMessageShape | Packages/com.arandra.gsheet-to-data/Editor/GSheetToDataAssetManagerWindow.cs:462-477 | The message opens with the header and ends with a blank line. It has an added line exactly when names were added, a removed line exactly when names were removed, and the added line comes first. |
| AssetManager.DiffMessageReadBack | Packages/com.arandra.gsheet-to-data/Editor/GSheetToDataAssetManagerWindow.cs:462-477 | Read back line by line, the message is its lines followed by the question. |
| AssetManager.GetDefaultScriptablePath | Packages/com.arandra.gsheet-to-data/Editor/GSheetToDataAssetManagerWindow.cs:525-528 | A linked path gives the script path. Otherwise the stored scriptable path is used. |
| AssetManager.GetDefaultScriptableNamespace | Packages/com.arandra.gsheet-to-data/Editor/GSheetToDataAssetManagerWindow.cs:530-533 | A linked namespace gives the data namespace. Otherwise the stored scriptable namespace is used. |
| AssetManager.LoadedDefaultsAreStored | Packages/com.arandra.gsheet-to-data/Editor/GSheetToDataAssetManagerWindow.cs:525-533 | On loaded settings, the window's defaults are the stored scriptable values. |
| AssetManager.Resolve | Packages/com.arandra.gsheet-to-data/Editor/GSheetToDataAssetManagerWindow.cs:343-351 | Each of the five settings is the entry's own value when its override is set, else the default. |
| AssetManager.ResolveRecorded | Packages/com.arandra.gsheet-to-data/Editor/GSheetToDataAssetManagerWindow.cs:343-438 | Resolving the entry recorded after a run gives the same placement again. |
| AssetManager.ResolveExtremes | Packages/com.arandra.gsheet-to-data/Editor/GSheetToDataAssetManagerWindow.cs:343-351 | An entry with no overrides gets the defaults. An entry that overrides everything gets its own values. |
| AssetManager.NewEntry | Packages/com.arandra.gsheet-to-data/Editor/GSheetToDataAssetManagerWindow.cs:251-269 | The new entry has the trimmed key, the defaults, no overrides, no asset path and empty lists. Its sync stamp is the current UTC time. |
| AssetManager.NewEntryFollowsDefaults | Packages/com.arandra.gsheet-to-data/Editor/GSheetToDataAssetManagerWindow.cs:251-269 | A new entry is generated with the defaults of the moment of generation. |
| AssetManager.AssetManagerWindow.constructor | Packages/com.arandra.gsheet-to-data/Editor/GSheetToDataAssetManagerWindow.cs:18-27 | The window starts with no selection, empty inputs and the Table type. |
| AssetManager.AssetManagerWindow.AddNewEntry | Packages/com.arandra.gsheet-to-data/Editor/GSheetToDataAssetManagerWindow.cs:243-276 | A blank id or name changes nothing. Otherwise the new entry, stamped with the current UTC time, is upserted. The last entry is selected and both inputs are cleared. |
| AssetManager.AddedEntrySelection | Packages/com.arandra.gsheet-to-data/Editor/GSheetToDataAssetManagerWindow.cs:271-273 | A new key's entry is the one selected. A known key is overwritten in place. |
| AssetManager.CombineAssetPath | Packages/com.arandra.gsheet-to-data/Editor/GSheetToDataAssetManagerWindow.cs:497-506 | A blank folder gives "". Otherwise the result is the normalised folder, '/', and the file name, with "//" collapsed. |
| AssetManager.CombineAssetPathJoins | Packages/com.arandra.gsheet-to-data/Editor/GSheetToDataAssetManagerWindow.cs:497-506 | A folder without doubled slashes and a plain file name are joined by exactly one '/'. |
| AssetManager.NormalizeAssetPath | Packages/com.arandra.gsheet-to-data/Editor/GSheetToDataAssetManagerWindow.cs:508-523 | A blank path gives "". A path under "Assets", in any case, is kept with forward slashes. The result has no back slash. |
| AssetManager.NormalizeAbsoluteAssetPath | Packages/com.arandra.gsheet-to-data/Editor/GSheetToDataAssetManagerWindow.cs:508-523 | An absolute path inside the project gives its project-relative part. |
| AssetManager.AssetsPathKept | Packages/com.arandra.gsheet-to-data/Editor/GSheetToDataAssetManagerWindow.cs:515-518 | A forward-slash path under "Assets" is kept as it is. |
| AssetManager.NormalizeAssetPathStable | Packages/com.arandra.gsheet-to-data/Editor/GSheetToDataAssetManagerWindow.cs:508-523 | A result under "Assets" is a fixed point of the helper. |

## Left out

- Fetching the sheet (`SheetLoader.cs`, the Google Sheets client and OAuth) is not part of this model. The grid is an input: a sequence of rows of optional cell strings.
- `GSheetToDataSettingsWindow.cs` is pure GUI and is not part of this model. `GSheetToDataProjectSettingsAsset.cs` is modelled as a plain record of the persisted fields.
- `OnGUI`, the `Draw*` methods, dialogs, progress bars and the `async void` flows of both windows are not modelled. This covers the asset manager's `RemoveEntry`, `DeleteGeneratedAssets`, `GenerateEntryAsync` and `OpenSheetInBrowser`. Only the logic these flows call is modelled: the diff and its gate, override resolution, the recorded entry, and the path helpers.
- File writes, `AssetDatabase` imports and refreshes, `EditorUtility`, `SessionState` and `EditorPrefs` are in-memory maps or sets. The generator window's script writing is modelled as the list of files and texts it would write. `File.Exists` is a set of existing files.
- `BuildAssetRelativePath` also creates the output folder on disk. That side effect is not modelled; only the path it computes is.
- `Path.GetFullPath` is the identity, which it is on the canonical absolute paths the editor passes around. `Path.Combine` is the Unix one, and a path is rooted exactly when it starts with '/'. Drive letters and `..` segments are not modelled.
- Parsing float and double text is not modelled: such values are opaque, and the parse is a function parameter. `int.TryParse` and `bool.TryParse` are abstract partial parse functions, with no culture rules.
- Newtonsoft's JSON text, indented formatting and `PairArrayJsonConverter` are not part of this model. The generator produces a JSON value tree. When the builder deserialises a payload, it only needs to know whether the payload reads as null, which is a predicate parameter.
- Reflection and assembly scanning are an abstract environment. In it, assemblies map full type names to what each type declares, and whether it is a ScriptableObject.
- `DateTime.UtcNow` and `Environment.NewLine` are parameters. `EditorApplication.delayCall` is a counter of the passes queued and not yet run. Running a pass removes its call from the queue.
- GenerateJson: null field lists and null rows are not modelled, because the parsed sheet's lists are sequences. A null list is reachable only when outside code assigns one.
- DataParser.ParseConstSheet, DataParser.ParseTableSheet: a null row makes the source throw. For a const sheet this is any row; for a table sheet it is row 0 or row 1. That case is not represented, because the model's rows are sequences and cannot be null.
- JobProcessor.ProcessPendingJobs: exceptions from `TryCreate` are not modelled. The source would end the pass with no removal and no reschedule; the model assumes every attempt returns.
- `GSheetToDataJobProcessor.RequestProcessing` is called by the asset manager but defined nowhere, so it is not modelled.
- The scriptable-class script path, the scriptable-class namespace and their two link flags are used by the settings store and the asset manager, but declared by neither settings class. The model assumes them as plain fields of both, with initial values as parameters.
- AssetManager.Resolve: the settings methods `GetScriptableScriptOutputPath()` and `GetScriptableNamespace()` are called but defined nowhere. The model assumes they give the same values as the window's `GetDefaultScriptablePath` and `GetDefaultScriptableNamespace`: the linked primary value, or else the stored scriptable value. `NewEntryFollowsDefaults` and `ResolveRecorded` hold only under this assumption, because a new entry takes the window's getters while a run takes the settings' getters.
- The generator window's `isGenerating` flag only gates a press. The window's own copies of `WrapWithNamespace`, `BuildFullName`, `EnsureProjectRelative` and `BuildAssetRelativePath` are textually the shared ones, so the model uses the shared versions.
- Text.IsWhiteSpace, Text.Trim, Text.LowerChar, Text.ToLower, Text.EqualsIgnoreCase and Text.StartsWithIgnoreCase: the model counts only ASCII and Latin-1 whitespace, and folds case for ASCII letters only. .NET's `Trim` and `IsNullOrWhiteSpace` use the full Unicode whitespace set. `ToLower`, `StartsWith` and `EndsWith` follow the current culture. `StringComparison.OrdinalIgnoreCase` also folds non-ASCII letters. So the callers differ from the source on non-ASCII input:
  - DataParser skips const-sheet names that are blank under Unicode whitespace, such as U+3000, but the model keeps them.
  - Registry keys that differ only in non-ASCII case, such as "Été" and "été", are one entry in the source but two in the model.
  - PathUtility and GenerationUtilities compare paths the same ASCII-only way.
  - The type-token readers lower-case tokens the same ASCII-only way.
