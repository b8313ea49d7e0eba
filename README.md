# osu-native-py wrapper core, modelled in Dafny

osu-native-py is a ctypes wrapper around an opaque native osu! calculation engine. This project
models the wrapper's own logic. The engine's maths and the foreign calls are not part of it.

- **Result codes.** `ErrorCode` is a total decoding from integers to codes. Only `SUCCESS` counts
  as success.
- **Marshaling helpers.** `check_error`; outbound strings as UTF-8 (RFC 3629) with one trailing
  NUL; and the two-phase buffer-size-query protocol for inbound strings (`get_string`).
- **Handle lifecycle.** `Mod`, `Ruleset`, `Beatmap` (through `NativeHandler`), `ModsCollection`
  and the eight calculators share it:
  - a one-way closed flag;
  - a `close` that issues the destroy call at most once;
  - guards that raise on a closed object before any native call.
- **`ModsCollection`.** The owned, ordered list of mods. `add` and `remove` change it only after
  the native side succeeds. `close` cascades to the mods, then destroys the collection.
- **Calculators.** Creation dispatches on ruleset id 0..3. A performance calculator rejects
  difficulty attributes of another ruleset. Attributes are re-encoded field by field.
- **Records.** `ScoreInfo.to_native`, the `from_native` decoders, and the `{hasValue, value}`
  optional encoding.
- **`scripts/fix_cabinet_header.py`.** The in-memory line transformation that moves the
  `ManagedObjectHandle` typedef block in front of the first `NativeBeatmap` typedef.

How native calls are modelled:
- A native call is never executed. What it answers (its result code, the record or handle it
  writes, the bytes a string getter writes) is a parameter of the method that makes the call.
- Every wrapper object keeps a ghost `trace` of the native calls it made on its own handle.
- `Native.Lifecycle` states the single-release discipline on that trace: an open object has
  issued no destroy call, a closed one exactly one. Every method keeps it as part of `Valid()`.
- Exceptions become values: `Result`, `Outcome` and a structured `Native.Error`.
- Two functions have no counterpart in the code and exist only as reference inverses:
  - `ScoreInfos.FromNative` reads a score record back;
  - `PerformanceAttributesModel.ToNative` builds a performance record.

  `ScoreInfos.ScoreRoundTrip` and `ScoreInfos.ToNativeOfFromNative` use the first to state that
  `to_native` loses nothing. `PerformanceAttributesModel.AttributesRoundTrip` uses the second to
  state that `from_native` can produce every attributes value.

Modules, one file each:

| module | file | models |
|---|---|---|
| `Wrappers` | wrappers.dfy | `Option`, `Result`, `Outcome` |
| `ErrorCodes` | error_code.dfy | `ErrorCode` |
| `Utf8` | utf8.dfy | UTF-8 encoding and strict decoding (RFC 3629) |
| `Text` | text.dfy | decimal rendering of integers, as in f-strings |
| `RulesetKinds` | ruleset_kind.dfy | the four rulesets and their ids |
| `Native` | native.dfy | handles, optional fields, errors, native-call traces |
| `NativeHelper` | native_helper.dfy | `NativeHelper` |
| `NativeHandlers` | native_handler.dfy | `NativeHandler` |
| `Mods` | mod.dfy | `Mod` |
| `ModsCollections` | mods_collection.dfy | `ModsCollection` |
| `Rulesets` | ruleset.dfy | `Ruleset` |
| `Beatmaps` | beatmap.dfy | `Beatmap` |
| `ScoreInfos` | score_info.dfy | `ScoreInfo` |
| `DifficultyAttributesModel` | difficulty_attributes.dfy | the four difficulty-attributes records |
| `PerformanceAttributesModel` | performance_attributes.dfy | the four performance-attributes records |
| `DifficultyCalculators` | difficulty_calculator.dfy | the difficulty calculators and their dispatch |
| `PerformanceCalculators` | performance_calculator.dfy | the performance calculators and their dispatch |
| `CabinetHeader` | fix_cabinet_header.dfy | the header fix-up loops |

Two behaviours of the code that a reader might not expect, both modelled as written:
- `get_string` slices the buffer with the size the second call reports, using Python's slice
  rules.
- A line holding the `ManagedObjectHandle` marker is never tested as the closing line, so a
  one-line typedef keeps the block open.

## Model

Source paths are relative to the repository root.

| member | source | states |
|---|---|---|
| ErrorCodes.FromValue | src/osu_native_py/wrapper/objects/error_code.py:15-51 | each of -2, -1, 0, 1, 2, 3, 127 decodes to the member with that value; any other integer decodes to FAILURE (never raises) |
| ErrorCodes.FromValueOfValue | src/osu_native_py/wrapper/objects/error_code.py:15-51 | every member's value is recognised and decodes back to that member |
| ErrorCodes.ValueInjective | src/osu_native_py/wrapper/objects/error_code.py:15-36 | distinct members have distinct values |
| ErrorCodes.FromValueIdempotent | src/osu_native_py/wrapper/objects/error_code.py:38-51 | decoding an already decoded code changes nothing |
| ErrorCodes.SuccessIffZero | src/osu_native_py/wrapper/objects/error_code.py:53-59 | a raw result is a success if and only if it is 0 |
| ErrorCodes.ProtocolSignalsAreNotSuccess | src/osu_native_py/wrapper/objects/error_code.py:6-21 | BUFFER_SIZE_QUERY (-1) and END_OF_ENUMERATION (-2) decode to themselves and are not success |
| Utf8.DecodeEncodeChar | src/osu_native_py/wrapper/objects/native_helper.py:44 | the strict decoder reads back each character's RFC 3629 encoding, with its length |
| Utf8.EncodeAppend | src/osu_native_py/wrapper/objects/native_helper.py:44 | the encoding of a concatenation is the concatenation of the encodings |
| Utf8.DecodeEncode | src/osu_native_py/wrapper/objects/native_helper.py:44 | decoding the encoding of any text gives back the text |
| Utf8.EncodeDecode | src/osu_native_py/wrapper/objects/native_helper.py:40 | any byte sequence the decoder accepts is the encoding of what it decodes to |
| Utf8.EncodeHasNoZero | src/osu_native_py/wrapper/objects/native_helper.py:44-48 | a text without NUL characters encodes to bytes without a 0 byte |
| Utf8.EncodeNuls | src/osu_native_py/wrapper/objects/native_helper.py:40 | n NUL characters encode to n zero bytes |
| Text.ParseNatToString | src/osu_native_py/wrapper/objects/ruleset.py:41 | the decimal rendering of a natural number parses back to it |
| Text.IntToStringRoundTrip | src/osu_native_py/wrapper/objects/ruleset.py:41 | the rendering of any integer (sign included) is well formed and parses back to it |
| Text.IntToStringInjective | src/osu_native_py/wrapper/objects/ruleset.py:41 | distinct integers render differently |
| RulesetKinds.KindOfId | src/osu_native_py/wrapper/calculators/difficulty_calculator.py:194-205 | an id selects a ruleset if and only if it is in 0..3, and then the ruleset with that id |
| RulesetKinds.KindOfIdRoundTrip | src/osu_native_py/wrapper/calculators/difficulty_calculator.py:196-203 | each ruleset is selected by its own id |
| Native.DecodeOptional | src/osu_native_py/wrapper/attributes/performance/osu.py:52 | absent exactly when hasValue is false, whatever the payload; otherwise the payload |
| Native.EncodeOptional | src/osu_native_py/wrapper/objects/score_info.py:38-43 | hasValue is true exactly for a present value; the payload is the value, or the given zero when absent |
| Native.OptionalRoundTrip | src/osu_native_py/wrapper/objects/score_info.py:38-43 | an encoded optional decodes back to itself |
| Native.AbsentPayloadIgnored | src/osu_native_py/wrapper/attributes/performance/taiko.py:23-27 | two absent optionals with different payloads decode alike, to None |
| Native.CloseKeepsLifecycle | src/osu_native_py/wrapper/utils/native_handler.py:61-66 | a close from either state leaves the object closed with exactly one destroy call in its trace |
| Native.InvokeKeepsLifecycle | src/osu_native_py/wrapper/utils/native_handler.py:61-66 | any call other than destroy keeps the open/closed state and the destroy count |
| NativeHelper.CheckError | src/osu_native_py/wrapper/objects/native_helper.py:51-55 | fails if and only if the result is not 0, naming the operation and the decoded code |
| NativeHelper.NativeString | src/osu_native_py/wrapper/objects/native_helper.py:42-49 | the buffer is one byte longer than the UTF-8 encoding and ends in 0 |
| NativeHelper.CString | src/osu_native_py/wrapper/objects/native_helper.py:42-49 | what a C reader sees is a NUL-free prefix of the buffer, stopped by a 0 |
| NativeHelper.NativeStringReadBack | src/osu_native_py/wrapper/objects/native_helper.py:42-49 | for a text without NUL, the final 0 is the buffer's only 0, and a C reader decodes exactly the text |
| NativeHelper.CreateNativeString | src/osu_native_py/wrapper/objects/native_helper.py:42-49 | the fresh buffer holds the encoded bytes followed by exactly one 0 |
| NativeHelper.PrefixSlice | src/osu_native_py/wrapper/objects/native_helper.py:40 | Python's `s[:n]` is a prefix of s, of length n clamped to 0..len(s), counting a negative n from the end |
| NativeHelper.RStripNul | src/osu_native_py/wrapper/objects/native_helper.py:40 | the result is a prefix of the input, does not end in NUL, and only NULs were removed |
| NativeHelper.GetStringResult | src/osu_native_py/wrapper/objects/native_helper.py:22-40 | error when the first call is not BUFFER_SIZE_QUERY (SUCCESS included); "" for a size ≤ 0; error when the second call is not SUCCESS; a success value never ends in NUL, and is non-empty only after a successful second call |
| NativeHelper.GetString | src/osu_native_py/wrapper/objects/native_helper.py:22-40 | the two-call protocol on a real buffer computes GetStringResult; the second call happens exactly when the first reports BUFFER_SIZE_QUERY with a positive size |
| NativeHelper.RStripNuls | src/osu_native_py/wrapper/objects/native_helper.py:40 | stripping removes exactly the trailing NUL padding of a text that does not end in NUL |
| NativeHelper.GetStringRoundTrip | src/osu_native_py/wrapper/objects/native_helper.py:22-40 | a getter that reports len(utf8(t)) + pad bytes and writes utf8(t) yields t |
| NativeHandlers.NativeHandler.CheckNotClosed | src/osu_native_py/wrapper/utils/native_handler.py:72-74 | raises if and only if closed, naming the class |
| NativeHandlers.NativeHandler.Call | src/osu_native_py/wrapper/calculators/difficulty_calculator.py:66-70 | the native calculate call on the calculator's handle is recorded once, after the other calls, and leaves the handle open or closed as it was |
| NativeHandlers.NativeHandler.GetString | src/osu_native_py/wrapper/utils/native_handler.py:43-59 | the instance get_string returns what the static helper returns, making one or two getter calls on its handle |
| NativeHandlers.NativeHandler.Close | src/osu_native_py/wrapper/utils/native_handler.py:61-66 | a no-op once closed; otherwise one destroy, then closed; exactly one destroy overall |
| NativeHandlers.NativeHandler.Exit | src/osu_native_py/wrapper/utils/native_handler.py:79-80 | leaving a `with` block closes |
| Mods.Mod.Create | src/osu_native_py/wrapper/objects/mod.py:17-25 | sends the NUL-terminated acronym; fails exactly on a non-success code with no Mod; otherwise a fresh open Mod on the written handle |
| Mods.Mod.SetSetting | src/osu_native_py/wrapper/objects/mod.py:31-55 | closed: "Mod has been closed" with no native call; open: one call with the encoded key and value, failing exactly on a non-success code |
| Mods.Mod.Close | src/osu_native_py/wrapper/objects/mod.py:57-60 | Mod_Destroy at most once over the mod's life, result ignored; afterwards closed |
| Mods.Mod.Exit | src/osu_native_py/wrapper/objects/mod.py:65-66 | leaving a `with` block closes the mod |
| ModsCollections.FirstIndex | src/osu_native_py/wrapper/objects/mods_collection.py:111-112 | the position of the first occurrence |
| ModsCollections.RemoveFirst | src/osu_native_py/wrapper/objects/mods_collection.py:111-112 | `list.remove`: the first occurrence is deleted and nothing else changes (length, order and multiset); an absent item leaves the list as it was |
| ModsCollections.RemoveFirstStillHas | src/osu_native_py/wrapper/objects/mods_collection.py:111-112 | after one removal the mod is still listed exactly when it was listed more than once |
| ModsCollections.ModsCollection.Create | src/osu_native_py/wrapper/objects/mods_collection.py:42-62 | fails exactly on a non-success code; otherwise a fresh open collection with an empty list |
| ModsCollections.ModsCollection.Has | src/osu_native_py/wrapper/objects/mods_collection.py:85-95 | identity membership in the local list; reads no native state and has no closed check |
| ModsCollections.ModsCollection.Add | src/osu_native_py/wrapper/objects/mods_collection.py:69-83 | closed: raises with no native call; open: one call; the mod is appended at the end on success only, and the list is unchanged on failure |
| ModsCollections.ModsCollection.Remove | src/osu_native_py/wrapper/objects/mods_collection.py:97-112 | closed: raises with no native call; open: one call; on success the first occurrence is removed (none if absent), and the list is unchanged on failure |
| ModsCollections.ModsCollection.Debug | src/osu_native_py/wrapper/objects/mods_collection.py:114-123 | closed: raises with no native call; open: one call that never raises; the decoded code is printed exactly on non-success |
| ModsCollections.CloseMods | src/osu_native_py/wrapper/objects/mods_collection.py:143-149 | every listed mod ends closed; one that was open gets exactly one destroy even when listed twice, one already closed gets none |
| ModsCollections.ModsCollection.Close | src/osu_native_py/wrapper/objects/mods_collection.py:135-153 | every still-open listed mod gets exactly one destroy, closed ones none; then the collection destroys itself once and is closed; the list is kept; a second close is a no-op |
| ModsCollections.ModsCollection.Exit | src/osu_native_py/wrapper/objects/mods_collection.py:159-161 | leaving a `with` block closes the collection and all its mods |
| Rulesets.ShortNameOf | src/osu_native_py/wrapper/objects/ruleset.py:14-41 | 0..3 map to "osu", "taiko", "catch", "mania"; any other id maps to "unknown(id)" |
| Rulesets.ShortNameInjective | src/osu_native_py/wrapper/objects/ruleset.py:14 | no two ids, known or unknown, share a short name |
| Rulesets.Ruleset.FromId | src/osu_native_py/wrapper/objects/ruleset.py:20-27 | fails exactly on a non-success code with no Ruleset; otherwise a fresh open Ruleset on the written record |
| Rulesets.Ruleset.RulesetId | src/osu_native_py/wrapper/objects/ruleset.py:33-49 | the record's id if open, "Ruleset has been closed" if closed |
| Rulesets.Ruleset.ShortName | src/osu_native_py/wrapper/objects/ruleset.py:38-49 | the table name of the id if open, the closed error if closed |
| Rulesets.Ruleset.ToString | src/osu_native_py/wrapper/objects/ruleset.py:71-74 | "Ruleset{closed=true}" exactly when closed; otherwise "Ruleset{rulesetId=N, shortName='S'}" |
| Rulesets.Ruleset.Close | src/osu_native_py/wrapper/objects/ruleset.py:51-54 | Ruleset_Destroy at most once; afterwards closed |
| Rulesets.Ruleset.Exit | src/osu_native_py/wrapper/objects/ruleset.py:59-60 | leaving a `with` block leaves the ruleset closed |
| Rulesets.ToStringShowsId | src/osu_native_py/wrapper/objects/ruleset.py:74 | the id printed by `__str__` on an open ruleset parses back to the ruleset's id |
| Beatmaps.Beatmap.FromFile | src/osu_native_py/wrapper/objects/beatmap.py:20-39 | sends the NUL-terminated path; fails exactly on a non-success code, naming the path; otherwise a fresh open Beatmap on the written record |
| Beatmaps.Beatmap.FromText | src/osu_native_py/wrapper/objects/beatmap.py:41-60 | sends the NUL-terminated text; fails exactly on a non-success code; otherwise a fresh open Beatmap |
| Beatmaps.Beatmap.Metadata | src/osu_native_py/wrapper/objects/beatmap.py:62-78 | closed: raises with no getter call; open: the get_string result of the field's getter, with the field's one or two getter calls traced |
| Beatmaps.Beatmap.ApproachRate | src/osu_native_py/wrapper/objects/beatmap.py:80-84 | the record's field unchanged if open; the closed error if closed |
| Beatmaps.Beatmap.DrainRate | src/osu_native_py/wrapper/objects/beatmap.py:86-90 | the record's field unchanged if open; the closed error if closed |
| Beatmaps.Beatmap.OverallDifficulty | src/osu_native_py/wrapper/objects/beatmap.py:92-96 | the record's field unchanged if open; the closed error if closed |
| Beatmaps.Beatmap.CircleSize | src/osu_native_py/wrapper/objects/beatmap.py:98-102 | the record's field unchanged if open; the closed error if closed |
| Beatmaps.Beatmap.SliderMultiplier | src/osu_native_py/wrapper/objects/beatmap.py:104-108 | the record's field unchanged if open; the closed error if closed |
| Beatmaps.Beatmap.SliderTickRate | src/osu_native_py/wrapper/objects/beatmap.py:110-114 | the record's field unchanged if open; the closed error if closed |
| Beatmaps.Beatmap.RulesetId | src/osu_native_py/wrapper/objects/beatmap.py:116-120 | the record's field unchanged if open; the closed error if closed |
| Beatmaps.Beatmap.BeatmapId | src/osu_native_py/wrapper/objects/beatmap.py:122-126 | the record's field unchanged if open; the closed error if closed |
| Beatmaps.Beatmap.Close | src/osu_native_py/wrapper/objects/beatmap.py:128-129 | the inherited close: Beatmap_Destroy at most once; afterwards closed |
| Beatmaps.Beatmap.Exit | src/osu_native_py/wrapper/utils/native_handler.py:79-80 | leaving a `with` block closes the beatmap |
| Beatmaps.Beatmap.Repr | src/osu_native_py/wrapper/objects/beatmap.py:131-141 | never raises: the closed form with no native call when closed; otherwise the described form when all three getters succeed, and the handle form when any fails; the native calls are exactly ReprCalls |
| Beatmaps.GetterCalls | src/osu_native_py/wrapper/objects/native_helper.py:22-40 | one string getter makes the size query first and the fetch second, the fetch only when the size is positive |
| Beatmaps.ReprCalls | src/osu_native_py/wrapper/objects/beatmap.py:135-141 | the artist getter runs first, the title getter only after artist succeeds, the version getter only after title succeeds |
| Beatmaps.ReprOf | src/osu_native_py/wrapper/objects/beatmap.py:135-141 | the described form exactly when artist, title and version all succeed, carrying them with AR and OD; otherwise the handle form with the beatmap's handle |
| ScoreInfos.Default | src/osu_native_py/wrapper/objects/score_info.py:11-23 | max combo 0, accuracy 1.0, every count 0, no legacy total score |
| ScoreInfos.ToNative | src/osu_native_py/wrapper/objects/score_info.py:25-54 | the three handles are stored by value; max combo, accuracy and each of the eight counts go to the field of the same name; the legacy total score is hasValue=false with 0 when absent, and hasValue=true with the value when present |
| ScoreInfos.ScoreRoundTrip | src/osu_native_py/wrapper/objects/score_info.py:25-54 | every field of the score, the optional included, survives to_native, whatever the handles |
| ScoreInfos.ToNativeOfFromNative | src/osu_native_py/wrapper/objects/score_info.py:25-54 | every record with a zero payload for an absent total is the to_native of exactly one score |
| DifficultyAttributesModel.FromNative | src/osu_native_py/wrapper/attributes/difficulty/osu.py:30-52 | the decoded value is the variant of the record's own ruleset; star rating, max combo and, for osu! and taiko, every skill field and object count are copied to the field of the same name |
| DifficultyAttributesModel.ToNative | src/osu_native_py/wrapper/calculators/performance_calculator.py:95-118 | the re-encoded record is of the attributes' own ruleset; star rating, max combo and, for osu! and taiko, every skill field and object count are assigned to the field of the same name |
| DifficultyAttributesModel.NativeRoundTrip | src/osu_native_py/wrapper/attributes/difficulty/taiko.py:35-48 | decoding a record and re-encoding it as a performance calculator does reproduces every field |
| DifficultyAttributesModel.AttributesRoundTrip | src/osu_native_py/wrapper/calculators/performance_calculator.py:162-172 | re-encoding attributes and decoding the record gives back the same attributes |
| PerformanceAttributesModel.FromNative | src/osu_native_py/wrapper/attributes/performance/osu.py:43-61 | the variant of the record's own ruleset; total, aim, speed, accuracy, flashlight, the miss counts, the slider breaks and the taiko and mania difficulty go to the field of the same name; speed deviation, score-based miss count and the taiko unstable rate are None exactly when hasValue is false, otherwise the payload |
| PerformanceAttributesModel.AttributesRoundTrip | src/osu_native_py/wrapper/attributes/performance/taiko.py:17-28 | every performance-attributes value, optionals included, is decoded from the record that carries it |
| DifficultyCalculators.DifficultyCalculator.Create | src/osu_native_py/wrapper/calculators/difficulty_calculator.py:52-61 | sends the ruleset and beatmap handles; fails exactly on a non-success code with no calculator; otherwise a fresh open calculator of that ruleset |
| DifficultyCalculators.DifficultyCalculator.Calculate | src/osu_native_py/wrapper/calculators/difficulty_calculator.py:63-74 | closed: raises with no native call; open: one call with the mods handle, failing exactly on a non-success code, else the decoded attributes of the calculator's own ruleset |
| DifficultyCalculators.DifficultyCalculator.Close | src/osu_native_py/wrapper/calculators/difficulty_calculator.py:76-79 | the variant's destroy at most once; afterwards closed |
| DifficultyCalculators.DifficultyCalculator.Exit | src/osu_native_py/wrapper/utils/native_handler.py:79-80 | leaving a `with` block closes the calculator |
| DifficultyCalculators.CreateDifficultyCalculator | src/osu_native_py/wrapper/calculators/difficulty_calculator.py:181-205 | a closed ruleset raises and an id outside 0..3 raises ValueError, both with no create call; otherwise exactly one create, of the calculator whose ruleset has that id |
| PerformanceCalculators.CheckAttributes | src/osu_native_py/wrapper/calculators/performance_calculator.py:88-91 | passes if and only if the attributes are of the calculator's ruleset; otherwise TypeError naming the expected and the actual ruleset |
| PerformanceCalculators.DifficultyOutputAcceptedOnlyByItsRuleset | src/osu_native_py/wrapper/calculators/performance_calculator.py:88-91 | decoded difficulty attributes pass the check of their own ruleset's performance calculator and fail the other three |
| PerformanceCalculators.PerformanceCalculator.Create | src/osu_native_py/wrapper/calculators/performance_calculator.py:71-76 | needs no ruleset or beatmap; fails exactly on a non-success code with no calculator; otherwise a fresh open calculator |
| PerformanceCalculators.PerformanceCalculator.CheckNotClosed | src/osu_native_py/wrapper/calculators/performance_calculator.py:40-42 | raises if and only if closed, naming the class |
| PerformanceCalculators.PerformanceCalculator.Calculate | src/osu_native_py/wrapper/calculators/performance_calculator.py:78-129 | the closed check first, then the ruleset check, both with no native call; then one call with to_native of the score on the three handles and the field-by-field copy of the attributes; it fails exactly on a non-success code, else returns the decoded attributes of its own ruleset |
| PerformanceCalculators.PerformanceCalculator.Close | src/osu_native_py/wrapper/calculators/performance_calculator.py:131-134 | the variant's destroy at most once; afterwards closed |
| PerformanceCalculators.PerformanceCalculator.Exit | src/osu_native_py/wrapper/calculators/performance_calculator.py:62-63 | leaving a `with` block closes the calculator |
| PerformanceCalculators.PerformanceCalculator.Finalize | src/osu_native_py/wrapper/calculators/performance_calculator.py:65-67 | the finalizer closes only a calculator that is still open, so no second destroy |
| PerformanceCalculators.CreatePerformanceCalculator | src/osu_native_py/wrapper/calculators/performance_calculator.py:283-295 | a closed ruleset raises and an id outside 0..3 raises ValueError, both with no create call; otherwise exactly one create, of the calculator whose ruleset has that id |
| CabinetHeader.FixCabinetHeader | scripts/fix_cabinet_header.py:18-44 | the two loops compute the partition and the re-insertion that FixHeader specifies |
| CabinetHeader.SplitHandleBlock | scripts/fix_cabinet_header.py:18-34 | the first loop, with its inside_handle flag, computes exactly the (handle_block, other_lines) pair of Partition |
| CabinetHeader.InsertHandleBlock | scripts/fix_cabinet_header.py:36-44 | the second loop, with its inserted flag, computes exactly Reassemble of other_lines and the block |
| CabinetHeader.PartitionIsSplit | scripts/fix_cabinet_header.py:18-34 | every line goes to exactly one of handle_block and other_lines (lengths and multisets add up) |
| CabinetHeader.OtherLinesHaveNoMarker | scripts/fix_cabinet_header.py:22-25 | no line holding the ManagedObjectHandle marker stays among other_lines |
| CabinetHeader.PartitionOutside | scripts/fix_cabinet_header.py:33-34 | outside the block, lines without the marker go to other_lines in order |
| CabinetHeader.PartitionInside | scripts/fix_cabinet_header.py:28-32 | inside the block, lines with neither the marker nor a closing `}` and `;` join the block in order |
| CabinetHeader.ClosedBlock | scripts/fix_cabinet_header.py:18-34 | the block runs from the marker line to the first closing line, both included; the lines before it stay in other_lines, and the scan resumes outside the block |
| CabinetHeader.UnclosedBlock | scripts/fix_cabinet_header.py:28-32 | with no closing line, every line from the marker on goes into the block |
| CabinetHeader.MarkerLineNeverCloses | scripts/fix_cabinet_header.py:22-25 | a marker line holding `}` and `;` does not end the block: the next line is still taken |
| CabinetHeader.ReassembleAfterInsertion | scripts/fix_cabinet_header.py:39-44 | after the insertion the remaining lines are copied unchanged |
| CabinetHeader.ReassembleWithoutTarget | scripts/fix_cabinet_header.py:36-44 | with no NativeBeatmap line the output is exactly other_lines: the block is dropped |
| CabinetHeader.ReassembleWithTarget | scripts/fix_cabinet_header.py:36-44 | the block and one "\n" line are inserted once, right before the first NativeBeatmap line; other_lines keep their order; the length is len(other) + len(block) + 1 |
| CabinetHeader.PartitionOneBlock | scripts/fix_cabinet_header.py:18-34 | one closed handle typedef among marker-free lines is lifted out whole, and the other lines keep their order |
| CabinetHeader.MovesHandleBeforeBeatmap | scripts/fix_cabinet_header.py:18-44 | a header with one handle typedef after its first NativeBeatmap line, and any lines before that one, comes out with the typedef and a blank line moved right in front of the NativeBeatmap line, every other line in place |

## Left out

- Library loading, platform detection and environment set-up (src/osu_native_py/native/__init__.py). This is I/O and process-global state.
- The foreign `bindings` calls. Each is replaced by the values it answers, which are method parameters.
- The engine's numerics. Float fields are `real` and are only copied. Native integer widths are not visible, so counts and ids are unbounded `int`, except the `c_int32` size slot of get_string.
- The file read/write and argv handling of scripts/fix_cabinet_header.py (lines 6-16 and 46-49).
- Exception messages are structured `Error` values, not rendered strings. The `%.1f` formatting of `Beatmap.__repr__` is not rendered either, so `BeatmapRepr.Described` carries the values.
- `__repr__` of `NativeHandler`, `Mod`, `Ruleset` and `ModsCollection`. These are display strings with no behaviour beyond the closed check that the other members model.
- `__enter__` returns `self`, and the `is_closed` and `handle` properties are plain reads. The fields stand for them.
- `__del__` of `NativeHandler`, `Mod`, `Ruleset` and `ModsCollection`. When it runs depends on garbage collection. Each defers to the idempotent `close`, whose contract covers a call in any state. Only the performance calculators' finalizer is modelled, as `PerformanceCalculator.Finalize`.
- The `print` in `ModsCollection.debug`. The code it would print is returned as `printed`.
- The per-mod `try/except` in `ModsCollection.close`. A modelled `Mod.close` never raises, so there is nothing to swallow.
- The four difficulty calculators and the four performance calculators are each one class parameterised by `RulesetKind`. Their per-ruleset native functions differ only in name.
- The three `Mod.set_setting_*` methods are one `SetSetting`, with the value's type as a `SettingValue` tag.
- The `max_size` parameter of `get_string` is never used by the source, so it is not modelled.
- The source's own defects in the difficulty calculators are not modelled.
  - They never override the abstract `_destroy` (src/osu_native_py/wrapper/utils/native_handler.py:68-70), so Python would refuse to instantiate them.
  - They pass `native_calc.handle` where the base's `handle` property reads `._native.handle`.
  - The model uses the handle as given and their explicit `close`.
- The missing `utils.native_helper` module that src/osu_native_py/wrapper/utils/__init__.py imports is not part of this model.
- The catch and mania difficulty and performance attribute classes are one- or two-field copies. They are variants of the attribute datatypes and are covered by the same decoders and round trips.
