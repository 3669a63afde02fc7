# ETHZ TCT control and analysis, modelled in Dafny

This project models the logic of a transient-current-technique (TCT) lab
bench. The bench's software sweeps measurement parameters, keeps track of
the data it records, simulates the signal a laser pulse induces in a
silicon sensor, post-processes recorded waveforms, and drives the bench's
instruments. The instruments are a bias supply, an x-y-z stage, a pulsed
laser, an amplifier supply and an oscilloscope.

Each source file of the core is one Dafny module:

- **Sweeps.**
  - `Scan` (`tct/system/Scan.py`) holds the ordered parameters of a scan and the odometer iterator that visits their cartesian product.
  - `ScanFile` (`tct/config/ScanFile.py`) expands the scan entries of a configuration: nested lists, and `lin(...)`, `log(...)` and `range(...)` strings. It also reads the end state, the setup and the metadata.
  - `ConfigFile` (`tct/config/ConfigFile.py`) does nested-path lookups, key translation and error messages.
  - `Definition` (`tct/config/Definition.py`) holds the key tables and the laser/source mode.
- **Metadata and data sets.**
  - `AnalysisDefinition` (`tct/config/AnalysisDefinition.py`) builds analysis names, titles and display metadata.
  - `Concat` is the recursive `mergeDict` of `util/dataset/concat.py`.
  - `CernTpa` holds the line readers of `util/import/cern_tpa.py`, over a stream of lines with a cursor.
  - `DataDir` is the entry bookkeeping and scan-folder naming of `tct/data/DataDir.py`.
- **Simulation.**
  - `ChargePropagation` is the adaptive-step drift loop of `ChargePropagation_1D.run`, over a field model given as two functions `v(x, q)` and `Ew(x)`.
  - `Signals` holds the signal containers.
  - `Charge` holds the point, normal and exponential charge ensembles.
  - `PNBonded` is the bonded p-n sensor's field model.
- **Post-processing.**
  - `Preprocess` covers offset removal, the moving average and reflection removal.
  - `Plot` covers the `min()`/`max()`/`integral()` reductions, scaling, labels and legends.
  - `Plot2D` is the monotonicity test that picks the line style.
- **Instruments.** Each instrument is an abstract device: its setpoints, an on/off flag, and the log of the commands or byte frames sent to it.
  - `BiasSupply` covers range selection and the 20 V/s ramp.
  - `Stage` covers limits and mm↔step conversion.
  - `Laser` covers the driver's validation and byte frames, and the control class on top of it.
  - `Amplifier` covers the gain table and the supply checks.
  - `Scope` covers the volts-per-division finder, the average guard and the measurement guard.

The model also has helper modules:

- `Wrappers`: `Option`, `Result` and the exceptions raised.
- `Values`: Python values and insertion-ordered dictionaries.
- `Text`: strip, split, join and number parsing and printing.
- `Numeric`: sums, `linspace`, `arange`, rounding and linear interpolation.
- `Physics`: the physical constants.

Numbers are exact reals. A Python exception, or a NumPy NaN, is an `Err`
value. Code that mutates state is modelled as classes with `modifies`
clauses, and its loops as `while` loops with invariants.

## Model

| member | source | states |
|---|---|---|
| Scan.Step | tct/system/Scan.py:49-59 | the odometer advance: the position reported is the last one that can still grow and it is incremented, the positions before it are unchanged, every later position was at its end and is reset to 0; no position is reported exactly when every index was at its end, and then all are reset |
| Scan.RankZeros | tct/system/Scan.py:28 | the all-zero index vector the iterator starts from is entry number 0 |
| Scan.RankBound | tct/system/Scan.py:69-77 | every in-range index vector numbers an entry below `count()` |
| Scan.StepRank | tct/system/Scan.py:49-59 | one advance keeps every index in range and moves to the next entry in order; only the last entry (number `count() - 1`) has no successor |
| Scan.RankInjective | tct/system/Scan.py:49-55 | two index vectors with the same entry number are equal, so no combination is produced twice |
| Scan.RankLex | tct/system/Scan.py:49-55 | entry numbers follow lexicographic order of the index vectors, earliest parameter most significant, so the last-added parameter varies fastest |
| Scan.StateAt | tct/system/Scan.py:37-39 | the state of an entry maps every parameter, in parameter order, to its value at its current index |
| Scan.Scan.constructor | tct/system/Scan.py:63-67 | a new scan has no parameters, values or manual flags |
| Scan.Scan.Count | tct/system/Scan.py:69-77 | `count()` is 0 without parameters and otherwise the product of the value-list lengths |
| Scan.Scan.AddParameter | tct/system/Scan.py:79-87 | a repeated name and an empty value list each raise their own message and change nothing; otherwise the name is appended and its values and manual flag recorded, earlier parameters untouched |
| Scan.CountZeroIffEmpty | tct/system/Scan.py:69-77 | since every value list is non-empty, `count()` is 0 exactly when there are no parameters |
| Scan.ProductPositive | tct/system/Scan.py:73-77 | the product of non-empty lengths is at least 1 |
| Scan.NeedsManual | tct/system/Scan.py:41-47 | the first entry is manual iff some parameter is manual; a later one iff its changed parameter is manual |
| Scan.Iterator.constructor | tct/system/Scan.py:25-31 | every index starts at 0, no change is recorded, and the iterator is valid iff `count() > 0` |
| Scan.Iterator.Advance | tct/system/Scan.py:49-59 | the reversed loop: the new index vector and validity are the odometer step's, the changed parameter is the one incremented, and one more entry has been produced |
| Scan.Iterator.Next | tct/system/Scan.py:33-61 | an exhausted iterator stops with nothing changed; otherwise the entry carries the previous change, the state at the current indices and the manual flag, and the iterator advances; with the invariant, exactly `count()` entries are produced, the i-th being the i-th index vector in lexicographic order |
| Scan.CurrentState | tct/system/Scan.py:37-39 | the loop building `result` yields the entry's state |
| Scan.Increment | tct/system/Scan.py:49-59 | the loop with `break`/`else` over the reversed parameters computes the odometer step |
| Scan.NextRank | tct/system/Scan.py:29-35 | from the i-th entry with i below `count()`, an advance reaches entry i + 1 unless i + 1 == `count()`, where the iterator stops |
| ScanFile.TokenLengthOf | tct/config/ScanFile.py:14-16 | the greedy `[+\-0-9Ee.]+` match takes a whole token and stops at the first other character |
| ScanFile.MatchTokens | tct/config/ScanFile.py:14-16 | every group a pattern captures is a non-empty run of token characters |
| ScanFile.MatchRender | tct/config/ScanFile.py:14-16 | the pattern for a name matches the canonical text `name(a,b,c)` of any three tokens and captures exactly those tokens |
| ScanFile.NoMatch | tct/config/ScanFile.py:14-16 | text that starts, after no leading space, with another letter than the name matches nothing |
| ScanFile.FloatOf | tct/config/ScanFile.py:109-113 | `float(token)` succeeds exactly when the token spells a number, with that number |
| ScanFile.GenerateLin | tct/config/ScanFile.py:108-109 | `lin(a,b,n)` contributes the n evenly spaced values from a to b |
| ScanFile.GenerateRange | tct/config/ScanFile.py:112-113 | `range(a,b,s)` contributes `np.arange(a, b, s)`, and a zero step fails |
| ScanFile.Scalar | tct/config/ScanFile.py:119-120 | an entry that is neither a string nor a list is appended unchanged |
| ScanFile.ParseScanValues | tct/config/ScanFile.py:99-122 | the recursive accumulating loop returns the accumulator followed by the depth-first expansion, or the first error |
| ScanFile.ExpandErrorStops | tct/config/ScanFile.py:114-115 | once an entry fails, the whole parse fails with that error |
| ScanFile.ExpandAppend | tct/config/ScanFile.py:103-120 | the expansion of two concatenated definitions is the concatenation of their expansions, so flattening is in order |
| ScanFile.ExpandScalars | tct/config/ScanFile.py:119-120 | a definition of plain values expands to itself |
| ScanFile.ParamName | tct/config/ScanFile.py:137-142 | a `manual-` key is kept verbatim and flagged manual; any other key must be in `KEY_MAP`, is translated and is not manual |
| Values.AsList | tct/config/ScanFile.py:144-145 | a non-list definition becomes a one-element list and a list is kept; analysis groups are read the same way (tct/config/AnalysisDefinition.py:60-61) |
| ScanFile.ScanLinesParams | tct/config/ScanFile.py:131-147 | when every line is read, there is one parameter per line, in order, with distinct names and non-empty value lists |
| ScanFile.ScanLinesError | tct/config/ScanFile.py:149-150 | a failure is the `ConfigError` naming one of the lines |
| ScanFile.ScanLinesOk | tct/config/ScanFile.py:131-150 | the scan lines are accepted exactly when every line reads into a parameter with values and no two names coincide |
| ScanFile.LineParamName | tct/config/ScanFile.py:133-147 | a read line is a non-empty mapping whose first key names the parameter as `ParamName` says, with the expanded values of that key |
| ScanFile.LineParamScalar | tct/config/ScanFile.py:144-147 | a scalar definition under a valid key gives the one-value list |
| ScanFile.GetScan | tct/config/ScanFile.py:124-152 | a missing or non-list `scan` and every failing line give their errors; otherwise a fresh valid scan holding the parameters in line order with their values and manual flags |
| ScanFile.ReadLine | tct/config/ScanFile.py:133-145 | reading one line gives the parameter it defines, or its error |
| ScanFile.RecordedOf | tct/config/ScanFile.py:147 | with distinct names, each parameter's values and manual flag are recorded under its name |
| ScanFile.Present | tct/config/ScanFile.py:71-72 | an end key counts only when given with a value other than `None` |
| ScanFile.GetEnd | tct/config/ScanFile.py:63-78 | `{}` for `on` or `True`; for a mapping, exactly the given non-`None` setup keys under their state keys, in `SETUP_KEYS` order (`PresentNames`); `False` otherwise, an absent `end` included |
| ScanFile.EndStep | tct/config/ScanFile.py:70-73 | one step of the loop keeps the end state exactly the keys seen so far |
| ScanFile.SetupNext | tct/config/ScanFile.py:58-59 | one step of the loop appends the next setup key's value under its state key |
| ScanFile.GetSetup | tct/config/ScanFile.py:51-61 | a missing `setup` fails with its lookup error, and a non-mapping one with the error of the lookup of the first setup key; otherwise it succeeds exactly when every setup key is given, with the three device states set `True` followed by each setup key's value in order, and a missing key raises `MissingError` naming the first one missing |
| ScanFile.MetaKeysDistinct | tct/config/ScanFile.py:11 | the eight required meta keys are distinct |
| ScanFile.GetMeta | tct/config/ScanFile.py:32-43 | a missing `meta` fails with the lookup's error, and a non-mapping one with the error of looking up its first required key; otherwise it succeeds exactly when every required key is given, and returns every key of `meta` with its value, the required keys first in their order and then the others in `meta`'s order; the first missing required key raises `MissingError` naming it |
| ScanFile.ReadMeta | tct/config/ScanFile.py:32-43 | the same as `GetMeta` for any list of distinct required keys |
| ScanFile.MetaRequired | tct/config/ScanFile.py:35-37 | the first loop holds exactly the required keys, in order, with their values, or raises `MissingError` for the first missing one |
| ScanFile.ExtraPass | tct/config/ScanFile.py:39-41 | one pass of the second loop: a key outside the required ones is added with its value at the end unless already there, and a required one is skipped |
| ScanFile.MetaKey | tct/config/ScanFile.py:37 | looking up `meta.key` in a `meta` mapping gives its value or `MissingError(["meta", key])` |
| ScanFile.MetaExtras | tct/config/ScanFile.py:39-41 | the second loop adds every extra key with its value after the required keys, in the order of the `meta` mapping |
| ScanFile.LimitsFound | tct/config/ScanFile.py:45-49 | both limits are returned under `vlimit` and `ilimit`, and a missing one raises `MissingError` naming it, `voltage` checked first |
| ScanFile.GetLimits | tct/config/ScanFile.py:45-49 | a result holds exactly the two entries `vlimit` and `ilimit`, in that order |
| ConfigFile.PathOf | tct/config/ConfigFile.py:51-52 | a single key is a one-element path; a list is the path itself |
| ConfigFile.Member | tct/config/ConfigFile.py:56-62 | on a mapping, `key in root` holds exactly when the key is present and then `root[key]` is its value; on a list or string a found key cannot be indexed, and a number, boolean or `None` cannot answer `in` |
| ConfigFile.GetPath | tct/config/ConfigFile.py:50-64 | the loop reassigning `root` computes the walk along the path |
| ConfigFile.WalkFound | tct/config/ConfigFile.py:54-64 | when every key is present, the result is the value reached by indexing successively, required or not |
| ConfigFile.WalkOptional | tct/config/ConfigFile.py:56-60 | where a required lookup raises `MissingError`, the optional one returns `None`; otherwise both agree |
| ConfigFile.WalkMissing | tct/config/ConfigFile.py:56-58 | a `MissingError` names the path up to and including the first missing key, and everything before it was found |
| ConfigFile.WalkTwo | tct/config/ConfigFile.py:54-64 | a two-key lookup is the first key's lookup followed by the second key's on its value |
| ConfigFile.Translate | tct/config/ConfigFile.py:67-74 | a mapped key gives its `KEY_MAP` entry; an unknown key is returned unchanged when not strict and raises `ConfigError` when strict |
| ConfigFile.TranslateSetupKeys | tct/config/Definition.py:1-24 | strict translation of every setup key succeeds |
| ConfigFile.ErrorText | tct/config/ConfigFile.py:13-29 | `str(error)` is `Config Error [file]` without a message, `Config Error [file]: msg` with one, and for a `MissingError` `Config Error [file]: Missing key [a.b]!` |
| ConfigFile.ErrorTextMessage | tct/config/ConfigFile.py:13-18 | two `ConfigError`s of one file print alike exactly when they carry the same message, so the text tells the message back |
| Definition.SetupStateKeys | tct/config/Definition.py:1-24 | every setup key is in `KEY_MAP`, translates to the state key at the same position, and no two setup keys translate to the same state key |
| Definition.NewMode | tct/config/Definition.py:32-39 | no configuration gives laser mode; a string is accepted exactly when stripped and lower-cased it is `laser` or `source`, which becomes the mode |
| Definition.ExactlyOneMode | tct/config/Definition.py:41-44 | a constructed mode is exactly one of laser and source |
| Definition.ModeTextOf | tct/config/Definition.py:46-47 | a constructed mode prints as `Mode [laser]` or `Mode [source]`, the first exactly in laser mode |
| AnalysisDefinition.GetMetaAsWritten | tct/config/AnalysisDefinition.py:71-75 | a key without an entry gives `(key, key, 'na', 1)`, any other key its stored tuple as written |
| AnalysisDefinition.Unpack | tct/config/AnalysisDefinition.py:20-33 | unpacking into name, short name, unit and factor needs exactly four fields and gives them back in order |
| AnalysisDefinition.MaxMetaUnpackFails | tct/config/AnalysisDefinition.py:31 | the written `max()` tuple has three fields, so unpacking it raises |
| AnalysisDefinition.GetMetaCorrected | tct/config/AnalysisDefinition.py:21-33 | the corrected table agrees with the written one at every other key, and at `max()` splits the joined string back into short name and unit with name and factor unchanged |
| AnalysisDefinition.MapKey | tct/config/AnalysisDefinition.py:35-39 | a mapped key gives its `KEY_MAP` entry and any other hashable value is returned unchanged; a list or mapping raises `TypeError` |
| AnalysisDefinition.MapAll | tct/config/AnalysisDefinition.py:63-64 | the groups map element by element in order, and the whole fails exactly when one element fails |
| AnalysisDefinition.AnalysisFields | tct/config/AnalysisDefinition.py:45-68 | a built definition is a mapping with `x` and `plot` mapped; it is 3D exactly when `y` is given, then with `y` mapped; `group` is empty when absent, otherwise each element mapped in order; `fit` is `None` unless given |
| AnalysisDefinition.AnalysisErrors | tct/config/AnalysisDefinition.py:47-55 | a non-mapping raises `TypeError`, a missing `x` raises `KeyError`, and these are the only errors |
| AnalysisDefinition.NewAnalysis | tct/config/AnalysisDefinition.py:45-68 | the constructor with its append loop builds the definition described above |
| AnalysisDefinition.MapGroups | tct/config/AnalysisDefinition.py:57-64 | the append loop over the groups gives the mapped groups or the first error |
| AnalysisDefinition.MapAllFails | tct/config/AnalysisDefinition.py:63-64 | one unmappable group fails the whole definition |
| AnalysisDefinition.JoinGroups | tct/config/AnalysisDefinition.py:81 | `'-'.join(group)` succeeds exactly when every group is a string |
| AnalysisDefinition.NameKind | tct/config/AnalysisDefinition.py:77-90 | the name exists exactly when every group is a string; it starts `Plot3D_` for 3D and `Plot2D_` for 2D, and a 2D name ends with `_` and the fit or `None` |
| AnalysisDefinition.TitleShape | tct/config/AnalysisDefinition.py:92-98 | the title is `{plot} in function of {x}`, followed by ` and {y}` for 3D only |
| AnalysisDefinition.Name | tct/config/AnalysisDefinition.py:77-90 | `name()` raises `TypeError` when a group is not a string, checked first; a 3D definition without `y` raises `AttributeError`; otherwise a name is returned |
| AnalysisDefinition.Title | tct/config/AnalysisDefinition.py:92-98 | `title()` fails, with `AttributeError`, exactly for a 3D definition without `y` |
| Values.AddNew | util/dataset/concat.py:5-7 | `dict.fromkeys(...).update` as an ordered set: the earlier keys stay first, in order, and the result holds exactly the old and the new keys |
| Concat.AddNewNoDuplicates | util/dataset/concat.py:5-7 | adding keys never repeats one |
| Concat.KeyOrderNoDuplicates | util/dataset/concat.py:5-9 | the merged key order has no repeats |
| Concat.KeyOrderMembers | util/dataset/concat.py:5-9 | the key order holds exactly the keys of `base` and of the dictionaries to merge |
| Concat.KeyOrderPrefix | util/dataset/concat.py:6-7 | the keys seen after the first j dictionaries stay a prefix of the final order, so keys appear in first-seen order |
| Concat.KeyOrderBase | util/dataset/concat.py:5 | the keys of `base` come first, in its order |
| Concat.Subs | util/dataset/concat.py:27 | `[other[key] for other in tomerge]` picks each dictionary's sub-dictionary, in order |
| Concat.ConcatFrom | util/dataset/concat.py:31-32 | the fallback succeeds exactly when every other dictionary has the key, and otherwise raises `KeyError` |
| Concat.Merge | util/dataset/concat.py:3-34 | the only way `mergeDict` fails is the `KeyError` of a missing key in the fallback |
| Concat.MergeDict | util/dataset/concat.py:3-34 | the loops, flags and recursion of `mergeDict` compute the merge |
| Concat.CollectKeys | util/dataset/concat.py:5-9 | the key-collecting loop gives the first-seen key order |
| Concat.Flags | util/dataset/concat.py:13-20 | the flag loop computes `same` (every `.get` equal to base's) and `all_dict` (every value a dictionary) |
| Concat.MergeOne | util/dataset/concat.py:13-32 | the loop body for one key does one merge step |
| Concat.AppendConcat | util/dataset/concat.py:31-32 | the enumerate loop adds the `-concat[i]` entries |
| Concat.ConcatErrorStops | util/dataset/concat.py:32 | a dictionary lacking the key makes the whole fallback raise |
| Concat.MergeKeysErrorStops | util/dataset/concat.py:12-32 | once one key fails, the whole merge fails |
| Concat.ConcatKeyInjective | util/dataset/concat.py:32 | `{key}-concat[{n}]` names are distinct for distinct keys or indices and end in `]` |
| Concat.MergeCovers | util/dataset/concat.py:5-12 | the output has every key of `base` and of each merged dictionary |
| Concat.MergeKeyOrder | util/dataset/concat.py:3-34 | the merged dictionary lists the keys in first-seen order, the keys of `base` first in their own order, and besides them holds only `-concat[i]` names (when no key ends with `]`) |
| Concat.MergeValue | util/dataset/concat.py:13-30 | when no key ends with `]`, each key's output value is base's when all agree, the recursive merge of the sub-dictionaries when they differ and all are dictionaries, and base's otherwise (without that condition the law fails, see `MergeKeyCollision`) |
| Concat.MergeKeyCollision | util/dataset/concat.py:22-32 | a key `x-concat[1]` on which all dictionaries agree is stored first with `base`'s value 5, and the fallback for `x` then overwrites it with the other dictionary's 2 |
| Concat.MergeConcatValues | util/dataset/concat.py:29-32 | when no key ends with `]`, in the fallback every other dictionary has the key and `{key}-concat[{i+1}]` holds the i-th one's value |
| Concat.MergeAllEqual | util/dataset/concat.py:13-23 | when every dictionary equals `base`, the result is `base` |
| Concat.OrderWhenEqual | util/dataset/concat.py:5-9 | when every dictionary equals `base`, the key order is base's |
| Concat.MergeNothing | util/dataset/concat.py:13-23 | with nothing to merge, the result is `base` |
| CernTpa.Stream.constructor | util/import/cern_tpa.py:12-13 | an open file starts at its first line |
| CernTpa.Stream.ReadLine | util/import/cern_tpa.py:13 | `readline` returns the next line and moves past it, or `""` at the end of the file without moving |
| CernTpa.ReadSeparator | util/import/cern_tpa.py:12-16 | consumes one line and raises `Expected separator [================]` unless it strips to the separator |
| CernTpa.ReadHeader | util/import/cern_tpa.py:18-22 | consumes two lines, both read before either is checked, which must strip to `SSD measurement file` and `version: 1.4` |
| CernTpa.HeaderReprPlain | util/import/cern_tpa.py:21-22 | the refusal prints the two stripped lines as `str(header)` does, `['first', 'second']`, when they hold no quote, backslash or unprintable character |
| CernTpa.HeaderReprInjective | util/import/cern_tpa.py:22 | the printed list `str(header)` determines both lines |
| CernTpa.HeaderRefused | util/import/cern_tpa.py:18-22 | two refused headers with the same message had the same two stripped lines |
| Text.ReprPlain | util/import/cern_tpa.py:22 | `repr` of a string without quotes, backslashes or unprintable characters is the string between single quotes |
| Text.ReprApostrophe | util/import/cern_tpa.py:22 | `repr` switches to double quotes for a string holding a single quote and no double quote: `repr("it's")` is `"it's"` |
| Text.ReprPrefix | util/import/cern_tpa.py:22 | `repr` is self-delimiting: the printed string, and whatever text follows it, can be read back |
| Text.EscapeCharPrefix | util/import/cern_tpa.py:22 | no escape `repr` writes for one character begins another, so each escape stands for one character |
| CernTpa.PreambleAccepted | util/import/cern_tpa.py:12-22 | separator, header and separator lines followed by any whitespace pass all three checks |
| CernTpa.SeparatorRefused | util/import/cern_tpa.py:15-16 | any other line is refused with the source's message |
| CernTpa.SampleName | util/import/cern_tpa.py:25-28 | the name line is accepted exactly when it strips to `:` followed by the parameter |
| CernTpa.SampleParamAt | util/import/cern_tpa.py:24-35 | a wrong name line fails after consuming it; for an `Irradiation*` or `Annealing_history*` parameter the result is `''` after that one line |
| CernTpa.ReadSampleParam | util/import/cern_tpa.py:24-35 | the reader returns the sample parameter and leaves the file after what it consumed |
| CernTpa.SampleParamRoundTrip | util/import/cern_tpa.py:24-35 | a parameter written as `:name` and then its value, each with trailing whitespace, reads back as that value after two lines |
| CernTpa.SampleHistoryOneLine | util/import/cern_tpa.py:30-31 | a history parameter reads as `''` after its name line alone |
| CernTpa.SetupParamAsWritten | util/import/cern_tpa.py:37-45 | the reader as written accepts only a line with exactly one colon |
| CernTpa.SetupParam | util/import/cern_tpa.py:37-45 | the corrected reader needs at least one colon, and fails with `ValueError` exactly when there is none |
| CernTpa.ReadSetupParam | util/import/cern_tpa.py:37-45 | corrected reader: consumes one line and returns what the first-colon split reads from it; on a line with at most one colon this is what the code as written returns (see `SetupParamAgrees`) |
| CernTpa.SetupParamRoundTrip | util/import/cern_tpa.py:37-45 | `name: value` written by the set-up, with trailing whitespace, reads back as the value: by the corrected reader for any value, and by the reader as written for every value without a colon |
| CernTpa.SetupParamAgrees | util/import/cern_tpa.py:37-45 | the corrected reader differs from the one as written only on lines with two colons or more: wherever the reader as written returns a value, the corrected one returns the same |
| CernTpa.SetupParamColonFinding | util/import/cern_tpa.py:40 | a value holding a colon (say a time) is refused with `ValueError` as written, and read whole by the corrected reader |
| CernTpa.SampleLineIsNoSetupLine | util/import/cern_tpa.py:37-43 | a sample name line `:name` is no setup parameter line |
| CernTpa.VectorAspectsDistinct | util/import/cern_tpa.py:50 | the five aspect names are distinct dictionary keys |
| CernTpa.AspectValueNeedsColon | util/import/cern_tpa.py:51 | a line without a colon cannot be unpacked into name and value |
| CernTpa.EmptyAspectRefused | util/import/cern_tpa.py:51 | the empty line read at the end of the file is refused |
| CernTpa.ReadEachValues | util/import/cern_tpa.py:50-56 | a successful read of the aspects consumes exactly one line per aspect, each holding its aspect with the value returned |
| CernTpa.ReadEachErrorStops | util/import/cern_tpa.py:53-54 | once an aspect is refused, the later ones are not read |
| CernTpa.ConvertAll | util/import/cern_tpa.py:59 | the conversion succeeds exactly when every token is a number, giving the numbers in order, and raises `ValueError` otherwise |
| CernTpa.Counted | util/import/cern_tpa.py:58-64 | the count is parsed first, then the values; the vector is returned exactly when their number equals the count |
| CernTpa.ReadVector | util/import/cern_tpa.py:47-64 | the loop filling the aspect dictionary reads the vector: five lines `{p}Min`, `{p}Max`, `delta{p}`, `n{p}`, `{p}Vector` in order, then the count check |
| CernTpa.AspectLineRoundTrip | util/import/cern_tpa.py:51-56 | an aspect line `aspect: value` reads back as its value |
| CernTpa.VectorRead | util/import/cern_tpa.py:47-64 | the five lines of a vector written out are all read, and the vector comes from its count and value texts |
| CernTpa.VectorRoundTrip | util/import/cern_tpa.py:58-64 | a vector written as its count and its space-separated numbers reads back as those numbers |
| CernTpa.EmptyVectorRefused | util/import/cern_tpa.py:59 | an empty value line is never read: its one empty token is no number |
| DataDir.Prefix | tct/data/DataDir.py:60 | an entry name is `A` followed by the entry number |
| DataDir.PrefixInjective | tct/data/DataDir.py:60 | distinct entry numbers give distinct entry names |
| DataDir.RecordSpec | tct/data/DataDir.py:62-66 | a record starts with `_prefix` and `_type` (`hdf5`) and is then updated with the state, whose keys override those two |
| DataDir.ScanDir.constructor | tct/data/DataDir.py:35-36 | a new scan folder has an empty record list and count 0 |
| DataDir.ScanDir.AddEntry | tct/data/DataDir.py:59-71 | the entry gets prefix `A{count}`, exactly one record is appended, earlier ones kept, and the count grows by one; the invariant keeps record i the one of entry `A{i}` |
| DataDir.ScanDir.WriteList | tct/data/DataDir.py:51-55 | the list written is the one passed in, or the accumulated records when none is |
| DataDir.ListedPrefixes | tct/data/DataDir.py:60-68 | records of different entries carry different `_prefix` values when the states do not set one |
| DataDir.StampLength | tct/data/DataDir.py:93 | for years 1000 to 9999, the `%Y%m%d-%H%M%S` stamp is fifteen characters with the `-` at position 8 |
| DataDir.StampFields | tct/data/DataDir.py:93 | for years 1000 to 9999, each field of the stamp reads back as the date field it was printed from |
| DataDir.EntryNameInjective | tct/data/DataDir.py:92-93 | two entry names are equal exactly when the dates and the slugs are |
| DataDir.Clock.SleepThenNow | tct/data/DataDir.py:88-90 | the reading after the one-second sleep, which lies in a later second than the clock's last reading, is returned and becomes the last reading |
| DataDir.CreateScan | tct/data/DataDir.py:84-95 | the new scan folder is named `{stamp}_{slug}` and starts empty; the stamp is that of the given date, or without one that of the clock read after the sleep, which becomes the clock's last reading |
| DataDir.LaterEntryDistinct | tct/data/DataDir.py:87-93 | a scan created after the one-second sleep gets a different folder name than the scan before it, whatever the two names |
| DataDir.LaterChain | tct/data/DataDir.py:88-90 | readings each taken in a later second than the one before are ordered |
| DataDir.DefaultEntriesDistinct | tct/data/DataDir.py:87-93 | scans created one after another without a date get pairwise different folder names |
| ChargePropagation.ClampBounds | analysis/simulation/signal/util/ChargePropagation_1D.py:82-86 | the clamped step lies in `[dt_min, dt_max]` when `dt_min <= dt_max`, and is never below the smaller bound nor above `dt_max` |
| ChargePropagation.Velocities | analysis/simulation/signal/util/ChargePropagation_1D.py:70 | one velocity per carrier |
| ChargePropagation.MaxSpeed | analysis/simulation/signal/util/ChargePropagation_1D.py:72 | `max(abs(v))` bounds every carrier's speed and is attained by one |
| ChargePropagation.MaxSpeedZero | analysis/simulation/signal/util/ChargePropagation_1D.py:72-78 | the loop's stop test `max_v == 0` holds exactly when every carrier is at rest |
| ChargePropagation.SumWhereIgnoresNeutral | analysis/simulation/signal/util/ChargePropagation_1D.py:89-91 | a carrier of zero charge contributes to neither the electron nor the hole sum, whatever its current |
| ChargePropagation.FrozenSpec | analysis/simulation/signal/util/ChargePropagation_1D.py:96-99 | a carrier whose new position is `>= x_range[1]` or `<= x_range[0]` gets charge 0 and every other keeps its own; the ensemble keeps its size, and a frozen carrier stays frozen |
| ChargePropagation.StepsLeftDecrease | analysis/simulation/signal/util/ChargePropagation_1D.py:62-101 | for positive `dt_min` and `dt_max`, each step of at least `min(dt_min, dt_max)` leaves fewer steps before `t_end`, so the loop terminates |
| ChargePropagation.StepOf | analysis/simulation/signal/util/ChargePropagation_1D.py:82-101 | the step is `dx/max|v|` raised to `dt_min` and then lowered to `dt_max`, at least the smallest step; positions and charges keep the ensemble's size |
| ChargePropagation.LoopFails | analysis/simulation/signal/util/ChargePropagation_1D.py:62-72 | the loop fails, with `ValueError` from `np.max` of nothing, exactly when it starts at or before `t_end` with no carriers |
| ChargePropagation.Loop | analysis/simulation/signal/util/ChargePropagation_1D.py:62-101 | the loop never ends before the time it starts from |
| ChargePropagation.LoopSucceeds | analysis/simulation/signal/util/ChargePropagation_1D.py:62-101 | for positive `dt_min` and `dt_max`, with at least one carrier the loop always finishes |
| ChargePropagation.LoopShape | analysis/simulation/signal/util/ChargePropagation_1D.py:62-101 | the loop's samples have one time each for electrons and holes, strictly increasing within `[t, t_end]`; an end time not past `t_end` happens only after the all-stopped break and leaves a zero sample there, otherwise the loop ends past `t_end` |
| ChargePropagation.PrependShape | analysis/simulation/signal/util/ChargePropagation_1D.py:89-101 | one sample at the current time in front of the later ones keeps that shape |
| ChargePropagation.PreTimes | analysis/simulation/signal/util/ChargePropagation_1D.py:53-58 | the pre-trigger samples end at `-dt_min`, with one at `-t_pre` before it when `t_pre > dt_min` |
| ChargePropagation.SignalsShape | analysis/simulation/signal/util/ChargePropagation_1D.py:53-109 | the two returned signals share their strictly increasing sample times, starting at `-t_pre` or `-dt_min` and ending no later than `t_end` or the loop's end, so `e_signal + h_signal` never fails |
| ChargePropagation.TimesOrdered | analysis/simulation/signal/util/ChargePropagation_1D.py:53-107 | any two samples of the pre-trigger, loop and end times are in order |
| ChargePropagation.Simulation.constructor | analysis/simulation/signal/util/ChargePropagation_1D.py:19-32 | the default settings, `t_pre = 20·dt_max` and no model |
| ChargePropagation.Simulation.SetModel | analysis/simulation/signal/util/ChargePropagation_1D.py:35-36 | the model is installed and the settings are unchanged |
| ChargePropagation.Simulation.Run | analysis/simulation/signal/util/ChargePropagation_1D.py:38-114 | without a model `run` raises `No valid model set!`; otherwise it returns the sum of the two signals of the loop's trace, with both parts when `retEH` is set |
| ChargePropagation.PreTrigger | analysis/simulation/signal/util/ChargePropagation_1D.py:50-58 | both signals start with zero samples at the pre-trigger times |
| ChargePropagation.Sample | analysis/simulation/signal/util/ChargePropagation_1D.py:76-91 | one sample is appended to each signal at the same time |
| ChargePropagation.Propagate | analysis/simulation/signal/util/ChargePropagation_1D.py:62-101 | the `while` loop appends exactly the loop's trace to both signals and ends at its final time, or fails exactly when the trace does |
| ChargePropagation.Pass | analysis/simulation/signal/util/ChargePropagation_1D.py:70-101 | one pass samples both signals at the current time and either stops (all at rest) or moves on to a later time with fewer steps left |
| ChargePropagation.LoopStops | analysis/simulation/signal/util/ChargePropagation_1D.py:75-78 | when no carrier moves, the loop takes one zero sample at the current time and stops there |
| ChargePropagation.RunOfTrace | analysis/simulation/signal/util/ChargePropagation_1D.py:38-109 | with a model, `run` gives the signals of the loop's trace |
| ChargePropagation.RunOf | analysis/simulation/signal/util/ChargePropagation_1D.py:38-109 | without a model `run` raises `No valid model set!` |
| ChargePropagation.Positions | analysis/simulation/signal/util/ChargePropagation_1D.py:43 | `charge_pos` is the first column of the charges, one per carrier |
| ChargePropagation.Charges | analysis/simulation/signal/util/ChargePropagation_1D.py:44 | `charge_q` is the second column of the charges, one per carrier |
| ChargePropagation.Induced | analysis/simulation/signal/util/ChargePropagation_1D.py:89 | one induced current per carrier |
| ChargePropagation.Moved | analysis/simulation/signal/util/ChargePropagation_1D.py:94 | one new position per carrier |
| ChargePropagation.Frozen | analysis/simulation/signal/util/ChargePropagation_1D.py:97-99 | freezing keeps one charge per carrier |
| ChargePropagation.LoopUnfold | analysis/simulation/signal/util/ChargePropagation_1D.py:62-101 | a pass in which some carrier moves takes one sample at the current time and continues from `t + dt` with fewer steps left |
| ChargePropagation.LoopAdvance | analysis/simulation/signal/util/ChargePropagation_1D.py:62-101 | after the samples already taken, such a pass moves one sample from what is left to what is done |
| ChargePropagation.OutputsOf | analysis/simulation/signal/util/ChargePropagation_1D.py:105-114 | the signals built from the pre-trigger samples, the trace and the end sample are the outputs of the trace, with equal time axes and one value per time |
| Signals.AddValues | analysis/simulation/signal/util/signal.py:23 | numpy's `+` of two arrays succeeds exactly when their lengths agree or one of them has length 1, and fails with `ValueError` otherwise |
| Signals.AddValuesPointwise | analysis/simulation/signal/util/signal.py:23 | arrays of the same length add element by element |
| Signals.AddValuesCommutes | analysis/simulation/signal/util/signal.py:23 | array addition commutes, failures included |
| Signals.Add | analysis/simulation/signal/util/signal.py:19-23 | different time arrays raise `Can not add two signals with different time sampling!`; a sum keeps the shared time array |
| Signals.AddSpec | analysis/simulation/signal/util/signal.py:19-23 | two well-formed signals on the same times add sample by sample |
| Signals.AddCommutes | analysis/simulation/signal/util/signal.py:19-23 | signal addition commutes, failures included |
| Signals.AddZero | analysis/simulation/signal/util/signal.py:19-23 | adding the zero signal on the same times gives the signal back |
| Signals.SignalExtensible.constructor | analysis/simulation/signal/util/signal.py:38-40 | an extensible signal starts with no samples |
| Signals.SignalExtensible.Add | analysis/simulation/signal/util/signal.py:48-50 | `add` appends one time and one value, and the two lists keep the same length |
| Signals.SignalExtensible.Samples | analysis/simulation/signal/util/signal.py:16-17 | the sample count is the length of both lists |
| Signals.EvenTimes | analysis/simulation/signal/util/signal.py:55-57 | `linspace(tstart, tstart+N*dt, N, endpoint=False)` has `N` points |
| Signals.EvenTimesSpec | analysis/simulation/signal/util/signal.py:57 | the `i`-th grid point is `tstart + i·dt` |
| Signals.EvenTimesIncreasing | analysis/simulation/signal/util/signal.py:57 | with a positive step the grid is strictly increasing |
| Signals.AsSignal | analysis/simulation/signal/util/signal.py:55-62 | an evenly sampled signal is a signal with one time per value |
| Signals.EvenAddAsWrittenNoSum | analysis/simulation/signal/util/signal.py:64-71 | as written, `SignalEven.__add__` never returns a sum: matching grids reach the undefined `SignalEvent`, and the other branch drops the base result |
| Signals.EvenAdd | analysis/simulation/signal/util/signal.py:64-71 | mismatched grids raise the sampling error; a sum keeps the grid; any other signal uses the base addition |
| Signals.EvenAddAgrees | analysis/simulation/signal/util/signal.py:19-69 | on matching grids the intended even sum is the base sum of the two signals |
| Signals.InterpAtKnot | analysis/simulation/signal/util/signal.py:29 | the linear interpolant passes through every table point |
| Signals.Resample | analysis/simulation/signal/util/signal.py:25-33 | fewer than two samples or mismatched arrays raise `ValueError`; the result starts at `min(time)` with step `dt` |
| Signals.Sampled | analysis/simulation/signal/util/signal.py:31 | one interpolated value per grid point |
| Signals.ResampleSpec | analysis/simulation/signal/util/signal.py:25-33 | with a positive step resampling succeeds; its grid points lie in `[min(time), max(time))`, reach `max(time)` one step later, and carry the interpolant |
| Signals.GridTimes | analysis/simulation/signal/util/signal.py:30-57 | the `arange` grid is the `SignalEven` grid of the same start, step and length |
| Signals.ResampleGrid | analysis/simulation/signal/util/signal.py:25-33 | the resampled signal is the interpolant sampled on `arange(min, max, dt)` |
| Signals.ResampleEven | analysis/simulation/signal/util/signal.py:25-62 | resampling an evenly sampled signal at its own step keeps every sample except the last |
| Signals.FilterLowPass | analysis/simulation/signal/util/signal.py:73-79 | a zero time step raises `ZeroDivisionError` at `fs = 1/dt`; otherwise the filtered signal keeps `tstart` and `dt` |
| Signals.FilterKeepsGrid | analysis/simulation/signal/util/signal.py:73-79 | when the filter keeps the length, the time grid is unchanged and each sample is `gain` times the filtered one |
| Charge.PairAt | analysis/simulation/signal/util/charge.py:24-27 | one carrier per requested kind, the electron first |
| Charge.Point | analysis/simulation/signal/util/charge.py:6-13 | `point` gives one carrier per requested kind at `position` |
| Charge.PairsOf | analysis/simulation/signal/util/charge.py:22-27 | `n` grid points give `n` carriers of each requested kind |
| Charge.Collect | analysis/simulation/signal/util/charge.py:22-29 | the append loop over `zip(range, pdf)` builds exactly the pairs of the shorter of the two arrays |
| Charge.PairsOrder | analysis/simulation/signal/util/charge.py:23-27 | with both kinds, carrier `2i` is the electron `(x_i, -e0·w_i)` and carrier `2i+1` the hole `(x_i, e0·w_i)` |
| Charge.TotalChargeAppend | analysis/simulation/signal/util/charge.py:22-27 | the total charge of two lists of carriers is the sum of their totals |
| Charge.PairCharge | analysis/simulation/signal/util/charge.py:6-13 | the carriers at one point carry the net charge of their weight: zero for a pair, `∓e0·w` for one kind alone |
| Charge.PairsCharge | analysis/simulation/signal/util/charge.py:22-27 | the carriers of `n` points carry the net charge of the sum of their weights |
| Charge.Normalise | analysis/simulation/signal/util/charge.py:20-36 | `Neh*pdf/sum(pdf)` is defined exactly when the weights are empty or their sum is not zero, and keeps their number |
| Charge.Scaled | analysis/simulation/signal/util/charge.py:20-36 | scaling multiplies every weight by the same factor |
| Charge.NormaliseSum | analysis/simulation/signal/util/charge.py:20-36 | the rescaled weights add up to `Neh` |
| Charge.ScaledSum | analysis/simulation/signal/util/charge.py:20-36 | scaling by `Neh/total` makes weights of sum `total` add up to `Neh` |
| Charge.NormaliseShares | analysis/simulation/signal/util/charge.py:20-36 | each rescaled weight is its density times `Neh/total` |
| Charge.SumPositive | analysis/simulation/signal/util/charge.py:19-20 | positive densities have a positive sum, so normalising never divides by zero |
| Charge.Densities | analysis/simulation/signal/util/charge.py:19-35 | one density per grid point |
| Charge.Normal | analysis/simulation/signal/util/charge.py:16-29 | `normal` computes the grid, the rescaled weights and the pairs, failing where they fail |
| Charge.NormalSpec | analysis/simulation/signal/util/charge.py:16-29 | for a positive density and at least one point, `normal` gives `points` carriers of each requested kind whose charge adds up to the net charge of `Neh` |
| Charge.EnsembleCharge | analysis/simulation/signal/util/charge.py:19-29 | pairs weighted by normalised positive densities carry the net charge of `Neh` |
| Charge.DensitiesNormalise | analysis/simulation/signal/util/charge.py:19-36 | normalised positive densities exist, one per point, and add up to `Neh` |
| Charge.WeightedCharge | analysis/simulation/signal/util/charge.py:22-27 | pairs whose weights add up to `Neh` carry the net charge of `Neh` |
| Charge.Exponential | analysis/simulation/signal/util/charge.py:32-47 | `exponential` computes the depth grid, the rescaled weights, the position grid and the pairs, failing where they fail |
| Charge.ExponentialCharge | analysis/simulation/signal/util/charge.py:32-47 | for a positive density and at least one point, `exponential` gives `points` carriers of each requested kind whose charge adds up to the net charge of `Neh` |
| Charge.ExponentialPositions | analysis/simulation/signal/util/charge.py:33-38 | the `i`-th position lies the `i`-th depth away from `position`, in the direction of `lbda`'s sign |
| Charge.LinspaceMirror | analysis/simulation/signal/util/charge.py:33-38 | a `linspace` from `p` to `p+d` is the one from 0 to `d` shifted by `p`, and the one to `-d` is its mirror image |
| PNBonded.NewModelSpec | analysis/simulation/signal/Run2_PNBonded.py:12-41 | the model fails exactly for a negative bias (the square root of a negative number); otherwise `W = Wp + Wn`, `Vdep = 0.5·Na·e0/eps·Wp²` is positive, the depletion is partial exactly when `Vbias < Vdep`, a partial depletion width lies in `(-Wp, 0]` with square `2·Vbias·eps/(e0·Na)`, and a full one is `-Wp` |
| PNBonded.NewModel | analysis/simulation/signal/Run2_PNBonded.py:12-41 | a model fails only with NaN below the depletion voltage; a built model is valid, with the bias given and `W = Wp + Wn` |
| PNBonded.DepletionFacts | analysis/simulation/signal/Run2_PNBonded.py:23-27 | the depletion voltage is positive, the squared width has the sign of the bias, and below the depletion voltage it is smaller than `Wp²` |
| PNBonded.WidthSign | analysis/simulation/signal/Run2_PNBonded.py:27 | `2·Vbias·eps/(e0·Na)` is negative exactly when the bias is |
| PNBonded.WidthBelowLayer | analysis/simulation/signal/Run2_PNBonded.py:23-27 | below the depletion voltage the squared width is smaller than `Wp²` |
| PNBonded.RootBelow | analysis/simulation/signal/Run2_PNBonded.py:26-27 | a square below `Wp²` has its root below `Wp`, so a partial depletion stays inside the p-layer |
| PNBonded.PartialField | analysis/simulation/signal/Run2_PNBonded.py:29-32 | partially depleted, there is no field at or below `Wdep`, and above it the field is `e0·Na/eps·(Wdep - x)`, negative |
| PNBonded.FullField | analysis/simulation/signal/Run2_PNBonded.py:36-38 | fully depleted, the field at `-Wp` is `-(Vbias - Vdep)/Wp` and falls linearly with slope `e0·Na/eps` |
| PNBonded.Efield | analysis/simulation/signal/Run2_PNBonded.py:29-38 | with partial depletion the field is nowhere positive |
| PNBonded.BranchesMeet | analysis/simulation/signal/Run2_PNBonded.py:29-38 | at `Vbias = Vdep` the full-depletion field is the partial one with `Wdep = -Wp` |
| PNBonded.Ew | analysis/simulation/signal/Run2_PNBonded.py:43-44 | the weighting field is `1/W`, positive |
| PNBonded.EwConstant | analysis/simulation/signal/Run2_PNBonded.py:43-44 | the weighting field is the same at every position |
| PNBonded.VelocitySpec | analysis/simulation/signal/Run2_PNBonded.py:46-55 | a hole moves at `E·mu_h(T, |E|)`, an electron at `-E·mu_e(T, |E|)`, and a neutral carrier rests |
| PNBonded.Velocity | analysis/simulation/signal/Run2_PNBonded.py:46-55 | a neutral carrier does not move |
| PNBonded.DriftDirection | analysis/simulation/signal/Run2_PNBonded.py:46-55 | with positive mobilities holes drift along the field and electrons against it |
| PNBonded.AsField | analysis/simulation/signal/Run2_PNBonded.py:10-55 | the model seen by the simulator has this model's velocities and weighting field |
| PNBonded.CreateSimulation | analysis/simulation/signal/Run2_PNBonded.py:58-65 | a negative bias fails in the model; otherwise the simulator has its default settings with `x_range = (-Wp, 0)` and this model installed |
| Preprocess.Before | analysis/preprocess/generic.py:4 | `signal[time < cutoff]` keeps at most all the samples |
| Preprocess.Shift | analysis/preprocess/generic.py:5 | `signal - offset` subtracts the offset from every sample and keeps the length |
| Preprocess.BeforeShift | analysis/preprocess/generic.py:4-5 | selecting the early samples commutes with shifting the signal |
| Preprocess.SumShift | analysis/preprocess/generic.py:5 | shifting `n` samples by `c` lowers their sum by `n·c` |
| Preprocess.OffsetMeanFails | analysis/preprocess/generic.py:3-5 | `OffsetMean` fails exactly when the arrays differ in length (`IndexError`), or when a non-empty signal has no sample before the cutoff (the mean is NaN); an empty signal gives back the empty signal |
| Preprocess.OffsetMean | analysis/preprocess/generic.py:3-5 | arrays of different lengths raise `IndexError`; an empty signal is returned empty despite its NaN mean; a result keeps the signal's length |
| Preprocess.ZeroMean | analysis/preprocess/generic.py:4 | samples summing to 0 have mean 0 |
| Preprocess.ShiftByMean | analysis/preprocess/generic.py:4-5 | samples shifted by their own mean have mean 0 |
| Preprocess.ShiftBy | analysis/preprocess/generic.py:4-5 | shifting by the mean makes the sum 0 |
| Preprocess.OffsetMeanZero | analysis/preprocess/generic.py:3-5 | otherwise `OffsetMean` keeps the length, and afterwards the samples before the cutoff have mean 0 |
| Preprocess.WindowSumInside | analysis/preprocess/generic.py:8 | a convolution window that lies inside the signal sums its samples |
| Preprocess.MovingAvgSpec | analysis/preprocess/generic.py:7-8 | for a signal at least `Navg` long the output has the input's length, and each output whose window lies inside the signal is the mean of the `Navg` samples around it |
| Preprocess.MovingAvg | analysis/preprocess/generic.py:7-8 | no taps raise `ZeroDivisionError`; the average exists exactly for a positive tap count and a non-empty signal, and has the length of the longer operand, as `mode='same'` gives |
| Preprocess.MovingAvgOne | analysis/preprocess/generic.py:7-8 | a one-tap moving average is the identity |
| Preprocess.Subtracted | analysis/preprocess/Pre_May22.py:39-40 | the slice update keeps the signal's length |
| Preprocess.SubtractedSpec | analysis/preprocess/Pre_May22.py:39-40 | samples before `k` are kept; each later one becomes `s[i] - factor·s[i-k]`, using the original `s[i-k]` |
| Preprocess.SliceStart | analysis/preprocess/Pre_May22.py:40 | for a positive delay, `signal[k:]` starts at `min(k, n)` |
| Preprocess.Reflected | analysis/preprocess/Pre_May22.py:39-40 | the corrected copy keeps the signal's length |
| Preprocess.RemoveReflectionCoarseFails | analysis/preprocess/Pre_May22.py:36-40 | as written, a 100 ns sampling step rounds the delay to 0 samples and the update fails |
| Preprocess.Delayed | analysis/preprocess/Pre_May22.py:39-40 | removing the reflection keeps the length for every delay |
| Preprocess.DelayedSpec | analysis/preprocess/Pre_May22.py:32-40 | for a delay of `k >= 0` the first `k` samples are kept and each later one becomes `s[i] - factor·s[i-k]` |
| Preprocess.RemoveReflectionSpec | analysis/preprocess/Pre_May22.py:30-42 | for a non-empty signal on an increasing grid the delay is `rint(21.9 ns/dt) >= 0` and the result is the signal less `max(signal)/2.7` times itself that many samples later |
| Preprocess.RemoveReflection | analysis/preprocess/Pre_May22.py:30-42 | corrected: an empty signal raises `ValueError` (`max` of nothing), and a result keeps the signal's length |
| Preprocess.RemoveReflectionAgrees | analysis/preprocess/Pre_May22.py:30-42 | the corrected function fails exactly for an empty signal or an unusable time step; it agrees with the code as written wherever that succeeds, and the code as written fails where the corrected one does not only for a delay of 0 samples |
| Plot.Where | analysis/online/Plot.py:54-57 | a boolean mask keeps one sample per selected time |
| Plot.WhereIncludes | analysis/online/Plot.py:54-57 | every sample whose time the mask selects is kept |
| Plot.WhereFrom | analysis/online/Plot.py:54-57 | every kept sample is one whose time the mask selects |
| Plot.WhereSplit | analysis/online/Plot.py:54-56 | `time >= 0` and `time < 0` split the samples between them |
| Plot.Shift | analysis/online/Plot.py:57 | subtracting the offset shifts every sample and keeps the length |
| Plot.Offset | analysis/online/Plot.py:56 | the offset, the mean amplitude over `time < 0`, exists exactly when some sample has a negative time |
| Plot.Apply | analysis/online/Plot.py:53-66 | mismatched arrays raise; an unknown function raises `Unknwon plot function [...]!`; `min()`/`max()` of no sample at `time >= 0` raise and without a pre-trigger sample are NaN; `integral()` of fewer than two samples is 0 and is NaN without a pre-trigger sample |
| Plot.ApplyExtremes | analysis/online/Plot.py:56-62 | `min()` and `max()` are the least and greatest offset-corrected sample at `time >= 0`, attained by one of them |
| Plot.ApplyIntegral | analysis/online/Plot.py:56-64 | `integral()` is the trapezoid rule of the offset-corrected samples at `time >= 0` against their times |
| Plot.WhereShift | analysis/online/Plot.py:54-57 | masking commutes with shifting the amplitudes |
| Plot.ApplyBaselineFree | analysis/online/Plot.py:53-66 | adding a constant to every amplitude changes no reduction, failures included |
| Plot.OffsetShift | analysis/online/Plot.py:56 | adding a constant to the amplitudes adds it to the offset |
| Plot.Transform | analysis/online/Plot.py:70-73 | corrected table: `transform` multiplies every value by the key's display factor (as written `max()` raises, see `TransformFinding`) |
| Plot.FactorPositive | analysis/online/Plot.py:70-73 | every display factor is positive |
| Plot.TransformOrder | analysis/online/Plot.py:70-73 | scaling keeps the order of any two values |
| Plot.Label | analysis/online/Plot.py:75-78 | a key without metadata is labelled `'{key} [na]'` |
| Plot.Legend | analysis/online/Plot.py:80-82 | corrected table: a key without metadata gets the legend `'{key}: {value} na'` (as written `max()` raises, see `LegendFinding`) |
| Plot.LabelFinding | analysis/online/Plot.py:75-78 | on the table as written, `label('max()')` raises, while every other key gets the corrected label; corrected, `max()` is labelled `Maximum Amplitude [mV]` |
| Plot.TransformFinding | analysis/online/Plot.py:70-73 | on the table as written, `transform('max()', values)` raises `ValueError`, while every other key is scaled as by the corrected `Transform` |
| Plot.LegendFinding | analysis/online/Plot.py:80-82 | on the table as written, `legend('max()', value)` raises `ValueError`, while every other key gets the corrected legend; corrected, `max()` shows `min(): {1000·value} mV` |
| Plot.LegendShowsTransform | analysis/online/Plot.py:70-82 | a legend prints the short name, then the value as `transform` scales it, then the unit |
| Plot.LegendLabelUnit | analysis/online/Plot.py:75-82 | a legend ends with the unit that its label shows in brackets |
| Plot2D.StepsIncrease | analysis/online/Plot2D.py:28-34 | positive consecutive differences make every earlier value smaller than every later one |
| Plot2D.StepsDecrease | analysis/online/Plot2D.py:28-34 | negative consecutive differences make every earlier value larger than every later one |
| Plot2D.MonotonicIff | analysis/online/Plot2D.py:28-34 | `isMonothonic` holds exactly when the values are strictly increasing or strictly decreasing |
| Plot2D.NotMonotonic | analysis/online/Plot2D.py:34 | two equal neighbours, or a change in the sign of the differences, make the values non-monotonic |
| Plot2D.ShortMonotonic | analysis/online/Plot2D.py:29-34 | sequences of at most one value count as monotonic |
| Plot2D.Style | analysis/online/Plot2D.py:67-71 | the x series is drawn with a line exactly when it is monotonic, and with circle markers exactly when it is not |
| BiasSupply.Smu.constructor | tct/lab/control/BiasSupplyControl.py:11 | the unit starts in the given state with no commands sent |
| BiasSupply.Smu.Send | tct/lab/control/BiasSupplyControl.py:82-170 | a command is recorded and has its effect on the unit's state |
| BiasSupply.FirstAtLeastSpec | tct/lab/control/BiasSupplyControl.py:16-29 | the range found is listed, covers `|limit|`, and no earlier one does; no range is found exactly when none covers it |
| BiasSupply.FirstAtLeast | tct/lab/control/BiasSupplyControl.py:16-29 | a range found is listed and covers the limit |
| BiasSupply.SelectRange | tct/lab/control/BiasSupplyControl.py:17-29 | the loop that breaks at the first range `>= |limit|` finds the first such range, or none |
| BiasSupply.DefaultRanges | tct/lab/control/BiasSupplyControl.py:10-29 | the default limits of 1000 V and 20 mA select the 1100 V and 21 mA ranges |
| BiasSupply.DeltaValue | tct/lab/control/BiasSupplyControl.py:118 | the step is `elapsed·20 V/s` with the sign of `target - current` |
| BiasSupply.RampStepSpec | tct/lab/control/BiasSupplyControl.py:115-126 | a pass of at least 0.2 s stays between the setpoint and the target, never overshoots, gets strictly closer, and either reaches the target or moves at least 4 V |
| BiasSupply.RampStep | tct/lab/control/BiasSupplyControl.py:115-126 | for any non-negative elapsed time the next setpoint lies between the current one and the target |
| BiasSupply.MeasureDecreases | tct/lab/control/BiasSupplyControl.py:115-126 | reaching the target or moving 4 V lowers the number of 4 V steps left, so the ramp terminates |
| BiasSupply.RampSpec | tct/lab/control/BiasSupplyControl.py:111-128 | the ramp writes nothing at the target; otherwise its last setpoint is the target, every setpoint lies between start and target, and each is strictly closer to the target than the one before |
| BiasSupply.Ramp | tct/lab/control/BiasSupplyControl.py:111-128 | the ramp writes no setpoint exactly when it starts at the target |
| BiasSupply.RampUnfold | tct/lab/control/BiasSupplyControl.py:115-128 | a ramp not yet at the target writes one step and ramps on from there |
| BiasSupply.Writes | tct/lab/control/BiasSupplyControl.py:128 | each setpoint of the ramp becomes one `setVoltage` command, in order |
| BiasSupply.BiasSupplyControl.constructor | tct/lab/control/BiasSupplyControl.py:10-29 | the limits are stored and each range is the first of its table covering the limit, or unset |
| BiasSupply.BiasSupplyControl.RampVoltage | tct/lab/control/BiasSupplyControl.py:98-132 | a target outside `[min(0, VLimit), max(0, VLimit)]` returns `False` and sends nothing; with the output off the setpoint is written once, only if it differs; with the output on the ramp's setpoints are written in order; either way the setpoint ends at the target |
| BiasSupply.BiasSupplyControl.RampOn | tct/lab/control/BiasSupplyControl.py:109-128 | the `while` loop sends exactly the ramp's setpoints and leaves the setpoint at the target |
| BiasSupply.BiasSupplyControl.RampPass | tct/lab/control/BiasSupplyControl.py:118-126 | one pass of the loop computes the ramp's next setpoint |
| BiasSupply.BiasSupplyControl.On | tct/lab/control/BiasSupplyControl.py:134-145 | an on unit is left alone and `True` returned; an off unit has its setpoint saved, zeroed, is switched on and ramped back to the saved setpoint, which must lie within the limits |
| BiasSupply.BiasSupplyControl.Off | tct/lab/control/BiasSupplyControl.py:147-155 | an on unit is ramped to 0 V and then switched off; an off unit is left alone; `True` either way |
| BiasSupply.BiasSupplyControl.MeasureCurrent | tct/lab/control/BiasSupplyControl.py:163-172 | with the output off there is no reading and nothing is sent; with it on, the arm count is set to 1, a measurement triggered and its reading returned |
| BiasSupply.BiasSupplyControl.Setup | tct/lab/control/BiasSupplyControl.py:80-94 | the unit is switched off at 0 V and configured; the commands sent are those of `SMUOff()` followed by the configuration up to the first unset range, which raises `AttributeError`; once setup succeeds `check` passes |
| BiasSupply.BiasSupplyControl.Configure | tct/lab/control/BiasSupplyControl.py:83-94 | on a unit already off: 0 V, voltage source, fixed mode, current protection, voltage range, current sense range and sense on are sent in that order, stopping with `AttributeError` at the first unset range; afterwards `check` passes |
| BiasSupply.BiasSupplyControl.Check | tct/lab/control/BiasSupplyControl.py:41-77 | `check()` raises only with `AttributeError`, and only when a range is unset |
| BiasSupply.BiasSupplyControl.Start | tct/lab/control/BiasSupplyControl.py:31-77 | an unset range raises `AttributeError` with nothing sent; a passing check changes nothing; on a mismatch `setup` runs: the commands of `SMUOff()` and then the configuration are sent, the unit is left off at 0 V, and an unset range stops it with `AttributeError`; afterwards `check` passes |
| Stage.ConversionsInverse | tct/lab/control/StageControl.py:33-39 | at 2.5 µm per step, millimetres to steps is `400·mm` and the two conversions undo each other |
| Stage.Motor.constructor | tct/lab/control/StageControl.py:44-46 | a motor starts with its own homing flag, position and status, and no commands sent |
| Stage.Motor.Send | tct/lab/control/StageControl.py:108-112 | a command is recorded; a move sets the position to its target and nothing else changes |
| Stage.PositionTargetsFinding | tct/lab/control/StageControl.py:148-163 | as written, a y-only `PositionMoveTo` logs `X = None` and no y target |
| Stage.PositionTargetsSpec | tct/lab/control/StageControl.py:148-163 | corrected, the logged targets hold x under `X` and y under `Y`, one per given axis |
| Stage.PositionTargets | tct/lab/control/StageControl.py:148-163 | corrected: the log holds `X` exactly when x is given and `Y` exactly when y is given |
| Stage.RequestedSpec | tct/lab/control/StageControl.py:93-98 | `FromState` moves an axis exactly when its key (`stage.x`, `stage.y`, `stage.focus`) is present, to the value stored there; the position is `float()` of the stored value, and a value `float` cannot convert raises the error it raises |
| Stage.StatusEntries | tct/lab/control/StageControl.py:86-89 | each status field of an axis becomes one `stage.status.{ax}.{key}` entry, in order |
| Stage.StatusKeyInjective | tct/lab/control/StageControl.py:89 | status keys of one axis are distinct for distinct fields |
| Stage.StatusEntriesGet | tct/lab/control/StageControl.py:86-89 | the status entries keep their fields' values under unique keys, and hold no other key |
| Stage.SkipStatus | tct/lab/control/StageControl.py:86-89 | writing an axis's status leaves every key outside its prefix alone |
| Stage.HitStatus | tct/lab/control/StageControl.py:86-89 | after writing an axis's status, its key for a field holds that field's value |
| Stage.SkipAllStatus | tct/lab/control/StageControl.py:86-89 | writing all three statuses leaves every key outside their prefixes alone |
| Stage.StateOfPositions | tct/lab/control/StageControl.py:81-84 | `ToState` stores each axis's position, in millimetres, under its `KEY_MAP` key |
| Stage.StateOfOther | tct/lab/control/StageControl.py:81-91 | `ToState` leaves every key that does not start with `stage.` as it was |
| Stage.StateOfStatusX | tct/lab/control/StageControl.py:86-89 | `ToState` stores each x status field under `stage.status.x.{key}` |
| Stage.StateOfStatusY | tct/lab/control/StageControl.py:86-89 | `ToState` stores each y status field under `stage.status.y.{key}` |
| Stage.StateOfStatusZ | tct/lab/control/StageControl.py:86-89 | `ToState` stores each z status field under `stage.status.z.{key}` |
| Stage.WriteEntries | tct/lab/control/StageControl.py:83-89 | the loop of item assignments writes exactly the dictionary update |
| Stage.StageControl.constructor | tct/lab/control/StageControl.py:42-56 | three distinct axes, the given limits or the defaults, and validity exactly when every axis has been homed |
| Stage.StageControl.MoveAxis | tct/lab/control/StageControl.py:101-108 | a target outside the axis's limits, unless limits are off, returns `False` and sends nothing; otherwise the motor is sent to `pos/2.5e-3` steps |
| Stage.StageControl.WaitAll | tct/lab/control/StageControl.py:110-114 | each axis is told to wait for its stop once, and no position changes |
| Stage.StageControl.MoveTo | tct/lab/control/StageControl.py:172-190 | each given target within its limits moves its axis, each given axis is logged under its upper-case name, every axis waits once if any axis was given, and nothing is sent otherwise |
| Stage.StageControl.PositionMoveTo | tct/lab/control/StageControl.py:148-163 | no target sends nothing; otherwise the given x and y targets within their limits move, every axis waits once, and the corrected targets are logged |
| Stage.StageControl.FocusMoveTo | tct/lab/control/StageControl.py:165-170 | the focus target is logged under `Z`; within its limits the z axis moves and waits, outside them nothing is sent and `False` is returned |
| Stage.StageControl.FromState | tct/lab/control/StageControl.py:93-98 | a value that cannot be converted raises before any move; otherwise the axes whose keys are present are moved as `MoveTo` moves them |
| Stage.StageControl.ToState | tct/lab/control/StageControl.py:81-91 | the state gets the positions in millimetres and then every axis's status |
| Stage.MoveThenReport | tct/lab/control/StageControl.py:101-197 | a move within the limits is reported back by `Position` as the requested millimetres |
| Laser.Bytes2RoundTrip | tct/lab/Particulars/LaserLA01.py:52-66 | `to_bytes(2, 'little')` succeeds exactly for `0 <= v < 65536`, and reading the two bytes back gives `v` |
| Laser.PeriodBounds | tct/lab/Particulars/LaserLA01.py:39-49 | for an accepted rate, `500000000/f` lies in `[5000, 10000000]` |
| Laser.FrequencyFrameSpec | tct/lab/Particulars/LaserLA01.py:39-52 | for an accepted rate the frequency word `int((500000000/f - 440)/180 + 1)` lies in `[26, 55554]`, so the frame is always byte 99 followed by that word in two little-endian bytes |
| Laser.DacFrameSpec | tct/lab/Particulars/LaserLA01.py:54-66 | for an accepted DAC value `int(dac)` lies in `[0, 1023]`, and the frame is byte 94 followed by it in two little-endian bytes |
| Laser.OnFrames | tct/lab/Particulars/LaserLA01.py:18-27 | `on()` sends the DAC frame, then the frequency frame, then byte 91 |
| Laser.Status | tct/lab/Particulars/LaserLA01.py:35-36 | `state()` raises for a report without byte 6, and otherwise is on exactly when that byte is 1 |
| Laser.Padded | tct/lab/generic/InterfaceHIDParticulars.py:87-88 | a frame is padded to 64 bytes with ASCII `'0'`, its own bytes first |
| Laser.LaserLA01.constructor | tct/lab/Particulars/LaserLA01.py:11-16 | neither rate nor DAC value is set, and nothing has been sent |
| Laser.LaserLA01.SetFrequency | tct/lab/Particulars/LaserLA01.py:39-43 | the rate is stored and `True` returned exactly for `50 <= f <= 100e3`; otherwise the old rate is kept; nothing is sent |
| Laser.LaserLA01.SetDac | tct/lab/Particulars/LaserLA01.py:54-59 | the value is stored and `True` returned exactly for `0 <= v < 1024`; otherwise the old value is kept; nothing is sent |
| Laser.LaserLA01.SendDac | tct/lab/Particulars/LaserLA01.py:64-66 | sends exactly the DAC frame |
| Laser.LaserLA01.SendFrequency | tct/lab/Particulars/LaserLA01.py:48-52 | sends exactly the frequency frame |
| Laser.LaserLA01.On | tct/lab/Particulars/LaserLA01.py:18-27 | with rate or DAC value unset `on()` returns `False` and sends nothing; otherwise it sends the three frames of `OnFrames` and returns `True` |
| Laser.LaserLA01.Off | tct/lab/Particulars/LaserLA01.py:29-33 | `off()` sends byte 90, then byte 4, and returns `True` |
| Laser.LaserLA01.EnableDac | tct/lab/Particulars/LaserLA01.py:69-70 | sends byte 92 |
| Laser.LaserLA01.DisableDac | tct/lab/Particulars/LaserLA01.py:71-72 | sends byte 93 |
| Laser.SetupSettings | tct/lab/control/ParticularsLaserControl.py:20-29 | `setup` always ends with settings the driver accepts: a rate outside `[50, 100e3]` becomes 1000, a DAC value outside `[0, 1024)` becomes 300, and acceptable ones are kept |
| Laser.LaserStateFinding | tct/lab/control/ParticularsLaserControl.py:41-42 | as written `LaserState` raises `AttributeError` on `self.laster` for every report, even one showing the laser on; corrected it is the driver's `state()` |
| Laser.LaserControl.constructor | tct/lab/control/ParticularsLaserControl.py:5-11 | construction runs `setup`: the laser is switched off and holds the corrected rate and DAC value |
| Laser.LaserControl.Setup | tct/lab/control/ParticularsLaserControl.py:20-31 | the laser is switched off, then given the corrected rate and DAC value |
| Laser.LaserControl.LaserOn | tct/lab/control/ParticularsLaserControl.py:33-35 | the laser's `on()` is called, sending its frames when both settings are known |
| Laser.LaserControl.LaserOff | tct/lab/control/ParticularsLaserControl.py:37-39 | the laser's `off()` is called |
| Laser.LaserControl.LaserSetFrequency | tct/lab/control/ParticularsLaserControl.py:45-54 | a rate outside `[50, 100e3]` returns `False` and touches nothing; otherwise the rate is stored, reading the state can raise, and `on()` is re-issued exactly when the laser is on |
| Laser.LaserControl.LaserSetDac | tct/lab/control/ParticularsLaserControl.py:57-71 | a value outside `[0, 1024)` returns `False` and touches nothing; otherwise the state is read first, then the laser is switched off, the DAC enabled and set to `int(dac)`, and the laser switched back on only if it was on |
| Laser.LaserState | tct/lab/control/ParticularsLaserControl.py:41-42 | corrected, `LaserState` raises only for a report without the status byte, and otherwise reports the laser on exactly when that byte is 1 |
| Amplifier.TableIncreasing | tct/lab/control/ParticularsAmplifierControl.py:17-26 | the gain table has seven points with strictly increasing voltages and strictly increasing gains, so `np.interp` works in both directions |
| Amplifier.VoltageFor | tct/lab/control/ParticularsAmplifierControl.py:100 | a percentage in `[0, 100]` gives a voltage within the table's range |
| Amplifier.GainOf | tct/lab/control/ParticularsAmplifierControl.py:127-131 | the reported gain lies in `[0, 100]`, is 0 at or below the table's first voltage and 100 at or above its last |
| Amplifier.VoltageForBounds | tct/lab/control/ParticularsAmplifierControl.py:100-109 | every accepted percentage maps to a voltage in `[5.93, 12.01]`, inside the supply limit `[0, 15]`, so `AmpSet` never has its voltage refused |
| Amplifier.GainOfVoltageFor | tct/lab/control/ParticularsAmplifierControl.py:95-131 | `AmpGet` after `AmpSet(p)` reports `p` |
| Amplifier.VoltageForGainOf | tct/lab/control/ParticularsAmplifierControl.py:95-131 | setting the reported gain of a voltage within the table gives that voltage back |
| Amplifier.Psu.constructor | tct/lab/control/ParticularsAmplifierControl.py:29 | the supply starts in the given state with no commands sent |
| Amplifier.Psu.Send | tct/lab/control/ParticularsAmplifierControl.py:68-117 | a command is recorded and changes only the setting it names |
| Amplifier.AmplifierControl.constructor | tct/lab/control/ParticularsAmplifierControl.py:28-64 | a supply passing `check` (high range, 0.25 A, at most 15 V) is left alone; any other is set up; either way it passes `check` afterwards |
| Amplifier.AmplifierControl.Setup | tct/lab/control/ParticularsAmplifierControl.py:67-73 | the supply is switched off, set to the high current range, 0 V and 0.25 A, in that order, and then passes `check` |
| Amplifier.AmplifierControl.Check | tct/lab/control/ParticularsAmplifierControl.py:42-63 | the definition is the specification: `check()` holds exactly for the high current range, 0.25 A and at most 15 V; the ensures draw the voltage bound and the current |
| Amplifier.AmplifierControl.AmpGet | tct/lab/control/ParticularsAmplifierControl.py:127-131 | the reported gain is a percentage in `[0, 100]` |
| Amplifier.AmplifierControl.AmpSetVoltage | tct/lab/control/ParticularsAmplifierControl.py:104-110 | a voltage outside `[0, 15]` returns `False` and sends nothing; otherwise it is set; nothing else changes |
| Amplifier.AmplifierControl.AmpSet | tct/lab/control/ParticularsAmplifierControl.py:95-102 | a percentage outside `[0, 100]` returns `False` and sends nothing; otherwise the interpolated voltage is set, and `AmpGet` reports the percentage back |
| Amplifier.AmplifierControl.AmpOn | tct/lab/control/ParticularsAmplifierControl.py:112-114 | the output is switched on and nothing else changes |
| Amplifier.AmplifierControl.AmpOff | tct/lab/control/ParticularsAmplifierControl.py:116-118 | the output is switched off and nothing else changes |
| Scope.ScalesIncreasing | tct/lab/Lecroy/WaveRunner8104.py:10 | the thirteen scales are strictly increasing and end at 10 |
| Scope.FirstAbove | tct/lab/Lecroy/WaveRunner8104.py:12-19 | the index found is a valid one; every earlier scale is at most the value, and unless it is the last one its scale exceeds the value |
| Scope.FirstAboveMonotone | tct/lab/Lecroy/WaveRunner8104.py:12-19 | a larger value never finds an earlier or smaller scale |
| Scope.Find | tct/lab/Lecroy/WaveRunner8104.py:12-19 | the loop from the largest scale down, which breaks at the first scale not above the value, returns the scale `FirstAbove` picks |
| Scope.FindIn | tct/lab/Lecroy/WaveRunner8104.py:12-19 | the same loop over any strictly increasing table |
| Scope.FindSpec | tct/lab/Lecroy/WaveRunner8104.py:12-19 | `find` returns a listed scale: the smallest one strictly above a value below 10, and 10 for any larger value |
| Scope.FindMonotone | tct/lab/Lecroy/WaveRunner8104.py:12-19 | `find` is monotone in the value |
| Scope.WaveRunner.constructor | tct/lab/Lecroy/WaveRunner8104.py:56-57 | the scope starts with no commands sent |
| Scope.WaveRunner.Average | tct/lab/Lecroy/WaveRunner8104.py:89-92 | a count below 1 returns `False` and sends nothing; otherwise the one command `app.Acquisition.{channel}.AverageSweeps = {int(num)}` is sent, with `int(num) >= 1` |
| Scope.MeasureValueFinding | tct/lab/Lecroy/WaveRunner8104.py:81-85 | as written, `MEASURE.values()` does not exist on the class, so every call raises; corrected, a listed measurement returns its reading and any other returns `None` |
| Scope.MeasureValue | tct/lab/Lecroy/WaveRunner8104.py:81-85 | corrected, a name outside `p1`…`p8` returns `None`; a listed one returns its reading exactly when `float` accepts it |

## Left out

- Transport drivers and device wrappers (serial, TCP socket, VXI-11, USB HID, the Standa library) are not part of this model. Each instrument is an abstract device with state and a command log. What the source reads back from hardware is a parameter: the laser's status report, the scope's reading, the SMU's current reading. The stage motor stores the exact real step count it is sent, where the Standa driver cuts it into whole steps and whole microsteps (tct/lab/Standa/Ximc8SMC5USB.py:94-95), so `Stage.MoveThenReport` holds only where that cut loses nothing.
- Logging (`self.log`, `print`) writes nothing that the modelled logic reads, so it is left out.
- DataDir.CreateScan: the clock read by `datetime.now()` is a parameter. The one-second `time.sleep(1)` is modelled by requiring the reading to lie in a later second than the clock's last reading (`Clock.SleepThenNow`), which assumes a wall clock that is not set back.
- DataDir.Printable: dates with a year below 1000 are left out. How `%Y` prints them depends on the platform's `strftime`, so the stamp is then not known to be fifteen characters.
- The clock of the bias ramp (`time.sleep(0.2)`, `time.time()`) is a parameter. It gives the seconds each ramp pass lasted, at least 0.2 s each.
- Floating point is not modelled: numbers are reals. Normalising charges to `Neh`, the `AmpSet`/`AmpGet` round trip and the mm↔step round trip hold exactly only over the reals.
- NumPy's NaN and infinity results are modelled as `Err(NotANumber)`, or as `Err(OverflowError)` where `int()` would refuse them.
- Functions Dafny cannot compute are parameters of the model: `np.geomspace` for `log(...)` scans, the square root of the depletion width, the `scipy.stats` densities of the charge profiles, the mobility laws, `str()` of values (`show`), and the slug of a scan name.
- Signals.FilterLowPass: the Butterworth filter (`scipy.signal.butter`/`sosfilt`) is a parameter. Only the zero-step error, the grid and the gain are stated; the cut-off checks `butter` makes are part of the parameter.
- `Pre_May22.Filter` and `Pre_May22.Full` (a notch filter from `scipy.signal.iirnotch`) are left out.
- `Pre_May22.Offset` is defined directly as `OffsetMean` with the 9 ns cutoff. Its properties are those of `OffsetMean`.
- `StageControl.DoHome` is left out: it sleeps and runs the motor driver's homing and zeroing sequence.
- `StageControl.IsValid` is left out beyond the constructor's validity flag.
- The amplifier's `ToState`, `FromState`, `AmpState`, `AmpVoltage` and `AmpCurrent` are left out. They only compose or forward `AmpGet`, `AmpSet`, `AmpOn`, `AmpOff` and the supply's reads.
- Stage.StageControl.ToState: the source writes into the caller's dictionary, and into a default `{}` shared between calls. The model returns the updated dictionary as a value, so that aliasing is not captured.
- Preprocess.Reflected: the in-place update of a slice of the copied array is modelled as a new sequence.
- Amplifier.AmplifierControl.AmpSet, Amplifier.AmplifierControl.AmpSetVoltage and Scope.WaveRunner.Average return `true` where the source returns `None` on success.
- Laser.LaserControl.LaserSetFrequency and Laser.LaserControl.LaserSetDac also return `Ok(true)` where the source returns `None` on success.
- Signals.Resample: requires sample times in strictly increasing order. `interp1d` would sort unsorted times first, and that case is not modelled.
- PNBonded.CreateSimulation: requires positive doping and p-layer thickness, and an n-layer thickness of at least 0. The source divides by the first two without a check and never checks the third.
- PNBonded.NewModelSpec, like `PNBonded.NewModel`, requires positive doping and p-layer thickness and `Wn >= 0` (`PNBonded.Device`).
- Definition.NewMode: the mode text is stripped and lower-cased by `Text.Strip` and `Text.Lower`, which know only ASCII whitespace and ASCII letters. Python's `str.strip().lower()` also handles other Unicode whitespace and letters.
- ConfigFile.Member: dictionaries of the model (`Values`) have string keys only. A YAML mapping with integer or boolean keys is not modelled.
- CernTpa.ReadHeader: the refusal message prints each line with `repr` (`Text.Repr`): the quote choice and the escapes of the backslash, the quote, tab, line feed, carriage return and the unprintable characters up to U+00FF are modelled. Characters above U+00FF are kept as they are. Python escapes the ones its Unicode database calls unprintable as `\uXXXX` or `\UXXXXXXXX`.
- Text.ParseFloat: it accepts decimal and exponent notation only. It refuses `inf`, `infinity` and `nan`, which Python's `float()` and numpy's `float64` accept. So `CernTpa.ConvertAll`, `Stage.AsFloat` and `Scope.MeasureValue` refuse those spellings where the source would return a number.
- ChargePropagation.Propagate: the field model's `update(t)` hook, called at the start of each pass (analysis/simulation/signal/util/ChargePropagation_1D.py:15-16, 63), is left out. The base hook does nothing and the PN-bonded model does not override it. So the model's fields cannot depend on time.
- Concat.MergeValue and Concat.MergeConcatValues are proved only when no key of any merged dictionary ends with `]` (`NoBracketKeys`). A key that already reads like a generated `key-concat[i]` name can be overwritten by the fallback of another key (util/dataset/concat.py:22-23, 31-32), as `Concat.MergeKeyCollision` shows, so the value laws do not hold for such keys.
- ChargePropagation.Simulation.Run, ChargePropagation.Propagate, ChargePropagation.Loop, ChargePropagation.RunOf and ChargePropagation.StepsLeft require positive `dt_min` and `dt_max` (`Stepping`). The source does not check them. With `dt_max == 0` and a carrier moving, every step is clamped to 0 (analysis/simulation/signal/util/ChargePropagation_1D.py:85-86), `t_curr += dt` (line 101) never advances, and `while t_curr <= self.t_end` (line 62) never ends. With a negative `dt_max` time runs backwards. Such runs have no result to model, and every caller in the repository passes positive steps: the defaults of lines 21-22, and analysis/simulation/signal/Run2_PNBonded_Extended.py:117-119.
- Charge.Normalise: `Neh*pdf/sum(pdf)` is computed as `(Neh/sum(pdf))*pdf`, which is the same over the reals.
- Signals.EvenTimes: `np.linspace(..., endpoint=False)` is taken as the exact grid `tstart + i·dt`.
- `Run2_PNBonded_Extended` is left out: it needs exponentials and a linear solver, and its constructor reads attributes the base class never sets.
- These are left out because they are user interface, plotting or file I/O rather than logic:
  - the CLI, the scripts and the viewer threads;
  - the rendering of `Plot`/`Plot2D`;
  - `Plot._retrieve`;
  - the HDF5 and pandas loaders;
  - the file writing of `DataDir`.
- Fitting (`ERF`, `DoubleExpDecay`, `StartTime`, `PromptCurrent`) is left out for the same reason as the filters: it is numerics Dafny cannot compute.

## Findings

| source | as written | input that shows it | evidently intended | confidence | as-written member | corrected member |
|---|---|---|---|---|---|---|
| tct/config/AnalysisDefinition.py:31 | a missing comma joins the short name and the unit of the `max()` entry, so its tuple has three fields and unpacking it raises | `getMeta('max()')` unpacked by `label('max()')`, `legend('max()', v)` or `transform('max()', vs)` | a four-field entry, like every other one | high, not executed | AnalysisDefinition.MaxMetaUnpackFails | AnalysisDefinition.GetMetaCorrected |
| util/import/cern_tpa.py:40 | `split(':', 2)` cuts a setup value that holds a colon into three parts, so it is refused | a setup line `time: 12:30` | split at the first colon only, keeping the rest of the value | medium, not executed | CernTpa.SetupParamColonFinding | CernTpa.SetupParam |
| analysis/simulation/signal/util/signal.py:69-71 | two matching `SignalEven`s reach the undefined name `SignalEvent`; the other branch drops the base sum's result | adding two `SignalEven`s with the same `tstart` and `dt` | return the sum on the shared grid, and the base sum otherwise | high, not executed | Signals.EvenAddAsWrittenNoSum | Signals.EvenAddAgrees |
| analysis/preprocess/Pre_May22.py:37-40 | a delay that rounds to 0 samples pairs the whole signal with the empty `signal[:-0]`, and the update raises | `time = [0, 1e-7]`, `signal = [1, 1]` | subtract the scaled signal from itself at a delay of 0 | medium, not executed | Preprocess.RemoveReflectionCoarseFails | Preprocess.RemoveReflectionAgrees |
| tct/lab/control/StageControl.py:158 | a y move is logged under `X`, with the x value | `PositionMoveTo(y=10)` logs `X = None` | log the y target under `Y` | high, not executed | Stage.PositionTargetsFinding | Stage.PositionTargetsSpec |
| tct/lab/control/ParticularsLaserControl.py:42 | `self.laster` does not exist, so `LaserState` always raises `AttributeError` | any call of `LaserState()` | `self.laser.state()` | high, not executed | Laser.LaserStateFinding | Laser.LaserState |
| tct/lab/Lecroy/WaveRunner8104.py:82 | `self.MEASURE.values()` does not exist on the plain class `MEASURE`, so every call raises | `MeasureValue('p1')` | test the name against `MEASURE.all` | high, not executed | Scope.MeasureValueFinding | Scope.MeasureValue |
