# stella core, modelled in Dafny

stella reads the text output of a stellar-explosion simulation and lines up
the time grids of its files. Each output format has its own parser:

- **TT**: the light curve. It is a table of records, one per simulation time, after a `time` header line. A `MASS(SOLAR)=` line gives the star's mass and radius.
- **SWD**: snapshots of the radial zones. Each snapshot is a block of rows, one per zone, with 13 columns each.
- **ABN**: abundances, one row per zone and one column per element.
- **MRT**: the first-generation block format. Each block is opened by a time line. Numbers written without an exponent marker (`2.08-100`) are repaired.

On top of these parsers:

- the plotter derives the mass coordinate of every zone;
- it derives the photosphere, by aligning SWD and TT times with a nearest-value binary search (`find_closest`);
- it finds the zone band where an element exceeds a threshold.

The model covers both generations of parsers: `stella/parser/*` and the legacy `parser/*`.

How each part of the source is modelled:

- **Line-driven parsers** (TT, legacy TT, MRT) are classes. `StoreData` loops over the lines and updates the parser's fields. Each loop is proved equal to a pure left fold over the lines (`TtScanLines`, `LegacyScanLines`, `MrtScanLines`). The parser's properties are lemmas about that fold.
- **Table parsers** (SWD, legacy SWD, ABN) are classes whose `StoreData` sets the fields once from the loaded table. Their derived views (`Times`, `Time2Idx`, `Mass`, `GetValueOfKey`) are functions with contracts.
- **The nearest-value search**:
  - `ClosestIndex` states what the code returns on any input.
  - The lemmas prove that, on strictly ascending input, the result is the nearest element, with ties going to the higher index.
  - `FindClosestIndex` is the loop itself, proved equal to `ClosestIndex`.
- **The photosphere alignments** are loops proved entry by entry against `Alignment.AlterEntry` and `Alignment.PhotosphereEntry`. The lemmas `AlterNearest` and `PhotosphereNearest` then say what each entry means.
- **Python dicts** are `OrderedMap`: a key sequence in first-insertion order, plus a map.
- **Exceptions** are `Result`/`Outcome` values whose `Error` names the exception kind.
- **External operations are parameters:**
  - `float()` is a partial function `string -> Option<real>`;
  - `log10` and `10 ** x` are functions over `real` (`Numerics`);
  - `os.path.isdir`/`isfile` are booleans;
  - the file contents are a parameter: split lines for TT and MRT, or the loaded table for SWD and ABN.

## Model

| member | source | states |
|---|---|---|
| NearestSearch.Search | stella/utils/util.py:23-70 | the interior binary search, from any loop state, returns an index below n |
| NearestSearch.ClosestIndex | stella/utils/util.py:10-75 | on any input with n >= 1 the index lies in [0, n); target <= arr[0] gives 0; target above arr[0] and >= arr[n-1] gives n-1 |
| NearestSearch.SearchNearest | stella/utils/util.py:37-70 | on ascending input, with the target between arr[i] and arr[j-1], the search ends at the highest-indexed nearest element |
| NearestSearch.SearchStops | stella/utils/util.py:29-68 | when the middle element matches exactly or brackets the target with a neighbour, the returned index is the highest-indexed nearest one |
| NearestSearch.ExactIsNearest | stella/utils/util.py:29-33 | an element equal to the target is its highest-indexed nearest element on ascending input |
| NearestSearch.BetweenNeighbours | stella/utils/util.py:41-63 | a target strictly between neighbours k and k+1: k+1 is nearest when at least as close (the `>=` tie rule), k otherwise |
| NearestSearch.ClosestIsNearest | stella/utils/util.py:10-75 | on strictly ascending input the result is a nearest element, and no later element is as near |
| NearestSearch.NearestHighUnique | stella/utils/util.py:42-63 | the highest-indexed nearest element is unique, so the result is determined by the nearest-element property |
| NearestSearch.ClosestFindsExact | stella/utils/util.py:29-33 | a target equal to arr[k] of ascending input returns k |
| NearestSearch.ClosestTieGoesUp | stella/utils/util.py:42-46 | on an exact distance tie between neighbours the higher index is returned |
| NearestSearch.ClosestExamples | stella/utils/util.py:11-63 | [1,3,5,7]: target 4 gives 2, target 0 gives 0, target 100 gives 3 |
| NearestSearch.FindClosestIndex | stella/utils/util.py:10-75 | the loop with early returns computes ClosestIndex; the index is below n and nearest on ascending input |
| NearestSearch.FindClosest | stella/utils/util.py:10-75 | index mode returns the index; value mode returns exactly arr at that index |
| Common.ParseNumber | parser/mrt.py:61 | float(token) succeeds exactly when the token parses, and otherwise raises ValueError |
| Common.NonBlank | stella/parser/tt.py:68-69 | every line kept is a non-blank line of the file |
| Common.NonBlankLine | stella/parser/tt.py:68-69 | a single line survives exactly when it is not blank |
| Common.NonBlankAppend | stella/parser/tt.py:68-69 | the filter works part by part on a concatenation, so every non-blank line is kept, in its order |
| OrderedMaps.Empty | stella/parser/tt.py:39 | a new dict has no keys |
| OrderedMaps.Put | stella/parser/tt.py:83 | `d[k] = v` sets k to v; a new key is appended to the key order, and an existing key keeps its place |
| Config.Enumerate | stella/utils/config.py:54 | `{k: v for v, k in enumerate(s)}` maps exactly the elements of s, each to a position holding it, and the last such position |
| Config.EnumerateDistinct | stella/utils/config.py:54 | without repetitions, every element maps to its own position |
| Config.SwdIndex | stella/utils/config.py:82-95 | SWD2IDX[f] is a column below 13 whose declared field is f |
| Config.SwdIndexValues | stella/utils/config.py:142 | SWD2IDX assigns 0..12 in declaration order |
| Config.SwdIndexIsEnumerate | stella/utils/config.py:142 | the comprehension over the enumeration gives every SWD field its SwdIndex |
| Config.SwdNamedColumns | stella/utils/config.py:82-95 | TIME is column 0, MASS column 2, R column 3 |
| Config.TtIndex | stella/utils/config.py:58-71 | TT2IDX[f] is below 13 and names field f |
| Config.TtIndexValues | stella/utils/config.py:77 | TT2IDX assigns 0..12 in declaration order; TBB 0, R 4, GDEPOS 12 |
| Config.TtIndexIsEnumerate | stella/utils/config.py:77 | the comprehension gives every TT field its TtIndex |
| Config.AbnIndex | stella/utils/config.py:145-165 | ABN2IDX[f] is below 20 (the dummy columns included) and names field f |
| Config.AbnIndexValues | stella/utils/config.py:168 | ABN2IDX assigns 0..19 in order; ZON 0, H 4, Mg 11, Ni 19 |
| Config.AbnIndexIsEnumerate | stella/utils/config.py:168 | the comprehension gives every ABN field its AbnIndex |
| Config.MrtIndex | stella/utils/config.py:34-51 | MRT2IDX[f] is below 17 and names field f |
| Config.MrtIndexValues | stella/utils/config.py:54 | MRT2IDX assigns 0..16 in declaration order; AM 0, III 16 |
| Config.MrtIndexIsEnumerate | stella/utils/config.py:54 | the comprehension gives every MRT field its MrtIndex |
| Config.BuildConfiguration | stella/utils/config.py:20-31 | exactly the six option names; each is the keyword argument when given and the default otherwise; the key is ignored |
| Config.LogMassOption | stella/utils/config.py:24 | `log_mass` is always present |
| Config.BuildConfigurationDefaults | stella/utils/config.py:22-29 | without keyword arguments: six options, `photosphere` True, `transparency` 0.6, `log_mass` False, whatever the key |
| Config.ValidOperation | stella/utils/config.py:15-17 | TypeError exactly when the operand is neither an SWD member, an array nor a number |
| LegacyConfig.TtLabelsDistinct | utils/config.py:34-48 | TT_TABLE_LABELS has 13 labels, all different |
| LegacyConfig.MrtLabelsZon | utils/config.py:11-30 | MRT_TABLE_LABELS has 18 labels and 'ZON' is at positions 0 and 12 only |
| Paths.Tail | parser/mrt.py:24 | `s[-k:]`: for k > 0 the last k characters, or all of s when it is shorter; for k = 0 all of s, since `s[-0:]` is `s[0:]` |
| Paths.TailTest | parser/mrt.py:24 | the suffix test `path[-len(ext):] == ext` holds exactly when the path ends with ext, except that the empty suffix matches only the empty path; for the non-empty suffixes the parsers pass it is exactly "ends with ext" |
| Paths.LastSegment | parser/mrt.py:21 | `path.split('/')[-1]` holds no '/', is a suffix of the path, and follows a '/' when shorter than it |
| Paths.Join | parser/mrt.py:21 | posixpath.join of two components: an absolute second component replaces the first; otherwise the directory, a '/' when it is non-empty and lacks a trailing one, then the name |
| Paths.Resolve | stella/parser/abn.py:22-32 | a directory resolves to the stem plus extension joined to it; a file with the extension resolves to itself; another file raises ValueError; anything else raises FileNotFoundError |
| Paths.TrailingSlashStem | stella/parser/abn.py:22-24 | a directory path ending in '/' has an empty last segment, so the file looked for is `<dir>/<ext>` |
| Paths.LastSegmentAfterSlash | parser/mrt.py:21 | the last segment of `dir/name` is name when name holds no '/' |
| Paths.DirectoryStem | parser/mrt.py:19-21 | a directory `dir/name` resolves to `dir/name/name<ext>` |
| Tt.ZipPrefix | stella/parser/tt.py:82 | the first w pairs of the zip convert exactly when each of their values parses |
| Tt.ZipPrefixFields | stella/parser/tt.py:82 | the first w pairs hold exactly the first w fields, each with its own value |
| Tt.TtValues | stella/parser/tt.py:82 | zip truncates to the shorter of the fields and the values; the record holds exactly the fields with a value, each parsed from its own column; ValueError when one does not parse |
| Tt.TtBlankLinesIgnored | stella/parser/tt.py:68-69 | the parse of a file equals the parse of its non-blank lines |
| Tt.TtScanValid | stella/parser/tt.py:79-83 | the stored table is a dict over positive times, each stored once |
| Tt.TtFailureAborts | stella/parser/tt.py:67-83 | an exception on one line is the result of the whole parse |
| Tt.TtRecordingStarts | stella/parser/tt.py:75-78 | recording is on exactly when some earlier line began with `time`; it never switches off |
| Tt.TtNothingBeforeSentinel | stella/parser/tt.py:75-78 | without a `time` line nothing is stored |
| Tt.TtStoredFromTable | stella/parser/tt.py:78-83 | a time is stored exactly when some line read while recording has that positive time (time <= 0 adds nothing) |
| Tt.RecordedTimesSpec | stella/parser/tt.py:75-83 | the reference time list holds every time of a row read while recording exactly once, and lists one time before another exactly when it is recorded before the other's first row |
| Tt.TtKeysAreRecordedTimes | stella/parser/tt.py:75-83 | the dict's keys, in insertion order, are the reference time list: each time at the place of its first row, a later row with the same time keeping that place |
| Tt.IncreasingTimesAscend | stella/parser/tt.py:43-45 | when the table's times strictly increase down the file, the time list is strictly ascending, as the plotter's nearest-time searches need |
| Tt.TtLastRowWins | stella/parser/tt.py:83 | the last row carrying a time gives that time's record |
| Tt.TtInfoFromFirstMassLine | stella/parser/tt.py:71-74 | stellar_info is unset exactly when no line holds `MASS(SOLAR)=`; otherwise it comes from the first such line, MASS from token 1 and RADIUS from the last token |
| Tt.TtParser.constructor | stella/parser/tt.py:38-40 | a new parser holds the file name, an empty table and no stellar info |
| Tt.TtParser.StoreData | stella/parser/tt.py:56-83 | the loop leaves exactly the fold's table and stellar info, or raises the fold's exception |
| Tt.TtParser.Times | stella/parser/tt.py:43-45 | the table's keys in insertion order: distinct, positive, each a key, and every stored time listed; after StoreData these are RecordedTimes of the file |
| Tt.TtParser.GetTimeRange | stella/parser/tt.py:47-48 | the same times as `times` |
| Tt.TtParser.Series | stella/parser/tt.py:50-54 | one value per stored time, in order, the field's value or 0.0; keys are TT fields only (see Left out) |
| Tt.TtParser.GetValues | stella/parser/tt.py:50-54 | the append loop gives one entry per stored time, in order: the record's value for the key, 0.0 when it is absent |
| Tt.OpenTt | stella/parser/tt.py:17-41 | TTParser(path, prefix) succeeds exactly when `<prefix>.tt` resolves, reads and parses; the parser then holds the parse |
| Swd.Flatten | stella/parser/swd.py:81 | the flat value stream of a rectangular table has rows times columns values |
| Swd.FlattenRow | stella/parser/swd.py:81 | row r of width w occupies positions r*w to r*w+w of the flat stream |
| Swd.Reshape | stella/parser/swd.py:81 | `reshape(-1, nz, cols)` has len/(nz*cols) steps, each of nz cells of cols values |
| Swd.Positive | stella/parser/swd.py:77 | `np.where(data[:, 0] > 0)[0]` lists row indices |
| Swd.PositiveSpec | stella/parser/swd.py:77 | the list holds exactly the rows with a positive first value, in increasing order |
| Swd.ZoneCount | stella/parser/swd.py:77-78 | num_zon is at least 2 when it exists |
| Swd.ZoneCountSpec | stella/parser/swd.py:77-78 | num_zon exists exactly when two rows have a positive first value, and is (second - first + 1) |
| Swd.SwdLoad | stella/parser/swd.py:73-81 | the load succeeds exactly when the table is rectangular, at least 2 by 2, has a zone count and a length divisible by num_zon*13; the grid is then steps x num_zon x 13 |
| Swd.RowLands | stella/parser/swd.py:79-81 | with 13-column rows, row r is data[r / num_zon][r % num_zon], and rows = steps * num_zon |
| Swd.CellHoldsRow | stella/parser/swd.py:80-81 | zone z of step s is row s*num_zon + z of the table |
| Swd.SwdParser.constructor | stella/parser/swd.py:33-35 | a new parser holds the file name and no data |
| Swd.SwdParser.StoreData | stella/parser/swd.py:73-81 | data and num_zon become SwdLoad's grid, or the load's exception is raised; the source's assignment of the flat array to `self.data` before that exception is not modelled (no object survives it) |
| Swd.SwdParser.Times | stella/parser/swd.py:47-49 | one time per step, column 0 of zone 0 |
| Swd.SwdParser.Time2Idx | stella/parser/swd.py:51-53 | maps exactly the times to a step holding that time, and with repeated times to the last such step |
| Swd.Time2IdxInverse | stella/parser/swd.py:51-53 | on strictly increasing times every step's time maps back to that step |
| Swd.SwdParser.Zons | stella/parser/swd.py:55-57 | 1.0 .. num_zon |
| Swd.SwdParser.Mass | stella/parser/swd.py:59-62 | num_zon values: the MASS column of every zone of step 0 |
| Swd.SwdParser.GetValueOfKey | stella/parser/swd.py:64-71 | for an SWD member, the zone-by-time transpose of its column (`result[z][t] == data[t][z][idx]`); None for any other key |
| Swd.OpenSwd | stella/parser/swd.py:17-38 | SWDParser(path, prefix) succeeds exactly when `<prefix>.swd` resolves, loads and regroups |
| LegacySwd.LegacySwdParser.constructor | parser/swd.py:33-35 | a new parser holds the file name and no data |
| LegacySwd.LegacySwdParser.StoreData | parser/swd.py:61-69 | the same zone count and regrouping as the current parser, or its exception; the partial assignment of `self.data` before the exception is not modelled |
| LegacySwd.LegacySwdParser.Times | parser/swd.py:40-42 | one time per step, column 0 of zone 0 |
| LegacySwd.LegacySwdParser.Zons | parser/swd.py:44-46 | 1.0 .. num_zon |
| LegacySwd.LegacySwdParser.Mass | parser/swd.py:48-51 | the MASS column of every zone of step 0 |
| LegacySwd.LegacySwdParser.GetValueOfKey | parser/swd.py:53-59 | for an SWD member, `rot90` of the time-by-zone slice: `result[z][t] == data[t][num_zon-1-z][idx]`; None for any other key |
| LegacySwd.ZonesReversed | parser/swd.py:53-57 | on the same grid the legacy view is the current view with the zone order reversed |
| LegacySwd.OpenLegacySwd | parser/swd.py:17-38 | SWDParser(path) resolves `<last segment>.swd` and loads it |
| LegacyTt.LegacyRow | parser/tt.py:72-75 | a row converts exactly when it has at most 13 values and each parses; IndexError exactly when a value past the 13th is reached with all earlier ones parsing (the label is looked up before the value is converted) |
| LegacyTt.LegacyRowFields | parser/tt.py:72-75 | a converted row holds the label of every column, each with its column's value |
| LegacyTt.LegacyRowKeys | parser/tt.py:72-75 | a converted row holds exactly the labels of its columns |
| LegacyTt.LegacyRowValues | parser/tt.py:72-75 | each label holds its own column's value |
| LegacyTt.RowAgreesWithCurrent | parser/tt.py:72-75 | on at most 13 values the legacy row and the current record hold the same numbers under corresponding names |
| LegacyTt.LegacyBlankLinesIgnored | parser/tt.py:63-64 | the parse of a file equals the parse of its non-blank lines |
| LegacyTt.LegacyFailureAborts | parser/tt.py:62-76 | an exception on one line is the result of the whole parse |
| LegacyTt.LegacyScanValid | parser/tt.py:70-76 | the stored table is a dict over positive times |
| LegacyTt.LegacyRecordingStarts | parser/tt.py:65-69 | recording is on exactly when some earlier line began with `time` |
| LegacyTt.LegacyKeysAreRecordedTimes | parser/tt.py:65-76 | the legacy dict's keys, in insertion order, are the same reference time list as the current parser's |
| LegacyTt.StepAgrees | parser/tt.py:68-76 | a table row read by both parsers from agreeing states leaves them agreeing |
| LegacyTt.LegacyAgreesWithCurrent | parser/tt.py:51-76 | wherever the current parser succeeds and no recorded row has more than 13 values, the legacy parser succeeds with the same times, in the same order, and agreeing rows |
| LegacyTt.LegacyTtParser.constructor | parser/tt.py:38-39 | a new parser holds the file name and an empty table |
| LegacyTt.LegacyTtParser.StoreData | parser/tt.py:51-76 | the loop leaves exactly the fold's table, or raises the fold's exception |
| LegacyTt.LegacyTtParser.GetTimeRange | parser/tt.py:42-43 | the table's keys in insertion order: distinct, positive, every stored time listed; after StoreData these are Tt.RecordedTimes of the file |
| LegacyTt.LegacyTtParser.GetValues | parser/tt.py:45-49 | one entry per stored time, in order: the label's value, or 0.0 |
| LegacyTt.OpenLegacyTt | parser/tt.py:17-40 | TTParser(path) resolves `<last segment>.tt`, reads it and parses it |
| Mrt.Find | parser/mrt.py:81-83 | `s.find(c)` is the first position of c, and -1 exactly when c is absent |
| Mrt.SignPosition | parser/mrt.py:81-84 | -1 exactly when the literal has neither sign; otherwise the position of the first '-' (even at position 0) when there is one, else of the first '+' |
| Mrt.Repaired | parser/mrt.py:88 | 'E' is inserted at position p and the rest is kept |
| Mrt.StoreValue | parser/mrt.py:76-89 | a successful store adds no key other than the block's own or a label; the full store rule is StoreValueRule |
| Mrt.StoreValueRule | parser/mrt.py:76-89 | for every column k: a parsable token goes under labels[k] (IndexError past the labels); otherwise no sign is a ValueError, a repair that does not parse is a ValueError, a sign position past the labels is an IndexError, else the repaired value goes under labels[sign position]; the column plays no part in the repair |
| Mrt.StoreRepaired | parser/mrt.py:78-89 | no sign is a ValueError; a successful repair puts the repaired literal's value under labels[SignPosition], the sign's position, adding no other key |
| Mrt.StoreRowPrefix | parser/mrt.py:75-89 | the row loop only adds labels to the block and keeps its earlier labels |
| Mrt.StoreToken | parser/mrt.py:76-89 | the try/except statement computes StoreValue |
| Mrt.StoreRow | parser/mrt.py:75-89 | the row loop computes StoreRowPrefix over the whole row |
| Mrt.RowFailureStays | parser/mrt.py:75-89 | after an exception in a row, more tokens change nothing |
| Mrt.Flush | parser/mrt.py:55-57 | a non-empty block is stored under the current time; an empty one stores nothing |
| Mrt.MrtSkippedLines | parser/mrt.py:50-71 | the parse of a file equals the parse of its lines that are neither blank nor column-label lines |
| Mrt.SignificantLines | parser/mrt.py:50-71 | every line kept is a significant line of the file |
| Mrt.SignificantLine | parser/mrt.py:50-71 | a single line survives exactly when it is neither blank nor a column-label line |
| Mrt.SignificantLinesAppend | parser/mrt.py:50-71 | the filter works part by part on a concatenation, so every significant line is kept, in its order |
| Mrt.MrtFailureAborts | parser/mrt.py:48-89 | an exception on one line is the result of the whole parse |
| Mrt.MrtScanValid | parser/mrt.py:57 | the stored blocks form a dict |
| Mrt.MrtNothingBeforePrefix | parser/mrt.py:45-52 | before the first time line nothing is recorded, and a file without one yields an empty result |
| Mrt.TimeLine | parser/mrt.py:52-68 | a time line flushes the pending block under the previous time; a negative time switches recording off and keeps the block; time 0 or more opens an empty block |
| Mrt.NegativeTimeStoresBlockAgain | parser/mrt.py:63-66 | a pending block followed by a negative time line and the end of the file is stored under both times |
| Mrt.RowLastLabelWins | parser/mrt.py:75-77 | within a row, each label holds the value of the last column carrying it |
| Mrt.RowParses | parser/mrt.py:75-77 | a row whose tokens all parse and that fits the labels is stored |
| Mrt.TooManyColumns | parser/mrt.py:77 | a parsable row with more tokens than labels raises IndexError |
| Mrt.ZonHoldsColumn12 | parser/mrt.py:75-77 | with the MRT labels, 'ZON' ends up holding column 12 |
| Mrt.RepairedExample | parser/mrt.py:79-88 | `2.08-100` is repaired at position 4 into `2.08E-100` |
| Mrt.RepairExample | parser/mrt.py:81-89 | in whichever column it stands, `2.08-100` is stored under the label of column 4 |
| Mrt.RepairAtStart | parser/mrt.py:81-89 | a literal starting with '-' is repaired at position 0 and stored under the first label |
| Mrt.RepairNeedsSign | parser/mrt.py:85-87 | a literal without a sign that does not parse raises ValueError |
| Mrt.MrtParser.constructor | parser/mrt.py:31-33 | a new parser holds the file name and an empty table |
| Mrt.MrtParser.StoreData | parser/mrt.py:36-93 | the loop and the final flush leave exactly MrtParse's table, or raise its exception |
| Mrt.OpenMrt | parser/mrt.py:15-34 | MRTParser(path) resolves `<last segment>.mrt`, reads it and parses it |
| Abn.Column | stella/parser/abn.py:43 | `data[:, i]` exists exactly for a matrix with a column i, and holds that column |
| Abn.Length | stella/parser/abn.py:50 | `data.shape[0]` of the loaded array: the row count of a table with other than one row, the value count of a squeezed one-row table, IndexError for a single value (a 0-d array) |
| Abn.Above | stella/parser/abn.py:44 | `np.where(values > threshold)[0]` lists exactly the positions above the threshold, in increasing order |
| Abn.Band | stella/parser/abn.py:44-48 | a band other than (-1, -1) lies within the values |
| Abn.BandSpec | stella/parser/abn.py:44-48 | (-1, -1) exactly when no value exceeds the threshold; otherwise both ends exceed it and nothing outside them does |
| Abn.AddColumn | stella/parser/abn.py:52 | `data += self.data[:, ABN2IDX[k]]` adds the item's column, with KeyError for a non-member and IndexError for a missing column |
| Abn.SumColumns | stella/parser/abn.py:50-52 | the accumulation has one value per row |
| Abn.SumColumnsStep | stella/parser/abn.py:51-52 | each further item adds its own column to the running sum, which has one value per row of a matrix |
| Abn.SumColumnsSucceeds | stella/parser/abn.py:50-52 | on a matrix, the accumulation succeeds exactly when every item is an ABN member whose column exists |
| Abn.SumColumnsSpec | stella/parser/abn.py:50-52 | each row then holds the sum of the listed columns |
| Abn.ElementData | stella/parser/abn.py:41-57 | Some(band) exactly for an ABN member or a tuple, None for any other key; a found band is ordered |
| Abn.BandOf | stella/parser/abn.py:44-48 | the band of a column that could be read lies within it; a failure to read it propagates |
| Abn.SingleElementBand | stella/parser/abn.py:42-48 | for an element: (first, last) among the rows whose column exceeds the threshold, (-1, -1) when none does |
| Abn.TupleBand | stella/parser/abn.py:49-57 | for a tuple: the same band, over the per-row sum of the listed columns |
| Abn.SingletonTuple | stella/parser/abn.py:42-57 | a one-element tuple finds the same band as the element |
| Abn.ColumnAsSum | stella/parser/abn.py:50-52 | accumulating one column gives that column |
| Abn.EmptyTuple | stella/parser/abn.py:50-55 | an empty tuple sums to zeros and, with a non-negative threshold, gives (-1, -1) |
| Abn.SumFailureStays | stella/parser/abn.py:51-52 | after a failing item, later items change nothing |
| Abn.AbnParser.constructor | stella/parser/abn.py:34-36 | a new parser holds the file name and no data |
| Abn.AbnParser.StoreData | stella/parser/abn.py:59-60 | the loaded table is stored; a ragged table is np.loadtxt's ValueError, and nothing changes |
| Abn.AbnParser.GetElementData | stella/parser/abn.py:41-57 | computes ElementData, with 0.1 as the default threshold |
| Abn.AbnParser.AccumulateColumns | stella/parser/abn.py:50-52 | the in-place accumulation into a zero array computes SumColumns |
| Abn.AddInto | stella/parser/abn.py:52 | `acc += col` adds col element by element |
| Abn.OpenAbn | stella/parser/abn.py:18-39 | ABNParser(path) resolves `<last segment>.abn` and loads it |
| Plot.MassCoord | stella/core/plot.py:266-268 | the same length as the mass profile; entry z is tot_mass - 10^m[z] |
| Plot.MassCoordDecreasing | stella/core/plot.py:266-268 | when 10^x strictly increases and the log mass increases along the zones, the mass coordinate strictly decreases |
| Plot.MassCoordLogInverse | stella/core/plot.py:266-268 | when log10 undoes 10^x, log10(tot_mass - mass[z]) gives back the SWD log mass |
| Plot.RadiusProfile | stella/core/plot.py:228-229 | the R column (`SWD2IDX[R]`) of every zone of one step |
| Plot.Alignment.MassAtRadius | stella/core/plot.py:230-231 | the mass coordinate of some zone |
| Plot.StepOfOwnTime | stella/core/plot.py:228 | on strictly increasing SWD times, time2idx sends step s's time back to s |
| Plot.AlterNearest | stella/core/plot.py:215-231 | entry s of the SWD-to-TT alignment is the mass of the zone, in step s, whose radius is nearest log10 R of the TT record nearest in time |
| Plot.PhotosphereNearest | stella/core/plot.py:240-262 | entry k of the TT-to-SWD alignment is the mass of the zone, in the SWD step nearest in time to TT record k, whose radius is nearest log10 of that record's R |
| Plot.PyIndex | stella/core/plot.py:160-164 | NumPy indexing: negative positions count from the end; IndexError outside [-n, n) |
| Plot.Plotter.constructor | stella/core/plot.py:42-43 | tot_mass is the TT `MASS`, and mass is _mass_coord of the SWD mass profile |
| Plot.Plotter.View | stella/core/plot.py:215-217 | the times, time2idx, R values and radius profiles that the searches read, taken from the parsers |
| Plot.Plotter.PhotosphereAlter | stella/core/plot.py:210-233 | IndexError exactly when TT has no record; otherwise one entry per SWD time, each AlterEntry |
| Plot.Plotter.Photosphere | stella/core/plot.py:235-264 | AssertionError exactly when the SWD times are not in sorted order; otherwise one entry per TT time, each PhotosphereEntry |
| Plot.Plotter.PlotAbnData | stella/core/plot.py:137-164 | computes the guards and the two levels plot_abn_data would draw |
| Plot.Plotter.Levels | stella/core/plot.py:152-164 | computes the levels of a band, as lines 152-164 do |
| Plot.AbnNothingDrawn | stella/core/plot.py:138-155 | nothing is drawn exactly when there are no axes, the key is neither an ABN member nor a tuple, or the band is (-1, -1) |
| Plot.BandLevelsOfBand | stella/core/plot.py:159-164 | for a band (low, high): IndexError exactly when high is past the mass coordinate; otherwise mass[low] and mass[high], or log10(tot_mass - mass) of each under log_mass |
| Plot.AbnLevelsOfBand | stella/core/plot.py:150-164 | once get_element_data finds a band, the drawn levels are those of BandLevelsOfBand |
| Plot.LogLevelsAreSwdMass | stella/core/plot.py:159-161 | on the log_mass scale the levels are the SWD log masses at the band's ends, when log10 undoes 10^x |
| Plot.AlignAlter | stella/core/plot.py:215-233 | the two loops of _photosphere_alter: IndexError exactly when TT is empty; otherwise one entry per SWD time, each AlterEntry |
| Plot.InSortedOrder | stella/core/plot.py:254-256 | a sequence equals its sorted copy exactly when no element exceeds the next |
| Plot.AlignPhotosphere | stella/core/plot.py:240-264 | the loops of _photosphere: AssertionError exactly when the SWD times are out of order; otherwise one entry per TT time, each PhotosphereEntry |
| Plot.NewPlotter | stella/core/plot.py:35-44 | KeyError without `MASS(SOLAR)=`; IndexError without a TT record; otherwise photosphere is the SWD-to-TT alignment, one entry per SWD time |

## Left out

- Drawing is not modelled. This covers `Plotter.plot`, the matplotlib calls of `plot_abn_data`, `_plot_magnitude`, `save` and `__fill_colors`, and the whole of core/plot.py. `Plotter.hasAxes` stands for `ax1 is not None`; only `plot()` sets it.
- The following are not modelled, because they go through a module-level plotter or have no behaviour:
  - `get_plotter`;
  - the arithmetic operators of `SWD` (only their operand check, `_valid_operation`, is);
  - the `TT.__add__` stub.
- The command-line entry points (stella/__main__.py, main.py) and the parser wrappers (stella/parser/parser.py, parser/parser.py) are not part of this model.
- The tests (test/*.py) only build parsers from files on disk. The directory case they exercise is the lemma `Paths.DirectoryStem`.
- File-system access and I/O are inputs:
  - `os.path.isdir`/`isfile` are booleans;
  - `open` plus `strip().split()` is a `read` function returning token lists;
  - `np.loadtxt` is its resulting table, as rows of reals;
  - a ragged table is its ValueError.
- `np.loadtxt` squeezing is modelled only partially. The model covers only what `data[:, i]` and `shape[0]` need: a table with one row or one column is not a matrix.
- Floating point is not modelled: the numbers are `real`.
  - `float()`, `log10` and `10 ** x` are given functions.
  - The float32 casts of `times`, `get_time_range`, `get_values` and the ABN accumulator are not modelled.
- Plot.Plotter.constructor takes the three parser objects. stella/core/plot.py:41 calls `ABNParser(root, prefix)`, but stella/parser/abn.py:18 accepts only a path, so that call is not modelled.
- Mrt.MrtParser.StoreData takes the time prefix as a parameter. parser/mrt.py:52 reads `config.TIME_PREFIX`, which utils/config.py does not define; it defines `MRT_TIME_PREFIX = 'OBS.TIME='` at utils/config.py:32.
- The MRT parser also fills no `input_param` (parser/mrt.py:33 only creates it).
- utils/config.py defines no SWD schema, so the legacy SWD parser uses the SWD schema of stella/utils/config.py.
- Plot.LogLevelsAreSwdMass is stated for a plotter whose mass coordinate was built from the given log masses. `Valid()` guarantees that for the SWD mass profile.
- Plot.Plotter.PhotosphereAlter and Plot.Plotter.Photosphere compute their entries from `View()`. Their meaning as nearest searches is stated in Plot.AlterNearest and Plot.PhotosphereNearest, under the ascending-order conditions the search needs.
- The tie rule follows the code: on an exact distance tie `find_closest` returns the higher index, because it compares with `>=`.
- The legacy MRT parser is modelled as written, including two quirks:
  - after a negative time the pending block is not reset, so it is stored again under the negative time (Mrt.NegativeTimeStoresBlockAgain);
  - a repaired literal is stored under the label at the sign's position, because `idx` is reused (Mrt.RepairExample).
- Tt.TtParser.Series and Tt.TtParser.GetValues take a TT field. stella/parser/tt.py:53 reads `.get(key, 0.0)` with any key, so a key that is not a TT field gives 0.0 for every time; that case is not modelled.
- Swd.SwdParser.StoreData and LegacySwd.LegacySwdParser.StoreData leave the object unchanged on an exception. stella/parser/swd.py:74 and parser/swd.py:62 assign `self.data` before the zone count or reshape can raise; only the constructor calls `_store_data`, so no object with that partial state survives.
