# Earth Engine catalog node checks, in Dafny

The Earth Engine STAC catalog is a tree of JSON files: catalogs and, under
them, dataset collections. A set of checks looks at each node of that tree
in turn (its id, the path of its file, its kind and its parsed JSON) and
yields the issues it finds. This project models three of those checks and
proves what each one accepts and what it reports.

- **`file_path`** (module `FilePath`, pure functions). It derives the one
  place a node's file may live from its id and kind and compares it with the
  actual path. The root catalog `GEE_catalog` lives at `catalog.json`. Every
  other catalog is `ORG/catalog.json`. For the two-level organizations
  (NASA, NOAA, USGS) a catalog may also be `ORG/sub/catalog.json`. Collection
  `ORG/b` lives at `ORG/ORG_b.json`, and an id starting with `projects` takes
  its directory from its second part. A two-level collection `NASA/b/c`
  lives at `NASA/b/NASA_b_c.json`. `USGS/GFSAD1000_V1` keeps its historical
  place, `USGS/GFSAD1000/USGS_GFSAD1000_V1.json`.
- **`gee_classes`** (module `GeeClasses`). It validates the class tables
  (`gee:classes`) of the bands in `summaries.eo:bands`:
  - the size of each table;
  - each entry's keys, `value`, `description` and `color`;
  - then, across the entries, that values are unique and sorted and that
    descriptions and colours are unique. Curated exception lists relax some
    of these checks.

  The source runs this as nested loops that append to lists. The model keeps
  the two loops as methods with `while` loops: `GeeClasses.Run` over the
  bands and `GeeClasses.CheckTable` over a table's entries. The straight-line
  steps of the loop bodies are the `Check*` methods (`CheckBand`,
  `CheckCount`, `CheckEntry`, `CheckKeys`, `CheckValue`, `CheckDescription`,
  `CheckColor`, `CheckTogether`). Each method is proved equal to a
  specification function. The lemmas state what those functions report.
- **`gee:interval`** (module `Interval`, pure functions). It validates the
  optional `gee:interval` record of a collection: its keys, `type`, `unit`
  (a custom unit requires a `description` and a `name`), `interval` (a
  positive integer of at most 32, with one dataset exempt), `description` and
  `name`.

Supporting modules:

- `Text`: Python's `str.split`, `str.join`, `str.replace` and `in` on
  strings; `pathlib` parts and names; `str` ordering and `sorted(set(...))`.
- `Seqs`: `set(xs)`, `len` and `sorted` on lists; concatenating lists of
  lists.
- `Json`: parsed JSON values; dictionary lookup; `isinstance(v, int)`;
  sorted extra keys.
- `Stac`: the node.

Issues are modelled as a `Message` datatype per check. Each constructor
carries the values the source puts into its text. The order of the issues is
the order in which the source yields them.

Three behaviours of the code are easy to misread, and the model follows the
code in each:

- `gee_classes` keeps every string `description` and `color` for the
  cross-entry uniqueness checks. An empty or too-long description and an
  unrecognised colour are kept too, not only the valid ones
  (`gee_classes.py:181`, `:196`).
- `isinstance(value, int)` also accepts `True` and `False`, as 1 and 0.
- The list of missing keys in `gee_classes` comes from a Python set, so its
  order is unspecified. `MissingKeys` carries a set.

## Model

| member | source | states |
|---|---|---|
| FilePath.Run | checker/node/file_path.py:41-127 | at most one issue is reported for any node |
| FilePath.Supported | checker/node/file_path.py:91-120 | the inputs on which the check does not raise: one `_` in a GFSAD id (`:93`), at least three parts in another two-level collection id (`:105-109`), a second part after a lone `projects` (`:120`); characterised by GfsadRule and TwoLevelCollectionRule |
| FilePath.FileName | checker/node/file_path.py:62 | `node.path.name`; characterised by CatalogShapeRule |
| FilePath.JoinPath | checker/node/file_path.py:98-123 | `pathlib` `base / name`; characterised by OneLevelCollectionRule, TwoLevelCollectionRule and GfsadPathFromPieces |
| FilePath.GfsadPath | checker/node/file_path.py:91-98 | the historical GFSAD path; characterised by GfsadPathFromPieces and GfsadPathOf |
| FilePath.EmptyIdRule | checker/node/file_path.py:43-48 | the only issue is "empty id" exactly when the id has no path parts |
| FilePath.RootCatalogRule | checker/node/file_path.py:52-55 | the root catalog passes exactly when its path is `catalog.json`, and is otherwise reported misplaced |
| FilePath.RootPathRule | checker/node/file_path.py:56-58 | a catalog at `catalog.json` whose id is not `GEE_catalog` is told it must have that id |
| FilePath.CatalogShapeRule | checker/node/file_path.py:62-67 | any other catalog whose file is not named `catalog.json` gets that issue; one with more than two id parts is too deep |
| FilePath.TwoLevelCatalogRule | checker/node/file_path.py:69-75 | a two-level catalog passes exactly when its path is its id's parts followed by `catalog.json` |
| FilePath.OneLevelCatalogRule | checker/node/file_path.py:77-87 | a one-part catalog passes exactly at `ORG/catalog.json`; a two-part one in a one-level organization gets "expected length 1 path" with its parts |
| FilePath.TwoLevelCatalogExample | checker/node/file_path.py:69-75 | `NASA/other_thing` as a two-level catalog passes exactly at `NASA/other_thing/catalog.json` |
| FilePath.OneLevelCollectionRule | checker/node/file_path.py:117-127 | a one-level collection passes exactly at `subdir/<id with / replaced by _>.json`, where `subdir` is the first id part, or the second when the first is `projects` |
| FilePath.OneLevelNameIsJoinedParts | checker/node/file_path.py:123 | for a plain relative id, replacing `/` by `_` gives the same name as joining its path parts with `_` |
| FilePath.OneLevelWords | checker/node/file_path.py:117-127 | a one-level collection whose id is plain words joined by `/` passes exactly at `subdir/<words joined by _>.json`, with `subdir` the second word after `projects` and the first otherwise |
| FilePath.OneLevelCollectionExample | checker/node/file_path.py:117-127 | collection `a/b` passes exactly at `a/a_b.json` |
| FilePath.ProjectsCollectionExample | checker/node/file_path.py:117-127 | collection `projects/x/y` passes exactly at `x/projects_x_y.json` |
| FilePath.DeepCollectionExample | checker/node/file_path.py:117-127 | a deep id `ORG/b/c/d` clamps to one directory: `ORG/ORG_b_c_d.json` |
| FilePath.TwoLevelCollectionRule | checker/node/file_path.py:105-116 | a supported two-level collection whose id is relative and outside the `USGS/GFSAD1000` family has at least three id parts and passes exactly at `p0/p1/<all parts joined by _>.json` |
| FilePath.TwoLevelCollectionExample | checker/node/file_path.py:105-116 | `NASA/b/c` passes exactly at `NASA/b/NASA_b_c.json` |
| FilePath.GfsadPrefix | checker/node/file_path.py:91-96 | the part of a `USGS/GFSAD1000...` id before `_` splits at `/` into at least `USGS` and a piece starting with `GFSAD1000` |
| FilePath.SplitAtUnderscore | checker/node/file_path.py:93 | `prefix_version` with no other `_` unpacks into exactly the prefix and the version |
| FilePath.GfsadPrefixPieces | checker/node/file_path.py:94 | `USGS/GFSAD1000rest` splits at `/` into `USGS` and `GFSAD1000rest` |
| FilePath.GfsadPieces | checker/node/file_path.py:93-94 | both splits of a GFSAD id give the expected pieces |
| FilePath.GfsadFileName | checker/node/file_path.py:97 | the joined GFSAD file name is `USGS_GFSAD1000rest_version.json`, a single relative path part |
| FilePath.GfsadPathFromPieces | checker/node/file_path.py:91-104 | the historical path is the two pieces of the prefix, then the joined file name |
| FilePath.GfsadPathOf | checker/node/file_path.py:91-104 | for an id `USGS/GFSAD1000rest_version` the historical path is `USGS/GFSAD1000rest/USGS_GFSAD1000rest_version.json` |
| FilePath.GfsadRule | checker/node/file_path.py:91-104 | such a collection is supported and passes exactly at that historical path |
| FilePath.GfsadIdShape | checker/node/file_path.py:91-96 | helper for GfsadRule: a GFSAD id is `USGS/` followed by a `/`-free sub-directory, `_` and the version |
| FilePath.GfsadIdParts | checker/node/file_path.py:43-44 | such an id has the two path parts `USGS` and `sub_version` |
| FilePath.GfsadExample | checker/node/file_path.py:91-104 | `USGS/GFSAD1000_V1` passes exactly at `USGS/GFSAD1000/USGS_GFSAD1000_V1.json` |
| GeeClasses.Run | checker/node/gee_classes.py:124-136 | the loop over a list of bands yields the issues of every band, in order; nothing without `summaries`, without `eo:bands`, or when `eo:bands` is not a list |
| GeeClasses.Issues | checker/node/gee_classes.py:124-136 | the check's issues for a node; characterised by NoBandsRule, SkippedBandsRule, SingleBandRule and BandsIssuesRule, and computed by Run |
| GeeClasses.Supported | checker/node/gee_classes.py:124-133 | the inputs on which the check does not raise: an iterable `eo:bands` whose elements take the `in` test and, when they pass it, the lookup; characterised by SkippedBandsRule and SkippedItemRule |
| GeeClasses.BandSupported | checker/node/gee_classes.py:131-133 | an element of `eo:bands` on which `CLASSES not in band` and `band[CLASSES]` do not raise; characterised by SkippedItemRule |
| GeeClasses.BandsIssues | checker/node/gee_classes.py:131-136 | the issues of the bands, one after the other; characterised by BandsConcat and BandsIssuesRule |
| GeeClasses.ItemIssues | checker/node/gee_classes.py:131-136 | one element's issues; characterised by SkippedItemRule and BandRule |
| GeeClasses.BandIssues | checker/node/gee_classes.py:132-136 | one band's issues; characterised by BandRule |
| GeeClasses.TableIssues | checker/node/gee_classes.py:137-219 | a table's issues; characterised by TableAcceptedIff, TableCountRule, EmptyTableRule, ItemNotDictRule and CleanRowsRule |
| GeeClasses.TallyIssues | checker/node/gee_classes.py:137-219 | a non-empty table's issues from its tally; characterised by TallyAccepted |
| GeeClasses.Collect | checker/node/gee_classes.py:146-202 | the tally over the entries; characterised by the Collect* lemmas |
| GeeClasses.CountIssues | checker/node/gee_classes.py:137-144 | the size issues; characterised by CountRule and CountClean |
| GeeClasses.CrossIssues | checker/node/gee_classes.py:204-219 | the cross-entry issues; characterised by CrossRule |
| GeeClasses.EntryIssues | checker/node/gee_classes.py:149-202 | one entry's issues; characterised by NotDictRule, ItemNotDictEntry, EntryIssuesAreEntryMessages and RowRule |
| GeeClasses.KeyIssues | checker/node/gee_classes.py:154-164 | an entry's key issues; characterised by KeysRule |
| GeeClasses.MissingKeyIssues | checker/node/gee_classes.py:154-158 | the missing-keys issue; characterised by KeysRule |
| GeeClasses.ExtraKeyIssues | checker/node/gee_classes.py:160-164 | the unexpected-key issue; characterised by ExtraKeysRule |
| GeeClasses.ValueIssues | checker/node/gee_classes.py:166-172 | the value issue; characterised by ValueRule |
| GeeClasses.EntryValues | checker/node/gee_classes.py:166-172 | the value an entry adds; characterised by ValueRule |
| GeeClasses.DescriptionIssues | checker/node/gee_classes.py:175-188 | the description issues; characterised by DescriptionRule |
| GeeClasses.EntryDescriptions | checker/node/gee_classes.py:175-181 | the description an entry adds; characterised by DescriptionRule |
| GeeClasses.ColorIssues | checker/node/gee_classes.py:190-202 | the colour issue; characterised by ColorRule |
| GeeClasses.EntryColors | checker/node/gee_classes.py:190-196 | the colour an entry adds; characterised by ColorRule |
| GeeClasses.HexColor | checker/node/gee_classes.py:197 | the strings the colour pattern matches in full; characterised by ColorExamples |
| GeeClasses.ColorAccepted | checker/node/gee_classes.py:197-198 | a hex colour or a colour name; characterised by ColorExamples |
| GeeClasses.ManyClassesAllowed | checker/node/gee_classes.py:142 | the id contains `LANDFIRE` or `USGS/GAP`; characterised by CountRule |
| GeeClasses.CheckBand | checker/node/gee_classes.py:131-136 | an element's issues: none unless it is an object with `gee:classes`, "must be a list" for a non-list, otherwise those of the table |
| GeeClasses.CheckTable | checker/node/gee_classes.py:137-219 | the table loop yields the count issues, each entry's issues and then the cross-entry issues, accumulating values, descriptions and colours |
| GeeClasses.CheckCount | checker/node/gee_classes.py:137-144 | the count issues of a table of `n` entries |
| GeeClasses.CheckTogether | checker/node/gee_classes.py:204-219 | the cross-entry issues of the accumulated lists |
| GeeClasses.CheckEntry | checker/node/gee_classes.py:149-202 | one entry's issues and its contributions to the three lists |
| GeeClasses.CheckKeys | checker/node/gee_classes.py:154-164 | the missing-key and unexpected-key issues of an entry |
| GeeClasses.CheckValue | checker/node/gee_classes.py:166-172 | the value issue and the value accumulated |
| GeeClasses.CheckDescription | checker/node/gee_classes.py:175-188 | the description issues and the description accumulated |
| GeeClasses.CheckColor | checker/node/gee_classes.py:190-202 | the colour issue and the colour accumulated |
| GeeClasses.ColorExamples | checker/node/gee_classes.py:197-198 | 6- and 8-digit hex colours of either case and named colours are accepted; `GGGGGG`, 5 digits and unknown names are not |
| GeeClasses.CountRule | checker/node/gee_classes.py:137-144 | "at least 2" exactly when there are fewer than two entries and the id is not in the one-class list; "too many" with the count exactly when there are more than 255 and the id contains neither `LANDFIRE` nor `USGS/GAP`; never both |
| GeeClasses.NotDictRule | checker/node/gee_classes.py:150-152 | a non-dict entry yields only "item must be a dict" and contributes nothing |
| GeeClasses.KeysRule | checker/node/gee_classes.py:154-164 | "missing" carries exactly the absent required keys; "unexpected key" exactly when one key is outside the fields; "unexpected keys" exactly when two or more are, listed sorted; no key issue exactly when required keys are a subset of the keys and the keys are a subset of the fields |
| GeeClasses.ExtraKeysRule | checker/node/gee_classes.py:160-164 | "unexpected key" exactly when one key is outside the fields, "unexpected keys", sorted, exactly when two or more are, and no such issue exactly when every key is a field |
| GeeClasses.ValueRule | checker/node/gee_classes.py:166-172 | a present non-integer value is the only value issue; an integer value (or bool) is accumulated, and nothing else is |
| GeeClasses.DescriptionRule | checker/node/gee_classes.py:175-188 | non-string, empty and over-1000-character descriptions each give their own single issue; no issue exactly when the description is absent or of length 1 to 1000; every string description is accumulated |
| GeeClasses.ColorRule | checker/node/gee_classes.py:190-202 | a non-string colour and an unaccepted string colour each give their own single issue; no issue exactly when the colour is absent or accepted; every string colour is accumulated |
| GeeClasses.EntryIssuesAreEntryMessages | checker/node/gee_classes.py:149-202 | an entry only yields entry-level kinds of issue, never size or cross-entry ones |
| GeeClasses.CollectIssuesConcat | checker/node/gee_classes.py:149-202 | the table's entry issues are the entries' own issues one after the other |
| GeeClasses.CollectValuesConcat | checker/node/gee_classes.py:146-172 | the accumulated values are the entries' contributions one after the other |
| GeeClasses.CollectDescriptionsConcat | checker/node/gee_classes.py:147-181 | the accumulated descriptions are the entries' contributions one after the other |
| GeeClasses.CollectColorsConcat | checker/node/gee_classes.py:148-196 | the accumulated colours are the entries' contributions one after the other |
| GeeClasses.CollectStep | checker/node/gee_classes.py:149-202 | the accumulators after one more entry are the previous ones extended by that entry's issues and contributions |
| GeeClasses.CollectIssuesAreEntryMessages | checker/node/gee_classes.py:149-202 | the entries together only yield entry-level kinds of issue |
| GeeClasses.CollectClean | checker/node/gee_classes.py:149-202 | the entries yield no issue exactly when each entry yields none |
| GeeClasses.CollectValues | checker/node/gee_classes.py:146-172 | a value is accumulated exactly when some entry contributes it, and there are at most as many values as entries |
| GeeClasses.CollectDescriptions | checker/node/gee_classes.py:147-181 | likewise for descriptions |
| GeeClasses.CollectColors | checker/node/gee_classes.py:148-196 | likewise for colours |
| GeeClasses.ValuesOfRows | checker/node/gee_classes.py:146-172 | when each entry contributes one value, the accumulated list is those values in entry order |
| GeeClasses.DescriptionsOfRows | checker/node/gee_classes.py:147-181 | likewise for descriptions |
| GeeClasses.ColorsOfRows | checker/node/gee_classes.py:148-196 | likewise for colours |
| GeeClasses.CrossRule | checker/node/gee_classes.py:204-219 | "values have duplicates" exactly when the values repeat; "must be sorted" exactly when they are not non-decreasing; duplicate descriptions and colours exactly when they repeat and the id is not exempt; no cross issue exactly when all hold |
| GeeClasses.RepeatedValue | checker/node/gee_classes_test.py:168-175 | values `[v, v]` with distinct descriptions and colours give exactly "duplicates" (they are still sorted) |
| GeeClasses.DecreasingValues | checker/node/gee_classes_test.py:176-182 | decreasing values give exactly "must be sorted" |
| GeeClasses.EmptyTableRule | checker/node/gee_classes.py:137-140 | an empty table gives "at least 2" unless the id is in the one-class list, and nothing else |
| GeeClasses.SizeIssuesKept | checker/node/gee_classes.py:137-219 | helper for TableCountRule: appending entry and cross issues neither adds nor removes size issues |
| GeeClasses.TableCountRule | checker/node/gee_classes.py:137-144 | the size issues of a table are exactly those of its entry count |
| GeeClasses.TableAcceptedIff | checker/node/gee_classes.py:137-219 | a table passes exactly when its size is allowed, every entry passes, and, if it is not empty, the accumulated values are unique and sorted and the descriptions and colours unique or exempt |
| GeeClasses.CountClean | checker/node/gee_classes.py:137-144 | a table size draws no issue exactly when it is allowed: at least 2 or a one-class dataset, and at most 255 or an id containing `LANDFIRE` or `USGS/GAP` |
| GeeClasses.SizeAllowed | checker/node/gee_classes.py:137-144 | the table sizes the check accepts; tied to CountIssues by CountClean |
| GeeClasses.TallyAccepted | checker/node/gee_classes.py:137-219 | a non-empty table with a given tally passes exactly when its size is allowed, no entry had an issue, and the accumulated lists pass together |
| GeeClasses.TogetherAccepted | checker/node/gee_classes.py:204-219 | the accumulated lists the check accepts together; tied to CrossIssues by TallyAccepted and CrossRule |
| GeeClasses.CleanRowsRule | checker/node/gee_classes.py:146-219 | entries without issues that each add one value, description and colour, with unique sorted values and unique descriptions and colours, make a table that passes exactly when its size is allowed; if it is not empty, its only issues are its size issues |
| GeeClasses.Row | checker/node/gee_classes_test.py:31-35 | a well-formed entry has exactly the three fields with the given value, description and colour |
| GeeClasses.RowRule | checker/node/gee_classes.py:149-202 | a well-formed entry with a valid description and colour yields no issue and contributes its value, description and colour |
| GeeClasses.ValidTableRule | checker/node/gee_classes.py:137-219 | a table of well-formed entries with increasing values and distinct descriptions and colours passes exactly when its size is allowed |
| GeeClasses.ValidTableIssues | checker/node/gee_classes.py:137-219 | such a table, when it is not empty, has exactly the size issues of its entry count and no other |
| GeeClasses.ValidRowsClean | checker/node/gee_classes.py:146-202 | helper: well-formed entries with a valid description and colour have no issue and add their fields, and increasing values are unique and sorted |
| GeeClasses.TwoRows | checker/node/gee_classes_test.py:31-41 | two such entries pass for any id |
| GeeClasses.ValidExample | checker/node/gee_classes_test.py:31-35 | the `FAFAFA`/`violet` two-entry table passes |
| GeeClasses.OneClassExample | checker/node/gee_classes_test.py:57-62 | a one-entry valid table gets exactly ["at least 2"], and no issue for ids in the one-class list |
| GeeClasses.ItemNotDictEntry | checker/node/gee_classes.py:150-152 | an entry yields "item must be a dict" exactly when it is not an object |
| GeeClasses.ItemNotDictRule | checker/node/gee_classes.py:149-152 | a table yields "item must be a dict" exactly when one of its entries is not an object |
| GeeClasses.NotDictFirst | checker/node/gee_classes.py:137-219 | two entries, the first not an object and the second without issues adding one value, description and colour, give exactly ["item must be a dict"] |
| GeeClasses.NotDictFirstTally | checker/node/gee_classes.py:146-202 | helper for NotDictFirst: the tally of such a table is that one issue and the second entry's contributions |
| GeeClasses.TwoEntries | checker/node/gee_classes.py:146-202 | the tally of a two-entry table is the first entry's issues and contributions followed by the second's |
| GeeClasses.SingleCross | checker/node/gee_classes.py:204-219 | one value, one description and one colour draw no cross-entry issue |
| GeeClasses.ItemNotDictExample | checker/node/gee_classes_test.py:79-91 | the test table `['not a dict', {violet, B, 2}]` gives exactly ["item must be a dict"] |
| GeeClasses.NoBandsRule | checker/node/gee_classes.py:125-128 | without a `summaries` dict holding `eo:bands` the check yields nothing |
| GeeClasses.SkippedBandsRule | checker/node/gee_classes.py:129-132 | an `eo:bands` that is a string, or an object whose keys do not contain `gee:classes`, is iterated without raising and yields nothing |
| GeeClasses.SkippedItemRule | checker/node/gee_classes.py:131-132 | an element of `eo:bands` that is not an object and passes the `in` test is a string or a list and yields nothing |
| GeeClasses.BandRule | checker/node/gee_classes.py:132-136 | a band without `gee:classes` yields nothing, a non-list one only "must be a list", a list the table's issues |
| GeeClasses.BandsConcat | checker/node/gee_classes.py:131-136 | the bands' issues are each band's issues one after the other |
| GeeClasses.BandsIssuesStep | checker/node/gee_classes.py:131-136 | the issues after one more band are the previous ones followed by that band's |
| GeeClasses.BandsIssuesRule | checker/node/gee_classes.py:131-136 | an issue is reported exactly when some element of `eo:bands` reports it |
| GeeClasses.OneBand | checker/node/gee_classes.py:131-136 | a one-element list of bands has exactly that element's issues |
| GeeClasses.SingleBandRule | checker/node/gee_classes_test.py:19-26 | for a node whose `eo:bands` is one band, the check reports exactly that band's issues |
| GeeClasses.TooManyExample | checker/node/gee_classes_test.py:64-77 | 256 valid entries with increasing values and distinct descriptions and colours, for `a/collection`, get exactly ["too many classes: 256"] |
| Interval.Run | checker/node/interval.py:41-119 | the check's issues for a node; characterised by AbsentRule, CatalogRule, NotADictRule, RecordRule and AcceptedIff |
| Interval.Supported | checker/node/interval.py:63-75 | the inputs on which the check does not raise: a hashable `type` and `unit` for the `frozenset` tests; characterised by RecordRule |
| Interval.RecordIssues | checker/node/interval.py:56-119 | a record's issues, field by field; characterised by RecordAcceptedIff and CadenceRule |
| Interval.ExtraKeyIssues | checker/node/interval.py:56-61 | the unexpected-key issue; characterised by ExtraKeysRule |
| Interval.TypeIssues | checker/node/interval.py:63-68 | the type issue; characterised by TypeRule |
| Interval.UnitIssues | checker/node/interval.py:70-83 | the unit issues; characterised by UnitRule |
| Interval.IntervalIssues | checker/node/interval.py:85-97 | the interval issue; characterised by IntervalRule |
| Interval.DescriptionIssues | checker/node/interval.py:99-108 | the description issue; characterised by DescriptionRule |
| Interval.NameIssues | checker/node/interval.py:110-119 | the name issue; characterised by NameRule |
| Interval.ExtraKeysRule | checker/node/interval.py:56-61 | no key issue exactly when all keys are fields; "unexpected key" exactly when one is not; "unexpected keys", sorted, exactly when two or more are not |
| Interval.RecordRule | checker/node/interval.py:42-119 | for a collection whose `gee:interval` is a record, the issues are those of the record |
| Interval.AbsentRule | checker/node/interval.py:43-44 | no `gee:interval`, no issue |
| Interval.CatalogRule | checker/node/interval.py:46-48 | a catalog with `gee:interval` gets only "catalogs cannot have" |
| Interval.NotADictRule | checker/node/interval.py:50-54 | a non-dict `gee:interval` gets only "must be a dict" |
| Interval.TypeRule | checker/node/interval.py:63-68 | a missing type and an unknown type are each the single type issue; none exactly when the type is a known cadence kind |
| Interval.UnitRule | checker/node/interval.py:70-83 | missing unit; unknown unit; a custom unit without a description or without a name, each its own issue; none exactly when the unit is known and, if custom, both are present |
| Interval.IntervalRule | checker/node/interval.py:85-97 | missing, not an integer, not positive, and over 32 for any id but `EO1/HYPERION` are each the single interval issue; none exactly when it is a positive integer within the bound or exempt |
| Interval.DescriptionRule | checker/node/interval.py:99-108 | not a string, under 10 and over 200 characters are each the single description issue; none exactly when absent or 10 to 200 characters |
| Interval.NameRule | checker/node/interval.py:110-119 | not a string, under 2 and over 200 characters are each the single name issue; none exactly when absent or 2 to 200 characters |
| Interval.EmptyConcat | checker/node/interval.py:56-119 | helper for RecordAcceptedIff: six concatenated lists are empty exactly when each one is |
| Interval.WellFormed | checker/node/interval.py:56-119 | the record the check accepts, stated field by field without the issue lists; tied to RecordIssues by RecordAcceptedIff |
| Interval.RecordAcceptedIff | checker/node/interval.py:56-119 | a record yields no issue exactly when it is well formed: field keys only, known type, known unit with a custom unit's companions, an allowed interval and description and name of allowed lengths |
| Interval.AcceptedIff | checker/node/interval.py:42-119 | a node passes exactly when it has no `gee:interval` or is a collection with a well-formed record |
| Interval.CadenceRecord | checker/node/interval.py:42-119 | the record `{type, unit, interval}` has exactly those keys with those values |
| Interval.CadenceRule | checker/node/interval.py:42-119 | a record of a known type and a known non-custom unit with no other field draws exactly its interval's issues |
| Interval.DocumentedExample | checker/node/interval.py:1-15 | the documented yearly cadence record passes |
| Interval.CustomUnitRecord | checker/node/interval.py:77-83 | a custom-unit record with a description and no name |
| Interval.CustomUnitWithoutName | checker/node/interval.py:77-83 | a valid custom-unit record lacking a name gets exactly "must have a name" |
| Interval.LongIntervalExample | checker/node/interval.py:93-97 | an interval of 33 days passes for `EO1/HYPERION` only and otherwise gets "too large: 33" |
| Text.PathParts | checker/node/file_path.py:43-44 | `pathlib.Path(s).parts`; characterised by Anchor, Segments, PathPartsOfWords and RelativeParts |
| Text.Join | checker/node/file_path.py:97-111 | `sep.join(parts)`; characterised by JoinSplit and SplitJoin |
| Text.Contains | checker/node/gee_classes.py:142 | substring `in`; characterised by ContainsAt |
| Text.Less | checker/node/gee_classes.py:164 | `str` ordering; characterised by LessIrreflexive, LessTransitive and LessTotal |
| Text.Split | checker/node/file_path.py:93-94 | `str.split` gives at least one piece, and no piece holds the separator |
| Text.Replace | checker/node/file_path.py:123 | `str.replace` keeps the length and leaves no replaced character |
| Text.JoinSplit | checker/node/file_path.py:93-97 | joining the pieces of a split with the separator gives back the string |
| Text.SplitJoin | checker/node/file_path.py:93-97 | splitting a join of separator-free pieces gives back the pieces |
| Text.ReplaceIsJoinOfSplit | checker/node/file_path.py:123 | replacing a character is splitting at it and joining with the other |
| Text.SplitAfterWord | checker/node/file_path.py:93-94 | a string starting with a separator-free word and the separator splits into that word and the split of the rest |
| Text.SplitNoSeparator | checker/node/file_path.py:93-94 | a string without the separator splits into itself |
| Text.SplitHeadPrefix | checker/node/file_path.py:91-94 | a separator-free prefix of the string is a prefix of the first piece |
| Text.Anchor | checker/node/file_path.py:43-44 | a path has at most one anchor part |
| Text.Segments | checker/node/file_path.py:43-44 | path segments are the non-empty pieces other than `.`, and all of them appear |
| Text.PathPartsOfWords | checker/node/file_path.py:43-44 | the parts of plain words joined by `/` are the words |
| Text.SegmentsOfWords | checker/node/file_path.py:43-44 | plain words are their own segments |
| Text.OneWordPath | checker/node/file_path.py:95-96 | a plain word is a one-part path |
| Text.JoinWithoutSlash | checker/node/file_path.py:111 | joining `/`-free words with a `/`-free separator gives a `/`-free name |
| Text.RelativeParts | checker/node/file_path.py:43-44 | a relative path has no anchor and only plain parts |
| Text.LessIrreflexive | checker/node/gee_classes.py:164 | `str` order is irreflexive |
| Text.LessTransitive | checker/node/gee_classes.py:164 | `str` order is transitive |
| Text.LessTotal | checker/node/gee_classes.py:164 | `str` order is total on distinct strings |
| Text.Insert | checker/node/gee_classes.py:164 | inserting into a strictly sorted list keeps it strictly sorted and adds exactly the element |
| Text.SortedSet | checker/node/gee_classes.py:160-164 | `sorted(set(xs))` is strictly sorted with the elements of `xs` |
| Text.StrictlySortedCard | checker/node/gee_classes.py:160-161 | a strictly sorted list has as many elements as its set |
| Text.SortedUnique | checker/node/gee_classes.py:164 | two strictly sorted lists with the same elements are equal |
| Text.NotFirst | checker/node/gee_classes.py:164 | helper for SortedUnique: in a strictly sorted list the head does not recur in the tail |
| Text.ContainsAt | checker/node/gee_classes.py:142 | substring `in` holds exactly when the substring occurs at some index |
| Text.ContainsFirstChar | checker/node/gee_classes.py:142 | helper: a string containing a non-empty substring contains its first character |
| Seqs.CardIffDistinct | checker/node/gee_classes.py:204-219 | `len(set(xs)) == len(xs)` exactly when no element repeats, and never more |
| Seqs.InsertInt | checker/node/gee_classes.py:208 | inserting into a sorted list keeps it sorted and adds the element once |
| Seqs.SortInts | checker/node/gee_classes.py:208 | `sorted(xs)` is non-decreasing and a permutation of `xs` |
| Seqs.SortedIffFixed | checker/node/gee_classes.py:208-209 | `xs == sorted(xs)` exactly when `xs` is non-decreasing |
| Seqs.ConcatEmpty | checker/node/gee_classes.py:149-202 | helper: lists one after the other are empty exactly when each one is |
| Seqs.InConcat | checker/node/gee_classes.py:149-202 | helper: an element is in lists one after the other exactly when it is in one of them |
| Seqs.ConcatSingletons | checker/node/gee_classes.py:146-196 | helper: one-element lists one after the other are the list of those elements |
| Seqs.ConcatAtMostOne | checker/node/gee_classes.py:146-196 | helper: lists of at most one element give at most one element per list |
| Json.Keys | checker/node/gee_classes.py:154 | `set(d)`, the keys of an object; characterised by GetSnoc and Get |
| Json.GetSnoc | checker/node/gee_classes.py:154 | appending a member adds its key, and a lookup finds it only when no earlier member has that key |
| Json.Get | checker/node/gee_classes.py:166-167 | a lookup succeeds exactly for a key of the object and returns a member's value |
| Json.AsInt | checker/node/gee_classes.py:169 | `isinstance(v, int)` accepts integers, with their value, and booleans, and nothing else |
| Json.ExtraKeys | checker/node/gee_classes.py:160-164 | the keys outside the fields, strictly sorted, with their count |
| Json.Filter | checker/node/gee_classes.py:160 | `set difference` keeps exactly the keys outside the fields |
| Json.ExtraKeysUnique | checker/node/gee_classes.py:164 | the sorted extra keys are the one strictly sorted list of those keys |

## Left out

- The STAC node loader (`stac.py`) is not part of this model. A node is
  given as its id, the parts of its path, its kind and its parsed JSON. The
  node's `is_two_level()` is a `bool` parameter of `FilePath.Run`.
- The check runner, I/O, and the rendering of issue text are left out.
  Issues are `Message` constructors that carry the values the text would
  show.
- Inputs on which the source raises an uncaught exception are excluded by
  preconditions:
  - `FilePath.Supported`: a GFSAD id whose `split('_')` does not give two
    pieces; a two-level collection id with fewer than three parts (the
    internal `assert`, or an index error); a lone `projects` id.
  - `GeeClasses.Supported`: an `eo:bands` that is a number, a bool or
    null (not iterable); an element of a list `eo:bands` that is a number,
    a bool or null (`in` raises); a string element that contains
    `gee:classes`, a list element that holds it, or an object `eo:bands`
    with a key that contains it (the `in` test passes and `band[CLASSES]`
    raises). Strings and lists without it are skipped, as the source does.
  - `Interval.Supported`: an unhashable `type` or `unit`.
- `pathlib` is modelled on POSIX strings only: `//`, `..` and Windows paths
  are not special-cased beyond the anchor.
- JSON numbers with a fraction are `real` values. Floating point is not
  modelled.
- A Python dict cannot hold a key twice. An object here is a list of
  members, and a lookup takes the first member with the key.
- The colour regular expression is replaced by its meaning: 6 or 8 hex
  digits of either case (`GeeClasses.HexColor`).
- A `string` is a sequence of Unicode scalar values, so `|s|` is Python's
  `len(s)`. A Python `str` holding a lone surrogate (which JSON escapes can
  produce) cannot be represented.
- GeeClasses.Run: an `eo:bands` that is an object or a string is not
  iterated. On the inputs the check supports, its keys or characters are
  all skipped, so the result is the same.
- Test fixtures beyond those named in the table are not restated as
  examples.
