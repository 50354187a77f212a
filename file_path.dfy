/** The `file_path` check: the one file location a node's id and kind allow,
    compared with where the node's file actually is.

    Catalogs: the root catalog is `catalog.json` with the id `GEE_catalog`;
    every other catalog is `ORG/catalog.json` with the id `ORG`, except that
    the two-level organizations (NASA, NOAA, USGS) may also have
    `ORG/sub/catalog.json` with the id `ORG/sub`; there are never more than
    two levels.

    Collections: the id `ORG/b` lives at `ORG/ORG_b.json`, and deeper ids
    clamp at one directory (`ORG/b/c/d` at `ORG/ORG_b_c_d.json`); an id
    starting with `projects` takes its directory from its second part. A
    two-level id `NASA/b/c` lives at `NASA/b/NASA_b_c.json`, and
    `USGS/GFSAD1000_V1` keeps its historical place
    `USGS/GFSAD1000/USGS_GFSAD1000_V1.json`. */
module FilePath {
  import opened Text
  import opened Stac

  /** The id of the root catalog. */
  const GEE_CATALOG := "GEE_catalog"
  /** The file name of every catalog. */
  const CATALOG_NAME := "catalog.json"
  /** Where the root catalog lives. */
  const GEE_CATALOG_PATH: seq<string> := [CATALOG_NAME]
  /** The id prefix of the one collection family that keeps its historical
      two-level layout. */
  const GFSAD1000 := "USGS/GFSAD1000"
  /** The first id part that a one-level collection's directory skips. */
  const PROJECTS := "projects"

  /** The issues the check reports; a path mismatch carries the expected path
      and the one found, both as path parts. */
  datatype Message =
    | EmptyId                                                      // 'Empty id field'
    | RootMisplaced                                                // '"GEE_catalog" in the wrong place'
    | RootIdRequired                                               // 'Root must have an id of GEE_catalog'
    | CatalogFileName                                              // 'Catalog file must be catalog.json'
    | CatalogTooDeep                                               // 'Catalog too deep'
    | TwoLevelCatalogPath(expected: seq<string>, found: seq<string>)
    | ExpectedLengthOne(parts: seq<string>)                        // 'expected length 1 path: [...]'
    | CatalogPath(expected: seq<string>, found: seq<string>)
    | GfsadCollectionPath(expected: seq<string>, found: seq<string>)
    | TwoLevelCollectionPath(expected: seq<string>, found: seq<string>)
    | OneLevelCollectionPath(expected: seq<string>, found: seq<string>)

  /** `pathlib.PurePath.name`: the last part, or `""` for an empty path or
      a bare anchor. */
  function FileName(path: seq<string>): string
  {
    if |path| == 0 || path == ["/"] || path == ["//"] then "" else path[|path| - 1]
  }

  /** `pathlib` `base / name` for a string `name`: an absolute name replaces
      the base, a relative one is appended part by part. */
  function JoinPath(base: seq<string>, name: string): seq<string>
  {
    if "/" <= name then PathParts(name) else base + PathParts(name)
  }

  /** The inputs on which the check runs to its end instead of raising:
      a two-level `USGS/GFSAD1000...` collection id holds exactly one `_`
      (for the tuple unpacking of `split('_')`); any other two-level
      collection id has at least three parts (two parts trip the internal
      `assert`, one part an index error); a one-level collection id that is
      just `projects` has no second part to take its directory from. */
  predicate Supported(node: Node, twoLevel: bool)
  {
    var parts := PathParts(node.id);
    node.kind == Collection && |parts| > 0 ==>
      if twoLevel then
        if GFSAD1000 <= node.id then |Split(node.id, '_')| == 2 else |parts| >= 3
      else
        parts[0] != PROJECTS || |parts| >= 2
  }

  /** Both the `_`-prefix of a `USGS/GFSAD1000...` id and its first two
      `/`-pieces: `USGS` and a piece starting with `GFSAD1000`. */
  lemma GfsadPrefix(id: string)
    requires GFSAD1000 <= id
    ensures var pieces := Split(Split(id, '_')[0], '/');
      |pieces| >= 2 && pieces[0] == "USGS" && "GFSAD1000" <= pieces[1]
  {
    var prefix := Split(id, '_')[0];
    assert '_' !in GFSAD1000;
    SplitHeadPrefix(GFSAD1000, id, '_');
    assert "USGS/" <= prefix;
    assert '/' !in "USGS";
    SplitAfterWord("USGS", prefix, '/');
    var after := prefix[5..];
    assert "GFSAD1000" <= after;
    assert '/' !in "GFSAD1000";
    SplitHeadPrefix("GFSAD1000", after, '/');
  }

  /** The historical location of a `USGS/GFSAD1000..._version` collection:
      `parts[0]/parts[1]/parts[0]_parts[1]_version.json`, with `parts` the
      `/`-pieces of the id's part before `_`. */
  function GfsadPath(id: string): seq<string>
    requires GFSAD1000 <= id && |Split(id, '_')| == 2
  {
    var pieces := Split(id, '_');
    var prefix := pieces[0];
    var version := pieces[1];
    GfsadPrefix(id);
    var parts := Split(prefix, '/');
    var filename := Join([parts[0], parts[1], version], "_") + ".json";
    JoinPath(PathParts(parts[0]) + PathParts(parts[1]), filename)
  }

  /** The issues the check reports for a node; `twoLevel` is the node's
      `is_two_level()`. */
  function Run(node: Node, twoLevel: bool): (r: seq<Message>)
    requires Supported(node, twoLevel)
    ensures |r| <= 1
  {
    var parts := PathParts(node.id);
    if |parts| == 0 then [EmptyId]
    else if node.kind == Catalog then
      if node.id == GEE_CATALOG then
        if node.path != GEE_CATALOG_PATH then [RootMisplaced] else []
      else if node.path == GEE_CATALOG_PATH then [RootIdRequired]
      else if FileName(node.path) != CATALOG_NAME then [CatalogFileName]
      else if |parts| > 2 then [CatalogTooDeep]
      else if twoLevel then
        // `id_parts[:2]` is all of `parts` here.
        var expected := parts + [CATALOG_NAME];
        if node.path != expected then [TwoLevelCatalogPath(expected, node.path)] else []
      else if |parts| != 1 then [ExpectedLengthOne(parts)]
      else
        var expected := [parts[0], CATALOG_NAME];
        if node.path != expected then [CatalogPath(expected, node.path)] else []
    else if twoLevel then
      if GFSAD1000 <= node.id then
        var expected := GfsadPath(node.id);
        if node.path != expected then [GfsadCollectionPath(expected, node.path)] else []
      else
        var expected := JoinPath([parts[0], parts[1]], Join(parts, "_") + ".json");
        if node.path != expected then [TwoLevelCollectionPath(expected, node.path)] else []
    else
      var subdir := if parts[0] == PROJECTS then parts[1] else parts[0];
      var expected := JoinPath([subdir], Replace(node.id, '/', '_') + ".json");
      if expected != node.path then [OneLevelCollectionPath(expected, node.path)] else []
  }

  /** Every run reports at most one issue, and "Empty id field" is reported
      exactly for an id with no path parts, alone. */
  lemma EmptyIdRule(node: Node, twoLevel: bool)
    requires Supported(node, twoLevel)
    ensures Run(node, twoLevel) == [EmptyId] <==> PathParts(node.id) == []
  {
  }

  /** The root catalog id passes exactly at `catalog.json`; anywhere else it
      is "in the wrong place". */
  lemma RootCatalogRule(node: Node, twoLevel: bool)
    requires node.kind == Catalog && node.id == GEE_CATALOG
    ensures Run(node, twoLevel) == [] <==> node.path == [CATALOG_NAME]
    ensures node.path != [CATALOG_NAME] ==> Run(node, twoLevel) == [RootMisplaced]
  {
    OneWordPath(GEE_CATALOG);
  }

  /** A catalog at `catalog.json` with any other (non-empty) id must be the
      root, and gets only that issue. */
  lemma RootPathRule(node: Node, twoLevel: bool)
    requires node.kind == Catalog && node.path == [CATALOG_NAME]
    requires node.id != GEE_CATALOG && PathParts(node.id) != []
    ensures Run(node, twoLevel) == [RootIdRequired]
  {
  }

  /** Any other catalog whose file is not named `catalog.json` gets only that
      issue; one that is, but has more than two id parts, is too deep. */
  lemma CatalogShapeRule(node: Node, twoLevel: bool)
    requires node.kind == Catalog && node.id != GEE_CATALOG && node.path != [CATALOG_NAME]
    requires PathParts(node.id) != []
    ensures FileName(node.path) != CATALOG_NAME ==> Run(node, twoLevel) == [CatalogFileName]
    ensures FileName(node.path) == CATALOG_NAME && |PathParts(node.id)| > 2 ==>
      Run(node, twoLevel) == [CatalogTooDeep]
  {
  }

  /** A two-level catalog of one or two id parts passes exactly at
      `parts[0]/parts[1]/catalog.json` (or `parts[0]/catalog.json`). */
  lemma TwoLevelCatalogRule(node: Node)
    requires node.kind == Catalog && node.id != GEE_CATALOG && node.path != [CATALOG_NAME]
    requires 1 <= |PathParts(node.id)| <= 2
    ensures Run(node, true) == [] <==> node.path == PathParts(node.id) + [CATALOG_NAME]
  {
  }

  /** A one-level catalog passes exactly at `id/catalog.json` when its id
      has one part; with two parts it is reported as not of length one. */
  lemma OneLevelCatalogRule(node: Node)
    requires node.kind == Catalog && node.id != GEE_CATALOG && node.path != [CATALOG_NAME]
    ensures |PathParts(node.id)| == 1 ==>
      (Run(node, false) == [] <==> node.path == [PathParts(node.id)[0], CATALOG_NAME])
    ensures |PathParts(node.id)| == 2 && FileName(node.path) == CATALOG_NAME ==>
      Run(node, false) == [ExpectedLengthOne(PathParts(node.id))]
  {
  }

  /** `NASA/other_thing` as a two-level catalog belongs at
      `NASA/other_thing/catalog.json`. */
  lemma TwoLevelCatalogExample(node: Node)
    requires node.kind == Catalog && node.id == "NASA/other_thing"
    ensures PathParts(node.id) == ["NASA", "other_thing"]
    ensures Run(node, true) == [] <==> node.path == ["NASA", "other_thing", "catalog.json"]
  {
    assert Words(["NASA", "other_thing"]) by { assert Word("NASA") && Word("other_thing"); }
    JoinTwo("NASA", "other_thing", "/");
    assert "NASA" + "/" + "other_thing" == "NASA/other_thing";
    assert node.id == Join(["NASA", "other_thing"], "/");
    PathPartsOfWords(["NASA", "other_thing"]);
    assert node.id != GEE_CATALOG;
    assert ["NASA", "other_thing"] + [CATALOG_NAME] == ["NASA", "other_thing", "catalog.json"];
    if node.path == [CATALOG_NAME] {
      RootPathRule(node, true);
    } else {
      TwoLevelCatalogRule(node);
    }
  }

  /** A one-level collection passes exactly at `subdir/<id with '/' as
      '_'>.json`, where `subdir` is the id's second part when the first is
      `projects` and its first part otherwise. */
  lemma OneLevelCollectionRule(node: Node)
    requires node.kind == Collection && Supported(node, false)
    requires PathParts(node.id) != []
    ensures var parts := PathParts(node.id);
      var subdir := if parts[0] == PROJECTS then parts[1] else parts[0];
      Run(node, false) == [] <==> node.path == [subdir, Replace(node.id, '/', '_') + ".json"]
  {
    var name := Replace(node.id, '/', '_') + ".json";
    assert '/' !in name;
    assert name[|name| - 1] == 'n';
    OneWordPath(name);
  }

  /** For an id whose slash-separated pieces are all proper words, the
      one-level file name `id.replace('/', '_')` is the id's parts joined
      with `_`: both collection layouts name the file the same way. */
  lemma OneLevelNameIsJoinedParts(ws: seq<string>)
    requires |ws| >= 1 && Words(ws)
    ensures Replace(Join(ws, "/"), '/', '_') == Join(PathParts(Join(ws, "/")), "_")
  {
    PathPartsOfWords(ws);
    ReplaceIsJoinOfSplit(Join(ws, "/"), '/', '_');
    SplitJoin(ws, '/');
  }

  /** A one-level collection whose id is the words `ws` joined by `/`
      passes exactly at `subdir/<ws joined by _>.json`, where `subdir` is
      `ws[1]` when `ws[0]` is `projects` and `ws[0]` otherwise. */
  lemma OneLevelWords(node: Node, ws: seq<string>)
    requires node.kind == Collection && |ws| >= 1 && Words(ws) && node.id == Join(ws, "/")
    requires ws[0] == PROJECTS ==> |ws| >= 2
    ensures PathParts(node.id) == ws
    ensures Run(node, false) == [] <==>
      node.path == [if ws[0] == PROJECTS then ws[1] else ws[0], Join(ws, "_") + ".json"]
  {
    PathPartsOfWords(ws);
    OneLevelNameIsJoinedParts(ws);
    OneLevelCollectionRule(node);
  }

  /** `a/b` as a one-level collection belongs at `a/a_b.json`. */
  lemma OneLevelCollectionExample(node: Node)
    requires node.kind == Collection && node.id == "a/b"
    ensures PathParts(node.id) == ["a", "b"]
    ensures Run(node, false) == [] <==> node.path == ["a", "a_b.json"]
  {
    var ws := ["a", "b"];
    assert Words(ws) by { assert Word("a") && Word("b"); }
    JoinTwo("a", "b", "/");
    JoinTwo("a", "b", "_");
    assert "a" + "/" + "b" == "a/b";
    assert node.id == Join(ws, "/");
    assert Join(ws, "_") + ".json" == "a_b.json";
    assert ws[0] != PROJECTS;
    OneLevelWords(node, ws);
  }

  /** `projects/x/y` belongs at `x/projects_x_y.json`: the directory drops
      `projects`, the file name keeps it. */
  lemma ProjectsCollectionExample(node: Node)
    requires node.kind == Collection && node.id == "projects/x/y"
    ensures PathParts(node.id) == ["projects", "x", "y"]
    ensures Run(node, false) == [] <==> node.path == ["x", "projects_x_y.json"]
  {
    var ws := ["projects", "x", "y"];
    assert Words(ws) by { assert Word("projects") && Word("x") && Word("y"); }
    JoinThree("projects", "x", "y", "/");
    JoinThree("projects", "x", "y", "_");
    assert "projects" + "/" + "x" + "/" + "y" == "projects/x/y";
    assert node.id == Join(ws, "/");
    assert Join(ws, "_") + ".json" == "projects_x_y.json";
    OneLevelWords(node, ws);
  }

  /** A deeper one-level id clamps at one directory: `ORG/b/c/d` belongs at
      `ORG/ORG_b_c_d.json`. */
  lemma DeepCollectionExample(node: Node)
    requires node.kind == Collection && node.id == "ORG/b/c/d"
    ensures PathParts(node.id) == ["ORG", "b", "c", "d"]
    ensures Run(node, false) == [] <==> node.path == ["ORG", "ORG_b_c_d.json"]
  {
    var ws := ["ORG", "b", "c", "d"];
    assert Words(ws) by { assert Word("ORG") && Word("b") && Word("c") && Word("d"); }
    assert node.id == Join(ws, "/") by {
      JoinFour("ORG", "b", "c", "d", "/");
      assert "ORG" + "/" + "b" + "/" + "c" + "/" + "d" == "ORG/b/c/d";
    }
    assert Join(ws, "_") + ".json" == "ORG_b_c_d.json" by {
      JoinFour("ORG", "b", "c", "d", "_");
    }
    assert ws[0] != PROJECTS;
    OneLevelWords(node, ws);
  }

  /** A two-level collection id of three or more relative parts (other than
      the `USGS/GFSAD1000` family) passes exactly at
      `parts[0]/parts[1]/<parts joined with '_'>.json`. */
  lemma TwoLevelCollectionRule(node: Node)
    requires node.kind == Collection && Supported(node, true)
    requires !(GFSAD1000 <= node.id) && !("/" <= node.id)
    requires PathParts(node.id) != []
    ensures var parts := PathParts(node.id);
      |parts| >= 3 &&
      (Run(node, true) == [] <==> node.path == [parts[0], parts[1], Join(parts, "_") + ".json"])
  {
    var parts := PathParts(node.id);
    RelativeParts(node.id);
    JoinWithoutSlash(parts, "_");
    var name := Join(parts, "_") + ".json";
    assert '/' !in name;
    assert name[|name| - 1] == 'n';
    OneWordPath(name);
  }

  /** `NASA/b/c` as a two-level collection belongs at `NASA/b/NASA_b_c.json`. */
  lemma TwoLevelCollectionExample(node: Node)
    requires node.kind == Collection && node.id == "NASA/b/c"
    ensures PathParts(node.id) == ["NASA", "b", "c"]
    ensures Run(node, true) == [] <==> node.path == ["NASA", "b", "NASA_b_c.json"]
  {
    var ws := ["NASA", "b", "c"];
    assert Words(ws) by { assert Word("NASA") && Word("b") && Word("c"); }
    JoinThree("NASA", "b", "c", "/");
    JoinThree("NASA", "b", "c", "_");
    assert "NASA" + "/" + "b" + "/" + "c" == "NASA/b/c";
    assert node.id == Join(ws, "/");
    assert Join(ws, "_") + ".json" == "NASA_b_c.json";
    PathPartsOfWords(ws);
    TwoLevelCollectionRule(node);
  }

  /** A `_`-free prefix and version joined by `_` split back into the two. */
  lemma SplitAtUnderscore(prefix: string, version: string)
    requires '_' !in prefix && '_' !in version
    ensures Split(prefix + "_" + version, '_') == [prefix, version]
  {
    var id := prefix + "_" + version;
    SplitAfterWord(prefix, id, '_');
    assert id[|prefix| + 1..] == version;
    SplitNoSeparator(version, '_');
  }

  /** `USGS/GFSAD1000<rest>`, for a slash-free `rest`, splits on `/` into
      `USGS` and `GFSAD1000<rest>`. */
  lemma GfsadPrefixPieces(rest: string)
    requires '/' !in rest
    ensures Split(GFSAD1000 + rest, '/') == ["USGS", "GFSAD1000" + rest]
  {
    GfsadPrefixJoin(rest);
    GfsadPrefixWords(rest);
    SplitJoin(["USGS", "GFSAD1000" + rest], '/');
  }

  lemma GfsadPrefixJoin(rest: string)
    ensures GFSAD1000 + rest == Join(["USGS", "GFSAD1000" + rest], ['/'])
  {
    assert GFSAD1000 == "USGS" + "/" + "GFSAD1000";
    JoinTwo("USGS", "GFSAD1000" + rest, ['/']);
  }

  lemma GfsadPrefixWords(rest: string)
    requires '/' !in rest
    ensures forall i :: 0 <= i < 2 ==> '/' !in ["USGS", "GFSAD1000" + rest][i]
  {
    assert '/' !in "USGS" && '/' !in "GFSAD1000";
  }

  /** How a `USGS/GFSAD1000<rest>_<version>` id splits on `_` and its
      prefix on `/`, when neither `rest` nor `version` holds `_` or `/`. */
  lemma GfsadPieces(rest: string, version: string)
    requires '_' !in rest && '/' !in rest && '_' !in version && '/' !in version
    ensures Split(GFSAD1000 + rest + "_" + version, '_') == [GFSAD1000 + rest, version]
    ensures Split(GFSAD1000 + rest, '/') == ["USGS", "GFSAD1000" + rest]
  {
    assert '_' !in GFSAD1000;
    SplitAtUnderscore(GFSAD1000 + rest, version);
    GfsadPrefixPieces(rest);
  }

  /** The file name `USGS_GFSAD1000<rest>_<version>.json` is one path part. */
  lemma GfsadFileName(rest: string, version: string)
    requires '/' !in rest && '/' !in version
    ensures Join(["USGS", "GFSAD1000" + rest, version], "_") + ".json" ==
      "USGS_GFSAD1000" + rest + "_" + version + ".json"
    ensures PathParts("USGS_GFSAD1000" + rest + "_" + version + ".json") ==
      ["USGS_GFSAD1000" + rest + "_" + version + ".json"]
    ensures !("/" <= "USGS_GFSAD1000" + rest + "_" + version + ".json")
  {
    var sub := "GFSAD1000" + rest;
    assert [sub, version][1..] == [version];
    assert Join([sub, version], "_") == sub + "_" + version;
    assert ["USGS", sub, version][1..] == [sub, version];
    assert Join(["USGS", sub, version], "_") == "USGS" + "_" + (sub + "_" + version);
    assert "USGS" + "_" + (sub + "_" + version) == "USGS_GFSAD1000" + rest + "_" + version;
    var filename := "USGS_GFSAD1000" + rest + "_" + version + ".json";
    assert '/' !in "USGS_GFSAD1000" && '/' !in ".json" && '/' !in "_";
    assert '/' !in filename;
    assert filename[0] == 'U';
    assert filename[|filename| - 1] == 'n';
    OneWordPath(filename);
  }

  /** `GfsadPath` in terms of how the id splits. */
  lemma GfsadPathFromPieces(id: string, prefix: string, version: string, org: string, sub: string)
    requires GFSAD1000 <= id
    requires Split(id, '_') == [prefix, version]
    requires Split(prefix, '/') == [org, sub]
    requires PathParts(org) == [org] && PathParts(sub) == [sub]
    requires var filename := Join([org, sub, version], "_") + ".json";
      PathParts(filename) == [filename] && !("/" <= filename)
    ensures GfsadPath(id) == [org, sub, Join([org, sub, version], "_") + ".json"]
  {
  }

  /** The historical location of `USGS/GFSAD1000<rest>_<version>` is
      `USGS/GFSAD1000<rest>/USGS_GFSAD1000<rest>_<version>.json`. */
  lemma GfsadPathOf(id: string, rest: string, version: string, sub: string, filename: string)
    requires '_' !in rest && '/' !in rest && '_' !in version && '/' !in version
    requires id == GFSAD1000 + rest + "_" + version
    requires sub == "GFSAD1000" + rest
    requires filename == "USGS_GFSAD1000" + rest + "_" + version + ".json"
    ensures GFSAD1000 <= id && |Split(id, '_')| == 2
    ensures GfsadPath(id) == ["USGS", sub, filename]
  {
    GfsadPieces(rest, version);
    OneWordPath("USGS");
    assert '/' !in "GFSAD1000";
    assert sub[0] == 'G';
    OneWordPath(sub);
    GfsadFileName(rest, version);
    GfsadPathFromPieces(id, GFSAD1000 + rest, version, "USGS", sub);
  }

  /** A `USGS/GFSAD1000<rest>_<version>` collection id (no further `_` or
      `/`) runs to its end and passes exactly at
      `USGS/GFSAD1000<rest>/USGS_GFSAD1000<rest>_<version>.json`. */
  lemma GfsadRule(node: Node, rest: string, version: string, sub: string, filename: string)
    requires node.kind == Collection
    requires '_' !in rest && '/' !in rest && '_' !in version && '/' !in version
    requires node.id == GFSAD1000 + rest + "_" + version
    requires sub == "GFSAD1000" + rest
    requires filename == "USGS_GFSAD1000" + rest + "_" + version + ".json"
    ensures Supported(node, true)
    ensures Run(node, true) == [] <==> node.path == ["USGS", sub, filename]
  {
    GfsadPathOf(node.id, rest, version, sub, filename);
    GfsadIdShape(rest, version, sub);
    GfsadIdParts(node.id, sub, version);
  }

  lemma GfsadIdShape(rest: string, version: string, sub: string)
    requires '/' !in rest
    requires sub == "GFSAD1000" + rest
    ensures GFSAD1000 + rest + "_" + version == "USGS/" + sub + "_" + version
    ensures '/' !in sub && sub != ""
  {
    assert GFSAD1000 == "USGS/" + "GFSAD1000";
    assert '/' !in "GFSAD1000";
  }

  /** The parts of a `USGS/GFSAD1000<rest>_<version>` id. */
  lemma GfsadIdParts(id: string, sub: string, version: string)
    requires '/' !in sub && '/' !in version && sub != ""
    requires id == "USGS/" + sub + "_" + version
    ensures PathParts(id) == ["USGS", sub + "_" + version]
  {
    assert id == Join(["USGS", sub + "_" + version], "/");
    PathPartsOfWords(["USGS", sub + "_" + version]);
  }

  /** `USGS/GFSAD1000_V1` belongs at `USGS/GFSAD1000/USGS_GFSAD1000_V1.json`. */
  lemma GfsadExample(node: Node)
    requires node.kind == Collection && node.id == "USGS/GFSAD1000_V1"
    ensures Supported(node, true)
    ensures Run(node, true) == [] <==> node.path == ["USGS", "GFSAD1000", "USGS_GFSAD1000_V1.json"]
  {
    GfsadRule(node, "", "V1", "GFSAD1000", "USGS_GFSAD1000_V1.json");
  }
}
