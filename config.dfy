/** Registered data sources and the per-source files kept in the package
    data directory: thales/config/__init__.py and its successor
    thales/config/sources.py. */
module Config {
  import opened Common

  /** `DEFAULT_SRC` */
  const DefaultSource: string := "alphavantage"

  /** `default_fieldmap` of thales/config/__init__.py */
  const FirstDefaultFieldmap: map<string, string> :=
    map["datetime" := "DATETIME", "symbol" := "SYMBOL", "open" := "OPEN", "high" := "HIGH",
        "low" := "LOW", "close" := "CLOSE", "volume" := "VOLUME"]

  /** `DEFAULT_FIELDMAP` of thales/config/utils.py */
  const DefaultFieldmap: map<string, string> :=
    map["datetime" := "DATETIME", "symbol" := "SYMBOL", "open" := "OPEN", "high" := "HIGH",
        "low" := "LOW", "close" := "CLOSE", "raw_close" := "RAW_CLOSE", "volume" := "VOLUME"]

  /** `validate_source` of thales/config/__init__.py: `src` itself when it is
      registered. */
  function CheckSource(available: seq<string>, src: string): (r: Result<string>)
    ensures r.Ok? <==> src in available
    ensures r.Ok? ==> r.value == src
    ensures r.Err? ==> r.error == InvalidSource
  {
    if src in available then Ok(src) else Err(InvalidSource)
  }

  /** `validate_source` of thales/config/sources.py. `srcs` is `SRCS`, the
      list read when the module was imported; a falsy `valid_sources` falls
      back to it and a falsy `src` to the default source. */
  function ValidateSource(srcs: seq<string>, src: Option<string>, validSources: Option<seq<string>>): (r: Result<string>)
    ensures r.Ok? ==> r.value != ""
    ensures Truthy(src) ==> (r.Ok? ==> r.value == src.value)
    ensures !Truthy(src) ==> (r.Ok? ==> r.value == DefaultSource)
    ensures r.Err? ==> r.error == InvalidSource
  {
    var valid := if validSources.None? || validSources.value == [] then srcs else validSources.value;
    var name := if Truthy(src) then src.value else DefaultSource;
    if name in valid then Ok(name) else Err(InvalidSource)
  }

  /** A given non-empty source is accepted iff it is in the list checked:
      the one passed, or `SRCS` when that is None or empty. */
  lemma ValidateSourceAccepts(srcs: seq<string>, src: string, validSources: Option<seq<string>>)
    requires src != ""
    ensures ValidateSource(srcs, Some(src), validSources).Ok? <==>
      (if validSources.Some? && validSources.value != [] then src in validSources.value else src in srcs)
  {
  }

  /** None and "" for `src` both select the default source. */
  lemma ValidateSourceDefault(srcs: seq<string>, validSources: Option<seq<string>>)
    ensures ValidateSource(srcs, None, validSources) == ValidateSource(srcs, Some(""), validSources)
    ensures ValidateSource(srcs, None, validSources) == ValidateSource(srcs, Some(DefaultSource), validSources)
  {
  }

  /** `sources.append(src)` only when absent. */
  function AppendNew(sources: seq<string>, src: string): seq<string> {
    if src in sources then sources else sources + [src]
  }

  /** Registering keeps the list duplicate-free and adds `src` exactly once;
      registering twice is registering once. */
  lemma {:induction false} AppendNewSpec(sources: seq<string>, src: string)
    ensures src in AppendNew(sources, src)
    ensures forall x :: x in AppendNew(sources, src) <==> x in sources || x == src
    ensures (forall i, j :: 0 <= i < j < |sources| ==> sources[i] != sources[j]) ==>
      forall i, j :: 0 <= i < j < |AppendNew(sources, src)| ==>
        AppendNew(sources, src)[i] != AppendNew(sources, src)[j]
    ensures AppendNew(AppendNew(sources, src), src) == AppendNew(sources, src)
  {
    if src !in sources {
      assert AppendNew(sources, src)[|sources|] == src;
    }
  }

  /** Which of the two `register_source` functions is meant: the first one in
      thales/config/__init__.py, or the one in thales/config/sources.py,
      which also makes an FX directory and uses `DEFAULT_FIELDMAP`. */
  datatype Layout = ConfigInit | SourcesModule

  function DefaultFieldmapOf(layout: Layout): map<string, string> {
    if layout == ConfigInit then FirstDefaultFieldmap else DefaultFieldmap
  }

  /** The directories `register_source` makes for a source, relative to the
      package data directory. */
  function SourceDirs(src: string, layout: Layout): set<string> {
    {"scraped_data/" + src, "symbols/" + src} +
    (if layout == SourcesModule then {"fx/" + src} else {})
  }

  /** The empty list files it touches. */
  function SourceFiles(src: string, layout: Layout): set<string> {
    {"symbols/" + src + "/master.yaml"} +
    (if layout == SourcesModule then {"fx/" + src + "/master.yaml"} else {})
  }

  /** The package data directory: `sources.yaml`, the credential and fieldmap
      files (keyed by file name), and the other paths that exist. An empty
      credentials file reads as the empty map. */
  class PackageData {
    var sources: seq<string>
    var credentials: map<string, map<string, string>>
    var fieldmaps: map<string, map<string, string>>
    var dirs: set<string>
    var files: set<string>

    constructor(sources: seq<string>)
      ensures this.sources == sources
      ensures credentials == map[] && fieldmaps == map[] && dirs == {} && files == {}
    {
      this.sources := sources;
      credentials := map[];
      fieldmaps := map[];
      dirs := {};
      files := {};
    }

    /** `register_source(src)`: the assertion rejects "" and writes nothing;
        otherwise every file and directory is made when absent. */
    method RegisterSource(src: string, layout: Layout) returns (o: Outcome)
      modifies this
      ensures src == "" ==> (o == Fail(AssertionError) &&
        sources == old(sources) && credentials == old(credentials) && fieldmaps == old(fieldmaps) &&
        dirs == old(dirs) && files == old(files))
      ensures src != "" ==> (o == Pass &&
        sources == AppendNew(old(sources), src) &&
        fieldmaps == (if src + ".yaml" in old(fieldmaps) then old(fieldmaps)
                      else old(fieldmaps)[src + ".yaml" := DefaultFieldmapOf(layout)]) &&
        credentials == (if src + ".yaml" in old(credentials) then old(credentials)
                        else old(credentials)[src + ".yaml" := map[]]) &&
        dirs == old(dirs) + SourceDirs(src, layout) &&
        files == old(files) + SourceFiles(src, layout))
    {
      if src == "" {
        return Fail(AssertionError);
      }
      sources := AppendNew(sources, src);
      var fp := src + ".yaml";
      if fp !in fieldmaps {
        fieldmaps := fieldmaps[fp := DefaultFieldmapOf(layout)];
      }
      if fp !in credentials {
        credentials := credentials[fp := map[]];
      }
      dirs := dirs + SourceDirs(src, layout);
      files := files + SourceFiles(src, layout);
      o := Pass;
    }

    /** `get_credentials(src)` */
    function GetCredentials(src: string): Result<map<string, string>>
      reads this
    {
      var name :- CheckSource(sources, src);
      if name + ".yaml" in credentials then Ok(credentials[name + ".yaml"]) else Err(FileNotFoundError)
    }

    /** `save_credentials(src, **credentials)`: the saved map merged with the
        new one, new keys winning. */
    method SaveCredentials(src: string, creds: map<string, string>) returns (o: Outcome)
      modifies this
      ensures old(GetCredentials(src)).Err? ==>
        o == Fail(old(GetCredentials(src)).error) && credentials == old(credentials)
      ensures old(GetCredentials(src)).Ok? ==>
        o == Pass && credentials == old(credentials)[src + ".yaml" := old(GetCredentials(src)).value + creds]
      ensures sources == old(sources) && fieldmaps == old(fieldmaps) && dirs == old(dirs) && files == old(files)
    {
      var saved := GetCredentials(src);
      if saved.Err? {
        return Fail(saved.error);
      }
      credentials := credentials[src + ".yaml" := saved.value + creds];
      o := Pass;
    }

    /** `get_fieldmap(src)` of thales/config/__init__.py */
    function GetFieldmap(src: string): Result<map<string, string>>
      reads this
    {
      var name :- CheckSource(sources, src);
      if name + ".yaml" in fieldmaps then Ok(fieldmaps[name + ".yaml"]) else Err(FileNotFoundError)
    }

    /** `set_fieldmap(src, **fieldmap)` of thales/config/__init__.py: every key
        must already be a key of the stored fieldmap. */
    method SetFieldmap(src: string, fieldmap: map<string, string>) returns (o: Outcome)
      modifies this
      ensures old(GetFieldmap(src)).Err? ==> o == Fail(old(GetFieldmap(src)).error) && fieldmaps == old(fieldmaps)
      ensures old(GetFieldmap(src)).Ok? && !(fieldmap.Keys <= old(GetFieldmap(src)).value.Keys) ==>
        o == Fail(AssertionError) && fieldmaps == old(fieldmaps)
      ensures old(GetFieldmap(src)).Ok? && fieldmap.Keys <= old(GetFieldmap(src)).value.Keys ==>
        o == Pass && fieldmaps == old(fieldmaps)[src + ".yaml" := old(GetFieldmap(src)).value + fieldmap]
      ensures sources == old(sources) && credentials == old(credentials) && dirs == old(dirs) && files == old(files)
    {
      var saved := GetFieldmap(src);
      if saved.Err? {
        return Fail(saved.error);
      }
      if !(fieldmap.Keys <= saved.value.Keys) {
        return Fail(AssertionError);
      }
      fieldmaps := fieldmaps[src + ".yaml" := saved.value + fieldmap];
      o := Pass;
    }
  }

  /** `{**saved, **new}`: the new values win, the other saved ones stay, and
      no other key appears. */
  lemma MergeSpec(saved: map<string, string>, given: map<string, string>)
    ensures (saved + given).Keys == saved.Keys + given.Keys
    ensures forall k :: k in given ==> (saved + given)[k] == given[k]
    ensures forall k :: k in saved && k !in given ==> (saved + given)[k] == saved[k]
  {
  }

  /** Once a fieldmap has been set, setting the same keys again with the same
      values changes nothing, and a source's fieldmap keeps its key set. */
  lemma SetFieldmapStable(saved: map<string, string>, given: map<string, string>)
    requires given.Keys <= saved.Keys
    ensures (saved + given).Keys == saved.Keys
    ensures (saved + given) + given == saved + given
  {
  }
}
