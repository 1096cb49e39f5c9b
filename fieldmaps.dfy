/** Fieldmaps (thales/config/fieldmaps.py): per source, a map from each
    standard field name to the name the source uses for it. The fieldmap
    directory is a map from file name to stored fieldmap. */
module Fieldmaps {
  import opened Common
  import opened Config

  type Fieldmap = map<string, string>

  /** The file name `f"{src}.yaml"` formats; None prints as "None". */
  function FormattedName(src: Option<string>): string {
    (if src.Some? then src.value else "None") + ".yaml"
  }

  /** The file `get_fieldmap` opens as written: the literal "{src}.yaml",
      which is not an f-string, whatever the source. */
  const SharedFile: string := "{src}.yaml"

  /** `get_fieldmap(src)` as written. */
  function GetFieldmapAsWritten(srcs: seq<string>, files: map<string, Fieldmap>, src: Option<string>): Result<Fieldmap> {
    var _ :- ValidateSource(srcs, src, None);
    if SharedFile in files then Ok(files[SharedFile]) else Err(FileNotFoundError)
  }

  /** `set_fieldmap(src, **fieldmap)` as written: it merges into what
      `get_fieldmap` read and writes to the source's own file. */
  function SetFieldmapAsWritten(srcs: seq<string>, files: map<string, Fieldmap>, src: Option<string>, fieldmap: Fieldmap)
    : Result<map<string, Fieldmap>>
  {
    var saved :- GetFieldmapAsWritten(srcs, files, src);
    if !(fieldmap.Keys <= DefaultFieldmap.Keys) then Err(AssertionError)
    else Ok(files[FormattedName(src) := saved + fieldmap])
  }

  /** As written, every valid source reads the same file. */
  lemma AsWrittenShared(srcs: seq<string>, files: map<string, Fieldmap>, a: Option<string>, b: Option<string>)
    requires ValidateSource(srcs, a, None).Ok? && ValidateSource(srcs, b, None).Ok?
    ensures GetFieldmapAsWritten(srcs, files, a) == GetFieldmapAsWritten(srcs, files, b)
  {
  }

  /** As written, a fieldmap that was set is not what is read back: setting
      "close" for alphavantage leaves `get_fieldmap` returning the shared file. */
  lemma AsWrittenLosesUpdate()
    ensures var srcs := ["alphavantage"];
      var files := map[SharedFile := DefaultFieldmap, "alphavantage.yaml" := DefaultFieldmap];
      var src := Some("alphavantage");
      var update := map["close" := "4. close"];
      SetFieldmapAsWritten(srcs, files, src, update).Ok? &&
      GetFieldmapAsWritten(srcs, SetFieldmapAsWritten(srcs, files, src, update).value, src)
        != Ok(DefaultFieldmap + update)
  {
    var update := map["close" := "4. close"];
    assert (DefaultFieldmap + update)["close"] == "4. close";
    assert DefaultFieldmap["close"] == "CLOSE";
  }

  /** `get_fieldmap(src)`, reading the validated source's own file. */
  function GetFieldmap(srcs: seq<string>, files: map<string, Fieldmap>, src: Option<string>): (r: Result<Fieldmap>)
    ensures r.Ok? <==> ValidateSource(srcs, src, None).Ok? && ValidateSource(srcs, src, None).value + ".yaml" in files
    ensures r.Ok? ==> r.value == files[ValidateSource(srcs, src, None).value + ".yaml"]
  {
    var name :- ValidateSource(srcs, src, None);
    if name + ".yaml" in files then Ok(files[name + ".yaml"]) else Err(FileNotFoundError)
  }

  /** `set_fieldmap(src, **fieldmap)`, writing the file it read from. Every
      key must be a standard field name. */
  function SetFieldmap(srcs: seq<string>, files: map<string, Fieldmap>, src: Option<string>, fieldmap: Fieldmap)
    : (r: Result<map<string, Fieldmap>>)
    ensures r.Ok? <==> GetFieldmap(srcs, files, src).Ok? && fieldmap.Keys <= DefaultFieldmap.Keys
    ensures r.Err? && GetFieldmap(srcs, files, src).Ok? ==> r.error == AssertionError
  {
    var saved :- GetFieldmap(srcs, files, src);
    if !(fieldmap.Keys <= DefaultFieldmap.Keys) then Err(AssertionError)
    else Ok(files[ValidateSource(srcs, src, None).value + ".yaml" := saved + fieldmap])
  }

  /** Reading after a successful set returns the old fieldmap with the new
      values winning, and no other source's file changes. */
  lemma SetThenGet(srcs: seq<string>, files: map<string, Fieldmap>, src: Option<string>, fieldmap: Fieldmap, other: Option<string>)
    requires SetFieldmap(srcs, files, src, fieldmap).Ok?
    ensures GetFieldmap(srcs, SetFieldmap(srcs, files, src, fieldmap).value, src)
         == Ok(GetFieldmap(srcs, files, src).value + fieldmap)
    ensures ValidateSource(srcs, other, None) != ValidateSource(srcs, src, None) ==>
      GetFieldmap(srcs, SetFieldmap(srcs, files, src, fieldmap).value, other) == GetFieldmap(srcs, files, other)
  {
    var name := ValidateSource(srcs, src, None).value;
    var other' := ValidateSource(srcs, other, None);
    if other'.Ok? && other' != ValidateSource(srcs, src, None) {
      StringSuffixInjective(other'.value, name, ".yaml");
    }
  }

  lemma StringSuffixInjective(a: string, b: string, suffix: string)
    ensures a + suffix == b + suffix ==> a == b
  {
    if a + suffix == b + suffix {
      assert |a| == |b|;
      assert a == (a + suffix)[..|a|];
      assert b == (b + suffix)[..|b|];
    }
  }

  // ---------------------------------------------------------------------------
  // apply_fieldmap

  /** `{v: k for k, v in fieldmap.items() if v in df.columns}`, the items in
      the dict's iteration order; a later item wins for a repeated value. */
  function RenameMap(items: seq<(string, string)>, columns: seq<string>): (r: map<string, string>)
    ensures forall v :: v in r ==> v in columns
    ensures forall j :: 0 <= j < |items| && items[j].1 in columns ==> items[j].1 in r
    ensures forall v :: v in r ==> exists j :: (0 <= j < |items| && items[j] == (r[v], v) &&
      forall j' :: j < j' < |items| ==> items[j'].1 != v)
  {
    RenameUpTo(items, |items|, columns)
  }

  /** The rename map built from the first `n` items. */
  function RenameUpTo(items: seq<(string, string)>, n: nat, columns: seq<string>): (r: map<string, string>)
    requires n <= |items|
    ensures forall v :: v in r ==> v in columns
    ensures forall j :: 0 <= j < n && items[j].1 in columns ==> items[j].1 in r
    ensures forall v :: v in r ==> exists j :: (0 <= j < n && items[j] == (r[v], v) &&
      forall j' :: j < j' < n ==> items[j'].1 != v)
  {
    if n == 0 then map[]
    else
      var m := RenameUpTo(items, n - 1, columns);
      if items[n - 1].1 in columns then m[items[n - 1].1 := items[n - 1].0] else m
  }

  /** `df.rename(columns=rename)` on the column names. */
  function RenameColumns(columns: seq<string>, rename: map<string, string>): (r: seq<string>)
    ensures |r| == |columns|
    ensures forall i :: 0 <= i < |columns| ==>
      r[i] == if columns[i] in rename then rename[columns[i]] else columns[i]
  {
    if columns == [] then []
    else [if columns[0] in rename then rename[columns[0]] else columns[0]] + RenameColumns(columns[1..], rename)
  }

  /** `apply_fieldmap(df, src, error_missing)` on the column names, given the
      loaded fieldmap's items. */
  function ApplyFieldmap(columns: seq<string>, items: seq<(string, string)>, errorMissing: bool): Result<seq<string>> {
    var rename := RenameMap(items, columns);
    var missing := set v | v in rename && v !in columns;
    if errorMissing && missing != {} then Err(MissingRequiredColumns)
    else Ok(RenameColumns(columns, rename))
  }

  /** The missing-column check never fires, because every renamed column was
      taken from the frame's own columns. A column that is some item's
      source name becomes the standard name of the last such item; every
      other column keeps its name. */
  lemma ApplyFieldmapSpec(columns: seq<string>, items: seq<(string, string)>, errorMissing: bool, i: int)
    requires 0 <= i < |columns|
    ensures ApplyFieldmap(columns, items, errorMissing).Ok?
    ensures (forall j :: 0 <= j < |items| ==> items[j].1 != columns[i]) ==>
      ApplyFieldmap(columns, items, errorMissing).value[i] == columns[i]
    ensures (exists j :: 0 <= j < |items| && items[j].1 == columns[i]) ==>
      exists j :: (0 <= j < |items| && items[j] == (ApplyFieldmap(columns, items, errorMissing).value[i], columns[i]) &&
        forall j' :: j < j' < |items| ==> items[j'].1 != columns[i])
  {
    var rename := RenameMap(items, columns);
    assert (set v | v in rename && v !in columns) == {};
  }
}
