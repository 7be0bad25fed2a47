/**
 * Confound selection of the degrees-of-freedom script: which regressor columns a denoise
 * strategy keeps from an fMRIPrep confounds table, and which loader `get_confounds` uses.
 * Tables are reduced to their column names and row count, which is all the count needs.
 */
module Confounds {
  import opened Wrappers
  import opened Strings
  import opened Seqs
  import opened Config
  import opened Fmriprep

  /** A confounds table: its column names in order, and its number of rows (volumes). */
  datatype Table = Table(columns: seq<string>, rows: nat)

  /** A sample mask: none, one keep-flag per volume, or the indices of the kept volumes. */
  datatype Mask = NoMask | Flags(keep: seq<bool>) | Indices(kept: seq<int>)

  /** `parameters.get(key)` */
  function Get(p: Params, key: string): Option<Json>
  {
    if key in p then Some(p[key]) else None
  }

  /** A column that starts with one of the six rigid-body motion bases. */
  predicate IsMotionColumn(c: string)
  {
    StartsWith(c, "trans_x") || StartsWith(c, "trans_y") || StartsWith(c, "trans_z") ||
    StartsWith(c, "rot_x") || StartsWith(c, "rot_y") || StartsWith(c, "rot_z")
  }

  predicate IsCompCorColumn(c: string)
  {
    StartsWith(c, "c_comp_cor_0")
  }

  /** `s[:n]` */
  function Take(s: seq<string>, n: nat): (r: seq<string>)
    ensures |r| == if |s| < n then |s| else n
    ensures r == s[..|r|]
  {
    if |s| < n then s else s[..n]
  }

  /** `[f"aroma_comp_{i}" for i in range(n)]` */
  function AromaPlaceholders(n: nat): (r: seq<string>)
    ensures |r| == n && forall i :: 0 <= i < n ==> r[i] == "aroma_comp_" + NatToString(i)
  {
    seq(n, i requires 0 <= i < n => "aroma_comp_" + NatToString(i))
  }

  /**
   * The regressors a denoise strategy names before any explicit override; `aroma` is the
   * subject's AROMA table when its file exists and reads.
   */
  function BaseColumns(p: Params, dfColumns: seq<string>, aroma: Option<Table>): seq<string>
  {
    var strat := Get(p, "denoise_strategy");
    if strat == Some(JStr("simple")) || strat == Some(JStr("scrubbing")) then
      Filter(IsMotionColumn, dfColumns) + WmCsf(p) + Gsr(p, dfColumns)
    else if strat == Some(JStr("compcor")) then
      Take(Filter(IsCompCorColumn, dfColumns), 5)
    else if strat == Some(JStr("ica_aroma")) then
      Gsr(p, dfColumns) + (if aroma.Some? then AromaPlaceholders(|aroma.value.columns|) else [])
    else []
  }

  /** The white-matter and CSF regressors, named whether or not the table has them. */
  function WmCsf(p: Params): seq<string>
  {
    if Get(p, "wm_csf") == Some(JStr("basic")) then ["white_matter", "csf"] else []
  }

  /** The global signal, when asked for and present in the table. */
  function Gsr(p: Params, dfColumns: seq<string>): seq<string>
  {
    if "global_signal" in p && "global_signal" in dfColumns then ["global_signal"] else []
  }

  /** Iterating the value of `"strategy"`: a string gives its characters, a list its items. */
  function OverrideItems(j: Json): (r: Result<seq<Json>>)
    ensures r.Err? <==> !(j.JStr? || j.JList?)
  {
    match j
    case JStr(s) => Ok(seq(|s|, i requires 0 <= i < |s| => JStr([s[i]])))
    case JList(items) => Ok(items)
    case _ => Err(TypeError("object is not iterable"))
  }

  function Prepend(c: seq<string>, r: Result<seq<string>>): Result<seq<string>>
  {
    if r.Ok? then Ok(c + r.value) else r
  }

  /**
   * The override loop: keep each named column present in the table, skip "high_pass" and
   * absent names; a list item cannot be looked up in the columns and raises.
   */
  function OverrideColumns(items: seq<Json>, dfColumns: seq<string>): Result<seq<string>>
    decreases |items|
  {
    if |items| == 0 then Ok([])
    else
      match items[0]
      case JList(_) => Err(TypeError("unhashable type: 'list'"))
      case JStr(s) =>
        if s != "high_pass" && s in dfColumns then Prepend([s], OverrideColumns(items[1..], dfColumns))
        else OverrideColumns(items[1..], dfColumns)
      case _ => OverrideColumns(items[1..], dfColumns)
  }

  /** Whether an override name is kept. */
  function KeptOverride(dfColumns: seq<string>): string -> bool
  {
    (c: string) => c != "high_pass" && c in dfColumns
  }

  /** An override list of names keeps exactly the present names other than "high_pass", in order. */
  lemma {:induction false} OverrideOfNames(names: seq<string>, dfColumns: seq<string>)
    ensures OverrideColumns(seq(|names|, i requires 0 <= i < |names| => JStr(names[i])), dfColumns)
         == Ok(Filter(KeptOverride(dfColumns), names))
    decreases |names|
  {
    var items := seq(|names|, i requires 0 <= i < |names| => JStr(names[i]));
    if |names| > 0 {
      var tail := seq(|names[1..]|, i requires 0 <= i < |names[1..]| => JStr(names[1..][i]));
      assert items[1..] == tail;
      OverrideOfNames(names[1..], dfColumns);
    }
  }

  /** The override fails exactly when some item is a list. */
  lemma {:induction false} OverrideFails(items: seq<Json>, dfColumns: seq<string>)
    ensures OverrideColumns(items, dfColumns).Err? <==> exists k :: 0 <= k < |items| && items[k].JList?
    decreases |items|
  {
    if |items| > 0 {
      OverrideFails(items[1..], dfColumns);
      if exists k :: 0 <= k < |items[1..]| && items[1..][k].JList? {
        var k :| 0 <= k < |items[1..]| && items[1..][k].JList?;
        assert items[k + 1].JList?;
      }
      if exists k :: 0 <= k < |items| && items[k].JList? {
        var k :| 0 <= k < |items| && items[k].JList?;
        if k > 0 {
          assert items[1..][k - 1].JList?;
        }
      }
    }
  }

  /** Every column an override keeps is a column of the table, and never "high_pass". */
  lemma {:induction false} OverrideSound(items: seq<Json>, dfColumns: seq<string>, c: string)
    requires OverrideColumns(items, dfColumns).Ok? && c in OverrideColumns(items, dfColumns).value
    ensures c in dfColumns && c != "high_pass"
    decreases |items|
  {
    if |items| > 0 {
      if items[0].JStr? && items[0].s != "high_pass" && items[0].s in dfColumns && c == items[0].s {
      } else {
        OverrideSound(items[1..], dfColumns, c);
      }
    }
  }

  /**
   * `expand_strategy_columns`: the regressor names and, for the ICA-AROMA strategy, the AROMA
   * table that was read. An explicit `"strategy"` list replaces the names but never the table.
   */
  function StrategyColumns(p: Params, dfColumns: seq<string>, aroma: Option<Table>): Result<(seq<string>, Option<Table>)>
  {
    var aromaOut := if Get(p, "denoise_strategy") == Some(JStr("ica_aroma")) then aroma else None;
    if "strategy" in p then
      match OverrideItems(p["strategy"])
      case Err(e) => Err(e)
      case Ok(items) =>
        match OverrideColumns(items, dfColumns)
        case Err(e) => Err(e)
        case Ok(cols) => Ok((cols, aromaOut))
    else Ok((BaseColumns(p, dfColumns, aroma), aromaOut))
  }

  /** The compcor strategy keeps the first five `c_comp_cor_0*` columns of the table, in table order. */
  lemma CompCorColumns(p: Params, dfColumns: seq<string>, aroma: Option<Table>)
    requires "strategy" !in p && Get(p, "denoise_strategy") == Some(JStr("compcor"))
    ensures var r := StrategyColumns(p, dfColumns, aroma);
      && r.Ok? && r.value.1.None?
      && |r.value.0| == (if Count(IsCompCorColumn, dfColumns) < 5 then Count(IsCompCorColumn, dfColumns) else 5)
      && r.value.0 == Filter(IsCompCorColumn, dfColumns)[..|r.value.0|]
      && IsSubsequence(r.value.0, dfColumns)
      && forall c :: c in r.value.0 ==> IsCompCorColumn(c)
  {
    var all := Filter(IsCompCorColumn, dfColumns);
    var cols := Take(all, 5);
    CountIsFilterLength(IsCompCorColumn, dfColumns);
    FilterIsSubsequence(IsCompCorColumn, dfColumns);
    PrefixIsSubsequence(cols, all);
    SubsequenceTransitive(cols, all, dfColumns);
    forall c | c in cols ensures IsCompCorColumn(c) {
      assert c in all;
      FilterMembership(IsCompCorColumn, dfColumns, c);
    }
  }

  /**
   * The simple and scrubbing strategies keep every motion column of the table in table order,
   * then white matter and CSF when `wm_csf` is "basic" (present in the table or not), then the
   * global signal when it is asked for and present.
   */
  lemma MotionColumns(p: Params, dfColumns: seq<string>, aroma: Option<Table>)
    requires "strategy" !in p
    requires Get(p, "denoise_strategy") == Some(JStr("simple")) || Get(p, "denoise_strategy") == Some(JStr("scrubbing"))
    ensures var r := StrategyColumns(p, dfColumns, aroma);
      && r == Ok((Filter(IsMotionColumn, dfColumns) + WmCsf(p) + Gsr(p, dfColumns), None))
      && (forall c :: c in dfColumns && IsMotionColumn(c) ==> c in r.value.0)
      && (forall c :: c in r.value.0 ==> c in dfColumns || c == "white_matter" || c == "csf")
      && ("csf" in r.value.0 <==> Get(p, "wm_csf") == Some(JStr("basic")))
      && ("global_signal" in r.value.0 <==> "global_signal" in p && "global_signal" in dfColumns)
  {
    var motion := Filter(IsMotionColumn, dfColumns);
    var cols := StrategyColumns(p, dfColumns, aroma).value.0;
    assert cols == motion + WmCsf(p) + Gsr(p, dfColumns);
    forall c | c in dfColumns && IsMotionColumn(c) ensures c in cols {
      FilterMembership(IsMotionColumn, dfColumns, c);
    }
    forall c | c in cols ensures c in dfColumns || c == "white_matter" || c == "csf" {
      FilterMembership(IsMotionColumn, dfColumns, c);
    }
    NotMotion("csf");
    NotMotion("global_signal");
    FilterMembership(IsMotionColumn, dfColumns, "csf");
    FilterMembership(IsMotionColumn, dfColumns, "global_signal");
  }

  /** Neither "csf" nor "global_signal" starts with a motion base. */
  lemma NotMotion(c: string)
    requires c == "csf" || c == "global_signal"
    ensures !IsMotionColumn(c)
  {
    if c == "global_signal" {
      assert c[0] == 'g';
    }
  }

  /**
   * The ICA-AROMA strategy names the global signal when asked for and present, then one
   * placeholder per column of the subject's AROMA table, and hands that table on.
   */
  lemma AromaColumns(p: Params, dfColumns: seq<string>, aroma: Option<Table>)
    requires "strategy" !in p && Get(p, "denoise_strategy") == Some(JStr("ica_aroma"))
    ensures var r := StrategyColumns(p, dfColumns, aroma);
      var g := if "global_signal" in p && "global_signal" in dfColumns then 1 else 0;
      && r.Ok? && r.value.1 == aroma
      && |r.value.0| == g + (if aroma.Some? then |aroma.value.columns| else 0)
      && (g == 1 ==> r.value.0[0] == "global_signal")
      && (forall i :: g <= i < |r.value.0| ==> r.value.0[i] == "aroma_comp_" + NatToString(i - g))
      && ("global_signal" in r.value.0 <==> g == 1)
  {
    var cols := StrategyColumns(p, dfColumns, aroma).value.0;
    var g := |Gsr(p, dfColumns)|;
    var n := if aroma.Some? then |aroma.value.columns| else 0;
    var tail := AromaPlaceholders(n);
    assert cols == Gsr(p, dfColumns) + tail;
    forall i | g <= i < |cols| ensures cols[i] == "aroma_comp_" + NatToString(i - g) {
      assert cols[i] == tail[i - g];
    }
    PlaceholdersNotGsr(n);
  }

  /** No placeholder name is "global_signal". */
  lemma PlaceholdersNotGsr(n: nat)
    ensures "global_signal" !in AromaPlaceholders(n)
  {
    var t := AromaPlaceholders(n);
    forall i | 0 <= i < n ensures t[i] != "global_signal" {
      assert t[i][0] == 'a';
    }
  }

  /** The baseline strategy, and any strategy the script does not know, names no regressor. */
  lemma NoBaseColumns(p: Params, dfColumns: seq<string>, aroma: Option<Table>)
    requires "strategy" !in p
    requires Get(p, "denoise_strategy") !in
      {Some(JStr("simple")), Some(JStr("scrubbing")), Some(JStr("compcor")), Some(JStr("ica_aroma"))}
    ensures StrategyColumns(p, dfColumns, aroma) == Ok(([], None))
  {
  }

  /**
   * An explicit `"strategy"` replaces the names: it fails exactly when its value cannot be
   * iterated or holds a list; otherwise it keeps only present columns other than "high_pass",
   * and the ICA-AROMA strategy still hands on its AROMA table.
   */
  lemma OverrideStrategy(p: Params, dfColumns: seq<string>, aroma: Option<Table>)
    requires "strategy" in p
    ensures var r := StrategyColumns(p, dfColumns, aroma);
      var j := p["strategy"];
      && (r.Err? <==> !(j.JStr? || j.JList?) || (j.JList? && exists k :: 0 <= k < |j.items| && j.items[k].JList?))
      && (r.Ok? ==> r.value.1 == (if Get(p, "denoise_strategy") == Some(JStr("ica_aroma")) then aroma else None))
      && (r.Ok? ==> forall c :: c in r.value.0 ==> c in dfColumns && c != "high_pass")
  {
    var j := p["strategy"];
    var items := OverrideItems(j);
    if items.Ok? {
      OverrideFails(items.value, dfColumns);
      if j.JStr? {
        assert forall k :: 0 <= k < |items.value| ==> items.value[k].JStr?;
      }
      var r := OverrideColumns(items.value, dfColumns);
      if r.Ok? {
        forall c | c in r.value ensures c in dfColumns && c != "high_pass" {
          OverrideSound(items.value, dfColumns, c);
        }
      }
    }
  }

  /** `expand_strategy_columns`, with the override loop. */
  method ExpandStrategyColumns(p: Params, df: Table, aroma: Option<Table>) returns (r: Result<(seq<string>, Option<Table>)>)
    ensures r == StrategyColumns(p, df.columns, aroma)
  {
    var aromaOut := if Get(p, "denoise_strategy") == Some(JStr("ica_aroma")) then aroma else None;
    if "strategy" !in p {
      return Ok((BaseColumns(p, df.columns, aroma), aromaOut));
    }
    var iterated := OverrideItems(p["strategy"]);
    if iterated.Err? {
      return Err(iterated.error);
    }
    var items := iterated.value;
    var cols := [];
    var i := 0;
    assert items[0..] == items;
    assert forall v: seq<string> :: [] + v == v;
    while i < |items|
      invariant 0 <= i <= |items|
      invariant OverrideColumns(items, df.columns) == Prepend(cols, OverrideColumns(items[i..], df.columns))
    {
      assert items[i..][1..] == items[i + 1..];
      match items[i] {
        case JList(_) =>
          return Err(TypeError("unhashable type: 'list'"));
        case JStr(s) =>
          if s != "high_pass" && s in df.columns {
            assert OverrideColumns(items[i..], df.columns) == Prepend([s], OverrideColumns(items[i + 1..], df.columns));
            assert forall v: seq<string> :: cols + ([s] + v) == (cols + [s]) + v;
            cols := cols + [s];
          }
        case _ =>
      }
      i := i + 1;
    }
    assert cols + [] == cols;
    r := Ok((cols, aromaOut));
  }

  // ------------------------------------------------------------------
  // File names

  /**
   * The subject and run specifier of a confounds file name: the first `_` field, and the
   * fields between it and `desc-confounds`; a name without that field raises.
   */
  function ParseConfoundsName(name: string): (r: Result<(string, string)>)
    ensures r.Err? <==> "desc-confounds" !in Split(name, '_')
    ensures r.Ok? ==> r.value.0 == FirstField(name, '_')
  {
    var parts := Split(name, '_');
    if "desc-confounds" !in parts then Err(ValueError("'desc-confounds' is not in list"))
    else
      var k := IndexOf(parts, "desc-confounds");
      Ok((parts[0], if k == 0 then "" else Join(parts[1..k], '_')))
  }

  /** Splitting `subject_specifier_d_t` with separator-free `subject`, `d` and `t`. */
  lemma SplitFields(subject: string, specifier: string, d: string, t: string)
    requires '_' !in subject && '_' !in d && '_' !in t
    ensures Split(subject + "_" + specifier + "_" + d + "_" + t, '_') == [subject] + Split(specifier, '_') + [d, t]
  {
    assert subject + "_" + specifier + "_" + d + "_" + t == subject + ['_'] + (specifier + ['_'] + (d + ['_'] + t));
    SplitAround(subject, '_', specifier + ['_'] + (d + ['_'] + t));
    SplitAround(specifier, '_', d + ['_'] + t);
    SplitAround(d, '_', t);
    SplitNoSeparator(subject, '_');
    SplitNoSeparator(d, '_');
    SplitNoSeparator(t, '_');
  }

  /** The `_` fields of a confounds file name: the subject, the specifier's fields, then the fixed suffix. */
  lemma SplitConfoundsFileName(subject: string, specifier: string)
    requires '_' !in subject
    ensures Split(ConfoundsFileName(subject, specifier), '_')
         == [subject] + Split(specifier, '_') + ["desc-confounds", "timeseries.tsv"]
  {
    var d, t := "desc-confounds", "timeseries.tsv";
    assert '_' !in d && '_' !in t;
    assert ConfoundsFileName(subject, specifier) == subject + "_" + specifier + "_" + d + "_" + t;
    SplitFields(subject, specifier, d, t);
  }

  lemma IndexOfAfter(pre: seq<string>, x: string, post: seq<string>)
    requires x !in pre
    ensures IndexOf(pre + [x] + post, x) == |pre|
  {
    var s := pre + [x] + post;
    assert s[|pre|] == x;
    assert forall j :: 0 <= j < |pre| ==> s[j] == pre[j];
  }

  /** Parsing the file name the fetch step builds gives back its subject and specifier. */
  lemma ParseConfoundsFileName(subject: string, specifier: string)
    requires '_' !in subject && subject != "desc-confounds"
    requires "desc-confounds" !in Split(specifier, '_')
    ensures ParseConfoundsName(ConfoundsFileName(subject, specifier)) == Ok((subject, specifier))
  {
    var middle := Split(specifier, '_');
    var parts := [subject] + middle + ["desc-confounds", "timeseries.tsv"];
    SplitConfoundsFileName(subject, specifier);
    assert parts == ([subject] + middle) + ["desc-confounds"] + ["timeseries.tsv"];
    IndexOfAfter([subject] + middle, "desc-confounds", ["timeseries.tsv"]);
    assert parts[1..1 + |middle|] == middle;
    JoinSplit(specifier, '_');
  }

  // ------------------------------------------------------------------
  // Loading

  /** The world outside the model: file contents, directory listings and the nilearn loaders. */
  datatype LoaderCall =
    | LoadConfounds(img: string, strategy: seq<string>, params: Params)
    | LoadConfoundsStrategy(img: string, denoiseStrategy: Json, params: Params)

  datatype Env = Env(
    readTsv: string -> Option<Table>,            // a confounds file, None when it does not parse
    aromaFor: (string, string) -> Option<Table>,  // the AROMA file of a subject and run, when it exists and reads
    listDir: string -> seq<string>,              // the names in the directory that holds a file
    nilearn: LoaderCall -> Result<(Table, Mask)>)

  /** A mask that keeps all `n` volumes. */
  function AllTrue(n: nat): (r: seq<bool>)
    ensures |r| == n && forall i :: 0 <= i < n ==> r[i]
  {
    seq(n, i requires 0 <= i < n => true)
  }

  /** `col in df.columns` */
  function InColumns(columns: seq<string>): string -> bool
  {
    (c: string) => c in columns
  }

  /** The columns the TSV loader keeps: the named regressors present in the table, then the AROMA table if its row count matches. */
  function ReducedFrame(df: Table, cols: seq<string>, aroma: Option<Table>): Table
  {
    Table(
      Filter(InColumns(df.columns), cols)
        + (if aroma.Some? && aroma.value.rows == df.rows then aroma.value.columns else []),
      df.rows)
  }

  /** `_load_confounds_from_tsv` */
  function TsvConfounds(img: string, p: Params, env: Env): Result<(Table, Mask)>
  {
    match env.readTsv(img)
    case None => Err(ValueError("cannot parse " + img))
    case Some(df) =>
      match ParseConfoundsName(BaseName(img))
      case Err(e) => Err(e)
      case Ok(ids) =>
        match StrategyColumns(p, df.columns, env.aromaFor(ids.0, ids.1))
        case Err(e) => Err(e)
        case Ok(sel) => Ok((ReducedFrame(df, sel.0, sel.1), Flags(AllTrue(df.rows))))
  }

  /** `_load_confounds_from_tsv` */
  method LoadConfoundsFromTsv(img: string, p: Params, env: Env) returns (r: Result<(Table, Mask)>)
    ensures r == TsvConfounds(img, p, env)
  {
    var read := env.readTsv(img);
    if read.None? {
      return Err(ValueError("cannot parse " + img));
    }
    var df := read.value;
    var ids := ParseConfoundsName(BaseName(img));
    if ids.Err? {
      return Err(ids.error);
    }
    var sel := ExpandStrategyColumns(p, df, env.aromaFor(ids.value.0, ids.value.1));
    if sel.Err? {
      return Err(sel.error);
    }
    r := Ok((ReducedFrame(df, sel.value.0, sel.value.1), Flags(AllTrue(df.rows))));
  }

  /**
   * What the TSV loader returns: as many rows as the file and a mask keeping every volume; its
   * columns are the selected names the file has, in selection order, followed by the AROMA
   * table's own columns when the ICA-AROMA strategy read one with the file's row count. With
   * nothing selected and no AROMA table the frame has no columns.
   */
  lemma TsvConfoundsShape(img: string, p: Params, env: Env)
    requires TsvConfounds(img, p, env).Ok?
    ensures var df := env.readTsv(img).value;
      var ids := ParseConfoundsName(BaseName(img)).value;
      var aroma := env.aromaFor(ids.0, ids.1);
      var sel := StrategyColumns(p, df.columns, aroma).value;
      var out := TsvConfounds(img, p, env).value;
      && out.0.rows == df.rows
      && out.1 == Flags(AllTrue(df.rows))
      && out.0.columns == Filter(InColumns(df.columns), sel.0)
        + (if sel.1.Some? && sel.1.value.rows == df.rows then sel.1.value.columns else [])
      && (sel.1.Some? ==> sel.1 == aroma && Get(p, "denoise_strategy") == Some(JStr("ica_aroma")))
      && (sel.0 == [] && sel.1.None? ==> out.0.columns == [])
      && (forall c :: c in sel.0 && c in df.columns ==> c in out.0.columns)
      && forall c :: c in out.0.columns ==>
        c in df.columns || (aroma.Some? && c in aroma.value.columns)
  {
    var df := env.readTsv(img).value;
    var ids := ParseConfoundsName(BaseName(img)).value;
    var sel := StrategyColumns(p, df.columns, env.aromaFor(ids.0, ids.1)).value;
    forall c | c in ReducedFrame(df, sel.0, sel.1).columns
      ensures c in df.columns || (env.aromaFor(ids.0, ids.1).Some? && c in env.aromaFor(ids.0, ids.1).value.columns)
    {
      FilterMembership(InColumns(df.columns), sel.0, c);
    }
    forall c | c in sel.0 && c in df.columns ensures c in ReducedFrame(df, sel.0, sel.1).columns {
      FilterMembership(InColumns(df.columns), sel.0, c);
    }
  }

  // ------------------------------------------------------------------
  // Loader dispatch

  /** `{prefix}_space-*_desc-preproc_bold.nii.gz`, with `_res-*` after the space when `withRes`. */
  predicate MatchesBold(name: string, prefix: string, withRes: bool)
  {
    var head := prefix + "_space-";
    var tail := "_desc-preproc_bold.nii.gz";
    && |head| + |tail| <= |name|
    && StartsWith(name, head) && EndsWith(name, tail)
    && (withRes ==> Contains(name[|head|..|name| - |tail|], "_res-"))
  }

  /** `sorted(names)[0]` */
  function LexMin(names: seq<string>): (m: string)
    requires |names| > 0
    ensures m in names && forall x :: x in names ==> LexLe(m, x)
    decreases |names|
  {
    if |names| == 1 then LexLeReflexive(names[0]); names[0]
    else
      var rest := LexMin(names[1..]);
      LexMinStep(names, rest);
      if LexLe(names[0], rest) then names[0] else rest
  }

  lemma LexMinStep(names: seq<string>, rest: string)
    requires |names| > 1 && rest in names[1..] && forall x :: x in names[1..] ==> LexLe(rest, x)
    ensures LexLe(names[0], rest) ==> forall x :: x in names ==> LexLe(names[0], x)
    ensures !LexLe(names[0], rest) ==> forall x :: x in names ==> LexLe(rest, x)
  {
    LexLeReflexive(names[0]);
    LexLeTotal(names[0], rest);
    assert names == [names[0]] + names[1..];
    forall x | x in names[1..] ensures LexLe(names[0], rest) ==> LexLe(names[0], x) {
      if LexLe(names[0], rest) {
        LexLeTransitive(names[0], rest, x);
      }
    }
  }

  /** `Path(p).parent` */
  function DirName(p: string): string
  {
    var parts := Split(p, '/');
    if |parts| == 1 then "." else Join(parts[..|parts| - 1], '/')
  }

  /** The BOLD images next to a confounds file, with a resolution entity if any has one. */
  function BoldCandidates(listing: seq<string>, prefix: string): seq<string>
  {
    var withRes := Filter((n: string) => MatchesBold(n, prefix, true), listing);
    if |withRes| > 0 then withRes else Filter((n: string) => MatchesBold(n, prefix, false), listing)
  }

  const ScrubKeys: set<string> := {"motion", "global_signal", "scrub", "fd_threshold", "std_dvars_threshold"}
  const AromaKeys: set<string> := {"global_signal", "motion", "wm_csf", "compcor", "high_pass", "scrub"}

  /** The nilearn strategy of a scrubbing run: motion if asked for, global signal if asked for, and always scrub. */
  function ScrubStrategy(p: Params): (s: seq<string>)
    ensures |s| >= 1 && s[|s| - 1] == "scrub"
    ensures "motion" in s <==> "motion" in p || Get(p, "denoise_strategy") == Some(JStr("scrubbing"))
    ensures "global_signal" in s <==> "global_signal" in p
  {
    (if "motion" in p || Get(p, "denoise_strategy") == Some(JStr("scrubbing")) then ["motion"] else [])
      + (if "global_signal" in p then ["global_signal"] else [])
      + ["scrub"]
  }

  /** Where a strategy's confounds come from: the TSV loader's result, or a call into nilearn. */
  datatype Source = FromTsv(table: Table, mask: Mask) | FromNilearn(call: LoaderCall)

  function OfTsv(r: Result<(Table, Mask)>): Result<Source>
  {
    if r.Ok? then Ok(FromTsv(r.value.0, r.value.1)) else Err(r.error)
  }

  /** `get_confounds`: the dispatch between a scrubbing BOLD image, the TSV loader, AROMA and the named strategy. */
  function ConfoundsOf(strategyName: string, p: Params, img: string, env: Env): Result<Source>
  {
    var isTsv := EndsWith(Lower(img), ".tsv");
    if isTsv && Contains(Lower(strategyName), "scrub") then
      match ParseConfoundsName(BaseName(img))
      case Err(e) => Err(e)
      case Ok(ids) =>
        var candidates := BoldCandidates(env.listDir(img), ids.0 + "_" + ids.1);
        if |candidates| > 0 then
          Ok(FromNilearn(LoadConfounds(PathJoin(DirName(img), LexMin(candidates)), ScrubStrategy(p), Restrict(p, ScrubKeys))))
        else OfTsv(TsvConfounds(img, p, env))
    else if isTsv then OfTsv(TsvConfounds(img, p, env))
    else if Contains(Lower(strategyName), "aroma") then
      Ok(FromNilearn(LoadConfounds(img, ["motion", "ica_aroma", "global_signal"], Restrict(p, AromaKeys))))
    else if "denoise_strategy" in p then
      Err(TypeError("got multiple values for keyword argument 'denoise_strategy'"))
    else Ok(FromNilearn(LoadConfoundsStrategy(img, JStr("simple"), p)))
  }

  /** `get_confounds` */
  method GetConfounds(strategyName: string, p: Params, img: string, env: Env) returns (r: Result<Source>)
    ensures r == ConfoundsOf(strategyName, p, img, env)
  {
    var isTsv := EndsWith(Lower(img), ".tsv");
    if isTsv && Contains(Lower(strategyName), "scrub") {
      var ids := ParseConfoundsName(BaseName(img));
      if ids.Err? {
        return Err(ids.error);
      }
      var candidates := BoldCandidates(env.listDir(img), ids.value.0 + "_" + ids.value.1);
      if |candidates| > 0 {
        var boldFile := PathJoin(DirName(img), LexMin(candidates));
        return Ok(FromNilearn(LoadConfounds(boldFile, ScrubStrategy(p), Restrict(p, ScrubKeys))));
      }
    }
    if isTsv {
      var loaded := LoadConfoundsFromTsv(img, p, env);
      return OfTsv(loaded);
    }
    if Contains(Lower(strategyName), "aroma") {
      return Ok(FromNilearn(LoadConfounds(img, ["motion", "ica_aroma", "global_signal"], Restrict(p, AromaKeys))));
    }
    if "denoise_strategy" in p {
      return Err(TypeError("got multiple values for keyword argument 'denoise_strategy'"));
    }
    r := Ok(FromNilearn(LoadConfoundsStrategy(img, JStr("simple"), p)));
  }

  /**
   * A confounds file goes through the TSV loader unless the strategy scrubs and a matching
   * BOLD image sits next to it; in that case nilearn loads that image with the scrub strategy.
   */
  lemma TsvDispatch(strategyName: string, p: Params, img: string, env: Env)
    requires EndsWith(Lower(img), ".tsv")
    requires ParseConfoundsName(BaseName(img)).Ok?
    requires forall n :: n in env.listDir(img) ==> '/' !in n
    ensures var ids := ParseConfoundsName(BaseName(img)).value;
      var candidates := BoldCandidates(env.listDir(img), ids.0 + "_" + ids.1);
      var r := ConfoundsOf(strategyName, p, img, env);
      && (!Contains(Lower(strategyName), "scrub") || |candidates| == 0 ==> r == OfTsv(TsvConfounds(img, p, env)))
      && (Contains(Lower(strategyName), "scrub") && |candidates| > 0 ==>
          r.Ok? && r.value.FromNilearn? && r.value.call.LoadConfounds?
          && r.value.call.img == PathJoin(DirName(img), LexMin(candidates))
          && r.value.call.strategy == ScrubStrategy(p)
          && r.value.call.params == Restrict(p, ScrubKeys)
          && r.value.call.strategy[|r.value.call.strategy| - 1] == "scrub"
          && r.value.call.params.Keys <= ScrubKeys
          && var bold := BaseName(r.value.call.img);
             bold in candidates && forall n :: n in candidates ==> LexLe(bold, n))
  {
    var ids := ParseConfoundsName(BaseName(img)).value;
    var candidates := BoldCandidates(env.listDir(img), ids.0 + "_" + ids.1);
    if Contains(Lower(strategyName), "scrub") && |candidates| > 0 {
      var listing := env.listDir(img);
      var prefix := ids.0 + "_" + ids.1;
      var m := LexMin(candidates);
      FilterMembership((n: string) => MatchesBold(n, prefix, true), listing, m);
      FilterMembership((n: string) => MatchesBold(n, prefix, false), listing, m);
      BaseNameOfJoin(DirName(img), m);
    }
  }
}
