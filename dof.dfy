/**
 * The degrees-of-freedom script: its confounds-only fetch, its tolerant movement summary,
 * and the per-subject, per-strategy accounting of the regressors and excised volumes that
 * each denoise strategy costs.
 */
module Dof {
  import opened Wrappers
  import opened Strings
  import opened Seqs
  import opened Config
  import opened Fmriprep
  import opened Confounds

  // ------------------------------------------------------------------
  // Confounds-only fetch

  /** The script's own fetch result: no image list, only confounds files. */
  datatype ConfoundsDerivative = ConfoundsDerivative(
    datasetName: string,
    confounds: seq<string>,
    subjects: seq<string>,
    phenotypic: seq<Row>)
  {
    /** The confounds paths and participant rows belong, index by index, to the subjects. */
    predicate Aligned(participants: ParticipantsTable, root: string, specifier: string)
    {
      && |confounds| == |subjects| && |phenotypic| == |subjects|
      && forall k :: 0 <= k < |subjects| ==>
        && confounds[k] == ConfoundsPath(root, subjects[k], specifier)
        && subjects[k] in participants.rows
        && phenotypic[k] == participants.rows[subjects[k]]
    }
  }

  /** The test of the script's subject loop: the confounds file exists. */
  function HasConfounds(fs: FileSystem, root: string, specifier: string): string -> bool
  {
    (d: string) => ConfoundsPath(root, d, specifier) in fs.files
  }

  /** The subject loop: keeps a subject iff its confounds file exists, aligned with the path list. */
  method CollectConfoundsFiles(fs: FileSystem, root: string, dirs: seq<string>, specifier: string)
    returns (confounds: seq<string>, kept: seq<string>)
    ensures kept == Filter(HasConfounds(fs, root, specifier), dirs)
    ensures |confounds| == |kept|
    ensures forall k :: 0 <= k < |kept| ==> confounds[k] == ConfoundsPath(root, kept[k], specifier)
  {
    confounds, kept := [], [];
    var i := 0;
    while i < |dirs|
      invariant 0 <= i <= |dirs|
      invariant kept == Filter(HasConfounds(fs, root, specifier), dirs[..i])
      invariant |confounds| == |kept|
      invariant forall k :: 0 <= k < |kept| ==> confounds[k] == ConfoundsPath(root, kept[k], specifier)
    {
      var subject := dirs[i];
      var curConfound := ConfoundsPath(root, subject, specifier);
      assert dirs[..i + 1] == dirs[..i] + [subject];
      FilterConcat(HasConfounds(fs, root, specifier), dirs[..i], [subject]);
      if curConfound in fs.files {
        confounds := confounds + [curConfound];
        kept := kept + [subject];
      }
      i := i + 1;
    }
    assert dirs[..|dirs|] == dirs;
  }

  /**
   * The script's `fetch_fmriprep_derivative`: the same participant-file checks and subject
   * selection as the dataset module, keeping every subject whose confounds file exists.
   */
  method FetchConfoundsDerivative(
    datasetName: string, participantsPath: string, participants: ParticipantsTable,
    fs: FileSystem, root: string, specifier: string, sel: SubjectSelector)
    returns (r: Result<ConfoundsDerivative>)
    ensures !ParticipantsFileOk(fs, participantsPath) ==> r == Err(FileNotFound(participantsPath))
    ensures ParticipantsFileOk(fs, participantsPath) && SubjectDirs(fs, root, sel).Err? ==>
      r.Err? && r.error.ValueError?
    ensures ParticipantsFileOk(fs, participantsPath) && SubjectDirs(fs, root, sel).Ok? ==>
      var kept := Filter(HasConfounds(fs, root, specifier), SubjectDirs(fs, root, sel).value);
      && (r.Ok? <==> forall k :: 0 <= k < |kept| ==> kept[k] in participants.rows)
      && (r.Err? ==> r.error.KeyError?)
      && (r.Ok? ==>
        && r.value.datasetName == datasetName
        && r.value.subjects == kept
        && |r.value.confounds| == |kept| && |r.value.phenotypic| == |kept|
        && forall k :: 0 <= k < |kept| ==>
          && r.value.confounds[k] == ConfoundsPath(root, kept[k], specifier)
          && r.value.phenotypic[k] == participants.rows[kept[k]])
    ensures r.Ok? ==> r.value.Aligned(participants, root, specifier)
  {
    if participantsPath !in fs.files || BaseName(participantsPath) != "participants.tsv" {
      return Err(FileNotFound(participantsPath));
    }
    var selected := SelectSubjectDirs(fs, root, sel);
    if selected.Err? {
      return Err(selected.error);
    }
    var confounds, kept := CollectConfoundsFiles(fs, root, selected.value, specifier);
    var rows := LocRows(participants, kept);
    if rows.Err? {
      return Err(rows.error);
    }
    r := Ok(ConfoundsDerivative(datasetName, confounds, kept, rows.value));
  }

  /** The subject label read back from a fetched confounds path is the subject directory's name. */
  lemma SubjectOfConfoundsPath(root: string, subject: string, specifier: string)
    requires '_' !in subject && '/' !in subject && '/' !in specifier
    ensures SubjectOfPath(ConfoundsPath(root, subject, specifier)) == subject
  {
    var name := ConfoundsFileName(subject, specifier);
    assert '/' !in name by {
      assert name == subject + "_" + specifier + "_desc-confounds_timeseries.tsv";
      assert forall c :: c in name ==> c in subject || c in specifier || c in "_desc-confounds_timeseries.tsv";
    }
    BaseNameOfJoin(FuncDir(root, subject), name);
    SplitConfoundsFileName(subject, specifier);
  }

  // ------------------------------------------------------------------
  // Movement summary of the script

  /** `{"M": 0, "F": 1}` as a `.map`: any other value becomes missing. */
  function MapGender(c: Cell): Cell
  {
    if c == CStr("M") then CNum(0.0) else if c == CStr("F") then CNum(1.0) else CMissing
  }

  /**
   * The script's recoding: mapped only when the column holds text (object dtype), and then
   * every cell but "M" and "F" becomes missing, numbers included.
   */
  function RecodeGenderMap(cells: seq<Cell>): (r: seq<Cell>)
    ensures |r| == |cells|
    ensures (forall k :: 0 <= k < |cells| ==> !cells[k].CStr?) ==> r == cells
    ensures (exists k :: 0 <= k < |cells| && cells[k].CStr?) ==>
      forall k :: 0 <= k < |cells| ==>
        r[k] == (if cells[k] == CStr("M") then CNum(0.0) else if cells[k] == CStr("F") then CNum(1.0) else CMissing)
  {
    if exists k :: 0 <= k < |cells| && cells[k].CStr? then
      seq(|cells|, k requires 0 <= k < |cells| => MapGender(cells[k]))
    else cells
  }

  /** After the script's recoding the gender cast never fails, and only "M"/"F" become numbers. */
  lemma GenderCastMap(cells: seq<Cell>)
    ensures CastColumn(RecodeGenderMap(cells)).Ok?
    ensures (exists k :: 0 <= k < |cells| && cells[k].CStr?) ==>
      forall k :: 0 <= k < |cells| ==>
        CastColumn(RecodeGenderMap(cells)).value[k] ==
          (if cells[k] == CStr("M") then Num(0.0) else if cells[k] == CStr("F") then Num(1.0) else NaN)
  {
    var r := RecodeGenderMap(cells);
    assert forall k :: 0 <= k < |r| ==> !r[k].CStr?;
  }

  /** The script's `generate_movement_summary`: unreadable files are skipped and only two datasets are known. */
  function MovementSummaryDof(data: ConfoundsDerivative, participantColumns: set<string>, readFd: string -> FdRead): Result<seq<SummaryRow>>
    requires forall k :: 0 <= k < |data.phenotypic| ==> data.phenotypic[k].Keys == participantColumns
    requires |data.subjects| == |data.phenotypic|
  {
    match FdFold(FdTable([], map[]), data.confounds, readFd, true)
    case Err(e) => Err(e)
    case Ok(fd) =>
      match SelectCovariates(data.datasetName, data.subjects, data.phenotypic, participantColumns, PhenotypeInfo(data.datasetName, false))
      case Err(e) => Err(e)
      case Ok(c) =>
        match CastCovariates(c, RecodeGenderMap(c.gender))
        case Err(e) => Err(e)
        case Ok(p) => Ok(InnerJoin(fd, p))
  }

  /** The script's movement summary fails only for an unknown dataset, a missing column or an age that is not a number. */
  lemma MovementSummaryDofErrors(data: ConfoundsDerivative, participantColumns: set<string>, readFd: string -> FdRead)
    requires forall k :: 0 <= k < |data.phenotypic| ==> data.phenotypic[k].Keys == participantColumns
    requires |data.subjects| == |data.phenotypic|
    ensures var covar := SelectCovariates(data.datasetName, data.subjects, data.phenotypic, participantColumns, PhenotypeInfo(data.datasetName, false));
      MovementSummaryDof(data, participantColumns, readFd).Err? <==>
        covar.Err? || exists k :: 0 <= k < |covar.value.age| && !Castable(covar.value.age[k])
  {
    FdFoldRows(FdTable([], map[]), data.confounds, readFd, "");
    var covar := SelectCovariates(data.datasetName, data.subjects, data.phenotypic, participantColumns, PhenotypeInfo(data.datasetName, false));
    if covar.Ok? {
      GenderCastMap(covar.value.gender);
    }
  }

  /** The script's `generate_movement_summary` */
  method GenerateMovementSummaryDof(data: ConfoundsDerivative, participantColumns: set<string>, readFd: string -> FdRead)
    returns (r: Result<seq<SummaryRow>>)
    requires forall k :: 0 <= k < |data.phenotypic| ==> data.phenotypic[k].Keys == participantColumns
    requires |data.subjects| == |data.phenotypic|
    ensures r == MovementSummaryDof(data, participantColumns, readFd)
  {
    var fd := CollectMeanFd(data.confounds, readFd, true);
    if fd.Err? {
      return Err(fd.error);
    }
    var covar := SelectCovariates(data.datasetName, data.subjects, data.phenotypic, participantColumns, PhenotypeInfo(data.datasetName, false));
    if covar.Err? {
      return Err(covar.error);
    }
    var pheno := CastCovariates(covar.value, RecodeGenderMap(covar.value.gender));
    if pheno.Err? {
      return Err(pheno.error);
    }
    r := Ok(InnerJoin(fd.value, pheno.value));
  }

  // ------------------------------------------------------------------
  // Degrees of freedom

  /** The nine `(strategy, metric)` entries of one subject and strategy. */
  datatype DofStats = DofStats(
    excisedVol: int,
    excisedVolProportion: real,
    highPass: int,
    fixedRegressors: int,
    compcor: nat,
    aroma: nat,
    scrub: nat,
    total: int,
    fullLength: nat)

  /**
   * The excised volumes of a mask: none without a mask; the dropped flags of a non-empty
   * boolean mask; otherwise the volumes not listed (an empty list is not boolean).
   */
  function ExcisedVolumes(mask: Mask, fullLength: nat): int
  {
    match mask
    case NoMask => 0
    case Flags(keep) => if |keep| > 0 then Count((b: bool) => !b, keep) else fullLength
    case Indices(kept) => fullLength - |kept|
  }

  /** The positions, counted from `base`, of the volumes a boolean mask keeps. */
  function KeptPositions(keep: seq<bool>, base: int): (r: seq<int>)
    ensures |r| + Count((b: bool) => !b, keep) == |keep|
    decreases |keep|
  {
    if |keep| == 0 then []
    else (if keep[0] then [base] else []) + KeptPositions(keep[1..], base + 1)
  }

  /** A position is listed exactly when its flag keeps the volume. */
  lemma {:induction false} KeptPositionsMembers(keep: seq<bool>, base: int, x: int)
    ensures x in KeptPositions(keep, base) <==> base <= x < base + |keep| && keep[x - base]
    decreases |keep|
  {
    if |keep| > 0 {
      KeptPositionsMembers(keep[1..], base + 1, x);
      if x > base && x < base + |keep| {
        assert keep[1..][x - (base + 1)] == keep[x - base];
      }
    }
  }

  /**
   * The excised volumes by mask form: none without a mask; the dropped flags of a non-empty
   * boolean mask, which for one flag per volume is the volumes not kept and never more than
   * the run; the volumes not listed for an index mask or an empty list.
   */
  lemma ExcisedVolumeCases(mask: Mask, fullLength: nat)
    ensures mask.NoMask? ==> ExcisedVolumes(mask, fullLength) == 0
    ensures mask.Flags? && |mask.keep| > 0 ==>
      ExcisedVolumes(mask, fullLength) == |Filter((b: bool) => !b, mask.keep)|
    ensures mask.Flags? && |mask.keep| == fullLength > 0 ==>
      0 <= ExcisedVolumes(mask, fullLength) <= fullLength
      && ExcisedVolumes(mask, fullLength) == fullLength - |KeptPositions(mask.keep, 0)|
    ensures mask.Flags? && |mask.keep| == 0 ==> ExcisedVolumes(mask, fullLength) == fullLength
    ensures mask.Indices? ==> ExcisedVolumes(mask, fullLength) == fullLength - |mask.kept|
  {
    if mask.Flags? {
      CountIsFilterLength((b: bool) => !b, mask.keep);
    }
  }

  /** A boolean mask and the list of the positions it keeps excise the same number of volumes. */
  lemma MaskFormsAgree(keep: seq<bool>)
    requires |keep| > 0
    ensures ExcisedVolumes(Flags(keep), |keep|) == ExcisedVolumes(Indices(KeptPositions(keep, 0)), |keep|)
    ensures forall x :: x in KeptPositions(keep, 0) <==> 0 <= x < |keep| && keep[x]
  {
    forall x ensures x in KeptPositions(keep, 0) <==> 0 <= x < |keep| && keep[x] {
      KeptPositionsMembers(keep, 0, x);
    }
  }

  predicate IsCompCorRegressor(c: string) { Contains(c, "comp_cor") }
  predicate IsAromaRegressor(c: string) { Contains(Lower(c), "aroma") }
  predicate IsScrubRegressor(c: string) { StartsWith(c, "motion_outlier") }

  /** The statistics of one loaded confounds table under one strategy. */
  function DofOf(strategyName: string, t: Table, mask: Mask): DofStats
  {
    var compcor := Count(IsCompCorRegressor, t.columns);
    var aroma := Count(IsAromaRegressor, t.columns);
    var excised := ExcisedVolumes(mask, t.rows);
    DofStats(
      excised,
      if t.rows > 0 then excised as real / t.rows as real else 0.0,
      0,
      |t.columns| - compcor - aroma,
      compcor,
      aroma,
      Count(IsScrubRegressor, t.columns),
      if Contains(Lower(strategyName), "scrub") then |t.columns| + excised else |t.columns|,
      t.rows)
  }

  /**
   * The accounting identities of one table: the three counts are the matching regressors,
   * fixed regressors are the rest, scrubbing strategies add the excised volumes to the total,
   * and the proportion is of the table's volumes.
   */
  lemma DofAccounting(strategyName: string, t: Table, mask: Mask)
    ensures var s := DofOf(strategyName, t, mask);
      && s.compcor == |Filter(IsCompCorRegressor, t.columns)|
      && s.aroma == |Filter(IsAromaRegressor, t.columns)|
      && s.scrub == |Filter(IsScrubRegressor, t.columns)|
      && s.fixedRegressors + s.compcor + s.aroma == |t.columns|
      && s.total == |t.columns| + (if Contains(Lower(strategyName), "scrub") then s.excisedVol else 0)
      && s.fullLength == t.rows && s.highPass == 0
      && (t.rows == 0 ==> s.excisedVolProportion == 0.0)
      && (t.rows > 0 ==> s.excisedVolProportion * (t.rows as real) == s.excisedVol as real)
  {
    CountIsFilterLength(IsCompCorRegressor, t.columns);
    CountIsFilterLength(IsAromaRegressor, t.columns);
    CountIsFilterLength(IsScrubRegressor, t.columns);
    var s := DofOf(strategyName, t, mask);
    assert s.excisedVol == ExcisedVolumes(mask, t.rows);
    if t.rows > 0 {
      assert s.excisedVolProportion == s.excisedVol as real / t.rows as real;
      ProportionTimesLength(s.excisedVol, t.rows);
    }
  }

  /** The proportion of excised volumes times the number of volumes gives back the count. */
  lemma ProportionTimesLength(excised: int, fullLength: nat)
    requires fullLength > 0
    ensures (excised as real / fullLength as real) * (fullLength as real) == excised as real
  {
  }

  lemma {:induction false} CountNoneDropped(keep: seq<bool>)
    requires forall i :: 0 <= i < |keep| ==> keep[i]
    ensures Count((b: bool) => !b, keep) == 0
    decreases |keep|
  {
    if |keep| > 0 {
      CountNoneDropped(keep[1..]);
    }
  }

  /** A table from the TSV loader excises nothing: its total is its number of regressors. */
  lemma TsvExcisesNothing(strategyName: string, img: string, p: Params, env: Env)
    requires TsvConfounds(img, p, env).Ok?
    ensures var out := TsvConfounds(img, p, env).value;
      var s := DofOf(strategyName, out.0, out.1);
      s.excisedVol == 0 && s.excisedVolProportion == 0.0 && s.total == |out.0.columns|
  {
    TsvConfoundsShape(img, p, env);
    var out := TsvConfounds(img, p, env).value;
    assert out.1 == Flags(AllTrue(out.0.rows));
    FullMaskExcisesNothing(strategyName, out.0);
  }

  lemma FullMaskExcisesNothing(strategyName: string, t: Table)
    ensures var s := DofOf(strategyName, t, Flags(AllTrue(t.rows)));
      s.excisedVol == 0 && s.excisedVolProportion == 0.0 && s.total == |t.columns|
  {
    CountNoneDropped(AllTrue(t.rows));
  }

  lemma CompCorNameCounts(c: string)
    requires IsCompCorColumn(c)
    ensures IsCompCorRegressor(c)
  {
    assert c[2..][..8] == "comp_cor" by {
      assert c[..12] == "c_comp_cor_0";
      forall i | 0 <= i < 8 ensures c[2..][..8][i] == "comp_cor"[i] {
        assert c[2 + i] == c[..12][2 + i];
      }
    }
    assert Contains(c[2..], "comp_cor");
    assert c[1..][1..] == c[2..];
    assert Contains(c[1..], "comp_cor");
  }

  /** Under the compcor strategy the TSV loader's table counts min(5, present) CompCor regressors. */
  lemma CompCorCount(strategyName: string, img: string, p: Params, env: Env)
    requires "strategy" !in p && Get(p, "denoise_strategy") == Some(JStr("compcor"))
    requires TsvConfounds(img, p, env).Ok?
    ensures var df := env.readTsv(img).value;
      var n := Count(IsCompCorColumn, df.columns);
      var out := TsvConfounds(img, p, env).value;
      DofOf(strategyName, out.0, out.1).compcor == if n < 5 then n else 5
  {
    var df := env.readTsv(img).value;
    var ids := ParseConfoundsName(BaseName(img)).value;
    var aroma := env.aromaFor(ids.0, ids.1);
    CompCorColumns(p, df.columns, aroma);
    var cols := StrategyColumns(p, df.columns, aroma).value.0;
    forall k | 0 <= k < |cols| ensures cols[k] in df.columns {
      SubsequenceMembers(cols, df.columns, cols[k]);
    }
    FilterAll(InColumns(df.columns), cols);
    forall k | 0 <= k < |cols| ensures IsCompCorRegressor(cols[k]) {
      CompCorNameCounts(cols[k]);
    }
    FilterAll(IsCompCorRegressor, cols);
    CountIsFilterLength(IsCompCorRegressor, cols);
    assert TsvConfounds(img, p, env).value.0.columns == cols;
  }

  // ------------------------------------------------------------------
  // Accounting

  /** `info`: subject to strategy to its statistics (the `(strategy, metric)` column pairs). */
  type Info = map<string, map<string, DofStats>>

  /** `info[sub].update(stats)` or `info[sub] = stats`: only that subject's entry for that strategy changes. */
  function Record(info: Info, subject: string, strategy: string, s: DofStats): (r: Info)
    ensures r.Keys == info.Keys + {subject}
    ensures strategy in r[subject] && r[subject][strategy] == s
    ensures r[subject].Keys == (if subject in info then info[subject].Keys else {}) + {strategy}
    ensures forall x :: x in info && x != subject ==> r[x] == info[x]
    ensures forall st :: subject in info && st in info[subject] && st != strategy ==> r[subject][st] == info[subject][st]
  {
    if subject in info then info[subject := info[subject][strategy := s]]
    else info[subject := map[strategy := s]]
  }

  /** The table and mask behind a source: the TSV loader's own, or what nilearn returns. */
  function Resolve(src: Source, env: Env): Result<(Table, Mask)>
  {
    match src
    case FromTsv(t, m) => Ok((t, m))
    case FromNilearn(call) => env.nilearn(call)
  }

  /** The inner loop: one strategy over its confounds files, from `info` on. */
  function FileFold(info: Info, strategy: string, p: Params, files: seq<string>, env: Env): Result<Info>
    decreases |files|
  {
    if |files| == 0 then Ok(info)
    else
      match ConfoundsOf(strategy, p, files[0], env)
      case Err(e) => Err(e)
      case Ok(src) =>
        match Resolve(src, env)
        case Err(e) => Err(e)
        case Ok(loaded) =>
          FileFold(Record(info, SubjectOfPath(files[0]), strategy, DofOf(strategy, loaded.0, loaded.1)), strategy, p, files[1..], env)
  }

  /** The AROMA strategies read the AROMA fetch's files, the others the plain fetch's. */
  function FilesFor(strategy: string, files: seq<string>, aromaFiles: seq<string>): seq<string>
  {
    if Contains(Lower(strategy), "aroma") then aromaFiles else files
  }

  /** The outer loop over the registry's strategies, in file order. */
  function StrategyFold(info: Info, reg: Registry, names: seq<string>, files: seq<string>, aromaFiles: seq<string>, env: Env): Result<Info>
    requires forall n :: n in names ==> n in reg.params
    decreases |names|
  {
    if |names| == 0 then Ok(info)
    else
      match FileFold(info, names[0], reg.params[names[0]], FilesFor(names[0], files, aromaFiles), env)
      case Err(e) => Err(e)
      case Ok(next) => StrategyFold(next, reg, names[1..], files, aromaFiles, env)
  }

  /**
   * One strategy's pass: entries already present stay present, other strategies' values do
   * not change, every file's subject gets an entry for the strategy, and no other subject appears.
   */
  lemma {:induction false} FileFoldEntries(info: Info, strategy: string, p: Params, files: seq<string>, env: Env)
    requires FileFold(info, strategy, p, files, env).Ok?
    ensures var out := FileFold(info, strategy, p, files, env).value;
      && (forall s, st :: s in info && st in info[s] ==> s in out && st in out[s])
      && (forall s, st :: s in info && st in info[s] && st != strategy ==> out[s][st] == info[s][st])
      && (forall k :: 0 <= k < |files| ==> SubjectOfPath(files[k]) in out && strategy in out[SubjectOfPath(files[k])])
      && (forall s :: s in out ==> s in info || exists k :: 0 <= k < |files| && SubjectOfPath(files[k]) == s)
    decreases |files|
  {
    if |files| > 0 {
      var src := ConfoundsOf(strategy, p, files[0], env).value;
      var loaded := Resolve(src, env).value;
      var sub := SubjectOfPath(files[0]);
      var next := Record(info, sub, strategy, DofOf(strategy, loaded.0, loaded.1));
      FileFoldEntries(next, strategy, p, files[1..], env);
      var out := FileFold(info, strategy, p, files, env).value;
      assert out == FileFold(next, strategy, p, files[1..], env).value;
      forall k | 0 <= k < |files| ensures SubjectOfPath(files[k]) in out && strategy in out[SubjectOfPath(files[k])] {
        if k > 0 {
          assert files[k] == files[1..][k - 1];
        }
      }
      forall s | s in out ensures s in info || exists k :: 0 <= k < |files| && SubjectOfPath(files[k]) == s {
        if s !in next {
          var k :| 0 <= k < |files[1..]| && SubjectOfPath(files[1..][k]) == s;
          assert SubjectOfPath(files[k + 1]) == s;
        } else if s == sub {
          assert SubjectOfPath(files[0]) == s;
        }
      }
    }
  }

  /** After the whole pass every strategy has an entry for the subject of each file it read. */
  lemma {:induction false} StrategyFoldCovers(info: Info, reg: Registry, names: seq<string>, files: seq<string>, aromaFiles: seq<string>, env: Env)
    requires forall n :: n in names ==> n in reg.params
    requires StrategyFold(info, reg, names, files, aromaFiles, env).Ok?
    ensures var out := StrategyFold(info, reg, names, files, aromaFiles, env).value;
      && (forall s, st :: s in info && st in info[s] ==> s in out && st in out[s])
      && forall i, k :: 0 <= i < |names| && 0 <= k < |FilesFor(names[i], files, aromaFiles)| ==>
        var sub := SubjectOfPath(FilesFor(names[i], files, aromaFiles)[k]);
        sub in out && names[i] in out[sub]
    decreases |names|
  {
    if |names| > 0 {
      var cfs := FilesFor(names[0], files, aromaFiles);
      var next := FileFold(info, names[0], reg.params[names[0]], cfs, env).value;
      FileFoldEntries(info, names[0], reg.params[names[0]], cfs, env);
      StrategyFoldCovers(next, reg, names[1..], files, aromaFiles, env);
      forall i, k | 0 <= i < |names| && 0 <= k < |FilesFor(names[i], files, aromaFiles)|
        ensures var out := StrategyFold(info, reg, names, files, aromaFiles, env).value;
          var sub := SubjectOfPath(FilesFor(names[i], files, aromaFiles)[k]);
          sub in out && names[i] in out[sub]
      {
        if i > 0 {
          assert names[i] == names[1..][i - 1];
        }
      }
    }
  }

  /** The inner loop: one strategy over its confounds files. */
  method AccountStrategy(info0: Info, name: string, p: Params, cfs: seq<string>, env: Env) returns (r: Result<Info>)
    ensures r == FileFold(info0, name, p, cfs, env)
  {
    var info := info0;
    var j := 0;
    while j < |cfs|
      invariant 0 <= j <= |cfs|
      invariant FileFold(info0, name, p, cfs, env) == FileFold(info, name, p, cfs[j..], env)
    {
      assert cfs[j..][1..] == cfs[j + 1..];
      var src := GetConfounds(name, p, cfs[j], env);
      if src.Err? {
        return Err(src.error);
      }
      var loaded := Resolve(src.value, env);
      if loaded.Err? {
        return Err(loaded.error);
      }
      info := Record(info, SubjectOfPath(cfs[j]), name, DofOf(name, loaded.value.0, loaded.value.1));
      j := j + 1;
    }
    assert cfs[|cfs|..] == [];
    r := Ok(info);
  }

  /** The accounting loop: every strategy of the registry over its confounds files. */
  method ComputeDof(reg: Registry, files: seq<string>, aromaFiles: seq<string>, env: Env) returns (r: Result<Info>)
    requires reg.Valid()
    ensures r == StrategyFold(map[], reg, reg.names, files, aromaFiles, env)
  {
    var info: Info := map[];
    var i := 0;
    while i < |reg.names|
      invariant 0 <= i <= |reg.names|
      invariant StrategyFold(map[], reg, reg.names, files, aromaFiles, env) == StrategyFold(info, reg, reg.names[i..], files, aromaFiles, env)
    {
      var name := reg.names[i];
      assert reg.names[i..][1..] == reg.names[i + 1..];
      var next := AccountStrategy(info, name, reg.params[name], FilesFor(name, files, aromaFiles), env);
      if next.Err? {
        return Err(next.error);
      }
      info := next.value;
      i := i + 1;
    }
    r := Ok(info);
  }

  /** What one run of the script produces. */
  datatype DofRun = DofRun(data: ConfoundsDerivative, movement: seq<SummaryRow>, info: Info)

  /** The confounds-only fetch of the subjects `kept`: their confounds paths and participant rows. */
  function FetchedFrom(datasetName: string, participants: ParticipantsTable, root: string, specifier: string, kept: seq<string>)
    : (r: Result<ConfoundsDerivative>)
    ensures r.Ok? ==> r.value.Aligned(participants, root, specifier) && r.value.subjects == kept
  {
    match LocRows(participants, kept)
    case Err(e) => Err(e)
    case Ok(rows) =>
      Ok(ConfoundsDerivative(datasetName, seq(|kept|, k requires 0 <= k < |kept| => ConfoundsPath(root, kept[k], specifier)), kept, rows))
  }

  /**
   * What one run of the script computes: fetch the subjects whose confounds file exists,
   * summarise their movement, then account for every strategy of the registry; the first
   * step that fails ends the run with its error.
   */
  ghost function DofRunOf(
    datasetName: string, participantsPath: string, participants: ParticipantsTable,
    fs: FileSystem, root: string, specifier: string,
    config: Option<Registry>, readFd: string -> FdRead, env: Env): Result<DofRun>
    requires participants.Valid()
    requires config.Some? ==> config.value.Valid()
  {
    if !ParticipantsFileOk(fs, participantsPath) then Err(FileNotFound(participantsPath))
    else
      var kept := Filter(HasConfounds(fs, root, specifier), SubjectDirs(fs, root, AllSubjects).value);
      match FetchedFrom(datasetName, participants, root, specifier, kept)
      case Err(e) => Err(e)
      case Ok(d) =>
        match MovementSummaryDof(d, participants.columns, readFd)
        case Err(e) => Err(e)
        case Ok(m) =>
          match GetPreproStrategy(config, None)
          case Err(e) => Err(e)
          case Ok(reg) =>
            match StrategyFold(map[], reg, reg.names, d.confounds, d.confounds, env)
            case Err(e) => Err(e)
            case Ok(info) => Ok(DofRun(d, m, info))
  }

  /**
   * The script's `main`: fetch every subject, summarise movement, then account for every
   * strategy of the registry. Both fetches of the script take the same arguments apart from
   * an `aroma` flag the fetch ignores, so the AROMA strategies read the same files.
   */
  method RunDof(
    datasetName: string, participantsPath: string, participants: ParticipantsTable,
    fs: FileSystem, root: string, specifier: string,
    config: Option<Registry>, readFd: string -> FdRead, env: Env)
    returns (r: Result<DofRun>)
    requires participants.Valid()
    requires config.Some? ==> config.value.Valid()
    ensures config.None? ==> r.Err?
    ensures !ParticipantsFileOk(fs, participantsPath) ==> r == Err(FileNotFound(participantsPath))
    ensures r.Ok? <==> DofRunOf(datasetName, participantsPath, participants, fs, root, specifier, config, readFd, env).Ok?
    ensures r.Ok? ==> r == DofRunOf(datasetName, participantsPath, participants, fs, root, specifier, config, readFd, env)
    ensures r.Ok? ==> config.Some?
    ensures r.Ok? ==> r.value.data.Aligned(participants, root, specifier)
    ensures r.Ok? ==>
      StrategyFold(map[], config.value, config.value.names, r.value.data.confounds, r.value.data.confounds, env) == Ok(r.value.info)
    ensures r.Ok? ==> Covers(config.value.names, r.value.data.subjects, specifier, r.value.info)
  {
    var data := FetchConfoundsDerivative(datasetName, participantsPath, participants, fs, root, specifier, AllSubjects);
    if data.Err? {
      return Err(data.error);
    }
    var d := data.value;
    assert d.Aligned(participants, root, specifier);
    var kept := Filter(HasConfounds(fs, root, specifier), SubjectDirs(fs, root, AllSubjects).value);
    assert d == FetchedFrom(datasetName, participants, root, specifier, kept).value;
    var movement := GenerateMovementSummaryDof(d, participants.columns, readFd);
    if movement.Err? {
      return Err(movement.error);
    }
    var reg := GetPreproStrategy(config, None);
    if reg.Err? {
      return Err(reg.error);
    }
    var info := ComputeDof(reg.value, d.confounds, d.confounds, env);
    if info.Err? {
      return Err(info.error);
    }
    RunCoversSubjects(reg.value, d, root, specifier, env, info.value);
    r := Ok(DofRun(d, movement.value, info.value));
  }

  /**
   * Every strategy has an entry for every subject whose label holds no `_` or `/` (the file
   * name's first field is then the label), provided the file specifier holds no `/` either.
   */
  ghost predicate Covers(names: seq<string>, subjects: seq<string>, specifier: string, info: Info)
  {
    forall n, s :: n in names && s in subjects && '_' !in s && '/' !in s && '/' !in specifier ==>
      s in info && n in info[s]
  }

  /** After the accounting loop every strategy has an entry for every fetched subject with a plain label. */
  lemma RunCoversSubjects(reg: Registry, d: ConfoundsDerivative, root: string, specifier: string, env: Env, info: Info)
    requires reg.Valid()
    requires |d.confounds| == |d.subjects|
    requires forall k :: 0 <= k < |d.subjects| ==> d.confounds[k] == ConfoundsPath(root, d.subjects[k], specifier)
    requires StrategyFold(map[], reg, reg.names, d.confounds, d.confounds, env) == Ok(info)
    ensures Covers(reg.names, d.subjects, specifier, info)
  {
    RunCovers(reg, d.confounds, env, info);
    SubjectsCovered(reg.names, d, root, specifier, info);
  }

  /** A fetched subject with a plain label is the subject of its confounds file, so it inherits that file's entries. */
  lemma SubjectsCovered(names: seq<string>, d: ConfoundsDerivative, root: string, specifier: string, info: Info)
    requires |d.confounds| == |d.subjects|
    requires forall k :: 0 <= k < |d.subjects| ==> d.confounds[k] == ConfoundsPath(root, d.subjects[k], specifier)
    requires forall n, k :: n in names && 0 <= k < |d.confounds| ==>
        SubjectOfPath(d.confounds[k]) in info && n in info[SubjectOfPath(d.confounds[k])]
    ensures Covers(names, d.subjects, specifier, info)
  {
    forall n, s | n in names && s in d.subjects && '_' !in s && '/' !in s && '/' !in specifier
      ensures s in info && n in info[s]
    {
      var k :| 0 <= k < |d.subjects| && d.subjects[k] == s;
      SubjectOfConfoundsPath(root, s, specifier);
      assert SubjectOfPath(d.confounds[k]) == s;
    }
  }

  /** After the accounting loop, the subject of every fetched confounds file has an entry for every strategy. */
  lemma RunCovers(reg: Registry, files: seq<string>, env: Env, info: Info)
    requires reg.Valid()
    requires StrategyFold(map[], reg, reg.names, files, files, env) == Ok(info)
    ensures forall n, k :: n in reg.names && 0 <= k < |files| ==>
        SubjectOfPath(files[k]) in info && n in info[SubjectOfPath(files[k])]
  {
    StrategyFoldCovers(map[], reg, reg.names, files, files, env);
    forall n, k | n in reg.names && 0 <= k < |files|
      ensures SubjectOfPath(files[k]) in info && n in info[SubjectOfPath(files[k])]
    {
      var i :| 0 <= i < |reg.names| && reg.names[i] == n;
      assert FilesFor(reg.names[i], files, files) == files;
    }
  }
}
