/**
 * The dataset layer of the benchmark: the strategy registry lookup, discovery of the
 * subjects whose fMRIPrep derivatives are complete, and the movement/phenotype summary.
 * Files, directories and table contents are abstract inputs.
 */
module Fmriprep {
  import opened Wrappers
  import opened Strings
  import opened Seqs
  import opened Config

  // ------------------------------------------------------------------
  // Strategy registry

  /**
   * `get_prepro_strategy(name)`: `config` is the parsed strategies file, `None` when the
   * file cannot be opened. No name gives the whole registry; a known name gives the
   * single-entry registry; an unknown name is an error naming it.
   */
  function GetPreproStrategy(config: Option<Registry>, name: Option<string>): (r: Result<Registry>)
    ensures config.None? ==> r.Err? && r.error.FileNotFound?
    ensures config.Some? && name.None? ==> r == Ok(config.value)
    ensures config.Some? && name.Some? ==> (r.Ok? <==> name.value in config.value.params)
    ensures config.Some? && name.Some? && r.Err? ==> r.error == NotImplemented(name.value)
    ensures config.Some? && name.Some? && r.Ok? ==>
      && r.value.names == [name.value]
      && r.value.params == map[name.value := config.value.params[name.value]]
      && r.value.Valid()
  {
    match config
    case None => Err(FileNotFound(StrategyFile))
    case Some(reg) =>
      match name
      case None => Ok(reg)
      case Some(n) =>
        if n !in reg.params then Err(NotImplemented(n))
        else Ok(Registry([n], map[n := reg.params[n]]))
  }

  const StrategyFile := "benchmark_strategies.json"

  // ------------------------------------------------------------------
  // Derivative layout

  /** The file system as the pipeline sees it: existing directories and files, and the
      entries of the derivative root in the order a directory scan lists them. */
  datatype FileSystem = FileSystem(dirs: set<string>, files: set<string>, rootListing: seq<string>)

  function PathJoin(dir: string, name: string): string
  {
    dir + "/" + name
  }

  function ConfoundsFileName(subject: string, specifier: string): string
  {
    subject + "_" + specifier + "_desc-confounds_timeseries.tsv"
  }

  function FuncDir(root: string, subject: string): string
  {
    PathJoin(PathJoin(root, subject), "func")
  }

  function ConfoundsPath(root: string, subject: string, specifier: string): string
  {
    PathJoin(FuncDir(root, subject), ConfoundsFileName(subject, specifier))
  }

  function BoldPath(root: string, subject: string, specifier: string, space: string): string
  {
    PathJoin(FuncDir(root, subject), subject + "_" + specifier + "_space-" + space + "_desc-preproc_bold.nii.gz")
  }

  /** The `subject` argument: `None`, a string, a list, or any other Python value. */
  datatype SubjectSelector = AllSubjects | OneSubject(id: string) | SubjectList(labels: seq<string>) | Unsupported

  /** The subject directory names the selector picks (the glob, or the list loop), or the ValueError. */
  function SubjectDirs(fs: FileSystem, root: string, sel: SubjectSelector): Result<seq<string>>
  {
    match sel
    case AllSubjects =>
      Ok(Filter((e: string) => StartsWith(e, "sub-") && PathJoin(root, e) in fs.dirs, fs.rootListing))
    case OneSubject(s) =>
      Ok(if PathJoin(root, "sub-" + s) in fs.dirs then ["sub-" + s] else [])
    case SubjectList(labels) =>
      Ok(Filter((d: string) => PathJoin(root, d) in fs.dirs, SubjectLabels(labels)))
    case Unsupported => Err(ValueError("Unsupported input for subject."))
  }

  /** `[f"sub-{s}" for s in labels]` */
  function SubjectLabels(labels: seq<string>): (r: seq<string>)
    ensures |r| == |labels| && forall k :: 0 <= k < |r| ==> r[k] == "sub-" + labels[k]
  {
    seq(|labels|, k requires 0 <= k < |labels| => "sub-" + labels[k])
  }

  /**
   * The loop over a subject list: keeps exactly the `sub-{s}` directories that exist, in
   * the order of the list.
   */
  method SelectSubjectDirs(fs: FileSystem, root: string, sel: SubjectSelector) returns (r: Result<seq<string>>)
    ensures r == SubjectDirs(fs, root, sel)
    ensures sel.SubjectList? ==> r.Ok? && IsSubsequence(r.value, SubjectLabels(sel.labels))
    ensures sel.SubjectList? ==> forall d :: d in r.value <==> d in SubjectLabels(sel.labels) && PathJoin(root, d) in fs.dirs
  {
    match sel {
      case SubjectList(labels) =>
        var isDir := (d: string) => PathJoin(root, d) in fs.dirs;
        var all := SubjectLabels(labels);
        var dirs := [];
        var i := 0;
        while i < |labels|
          invariant 0 <= i <= |labels|
          invariant dirs == Filter(isDir, all[..i])
        {
          var path := "sub-" + labels[i];
          assert all[..i + 1] == all[..i] + [path];
          FilterConcat(isDir, all[..i], [path]);
          if PathJoin(root, path) in fs.dirs {
            dirs := dirs + [path];
          }
          i := i + 1;
        }
        assert all[..|labels|] == all;
        FilterIsSubsequence(isDir, all);
        forall d ensures d in dirs <==> d in all && isDir(d) {
          FilterMembership(isDir, all, d);
        }
        r := Ok(dirs);
      case _ =>
        r := SubjectDirs(fs, root, sel);
    }
  }

  // ------------------------------------------------------------------
  // Participants and derivative discovery

  /** One participants.tsv cell as pandas reads it. */
  datatype Cell = CStr(s: string) | CNum(x: real) | CMissing

  type Row = map<string, Cell>

  /** participants.tsv indexed by `participant_id`; every row carries every column. */
  datatype ParticipantsTable = ParticipantsTable(columns: set<string>, rows: map<string, Row>)
  {
    ghost predicate Valid()
    {
      forall id :: id in rows ==> rows[id].Keys == columns
    }
  }

  /** What `fetch_fmriprep_derivative` returns; `subjects` is the index of `phenotypic`. */
  datatype Derivative = Derivative(
    datasetName: string,
    func: seq<string>,
    confounds: seq<string>,
    subjects: seq<string>,
    phenotypic: seq<Row>)

  predicate ParticipantsFileOk(fs: FileSystem, path: string)
  {
    path in fs.files && BaseName(path) == "participants.tsv"
  }

  predicate HasBoldAndConfounds(fs: FileSystem, root: string, subject: string, specifier: string, space: string)
  {
    BoldPath(root, subject, specifier, space) in fs.files && ConfoundsPath(root, subject, specifier) in fs.files
  }

  /** `participant_tsv.loc[subjects, :]`, which raises a KeyError for a label not in the index. */
  function LocRows(participants: ParticipantsTable, subjects: seq<string>): (r: Result<seq<Row>>)
    ensures r.Ok? <==> forall k :: 0 <= k < |subjects| ==> subjects[k] in participants.rows
    ensures r.Ok? ==> |r.value| == |subjects| &&
                      forall k :: 0 <= k < |subjects| ==> r.value[k] == participants.rows[subjects[k]]
    ensures r.Err? ==> r.error.KeyError?
  {
    if forall k :: 0 <= k < |subjects| ==> subjects[k] in participants.rows then
      Ok(seq(|subjects|, k requires 0 <= k < |subjects| => participants.rows[subjects[k]]))
    else Err(KeyError("participant_id"))
  }

  /** The test of the subject loop: both the preprocessed BOLD image and the confounds file exist. */
  function Complete(fs: FileSystem, root: string, specifier: string, space: string): string -> bool
  {
    (d: string) => HasBoldAndConfounds(fs, root, d, specifier, space)
  }

  /**
   * The loop over subject directories: keeps a subject iff both its files exist, and
   * appends its BOLD and confounds paths so the three lists stay index-aligned.
   */
  method CollectDerivativeFiles(fs: FileSystem, root: string, dirs: seq<string>, specifier: string, space: string)
    returns (func: seq<string>, confounds: seq<string>, kept: seq<string>)
    ensures kept == Filter(Complete(fs, root, specifier, space), dirs)
    ensures |func| == |kept| && |confounds| == |kept|
    ensures forall k :: 0 <= k < |kept| ==>
      func[k] == BoldPath(root, kept[k], specifier, space) && confounds[k] == ConfoundsPath(root, kept[k], specifier)
  {
    func, confounds, kept := [], [], [];
    var i := 0;
    while i < |dirs|
      invariant 0 <= i <= |dirs|
      invariant kept == Filter(Complete(fs, root, specifier, space), dirs[..i])
      invariant |func| == |kept| && |confounds| == |kept|
      invariant forall k :: 0 <= k < |kept| ==>
        func[k] == BoldPath(root, kept[k], specifier, space) && confounds[k] == ConfoundsPath(root, kept[k], specifier)
    {
      var subject := dirs[i];
      var curFunc := BoldPath(root, subject, specifier, space);
      var curConfound := ConfoundsPath(root, subject, specifier);
      assert dirs[..i + 1] == dirs[..i] + [subject];
      FilterConcat(Complete(fs, root, specifier, space), dirs[..i], [subject]);
      if curFunc in fs.files && curConfound in fs.files {
        func := func + [curFunc];
        confounds := confounds + [curConfound];
        kept := kept + [subject];
      }
      i := i + 1;
    }
    assert dirs[..|dirs|] == dirs;
  }

  /**
   * `fetch_fmriprep_derivative` (fmriprep.py): the participants file is checked first, the
   * subjects are selected, the complete ones kept, and `phenotypic` holds their participant
   * rows in the same order.
   */
  method FetchFmriprepDerivative(
    datasetName: string, participantsPath: string, participants: ParticipantsTable,
    fs: FileSystem, root: string, specifier: string, sel: SubjectSelector, space: string)
    returns (r: Result<Derivative>)
    ensures !ParticipantsFileOk(fs, participantsPath) ==> r == Err(FileNotFound(participantsPath))
    ensures ParticipantsFileOk(fs, participantsPath) && SubjectDirs(fs, root, sel).Err? ==>
      r.Err? && r.error.ValueError?
    ensures ParticipantsFileOk(fs, participantsPath) && SubjectDirs(fs, root, sel).Ok? ==>
      var kept := Filter(Complete(fs, root, specifier, space), SubjectDirs(fs, root, sel).value);
      && (r.Ok? <==> forall k :: 0 <= k < |kept| ==> kept[k] in participants.rows)
      && (r.Err? ==> r.error.KeyError?)
      && (r.Ok? ==>
        && r.value.datasetName == datasetName
        && r.value.subjects == kept
        && |r.value.func| == |kept| && |r.value.confounds| == |kept| && |r.value.phenotypic| == |kept|
        && forall k :: 0 <= k < |kept| ==>
          && r.value.func[k] == BoldPath(root, kept[k], specifier, space)
          && r.value.confounds[k] == ConfoundsPath(root, kept[k], specifier)
          && r.value.phenotypic[k] == participants.rows[kept[k]])
  {
    if participantsPath !in fs.files || BaseName(participantsPath) != "participants.tsv" {
      return Err(FileNotFound(participantsPath));
    }
    var selected := SelectSubjectDirs(fs, root, sel);
    if selected.Err? {
      return Err(selected.error);
    }
    var func, confounds, kept := CollectDerivativeFiles(fs, root, selected.value, specifier, space);
    var rows := LocRows(participants, kept);
    if rows.Err? {
      return Err(rows.error);
    }
    r := Ok(Derivative(datasetName, func, confounds, kept, rows.value));
  }

  // ------------------------------------------------------------------
  // Movement summary

  /** Reading one confounds file for its framewise displacement. */
  datatype FdRead = Unreadable | NoFdColumn | MeanFd(value: real)

  /** `group_mean_fd`: subject labels in insertion order, with their mean FD. */
  datatype FdTable = FdTable(ids: seq<string>, fd: map<string, real>)
  {
    ghost predicate Valid()
    {
      Distinct(ids) && (forall id :: id in fd <==> id in ids)
    }
  }

  /** `confounds.split("/")[-1].split("_")[0]` */
  function SubjectOfPath(path: string): string
  {
    FirstField(BaseName(path), '_')
  }

  /** `group_mean_fd.loc[subject, "mean_framewise_displacement"] = v`: overwrite or append a row. */
  function SetFd(t: FdTable, subject: string, v: real): (r: FdTable)
    requires t.Valid()
    ensures r.Valid()
    ensures r.fd == t.fd[subject := v]
    ensures subject in t.ids ==> r.ids == t.ids
    ensures subject !in t.ids ==> r.ids == t.ids + [subject]
  {
    if subject in t.ids then FdTable(t.ids, t.fd[subject := v])
    else FdTable(t.ids + [subject], t.fd[subject := v])
  }

  /**
   * The FD loop over the confounds files, from table `t` on. An unreadable file is an
   * error in fmriprep.py and is skipped by the degrees-of-freedom script (`tolerant`);
   * a file without the FD column is skipped by both.
   */
  function FdFold(t: FdTable, paths: seq<string>, readFd: string -> FdRead, tolerant: bool): (r: Result<FdTable>)
    requires t.Valid()
    ensures r.Ok? ==> r.value.Valid()
    decreases |paths|
  {
    if |paths| == 0 then Ok(t)
    else
      match readFd(paths[0])
      case Unreadable =>
        if tolerant then FdFold(t, paths[1..], readFd, tolerant)
        else Err(ValueError("cannot read " + paths[0]))
      case NoFdColumn => FdFold(t, paths[1..], readFd, tolerant)
      case MeanFd(v) => FdFold(SetFd(t, SubjectOfPath(paths[0]), v), paths[1..], readFd, tolerant)
  }

  /** A tolerant pass never fails, and a subject has a row iff one of its files gave a mean FD. */
  lemma {:induction false} FdFoldRows(t: FdTable, paths: seq<string>, readFd: string -> FdRead, s: string)
    requires t.Valid()
    ensures FdFold(t, paths, readFd, true).Ok?
    ensures s in FdFold(t, paths, readFd, true).value.ids <==>
      s in t.ids || exists k :: 0 <= k < |paths| && SubjectOfPath(paths[k]) == s && readFd(paths[k]).MeanFd?
    decreases |paths|
  {
    if |paths| > 0 {
      var t' := if readFd(paths[0]).MeanFd? then SetFd(t, SubjectOfPath(paths[0]), readFd(paths[0]).value) else t;
      FdFoldRows(t', paths[1..], readFd, s);
      if s in FdFold(t, paths, readFd, true).value.ids && !(s in t.ids) && !readFd(paths[0]).MeanFd? {
        var k :| 0 <= k < |paths[1..]| && SubjectOfPath(paths[1..][k]) == s && readFd(paths[1..][k]).MeanFd?;
        assert SubjectOfPath(paths[k + 1]) == s && readFd(paths[k + 1]).MeanFd?;
      }
      if exists k :: 0 <= k < |paths| && SubjectOfPath(paths[k]) == s && readFd(paths[k]).MeanFd? {
        var k :| 0 <= k < |paths| && SubjectOfPath(paths[k]) == s && readFd(paths[k]).MeanFd?;
        if k > 0 {
          assert SubjectOfPath(paths[1..][k - 1]) == s && readFd(paths[1..][k - 1]).MeanFd?;
        }
      }
    }
  }

  /** A strict pass fails exactly when some file is unreadable, and otherwise agrees with a tolerant one. */
  lemma {:induction false} FdFoldStrict(t: FdTable, paths: seq<string>, readFd: string -> FdRead)
    requires t.Valid()
    ensures FdFold(t, paths, readFd, false).Err? <==> exists k :: 0 <= k < |paths| && readFd(paths[k]).Unreadable?
    ensures FdFold(t, paths, readFd, false).Ok? ==> FdFold(t, paths, readFd, false) == FdFold(t, paths, readFd, true)
    decreases |paths|
  {
    if |paths| > 0 {
      var t' := if readFd(paths[0]).MeanFd? then SetFd(t, SubjectOfPath(paths[0]), readFd(paths[0]).value) else t;
      FdFoldStrict(t', paths[1..], readFd);
      if exists k :: 0 <= k < |paths| && readFd(paths[k]).Unreadable? {
        var k :| 0 <= k < |paths| && readFd(paths[k]).Unreadable?;
        if k > 0 {
          assert readFd(paths[1..][k - 1]).Unreadable?;
        }
      }
      if exists k :: 0 <= k < |paths[1..]| && readFd(paths[1..][k]).Unreadable? {
        var k :| 0 <= k < |paths[1..]| && readFd(paths[1..][k]).Unreadable?;
        assert readFd(paths[k + 1]).Unreadable?;
      }
    }
  }

  /** The FD loop of `generate_movement_summary` (`tolerant` for the degrees-of-freedom script's copy). */
  method CollectMeanFd(paths: seq<string>, readFd: string -> FdRead, tolerant: bool) returns (r: Result<FdTable>)
    ensures r == FdFold(FdTable([], map[]), paths, readFd, tolerant)
    ensures r.Ok? ==> r.value.Valid()
  {
    var t := FdTable([], map[]);
    var i := 0;
    while i < |paths|
      invariant 0 <= i <= |paths|
      invariant t.Valid()
      invariant FdFold(FdTable([], map[]), paths, readFd, tolerant) == FdFold(t, paths[i..], readFd, tolerant)
    {
      assert paths[i..][1..] == paths[i + 1..];
      match readFd(paths[i]) {
        case Unreadable =>
          if !tolerant {
            return Err(ValueError("cannot read " + paths[i]));
          }
        case NoFdColumn =>
        case MeanFd(v) =>
          t := SetFd(t, SubjectOfPath(paths[i]), v);
      }
      i := i + 1;
    }
    r := Ok(t);
  }

  /** The covariate columns selected from the phenotypic rows, after renaming. */
  datatype Covariates = Covariates(subjects: seq<string>, age: seq<Cell>, gender: seq<Cell>, groups: seq<Cell>)

  /** The phenotype columns cast to float, as the summary returns them. */
  datatype Phenotype = Phenotype(subjects: seq<string>, age: seq<Float>, gender: seq<Float>, groups: seq<Cell>)

  /** The participants.tsv columns that become `age`, `gender` and `groups` for a dataset. */
  datatype PhenotypeColumns = PhenotypeColumns(age: string, gender: string, groups: string)

  /** `PHENOTYPE_INFO` of fmriprep.py (the degrees-of-freedom script has only the first two entries). */
  function PhenotypeInfo(dataset: string, withBrainCanada: bool): Option<PhenotypeColumns>
  {
    if dataset == "ds000228" then Some(PhenotypeColumns("Age", "Gender", "Child_Adult"))
    else if dataset == "ds000030" then Some(PhenotypeColumns("age", "gender", "diagnosis"))
    else if withBrainCanada && dataset == "brain_canada_fmriprep-20.2.7lts_1732217118" then
      Some(PhenotypeColumns("Âge", "Sexe", "Diagnostic"))
    else None
  }

  /** `participants.loc[:, columns].rename(columns=replace)`: a KeyError for an unknown dataset or a missing column. */
  function SelectCovariates(datasetName: string, subjects: seq<string>, phenotypic: seq<Row>, columns: set<string>, info: Option<PhenotypeColumns>): (r: Result<Covariates>)
    requires forall k :: 0 <= k < |phenotypic| ==> phenotypic[k].Keys == columns
    ensures r.Ok? <==> info.Some? && {info.value.age, info.value.gender, info.value.groups} <= columns
    ensures r.Ok? ==> var c := r.value;
      && c.subjects == subjects
      && |c.age| == |c.gender| == |c.groups| == |phenotypic|
      && forall k :: 0 <= k < |phenotypic| ==>
        && c.age[k] == phenotypic[k][info.value.age]
        && c.gender[k] == phenotypic[k][info.value.gender]
        && c.groups[k] == phenotypic[k][info.value.groups]
  {
    match info
    case None => Err(KeyError(datasetName))
    case Some(cols) =>
      if cols.age !in columns then Err(KeyError(cols.age))
      else if cols.gender !in columns then Err(KeyError(cols.gender))
      else if cols.groups !in columns then Err(KeyError(cols.groups))
      else
        var rows := phenotypic;
        Ok(Covariates(
          subjects,
          seq(|rows|, k requires 0 <= k < |rows| => rows[k][cols.age]),
          seq(|rows|, k requires 0 <= k < |rows| => rows[k][cols.gender]),
          seq(|rows|, k requires 0 <= k < |rows| => rows[k][cols.groups])))
  }

  /** The `.loc` recoding of fmriprep.py: "F" becomes 1, "M" becomes 0, anything else stays. */
  function RecodeGenderLoc(c: Cell): (r: Cell)
    ensures c == CStr("F") ==> r == CNum(1.0)
    ensures c == CStr("M") ==> r == CNum(0.0)
    ensures c != CStr("F") && c != CStr("M") ==> r == c
  {
    if c == CStr("F") then CNum(1.0) else if c == CStr("M") then CNum(0.0) else c
  }

  /** `.astype("float")` of one cell: numeric text is read as its number, other text raises. */
  function CastFloat(c: Cell): Result<Float>
  {
    match c
    case CNum(x) => Ok(Num(x))
    case CMissing => Ok(NaN)
    case CStr(s) =>
      match ParseReal(s)
      case Some(v) => Ok(Num(v))
      case None => Err(ValueError("could not convert string to float"))
  }

  /** A cell the float cast accepts. */
  predicate Castable(c: Cell)
  {
    c.CStr? ==> ParseReal(c.s).Some?
  }

  /** `.astype("float")` of a column: fails iff some cell is text that is not a number. */
  function CastColumn(cells: seq<Cell>): (r: Result<seq<Float>>)
    ensures r.Ok? <==> forall k :: 0 <= k < |cells| ==> Castable(cells[k])
    ensures r.Ok? ==> |r.value| == |cells| && forall k :: 0 <= k < |cells| ==> Ok(r.value[k]) == CastFloat(cells[k])
    decreases |cells|
  {
    if |cells| == 0 then Ok([])
    else match (CastFloat(cells[0]), CastColumn(cells[1..]))
      case (Ok(x), Ok(xs)) => Ok([x] + xs)
      case (Err(e), _) => Err(e)
      case (_, Err(e)) => Err(e)
  }

  /** Gender recoded by `recode`, then gender and age cast to float. */
  function CastCovariates(c: Covariates, gender: seq<Cell>): (r: Result<Phenotype>)
    requires |gender| == |c.gender|
    ensures r.Ok? <==> CastColumn(gender).Ok? && CastColumn(c.age).Ok?
    ensures r.Ok? ==> r.value == Phenotype(c.subjects, CastColumn(c.age).value, CastColumn(gender).value, c.groups)
  {
    match (CastColumn(gender), CastColumn(c.age))
    case (Ok(g), Ok(a)) => Ok(Phenotype(c.subjects, a, g, c.groups))
    case (Err(e), _) => Err(e)
    case (_, Err(e)) => Err(e)
  }

  /** One row of the movement summary. */
  datatype SummaryRow = SummaryRow(subject: string, meanFd: real, age: Float, gender: Float, groups: Cell)

  /**
   * `pd.concat((group_mean_fd, covar), axis=1, join="inner")`: the subjects of the FD table
   * that also have a phenotype row, in the FD table's order.
   */
  function InnerJoin(fd: FdTable, p: Phenotype): (r: seq<SummaryRow>)
    requires fd.Valid()
    requires |p.age| == |p.subjects| && |p.gender| == |p.subjects| && |p.groups| == |p.subjects|
    decreases |fd.ids|
  {
    if |fd.ids| == 0 then []
    else
      var id := fd.ids[0];
      var rest := InnerJoin(FdTable(fd.ids[1..], fd.fd - {id}), p);
      if id in p.subjects then
        var k := IndexOf(p.subjects, id);
        [SummaryRow(id, fd.fd[id], p.age[k], p.gender[k], p.groups[k])] + rest
      else rest
  }

  /** The inner join keeps exactly the subjects present on both sides, in FD order, with both sides' values. */
  lemma {:induction false} InnerJoinRows(fd: FdTable, p: Phenotype)
    requires fd.Valid()
    requires |p.age| == |p.subjects| && |p.gender| == |p.subjects| && |p.groups| == |p.subjects|
    ensures var r := InnerJoin(fd, p);
      && |r| == |Filter(InSeq(p.subjects), fd.ids)|
      && forall k :: 0 <= k < |r| ==>
        && r[k].subject == Filter(InSeq(p.subjects), fd.ids)[k]
        && r[k].subject in p.subjects
        && r[k].subject in fd.fd && r[k].meanFd == fd.fd[r[k].subject]
        && var j := IndexOf(p.subjects, r[k].subject);
           r[k].age == p.age[j] && r[k].gender == p.gender[j] && r[k].groups == p.groups[j]
    decreases |fd.ids|
  {
    if |fd.ids| > 0 {
      var id := fd.ids[0];
      var tail := FdTable(fd.ids[1..], fd.fd - {id});
      assert tail.Valid() by {
        forall x ensures x in tail.fd <==> x in tail.ids {
          assert fd.ids == [id] + fd.ids[1..];
        }
      }
      InnerJoinRows(tail, p);
    }
  }

  /** The `.loc` recoding applied to the whole gender column. */
  function RecodeGenderColumn(cells: seq<Cell>): (r: seq<Cell>)
    ensures |r| == |cells| && forall k :: 0 <= k < |cells| ==> r[k] == RecodeGenderLoc(cells[k])
  {
    seq(|cells|, k requires 0 <= k < |cells| => RecodeGenderLoc(cells[k]))
  }

  /**
   * With the `.loc` recoding the float cast fails exactly when some gender is text other than
   * "F", "M" or a number; "F" and "M" become 1 and 0, and every other cell casts as it is.
   */
  lemma GenderCastLoc(cells: seq<Cell>)
    ensures CastColumn(RecodeGenderColumn(cells)).Ok? <==>
      forall k :: 0 <= k < |cells| ==> cells[k] == CStr("F") || cells[k] == CStr("M") || Castable(cells[k])
    ensures CastColumn(RecodeGenderColumn(cells)).Ok? ==> forall k :: 0 <= k < |cells| ==>
      CastColumn(RecodeGenderColumn(cells)).value[k] ==
        (if cells[k] == CStr("F") then Num(1.0) else if cells[k] == CStr("M") then Num(0.0) else CastFloat(cells[k]).value)
  {
    var r := RecodeGenderColumn(cells);
    if !CastColumn(r).Ok? {
      var k :| 0 <= k < |r| && !Castable(r[k]);
      assert cells[k] != CStr("F") && cells[k] != CStr("M") && !Castable(cells[k]);
    }
  }

  /** A numeric "0" next to an "F" is kept as a number, not rejected: the column casts to 1 and 0. */
  lemma GenderCastMixed()
    ensures CastColumn(RecodeGenderColumn([CStr("F"), CStr("0")])) == Ok([Num(1.0), Num(0.0)])
  {
    ParseNatToString(0);
    assert NatToString(0) == "0";
    var r := RecodeGenderColumn([CStr("F"), CStr("0")]);
    assert r == [CNum(1.0), CStr("0")];
    assert CastFloat(CStr("0")) == Ok(Num(0.0));
    var c := CastColumn(r);
    assert c.Ok?;
    assert |c.value| == 2 && c.value[0] == Num(1.0) && c.value[1] == Num(0.0);
    assert c.value == [Num(1.0), Num(0.0)];
  }

  /** What `generate_movement_summary` (fmriprep.py) computes, as a composition of its steps. */
  function MovementSummary(data: Derivative, participantColumns: set<string>, readFd: string -> FdRead): Result<seq<SummaryRow>>
    requires forall k :: 0 <= k < |data.phenotypic| ==> data.phenotypic[k].Keys == participantColumns
    requires |data.subjects| == |data.phenotypic|
  {
    match FdFold(FdTable([], map[]), data.confounds, readFd, false)
    case Err(e) => Err(e)
    case Ok(fd) =>
      match SelectCovariates(data.datasetName, data.subjects, data.phenotypic, participantColumns, PhenotypeInfo(data.datasetName, true))
      case Err(e) => Err(e)
      case Ok(c) =>
        match CastCovariates(c, RecodeGenderColumn(c.gender))
        case Err(e) => Err(e)
        case Ok(p) => Ok(InnerJoin(fd, p))
  }

  /** The subject labels of summary rows, in order. */
  function RowSubjects(rows: seq<SummaryRow>): (r: seq<string>)
    ensures |r| == |rows| && forall i :: 0 <= i < |rows| ==> r[i] == rows[i].subject
  {
    seq(|rows|, i requires 0 <= i < |rows| => rows[i].subject)
  }

  /** A gender cell the `.loc` recoding and the float cast accept. */
  predicate GenderCastable(c: Cell)
  {
    c == CStr("F") || c == CStr("M") || Castable(c)
  }

  /**
   * The summary of fmriprep.py fails exactly when a confounds file is unreadable, the dataset
   * or one of its columns is unknown, or a gender or an age cannot be cast.
   */
  lemma MovementSummaryFails(data: Derivative, participantColumns: set<string>, readFd: string -> FdRead)
    requires forall k :: 0 <= k < |data.phenotypic| ==> data.phenotypic[k].Keys == participantColumns
    requires |data.subjects| == |data.phenotypic|
    ensures var covar := SelectCovariates(data.datasetName, data.subjects, data.phenotypic, participantColumns, PhenotypeInfo(data.datasetName, true));
      MovementSummary(data, participantColumns, readFd).Err? <==>
        || (exists k :: 0 <= k < |data.confounds| && readFd(data.confounds[k]).Unreadable?)
        || covar.Err?
        || (exists k :: 0 <= k < |covar.value.gender| && !GenderCastable(covar.value.gender[k]))
        || (exists k :: 0 <= k < |covar.value.age| && !Castable(covar.value.age[k]))
  {
    FdFoldStrict(FdTable([], map[]), data.confounds, readFd);
    var covar := SelectCovariates(data.datasetName, data.subjects, data.phenotypic, participantColumns, PhenotypeInfo(data.datasetName, true));
    if covar.Ok? {
      GenderCastLoc(covar.value.gender);
    }
  }

  /**
   * The rows of a successful summary of fmriprep.py: the subjects of the FD table that have a
   * phenotype row, in FD order, each with its mean FD and its own cast age, recoded gender and group.
   */
  lemma MovementSummaryRows(data: Derivative, participantColumns: set<string>, readFd: string -> FdRead)
    requires forall k :: 0 <= k < |data.phenotypic| ==> data.phenotypic[k].Keys == participantColumns
    requires |data.subjects| == |data.phenotypic|
    requires MovementSummary(data, participantColumns, readFd).Ok?
    ensures var fd := FdFold(FdTable([], map[]), data.confounds, readFd, false).value;
      var covar := SelectCovariates(data.datasetName, data.subjects, data.phenotypic, participantColumns, PhenotypeInfo(data.datasetName, true)).value;
      var r := MovementSummary(data, participantColumns, readFd).value;
      && RowSubjects(r) == Filter(InSeq(data.subjects), fd.ids)
      && forall i :: 0 <= i < |r| ==>
        && r[i].subject in data.subjects
        && r[i].subject in fd.fd && r[i].meanFd == fd.fd[r[i].subject]
        && var j := IndexOf(data.subjects, r[i].subject);
          && Ok(r[i].age) == CastFloat(covar.age[j])
          && Ok(r[i].gender) == CastFloat(RecodeGenderLoc(covar.gender[j]))
          && r[i].groups == covar.groups[j]
  {
    var fd := FdFold(FdTable([], map[]), data.confounds, readFd, false).value;
    var c := SelectCovariates(data.datasetName, data.subjects, data.phenotypic, participantColumns, PhenotypeInfo(data.datasetName, true)).value;
    var g := CastColumn(RecodeGenderColumn(c.gender)).value;
    var a := CastColumn(c.age).value;
    var p := Phenotype(c.subjects, a, g, c.groups);
    assert MovementSummary(data, participantColumns, readFd) == Ok(InnerJoin(fd, p));
    InnerJoinRows(fd, p);
    var rows := InnerJoin(fd, p);
    forall i | 0 <= i < |rows|
      ensures var j := IndexOf(data.subjects, rows[i].subject);
        && Ok(rows[i].age) == CastFloat(c.age[j])
        && Ok(rows[i].gender) == CastFloat(RecodeGenderLoc(c.gender[j]))
    {
      var j := IndexOf(data.subjects, rows[i].subject);
      assert RecodeGenderColumn(c.gender)[j] == RecodeGenderLoc(c.gender[j]);
    }
  }

  /**
   * `generate_movement_summary` (fmriprep.py): mean FD per subject, the renamed covariates
   * with gender recoded by `.loc`, both cast to float, inner-joined.
   */
  method GenerateMovementSummary(data: Derivative, participantColumns: set<string>, readFd: string -> FdRead)
    returns (r: Result<seq<SummaryRow>>)
    requires forall k :: 0 <= k < |data.phenotypic| ==> data.phenotypic[k].Keys == participantColumns
    requires |data.subjects| == |data.phenotypic|
    ensures r == MovementSummary(data, participantColumns, readFd)
  {
    var fd := CollectMeanFd(data.confounds, readFd, false);
    if fd.Err? {
      return Err(fd.error);
    }
    var covar := SelectCovariates(data.datasetName, data.subjects, data.phenotypic, participantColumns, PhenotypeInfo(data.datasetName, true));
    if covar.Err? {
      return Err(covar.error);
    }
    var pheno := CastCovariates(covar.value, RecodeGenderColumn(covar.value.gender));
    if pheno.Err? {
      return Err(pheno.error);
    }
    r := Ok(InnerJoin(fd.value, pheno.value));
  }
}
