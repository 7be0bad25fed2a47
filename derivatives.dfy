/**
 * The derivative layer of the feature builder: the motion-QC preset lookup, loading the
 * extracted region time series of each participant, and reconciling the connectomes with
 * the phenotype table. File listings, sizes and table contents are abstract inputs; the
 * correlation itself is an abstract function of one subject's time series.
 */
module Derivatives {
  import opened Wrappers
  import opened Strings
  import opened Seqs
  import opened Config
  import opened Fmriprep

  // ------------------------------------------------------------------
  // Motion QC presets

  const MotionQcFile := "motion_qc.json"

  /** The thresholds of "no motion QC". */
  const NoQc: Params := map["gross_fd" := JNull, "fd_thresh" := JNull, "proportion_thresh" := JNull]

  /**
   * `get_qc_criteria`: the presets file is read first (None when it is missing); no name
   * means no QC at all, a known name its preset, an unknown name NotImplementedError.
   */
  function GetQcCriteria(presets: Option<map<string, Params>>, name: Option<string>): (r: Result<Params>)
    ensures presets.None? ==> r == Err(FileNotFound(MotionQcFile))
    ensures presets.Some? && name.None? ==>
      r.Ok? && r.value.Keys == {"gross_fd", "fd_thresh", "proportion_thresh"}
      && forall k :: k in r.value ==> r.value[k] == JNull
    ensures presets.Some? && name.Some? ==>
      && (r.Ok? <==> name.value in presets.value)
      && (r.Err? ==> r.error == NotImplemented(name.value))
      && (r.Ok? ==> r.value == presets.value[name.value])
  {
    match presets
    case None => Err(FileNotFound(MotionQcFile))
    case Some(qc) =>
      match name
      case None => Ok(NoQc)
      case Some(n) => if n !in qc then Err(NotImplemented(n)) else Ok(qc[n])
  }

  // ------------------------------------------------------------------
  // Loading the time series

  /** Volumes by regions, as `df.values` of a headerless TSV. */
  type TimeSeries = seq<seq<real>>

  /** A headerless TSV as pandas reads it: its column count and its values. */
  datatype Raw = Raw(width: nat, values: TimeSeries)

  /** The extracted derivatives as the loader sees them. */
  datatype Store = Store(
    listDir: string -> seq<string>,   // the names in a subject's directory
    size: string -> int,              // `st_size` of a file
    read: string -> Raw)              // `read_csv(path, sep="\t", header=None)`

  /** The glob `{subject}_*_{pattern}_timeseries.tsv` applied to one name. */
  predicate MatchesTimeseries(name: string, subject: string, pattern: string)
  {
    var head := subject + "_";
    var tail := "_" + pattern + "_timeseries.tsv";
    && |head| + |tail| <= |name|
    && StartsWith(name, head) && EndsWith(name, tail)
  }

  function TimeseriesMatches(store: Store, dir: string, subject: string, pattern: string): seq<string>
  {
    Filter((n: string) => MatchesTimeseries(n, subject, pattern), store.listDir(PathJoin(dir, subject)))
  }

  /** What the loader does with one participant. */
  datatype Outcome = Skip | Load(ts: TimeSeries) | Fail(error: Error)

  /**
   * One participant: several matching files is an error, none is a skip, a file of at most
   * one byte is a skip, and otherwise the table is loaded once its columns have been
   * relabelled, position by position, with the region list (a length mismatch raises).
   */
  function SubjectOutcome(store: Store, dir: string, subject: string, pattern: string, roi: seq<string>): (o: Outcome)
    ensures o.Fail? ==> o.error.ValueError?
    ensures o.Load? ==> |TimeseriesMatches(store, dir, subject, pattern)| == 1
  {
    var m := TimeseriesMatches(store, dir, subject, pattern);
    if |m| > 1 then Fail(ValueError("Found more than one valid file"))
    else if |m| == 0 then Skip
    else
      var path := PathJoin(PathJoin(dir, subject), m[0]);
      if store.size(path) <= 1 then Skip
      else
        var raw := store.read(path);
        if raw.width != |roi| then Fail(ValueError("Length mismatch")) else Load(raw.values)
  }

  /** The participants whose time series get loaded. */
  function Loads(store: Store, dir: string, pattern: string, roi: seq<string>): string -> bool
  {
    (s: string) => SubjectOutcome(store, dir, s, pattern, roi).Load?
  }

  /** `_load_valid_timeseries` over `ids`, as a fold from the right: the first failure wins. */
  function Scan(store: Store, dir: string, ids: seq<string>, pattern: string, roi: seq<string>): Result<(seq<string>, seq<TimeSeries>)>
    decreases |ids|
  {
    if |ids| == 0 then Ok(([], []))
    else
      match SubjectOutcome(store, dir, ids[0], pattern, roi)
      case Fail(e) => Err(e)
      case Skip => Scan(store, dir, ids[1..], pattern, roi)
      case Load(ts) =>
        var rest := Scan(store, dir, ids[1..], pattern, roi);
        Prepend(ids[0], ts, rest)
  }

  function Prepend(id: string, ts: TimeSeries, rest: Result<(seq<string>, seq<TimeSeries>)>): Result<(seq<string>, seq<TimeSeries>)>
  {
    if rest.Err? then rest else Ok(([id] + rest.value.0, [ts] + rest.value.1))
  }

  /** What the loop has collected, put in front of what the rest of the participants give. */
  function Extend(ids: seq<string>, tss: seq<TimeSeries>, rest: Result<(seq<string>, seq<TimeSeries>)>): Result<(seq<string>, seq<TimeSeries>)>
  {
    if rest.Err? then rest else Ok((ids + rest.value.0, tss + rest.value.1))
  }

  /** `_load_valid_timeseries`: one pass over the participants, appending each loaded subject. */
  method LoadValidTimeseries(store: Store, dir: string, ids: seq<string>, pattern: string, roi: seq<string>)
    returns (r: Result<(seq<string>, seq<TimeSeries>)>)
    ensures r == Scan(store, dir, ids, pattern, roi)
  {
    var validIds: seq<string> := [];
    var validTs: seq<TimeSeries> := [];
    var i := 0;
    ExtendNothing(Scan(store, dir, ids, pattern, roi));
    assert ids[0..] == ids;
    while i < |ids|
      invariant 0 <= i <= |ids|
      invariant Scan(store, dir, ids, pattern, roi) == Extend(validIds, validTs, Scan(store, dir, ids[i..], pattern, roi))
    {
      assert ids[i..][1..] == ids[i + 1..];
      var m := TimeseriesMatches(store, dir, ids[i], pattern);
      if |m| > 1 {
        return Err(ValueError("Found more than one valid file"));
      }
      if |m| == 1 {
        var path := PathJoin(PathJoin(dir, ids[i]), m[0]);
        if store.size(path) > 1 {
          var raw := store.read(path);
          if raw.width != |roi| {
            return Err(ValueError("Length mismatch"));
          }
          ExtendPrepend(validIds, validTs, ids[i], raw.values, Scan(store, dir, ids[i + 1..], pattern, roi));
          validIds := validIds + [ids[i]];
          validTs := validTs + [raw.values];
        }
      }
      i := i + 1;
    }
    assert ids[i..] == [];
    assert validIds + [] == validIds && validTs + [] == validTs;
    r := Ok((validIds, validTs));
  }

  lemma ExtendNothing(rest: Result<(seq<string>, seq<TimeSeries>)>)
    ensures Extend([], [], rest) == rest
  {
    if rest.Ok? {
      assert [] + rest.value.0 == rest.value.0 && [] + rest.value.1 == rest.value.1;
    }
  }

  lemma ExtendPrepend(ids: seq<string>, tss: seq<TimeSeries>, id: string, ts: TimeSeries, rest: Result<(seq<string>, seq<TimeSeries>)>)
    ensures Extend(ids, tss, Prepend(id, ts, rest)) == Extend(ids + [id], tss + [ts], rest)
  {
    if rest.Ok? {
      assert ids + ([id] + rest.value.0) == (ids + [id]) + rest.value.0;
      assert tss + ([ts] + rest.value.1) == (tss + [ts]) + rest.value.1;
    }
  }

  /** The loader fails exactly when some participant fails. */
  lemma {:induction false} ScanFails(store: Store, dir: string, ids: seq<string>, pattern: string, roi: seq<string>)
    ensures Scan(store, dir, ids, pattern, roi).Err? <==>
      exists i :: 0 <= i < |ids| && SubjectOutcome(store, dir, ids[i], pattern, roi).Fail?
    ensures Scan(store, dir, ids, pattern, roi).Err? ==> Scan(store, dir, ids, pattern, roi).error.ValueError?
    decreases |ids|
  {
    if |ids| > 0 {
      ScanFails(store, dir, ids[1..], pattern, roi);
      if exists i :: 0 <= i < |ids[1..]| && SubjectOutcome(store, dir, ids[1..][i], pattern, roi).Fail? {
        var i :| 0 <= i < |ids[1..]| && SubjectOutcome(store, dir, ids[1..][i], pattern, roi).Fail?;
        assert ids[i + 1] == ids[1..][i];
      }
      if exists i :: 0 <= i < |ids| && SubjectOutcome(store, dir, ids[i], pattern, roi).Fail? {
        var i :| 0 <= i < |ids| && SubjectOutcome(store, dir, ids[i], pattern, roi).Fail?;
        if i > 0 {
          assert ids[1..][i - 1] == ids[i];
        }
      }
    }
  }

  /**
   * A successful load keeps exactly the participants whose time series load, in the
   * participants' order, with their time series aligned index by index.
   */
  lemma {:induction false} ScanLoads(store: Store, dir: string, ids: seq<string>, pattern: string, roi: seq<string>)
    requires Scan(store, dir, ids, pattern, roi).Ok?
    ensures var out := Scan(store, dir, ids, pattern, roi).value;
      && out.0 == Filter(Loads(store, dir, pattern, roi), ids)
      && |out.1| == |out.0|
      && forall k :: 0 <= k < |out.0| ==> SubjectOutcome(store, dir, out.0[k], pattern, roi) == Load(out.1[k])
    decreases |ids|
  {
    if |ids| > 0 {
      ScanLoads(store, dir, ids[1..], pattern, roi);
    }
  }

  /**
   * A participant left out of a successful load had no matching file or a file of at most
   * one byte: nobody is dropped for any other reason, and nobody is zero-filled.
   */
  lemma SkippedParticipants(store: Store, dir: string, ids: seq<string>, pattern: string, roi: seq<string>, s: string)
    requires Scan(store, dir, ids, pattern, roi).Ok?
    requires s in ids && s !in Scan(store, dir, ids, pattern, roi).value.0
    ensures var m := TimeseriesMatches(store, dir, s, pattern);
      |m| == 0 || (|m| == 1 && store.size(PathJoin(PathJoin(dir, s), m[0])) <= 1)
  {
    ScanLoads(store, dir, ids, pattern, roi);
    ScanFails(store, dir, ids, pattern, roi);
    FilterMembership(Loads(store, dir, pattern, roi), ids, s);
    var i :| 0 <= i < |ids| && ids[i] == s;
    assert !SubjectOutcome(store, dir, ids[i], pattern, roi).Fail?;
  }

  // ------------------------------------------------------------------
  // Connectomes and phenotype

  /** A data frame reduced to its row index and its rows. */
  datatype Frame<V> = Frame(index: seq<string>, rows: seq<V>)
  {
    predicate Valid()
    {
      |index| == |rows|
    }
  }

  /** `frame.loc[idx, :]` for labels that are all in the index: the first row of each label. */
  function Loc<V>(f: Frame<V>, idx: seq<string>): (r: Frame<V>)
    requires f.Valid()
    requires forall x :: x in idx ==> x in f.index
    ensures r.Valid() && r.index == idx
    ensures forall k :: 0 <= k < |idx| ==> r.rows[k] == f.rows[IndexOf(f.index, idx[k])]
  {
    Frame(idx, seq(|idx|, k requires 0 <= k < |idx| => f.rows[IndexOf(f.index, idx[k])]))
  }

  /** `Index.intersection`: the distinct labels of `a` that are in `b`, in the order of `a`. */
  function Intersection(a: seq<string>, b: seq<string>): (r: seq<string>)
    ensures forall x :: x in r <==> x in a && x in b
    ensures Distinct(r)
    ensures IsSubsequence(r, a)
  {
    UniqueProperties(a);
    var r := Filter(InSeq(b), Unique(a));
    FilterIsSubsequence(InSeq(b), Unique(a));
    SubsequenceOfDistinct(r, Unique(a));
    UniqueIsSubsequence(a);
    SubsequenceTransitive(r, Unique(a), a);
    forall x ensures x in r <==> x in a && x in b {
      FilterMembership(InSeq(b), Unique(a), x);
    }
    r
  }

  /** One correlation vector per time series. */
  function Correlate(correlate: TimeSeries -> seq<real>, tss: seq<TimeSeries>): (r: seq<seq<real>>)
    ensures |r| == |tss| && forall k :: 0 <= k < |tss| ==> r[k] == correlate(tss[k])
  {
    seq(|tss|, k requires 0 <= k < |tss| => correlate(tss[k]))
  }

  /**
   * `compute_connectome` after the phenotype has been read: load the valid time series,
   * correlate each, and when the connectome and the phenotype differ in row count restrict
   * both to the labels they share.
   */
  function ComputeConnectome(
    phenotype: Frame<Row>, store: Store, dir: string, pattern: string, roi: seq<string>,
    correlate: TimeSeries -> seq<real>): (r: Result<(Frame<seq<real>>, Frame<Row>)>)
    requires phenotype.Valid()
    ensures r.Ok? ==> r.value.0.Valid() && r.value.1.Valid()
  {
    var loaded := Scan(store, dir, phenotype.index, pattern, roi);
    if loaded.Err? then Err(loaded.error)
    else
      ScanLoads(store, dir, phenotype.index, pattern, roi);
      var conn := Frame(loaded.value.0, Correlate(correlate, loaded.value.1));
      if |conn.index| != |phenotype.index| then
        var idx := Intersection(conn.index, phenotype.index);
        Ok((Loc(conn, idx), Loc(phenotype, idx)))
      else
        Ok((conn, phenotype))
  }

  lemma {:induction false} IndexOfDistinct(s: seq<string>, k: nat)
    requires Distinct(s) && k < |s|
    ensures IndexOf(s, s[k]) == k
  {
  }

  lemma {:induction false} UniqueOfDistinct(s: seq<string>)
    requires Distinct(s)
    ensures Unique(s) == s
    decreases |s|
  {
    if |s| > 0 {
      var init := s[..|s| - 1];
      UniqueOfDistinct(init);
      assert s == init + [s[|s| - 1]];
    }
  }

  /** Selecting every label of an index that repeats none gives the frame back. */
  lemma LocEverything<V>(f: Frame<V>)
    requires f.Valid() && Distinct(f.index)
    ensures Loc(f, f.index) == f
  {
    forall k | 0 <= k < |f.index| ensures IndexOf(f.index, f.index[k]) == k {
      IndexOfDistinct(f.index, k);
    }
  }

  /** Intersecting an ordered selection of labels with the index it came from gives the selection back. */
  lemma IntersectionOfSubsequence(a: seq<string>, b: seq<string>)
    requires IsSubsequence(a, b) && Distinct(a)
    ensures Intersection(a, b) == a
  {
    UniqueOfDistinct(a);
    forall x | x in a ensures InSeq(b)(x) {
      SubsequenceMembers(a, b, x);
    }
    FilterAll(InSeq(b), a);
  }

  /**
   * With a phenotype index that repeats no label, the connectome and the phenotype that come
   * back share one index, the loaded participants in phenotype order: the connectome is the
   * correlation of each loaded time series, and the phenotype is restricted to those
   * participants whether or not the row counts differed.
   */
  lemma ConnectomeMatchesPhenotype(
    phenotype: Frame<Row>, store: Store, dir: string, pattern: string, roi: seq<string>,
    correlate: TimeSeries -> seq<real>)
    requires phenotype.Valid() && Distinct(phenotype.index)
    requires ComputeConnectome(phenotype, store, dir, pattern, roi, correlate).Ok?
    ensures var loaded := Scan(store, dir, phenotype.index, pattern, roi).value;
      var valid := Filter(Loads(store, dir, pattern, roi), phenotype.index);
      && loaded.0 == valid
      && (forall x :: x in valid ==> x in phenotype.index)
      && ComputeConnectome(phenotype, store, dir, pattern, roi, correlate).value
        == (Frame(valid, Correlate(correlate, loaded.1)), Loc(phenotype, valid))
  {
    var loaded := Scan(store, dir, phenotype.index, pattern, roi).value;
    ScanLoads(store, dir, phenotype.index, pattern, roi);
    var valid := loaded.0;
    FilterIsSubsequence(Loads(store, dir, pattern, roi), phenotype.index);
    SubsequenceOfDistinct(valid, phenotype.index);
    var conn := Frame(valid, Correlate(correlate, loaded.1));
    forall x | x in valid ensures x in phenotype.index {
      FilterMembership(Loads(store, dir, pattern, roi), phenotype.index, x);
    }
    if |valid| != |phenotype.index| {
      IntersectionOfSubsequence(valid, phenotype.index);
      LocEverything(conn);
    } else {
      SubsequenceOfSameLength(valid, phenotype.index);
      LocEverything(phenotype);
    }
  }

  // ------------------------------------------------------------------
  // Region list

  /**
   * `load_full_roi_list`: the second column of the headerless atlas table (column label 1);
   * a table with fewer columns has no such label.
   */
  function LoadFullRoiList(atlasColumns: seq<seq<string>>): (r: Result<seq<string>>)
    ensures r.Ok? <==> |atlasColumns| >= 2
    ensures r.Err? ==> r.error == KeyError("1")
    ensures r.Ok? ==> r.value == atlasColumns[1]
  {
    if |atlasColumns| < 2 then Err(KeyError("1")) else Ok(atlasColumns[1])
  }
}
