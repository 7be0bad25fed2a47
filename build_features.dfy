/**
 * The metric builder: which strategies a run covers, the per-strategy connectome,
 * modularity and QC-FC tables, their canonical column order, and the merge of a run's
 * table into the table an earlier run wrote. Files, the correlation, Louvain modularity,
 * QC-FC statistics and the phenotype summary are abstract inputs.
 */
module Features {
  import opened Wrappers
  import opened Strings
  import opened Seqs
  import opened Config
  import opened Fmriprep
  import opened Derivatives

  // ------------------------------------------------------------------
  // Metric tables

  /** A column label: one level (connectome, modularity) or a (group, label) pair (QC-FC). */
  datatype Key = Single(name: string) | Pair(group: string, title: string)

  /** A column: its label and its values by row label; a row it lacks reads as NaN. */
  datatype Column = Column(key: Key, values: map<string, Float>)

  /** A metric table: whether its columns are a two-level index, its row labels and its columns in order. */
  datatype Table = Table(multi: bool, rows: set<string>, columns: seq<Column>)
  {
    /** The column labels are all pairs exactly when the table has a two-level column index. */
    predicate Valid()
    {
      forall i :: 0 <= i < |columns| ==> columns[i].key.Pair? == multi
    }
  }

  function KeysOf(cols: seq<Column>): (ks: seq<Key>)
    ensures |ks| == |cols| && forall i :: 0 <= i < |cols| ==> ks[i] == cols[i].key
  {
    seq(|cols|, i requires 0 <= i < |cols| => cols[i].key)
  }

  /** `df[(row, key)]`, NaN where the column has no value for the row. */
  function Cell(c: Column, row: string): Float
  {
    if row in c.values then c.values[row] else NaN
  }

  // ------------------------------------------------------------------
  // Strategy selection

  const Placeholder := "process all strategies."

  function IsRealStrategy(): string -> bool
  {
    (k: string) => Lower(k) != Placeholder
  }

  /** The registry's strategies without the "process all strategies." entry, in registry order. */
  function RealKeys(names: seq<string>): seq<string>
  {
    Filter(IsRealStrategy(), names)
  }

  /**
   * `_select_strategy_by_index`: the one-entry registry of the known strategy at `idx`;
   * an index outside the known strategies is a ValueError.
   */
  function SelectStrategyByIndex(config: Option<Registry>, idx: int): (r: Result<Registry>)
    requires config.Some? ==> config.value.Valid()
    ensures config.None? ==> r.Err? && r.error.FileNotFound?
    ensures config.Some? ==>
      var known := RealKeys(config.value.names);
      && (r.Ok? <==> 0 <= idx < |known|)
      && (r.Err? ==> r.error.ValueError?)
      && (r.Ok? ==>
        && r.value.names == [known[idx]] && r.value.Valid()
        && known[idx] in config.value.params
        && r.value.params == map[known[idx] := config.value.params[known[idx]]])
  {
    var all := GetPreproStrategy(config, None);
    if all.Err? then Err(all.error)
    else
      var known := RealKeys(all.value.names);
      if idx < 0 || idx >= |known| then Err(ValueError("strategy_index out of range"))
      else
        FilterMembership(IsRealStrategy(), all.value.names, known[idx]);
        GetPreproStrategy(config, Some(known[idx]))
  }

  /** The strategies of a run: all known ones, or the one an index selects. */
  function StrategyNames(config: Option<Registry>, index: Option<int>): (r: Result<seq<string>>)
    requires config.Some? ==> config.value.Valid()
  {
    match index
    case None =>
      var all := GetPreproStrategy(config, None);
      if all.Err? then Err(all.error) else Ok(RealKeys(all.value.names))
    case Some(idx) =>
      var one := SelectStrategyByIndex(config, idx);
      if one.Err? then Err(one.error) else Ok(one.value.names)
  }

  /** The selected strategies are known ones, in registry order, each once. */
  lemma StrategyNamesOrdered(config: Option<Registry>, index: Option<int>)
    requires config.Some? ==> config.value.Valid()
    requires StrategyNames(config, index).Ok?
    ensures config.Some?
    ensures var known := RealKeys(config.value.names);
      && Distinct(known)
      && IsSubsequence(StrategyNames(config, index).value, known)
      && Distinct(StrategyNames(config, index).value)
      && forall n :: n in StrategyNames(config, index).value ==> n in config.value.params && Lower(n) != Placeholder
  {
    var known := RealKeys(config.value.names);
    FilterIsSubsequence(IsRealStrategy(), config.value.names);
    SubsequenceOfDistinct(known, config.value.names);
    forall n | n in known ensures n in config.value.params && Lower(n) != Placeholder {
      FilterMembership(IsRealStrategy(), config.value.names, n);
    }
    var names := StrategyNames(config, index).value;
    if index.None? {
      SubsequenceReflexive(known);
    } else {
      var idx := index.value;
      assert names == [known[idx]];
      SingletonSubsequence(known, idx);
    }
  }

  // ------------------------------------------------------------------
  // Canonical column order

  /** The position of a QC-FC label's strategy (its text before the first `_`) among the keys, 1e9 when unknown. */
  function Rank(allKeys: seq<string>, title: string): nat
  {
    var strat := FirstField(title, '_');
    if strat in allKeys then IndexOf(allKeys, strat) else 1000000000
  }

  predicate LexLt(a: string, b: string)
  {
    LexLe(a, b) && a != b
  }

  function GroupOf(k: Key): string
  {
    match k
    case Single(n) => n
    case Pair(g, _) => g
  }

  function LabelOf(k: Key): string
  {
    match k
    case Single(n) => n
    case Pair(_, l) => l
  }

  /** Python's order on the sort key `(group, rank, label)` of a two-level column. */
  predicate KeyLe(allKeys: seq<string>, a: Key, b: Key)
  {
    var ra := Rank(allKeys, LabelOf(a));
    var rb := Rank(allKeys, LabelOf(b));
    || LexLt(GroupOf(a), GroupOf(b))
    || (GroupOf(a) == GroupOf(b) && (ra < rb || (ra == rb && LexLe(LabelOf(a), LabelOf(b)))))
  }

  lemma KeyLeTotal(allKeys: seq<string>, a: Key, b: Key)
    ensures KeyLe(allKeys, a, b) || KeyLe(allKeys, b, a)
  {
    LexLeTotal(GroupOf(a), GroupOf(b));
    LexLeTotal(LabelOf(a), LabelOf(b));
  }

  lemma KeyLeTransitive(allKeys: seq<string>, a: Key, b: Key, c: Key)
    requires KeyLe(allKeys, a, b) && KeyLe(allKeys, b, c)
    ensures KeyLe(allKeys, a, c)
  {
    var ga, gb, gc := GroupOf(a), GroupOf(b), GroupOf(c);
    if LexLt(ga, gb) && LexLt(gb, gc) {
      LexLeTransitive(ga, gb, gc);
      if ga == gc {
        LexLeAntisymmetric(ga, gb);
      }
    } else if LexLt(ga, gb) || LexLt(gb, gc) {
    } else if LexLe(LabelOf(a), LabelOf(b)) && LexLe(LabelOf(b), LabelOf(c)) {
      LexLeTransitive(LabelOf(a), LabelOf(b), LabelOf(c));
    }
  }

  predicate SortedBy(allKeys: seq<string>, cols: seq<Column>)
  {
    forall i, j :: 0 <= i < j < |cols| ==> KeyLe(allKeys, cols[i].key, cols[j].key)
  }

  /** Put `c` in front of the first column it does not sort after; ties keep `c` first, as a stable sort does. */
  function Insert(allKeys: seq<string>, c: Column, cols: seq<Column>): (r: seq<Column>)
    ensures multiset(r) == multiset(cols) + multiset{c}
    decreases |cols|
  {
    if |cols| == 0 then [c]
    else if KeyLe(allKeys, c.key, cols[0].key) then [c] + cols
    else
      assert cols == [cols[0]] + cols[1..];
      [cols[0]] + Insert(allKeys, c, cols[1..])
  }

  /** `sorted(df.columns, key=sort_key)` */
  function SortColumns(allKeys: seq<string>, cols: seq<Column>): seq<Column>
    decreases |cols|
  {
    if |cols| == 0 then [] else Insert(allKeys, cols[0], SortColumns(allKeys, cols[1..]))
  }

  /** Putting `c` in front of a sorted sequence whose first key it does not follow keeps it sorted. */
  lemma InsertFrontSorted(allKeys: seq<string>, c: Column, cols: seq<Column>)
    requires SortedBy(allKeys, cols) && |cols| > 0 && KeyLe(allKeys, c.key, cols[0].key)
    ensures SortedBy(allKeys, [c] + cols)
  {
    var r := [c] + cols;
    forall i, j | 0 <= i < j < |r| ensures KeyLe(allKeys, r[i].key, r[j].key) {
      if i == 0 && j > 1 {
        KeyLeTransitive(allKeys, c.key, cols[0].key, cols[j - 1].key);
      }
    }
  }

  /** Every column of `Insert(c, rest)` is `c` or a column of `rest`. */
  lemma InsertMembers(allKeys: seq<string>, c: Column, rest: seq<Column>, k: nat)
    requires k < |Insert(allKeys, c, rest)|
    ensures Insert(allKeys, c, rest)[k] == c || Insert(allKeys, c, rest)[k] in rest
  {
    var r := Insert(allKeys, c, rest);
    assert r[k] in multiset(r);
    assert r[k] in multiset(rest) + multiset{c};
  }

  lemma {:induction false} InsertSorted(allKeys: seq<string>, c: Column, cols: seq<Column>)
    requires SortedBy(allKeys, cols)
    ensures SortedBy(allKeys, Insert(allKeys, c, cols))
    decreases |cols|
  {
    if |cols| == 0 {
    } else if KeyLe(allKeys, c.key, cols[0].key) {
      InsertFrontSorted(allKeys, c, cols);
    } else {
      KeyLeTotal(allKeys, c.key, cols[0].key);
      InsertSorted(allKeys, c, cols[1..]);
      var rest := Insert(allKeys, c, cols[1..]);
      forall k | 0 <= k < |rest| ensures KeyLe(allKeys, cols[0].key, rest[k].key) {
        InsertMembers(allKeys, c, cols[1..], k);
        if rest[k] != c {
          var m :| 0 <= m < |cols[1..]| && cols[1..][m] == rest[k];
          assert cols[m + 1] == rest[k];
        }
      }
      assert Insert(allKeys, c, cols) == [cols[0]] + rest;
    }
  }

  /** The two-level order is sorted by the key and is a permutation of the columns. */
  lemma {:induction false} SortColumnsSpec(allKeys: seq<string>, cols: seq<Column>)
    ensures SortedBy(allKeys, SortColumns(allKeys, cols))
    ensures multiset(SortColumns(allKeys, cols)) == multiset(cols)
    decreases |cols|
  {
    if |cols| > 0 {
      var rest := SortColumns(allKeys, cols[1..]);
      SortColumnsSpec(allKeys, cols[1..]);
      InsertSorted(allKeys, cols[0], rest);
      assert SortColumns(allKeys, cols) == Insert(allKeys, cols[0], rest);
      assert cols == [cols[0]] + cols[1..];
      assert multiset(cols) == multiset{cols[0]} + multiset(cols[1..]);
    }
  }

  function HasSingle(cols: seq<Column>): string -> bool
  {
    (n: string) => Single(n) in KeysOf(cols)
  }

  /** The first column labelled `k`. */
  function ColumnWith(cols: seq<Column>, k: Key): (c: Column)
    requires k in KeysOf(cols)
    ensures c in cols && c.key == k
    decreases |cols|
  {
    if cols[0].key == k then cols[0]
    else
      assert KeysOf(cols)[1..] == KeysOf(cols[1..]);
      ColumnWith(cols[1..], k)
  }

  /**
   * `_order_columns`: a two-level table is sorted by `(group, rank, label)`; a one-level
   * table is reindexed to the known strategies it has, in registry order, dropping the rest
   * (reindexing refuses a table with a repeated label).
   */
  function OrderColumns(allKeys: seq<string>, t: Table): Result<Table>
  {
    if t.multi then Ok(Table(true, t.rows, SortColumns(allKeys, t.columns)))
    else if !Distinct(KeysOf(t.columns)) then Err(ValueError("cannot reindex on an axis with duplicate labels"))
    else
      var names := Filter(HasSingle(t.columns), allKeys);
      FilterOrdered(names, allKeys, t.columns);
      Ok(Table(false, t.rows, seq(|names|, i requires 0 <= i < |names| => ColumnWith(t.columns, Single(names[i])))))
  }

  lemma FilterOrdered(names: seq<string>, allKeys: seq<string>, cols: seq<Column>)
    requires names == Filter(HasSingle(cols), allKeys)
    ensures forall i :: 0 <= i < |names| ==> Single(names[i]) in KeysOf(cols)
  {
    forall i | 0 <= i < |names| ensures Single(names[i]) in KeysOf(cols) {
      FilterMembership(HasSingle(cols), allKeys, names[i]);
    }
  }

  /** A two-level table comes back sorted by its key and with the same columns. */
  lemma OrderTwoLevel(allKeys: seq<string>, t: Table)
    requires t.multi
    ensures OrderColumns(allKeys, t).Ok?
    ensures var out := OrderColumns(allKeys, t).value;
      && out.multi && out.rows == t.rows
      && SortedBy(allKeys, out.columns)
      && multiset(out.columns) == multiset(t.columns)
  {
    SortColumnsSpec(allKeys, t.columns);
  }

  /**
   * A one-level table without a repeated label comes back with exactly its known
   * strategies' columns, in registry order; other columns are dropped.
   */
  lemma OrderOneLevel(allKeys: seq<string>, t: Table)
    requires !t.multi
    ensures OrderColumns(allKeys, t).Ok? <==> Distinct(KeysOf(t.columns))
    ensures OrderColumns(allKeys, t).Ok? ==>
      var out := OrderColumns(allKeys, t).value;
      var names := Filter(HasSingle(t.columns), allKeys);
      && !out.multi && out.rows == t.rows
      && KeysOf(out.columns) == seq(|names|, i requires 0 <= i < |names| => Single(names[i]))
      && (forall c :: c in out.columns ==> c in t.columns)
      && forall c :: c in t.columns && c.key.Single? && c.key.name in allKeys ==> c in out.columns
  {
    if Distinct(KeysOf(t.columns)) {
      forall c | c in t.columns && c.key.Single? && c.key.name in allKeys
        ensures c in OrderColumns(allKeys, t).value.columns
      {
        OneLevelKeepsColumn(allKeys, t, c);
      }
    }
  }

  /** A column of a known strategy survives the one-level reindex. */
  lemma OneLevelKeepsColumn(allKeys: seq<string>, t: Table, c: Column)
    requires !t.multi && Distinct(KeysOf(t.columns))
    requires c in t.columns && c.key.Single? && c.key.name in allKeys
    ensures c in OrderColumns(allKeys, t).value.columns
  {
    var out := OrderColumns(allKeys, t).value;
    var names := Filter(HasSingle(t.columns), allKeys);
    var j :| 0 <= j < |t.columns| && t.columns[j] == c;
    assert KeysOf(t.columns)[j] == c.key;
    FilterMembership(HasSingle(t.columns), allKeys, c.key.name);
    var i :| 0 <= i < |names| && names[i] == c.key.name;
    var d := ColumnWith(t.columns, Single(names[i]));
    var m :| 0 <= m < |t.columns| && t.columns[m] == d;
    assert KeysOf(t.columns)[m] == KeysOf(t.columns)[j];
    assert out.columns[i] == c;
  }

  // ------------------------------------------------------------------
  // Concatenation, relabelling and merge

  function UnionRows(tables: seq<Table>): set<string>
    decreases |tables|
  {
    if |tables| == 0 then {} else tables[0].rows + UnionRows(tables[1..])
  }

  function AllColumns(tables: seq<Table>): seq<Column>
    decreases |tables|
  {
    if |tables| == 0 then [] else tables[0].columns + AllColumns(tables[1..])
  }

  /** `pd.concat(tables, axis=1)`: columns side by side, rows the union of the tables' rows. */
  function Concat(tables: seq<Table>): Table
    requires |tables| > 0
  {
    Table(tables[0].multi, UnionRows(tables), AllColumns(tables))
  }

  function DropKeys(ks: seq<Key>): Column -> bool
  {
    (c: Column) => c.key !in ks
  }

  /**
   * The table an earlier run wrote, with every column the new table recomputes dropped,
   * outer-joined with the new table.
   */
  function JoinReplacing(prev: Table, t: Table): (r: Table)
  {
    Table(prev.multi, prev.rows + t.rows, Filter(DropKeys(KeysOf(t.columns)), prev.columns) + t.columns)
  }

  /** The write step: merge into the earlier table if there is one, then restore the canonical order. */
  function Merge(allKeys: seq<string>, prev: Option<Table>, t: Table): Result<Table>
  {
    match prev
    case None => OrderColumns(allKeys, t)
    case Some(p) => OrderColumns(allKeys, JoinReplacing(p, t))
  }

  /**
   * Before reordering, the merged table holds every new column, the earlier columns whose
   * label was not recomputed, and nothing else; its rows are the rows of both.
   */
  lemma JoinReplacingSpec(prev: Table, t: Table)
    ensures var j := JoinReplacing(prev, t);
      && j.rows == prev.rows + t.rows
      && forall c :: c in j.columns <==> c in t.columns || (c in prev.columns && c.key !in KeysOf(t.columns))
  {
    var j := JoinReplacing(prev, t);
    forall c ensures c in j.columns <==> c in t.columns || (c in prev.columns && c.key !in KeysOf(t.columns)) {
      FilterMembership(DropKeys(KeysOf(t.columns)), prev.columns, c);
    }
  }

  /**
   * After the merge of one-level tables, a recomputed strategy's column holds the new values,
   * a strategy not recomputed keeps its earlier column, and the rows are those of both tables.
   */
  lemma MergeOneLevel(allKeys: seq<string>, prev: Table, t: Table, n: string)
    requires !prev.multi
    requires Merge(allKeys, Some(prev), t).Ok?
    requires n in allKeys
    ensures var out := Merge(allKeys, Some(prev), t).value;
      && out.rows == prev.rows + t.rows
      && (forall c :: c in t.columns && c.key == Single(n) ==> c in out.columns)
      && (forall c :: c in prev.columns && c.key == Single(n) && Single(n) !in KeysOf(t.columns) ==> c in out.columns)
      && (forall c :: c in out.columns && c.key == Single(n) && Single(n) in KeysOf(t.columns) ==> c in t.columns)
  {
    var j := JoinReplacing(prev, t);
    JoinReplacingSpec(prev, t);
    OrderOneLevel(allKeys, j);
  }

  /** After the merge of two-level tables, the columns are the joined ones, sorted. */
  lemma MergeTwoLevel(allKeys: seq<string>, prev: Table, t: Table)
    requires prev.multi
    ensures Merge(allKeys, Some(prev), t).Ok?
    ensures var out := Merge(allKeys, Some(prev), t).value;
      && out.rows == prev.rows + t.rows
      && SortedBy(allKeys, out.columns)
      && forall c :: c in out.columns <==> c in t.columns || (c in prev.columns && c.key !in KeysOf(t.columns))
  {
    var j := JoinReplacing(prev, t);
    JoinReplacingSpec(prev, t);
    OrderTwoLevel(allKeys, j);
    var out := Merge(allKeys, Some(prev), t).value;
    forall c ensures c in out.columns <==> c in j.columns {
      assert c in out.columns <==> c in multiset(out.columns);
      assert c in j.columns <==> c in multiset(j.columns);
    }
  }

  // ------------------------------------------------------------------
  // One strategy's metric

  /** A metric table as the abstract QC-FC computation returns it: row labels and named columns. */
  datatype Metric = Metric(rows: set<string>, columns: seq<(string, map<string, Float>)>)

  /** What a run reads and calls besides its arguments. */
  datatype Inputs = Inputs(
    atlas: string, dimension: string,
    store: Store, dir: string, roi: seq<string>,
    describe: (Json, Json, Json) -> Frame<Row>,       // the phenotype `get_descriptive_data` gives for the QC thresholds
    correlate: TimeSeries -> seq<real>,
    anyFiles: string -> bool,                         // some subject directory holds a time series for the pattern
    average: Frame<seq<real>> -> map<string, Float>,  // `connectome.mean(axis=0)`, by edge
    louvain: seq<real> -> Float,
    qcfc: (Frame<Row>, Frame<seq<real>>) -> Metric)
  {
    ghost predicate Valid()
    {
      forall a, b, c :: describe(a, b, c).Valid()
    }
  }

  function FilePattern(atlas: string, dimension: string, strategy: string): string
  {
    "atlas-" + atlas + "_nroi-" + dimension + "_desc-" + strategy
  }

  /** The three thresholds, read from the QC preset in the order the call passes them. */
  function Thresholds(qc: Params): (r: Result<(Json, Json, Json)>)
    ensures r.Ok? <==> "gross_fd" in qc && "fd_thresh" in qc && "proportion_thresh" in qc
    ensures r.Err? ==> r.error.KeyError?
  {
    if "gross_fd" !in qc then Err(KeyError("gross_fd"))
    else if "fd_thresh" !in qc then Err(KeyError("fd_thresh"))
    else if "proportion_thresh" !in qc then Err(KeyError("proportion_thresh"))
    else Ok((qc["gross_fd"], qc["fd_thresh"], qc["proportion_thresh"]))
  }

  /** `connectome.mean(axis=0).to_frame(name=strategy)` */
  function AverageTable(strategy: string, average: map<string, Float>): Table
  {
    Table(false, average.Keys, [Column(Single(strategy), average)])
  }

  /** One Louvain modularity per subject, in a column named after the strategy. */
  function ModularityTable(strategy: string, conn: Frame<seq<real>>, louvain: seq<real> -> Float): Table
    requires conn.Valid()
  {
    var values := map l | l in conn.index :: louvain(conn.rows[IndexOf(conn.index, l)]);
    Table(false, set l | l in conn.index, [Column(Single(strategy), values)])
  }

  /** The QC-FC columns of one sample, labelled `(group, "{strategy}_{column}")`. */
  function Relabel(m: Metric, group: string, strategy: string): (t: Table)
    ensures t.Valid() && t.multi && t.rows == m.rows && |t.columns| == |m.columns|
    ensures forall i :: 0 <= i < |m.columns| ==>
      t.columns[i] == Column(Pair(group, strategy + "_" + m.columns[i].0), m.columns[i].1)
  {
    Table(true, m.rows, seq(|m.columns|, i requires 0 <= i < |m.columns| =>
      Column(Pair(group, strategy + "_" + m.columns[i].0), m.columns[i].1)))
  }

  /** `phenotype["groups"]`, row by row; a row without the column is a KeyError, a value that is not text a TypeError. */
  function GroupLabels(rows: seq<Row>): (r: Result<seq<string>>)
    ensures r.Ok? ==> |r.value| == |rows|
    ensures r.Ok? ==> forall k :: 0 <= k < |rows| ==> "groups" in rows[k] && rows[k]["groups"] == CStr(r.value[k])
    decreases |rows|
  {
    if |rows| == 0 then Ok([])
    else if "groups" !in rows[0] then Err(KeyError("groups"))
    else if !rows[0]["groups"].CStr? then Err(TypeError("groups"))
    else
      var rest := GroupLabels(rows[1..]);
      if rest.Err? then rest else Ok([rows[0]["groups"].s] + rest.value)
  }

  /** `phenotype[phenotype["groups"] == group].index` */
  function Members(index: seq<string>, labels: seq<string>, group: string): (r: seq<string>)
    requires |labels| == |index|
    decreases |index|
  {
    if |index| == 0 then []
    else (if labels[0] == group then [index[0]] else []) + Members(index[1..], labels[1..], group)
  }

  /** A group's rows are exactly the labelled rows of that group, in phenotype order. */
  lemma {:induction false} MembersSpec(index: seq<string>, labels: seq<string>, group: string, x: string)
    requires |labels| == |index|
    ensures x in Members(index, labels, group) <==> exists k :: 0 <= k < |index| && index[k] == x && labels[k] == group
    decreases |index|
  {
    if |index| > 0 {
      MembersSpec(index[1..], labels[1..], group, x);
      if exists k :: 0 <= k < |index| && index[k] == x && labels[k] == group {
        var k :| 0 <= k < |index| && index[k] == x && labels[k] == group;
        if k > 0 {
          assert index[1..][k - 1] == x && labels[1..][k - 1] == group;
        }
      }
      if exists k :: 0 <= k < |index[1..]| && index[1..][k] == x && labels[1..][k] == group {
        var k :| 0 <= k < |index[1..]| && index[1..][k] == x && labels[1..][k] == group;
        assert index[k + 1] == x && labels[k + 1] == group;
      }
    }
  }

  /** The per-group QC-FC tables, one per group in order; a group member missing from the connectome is a KeyError. */
  function GroupTables(qcfc: (Frame<Row>, Frame<seq<real>>) -> Metric, strategy: string,
    conn: Frame<seq<real>>, phen: Frame<Row>, labels: seq<string>, groups: seq<string>): (r: Result<seq<Table>>)
    requires conn.Valid() && phen.Valid() && |labels| == |phen.index|
    ensures r.Ok? ==> |r.value| == |groups|
    ensures r.Ok? ==> forall g :: 0 <= g < |groups| ==>
      var sub := Members(phen.index, labels, groups[g]);
      && (forall x :: x in sub ==> x in conn.index && x in phen.index)
      && r.value[g] == Relabel(qcfc(Loc(phen, sub), Loc(conn, sub)), groups[g], strategy)
    decreases |groups|
  {
    if |groups| == 0 then Ok([])
    else
      var sub := Members(phen.index, labels, groups[0]);
      if exists x :: x in sub && x !in conn.index then Err(KeyError("subgroup"))
      else
        MembersInIndex(phen.index, labels, groups[0]);
        var t := Relabel(qcfc(Loc(phen, sub), Loc(conn, sub)), groups[0], strategy);
        var rest := GroupTables(qcfc, strategy, conn, phen, labels, groups[1..]);
        if rest.Err? then rest
        else
          var r := [t] + rest.value;
          assert r[0] == t;
          assert forall g :: 1 <= g < |groups| ==> groups[g] == groups[1..][g - 1] && r[g] == rest.value[g - 1];
          Ok(r)
  }

  lemma MembersInIndex(index: seq<string>, labels: seq<string>, group: string)
    requires |labels| == |index|
    ensures forall x :: x in Members(index, labels, group) ==> x in index
  {
    forall x | x in Members(index, labels, group) ensures x in index {
      MembersSpec(index, labels, group, x);
    }
  }

  /** The QC-FC step: the full sample first, then each distinct group in order of first appearance. */
  function QcfcTables(qcfc: (Frame<Row>, Frame<seq<real>>) -> Metric, strategy: string,
    conn: Frame<seq<real>>, phen: Frame<Row>): Result<seq<Table>>
    requires conn.Valid() && phen.Valid()
  {
    var full := Relabel(qcfc(phen, conn), "full_sample", strategy);
    var labels := GroupLabels(phen.rows);
    if labels.Err? then Err(labels.error)
    else
      var per := GroupTables(qcfc, strategy, conn, phen, labels.value, Unique(labels.value));
      if per.Err? then Err(per.error) else Ok([full] + per.value)
  }

  /**
   * The QC-FC tables of a strategy: one for the full sample, then one per distinct group,
   * each group's table computed on that group's rows only and labelled with the group.
   */
  lemma QcfcLabelling(qcfc: (Frame<Row>, Frame<seq<real>>) -> Metric, strategy: string,
    conn: Frame<seq<real>>, phen: Frame<Row>)
    requires conn.Valid() && phen.Valid()
    requires QcfcTables(qcfc, strategy, conn, phen).Ok?
    ensures var labels := GroupLabels(phen.rows).value;
      var groups := Unique(labels);
      var ts := QcfcTables(qcfc, strategy, conn, phen).value;
      && Distinct(groups) && (forall g :: g in groups <==> g in labels)
      && |ts| == 1 + |groups|
      && ts[0] == Relabel(qcfc(phen, conn), "full_sample", strategy)
      && var per := ts[1..];
      forall g :: 0 <= g < |groups| ==>
        && per[g].multi
        && (forall i :: 0 <= i < |per[g].columns| ==> per[g].columns[i].key.group == groups[g])
        && forall x :: x in Members(phen.index, labels, groups[g]) <==>
          exists k :: 0 <= k < |phen.index| && phen.index[k] == x && labels[k] == groups[g]
  {
    var labels := GroupLabels(phen.rows).value;
    UniqueProperties(labels);
    var groups := Unique(labels);
    forall g, x | 0 <= g < |groups|
      ensures x in Members(phen.index, labels, groups[g]) <==>
        exists k :: 0 <= k < |phen.index| && phen.index[k] == x && labels[k] == groups[g]
    {
      MembersSpec(phen.index, labels, groups[g], x);
    }
  }

  /** What one strategy contributes: nothing, or its tables and whether it names a connectome column. */
  datatype Step = Skipped | Produced(tables: seq<Table>, used: bool)

  /**
   * One pass of the strategy loop: a strategy without time series is skipped; otherwise the
   * connectome is computed and the metric option decides the tables, an empty connectome
   * skipping modularity and an unknown option raising ValueError.
   */
  function StrategyStep(inp: Inputs, qc: Params, metric: string, strategy: string): (r: Result<Step>)
    requires inp.Valid()
    ensures !inp.anyFiles(FilePattern(inp.atlas, inp.dimension, strategy)) ==> r == Ok(Skipped)
    ensures inp.anyFiles(FilePattern(inp.atlas, inp.dimension, strategy)) && metric !in {"connectome", "modularity", "qcfc"} ==> r.Err?
    ensures inp.anyFiles(FilePattern(inp.atlas, inp.dimension, strategy)) && metric == "modularity" && Thresholds(qc).Ok? ==>
      var th := Thresholds(qc).value;
      var cc := ComputeConnectome(inp.describe(th.0, th.1, th.2), inp.store, inp.dir,
        FilePattern(inp.atlas, inp.dimension, strategy), inp.roi, inp.correlate);
      cc.Ok? ==> r.Ok? && (r.value.Skipped? <==> |cc.value.0.rows| == 0 || |cc.value.0.rows[0]| == 0)
  {
    var pattern := FilePattern(inp.atlas, inp.dimension, strategy);
    if !inp.anyFiles(pattern) then Ok(Skipped)
    else
      var th := Thresholds(qc);
      if th.Err? then Err(th.error)
      else
        var cc := ComputeConnectome(inp.describe(th.value.0, th.value.1, th.value.2), inp.store, inp.dir, pattern, inp.roi, inp.correlate);
        if cc.Err? then Err(cc.error)
        else
          var conn := cc.value.0;
          var phen := cc.value.1;
          if metric == "connectome" then Ok(Produced([AverageTable(strategy, inp.average(conn))], true))
          else if metric == "modularity" then
            if |conn.rows| == 0 || |conn.rows[0]| == 0 then Ok(Skipped)
            else Ok(Produced([ModularityTable(strategy, conn, inp.louvain)], false))
          else if metric == "qcfc" then
            var ts := QcfcTables(inp.qcfc, strategy, conn, phen);
            if ts.Err? then Err(ts.error) else Ok(Produced(ts.value, false))
          else Err(ValueError(metric))
  }

  /** Every QC-FC table has a two-level column index. */
  lemma QcfcTablesShape(qcfc: (Frame<Row>, Frame<seq<real>>) -> Metric, strategy: string,
    conn: Frame<seq<real>>, phen: Frame<Row>)
    requires conn.Valid() && phen.Valid()
    requires QcfcTables(qcfc, strategy, conn, phen).Ok?
    ensures var ts := QcfcTables(qcfc, strategy, conn, phen).value;
      |ts| >= 1 && forall i :: 0 <= i < |ts| ==> ts[i].Valid() && ts[i].multi
  {
    var ts := QcfcTables(qcfc, strategy, conn, phen).value;
    var labels := GroupLabels(phen.rows).value;
    var per := GroupTables(qcfc, strategy, conn, phen, labels, Unique(labels)).value;
    assert ts == [ts[0]] + per;
    forall i | 1 <= i < |ts| ensures ts[i].Valid() && ts[i].multi {
      assert ts[i] == per[i - 1];
    }
  }

  /**
   * What a strategy that is not skipped contributes: at least one table, all two-level for
   * QC-FC and otherwise one table with one column named after the strategy; only the
   * connectome option records the strategy as used.
   */
  lemma StrategyStepTables(inp: Inputs, qc: Params, metric: string, strategy: string)
    requires inp.Valid()
    requires StrategyStep(inp, qc, metric, strategy).Ok? && StrategyStep(inp, qc, metric, strategy).value.Produced?
    ensures var step := StrategyStep(inp, qc, metric, strategy).value;
      && |step.tables| >= 1
      && (forall i :: 0 <= i < |step.tables| ==> step.tables[i].Valid() && step.tables[i].multi == (metric == "qcfc"))
      && (step.used <==> metric == "connectome")
      && (metric != "qcfc" ==> |step.tables| == 1 && KeysOf(step.tables[0].columns) == [Single(strategy)])
  {
    if metric == "qcfc" {
      var pattern := FilePattern(inp.atlas, inp.dimension, strategy);
      var th := Thresholds(qc).value;
      var cc := ComputeConnectome(inp.describe(th.0, th.1, th.2), inp.store, inp.dir, pattern, inp.roi, inp.correlate).value;
      QcfcTablesShape(inp.qcfc, strategy, cc.0, cc.1);
    }
  }

  // ------------------------------------------------------------------
  // The strategy loop

  /** What the loop collects: the metric tables and the strategies that named a connectome column. */
  function Collect(inp: Inputs, qc: Params, metric: string, names: seq<string>): Result<(seq<Table>, seq<string>)>
    requires inp.Valid()
    decreases |names|
  {
    if |names| == 0 then Ok(([], []))
    else
      var step := StrategyStep(inp, qc, metric, names[0]);
      if step.Err? then Err(step.error)
      else
        var rest := Collect(inp, qc, metric, names[1..]);
        if rest.Err? then rest
        else match step.value
          case Skipped => rest
          case Produced(ts, used) => Ok((ts + rest.value.0, (if used then [names[0]] else []) + rest.value.1))
  }

  /** The loop's results so far, in front of what the remaining strategies give. */
  function Glue(tables: seq<Table>, used: seq<string>, rest: Result<(seq<Table>, seq<string>)>): Result<(seq<Table>, seq<string>)>
  {
    if rest.Err? then rest else Ok((tables + rest.value.0, used + rest.value.1))
  }

  lemma GlueNothing(rest: Result<(seq<Table>, seq<string>)>)
    ensures Glue([], [], rest) == rest
  {
    if rest.Ok? {
      assert [] + rest.value.0 == rest.value.0 && [] + rest.value.1 == rest.value.1;
    }
  }

  lemma GlueStep(tables: seq<Table>, used: seq<string>, ts: seq<Table>, u: seq<string>, rest: Result<(seq<Table>, seq<string>)>)
    ensures rest.Ok? ==> Glue(tables, used, Ok((ts + rest.value.0, u + rest.value.1))) == Glue(tables + ts, used + u, rest)
    ensures rest.Err? ==> Glue(tables + ts, used + u, rest) == rest
  {
    if rest.Ok? {
      assert tables + (ts + rest.value.0) == (tables + ts) + rest.value.0;
      assert used + (u + rest.value.1) == (used + u) + rest.value.1;
    }
  }

  /** The strategy loop of `main`, appending to the collected metrics and the used strategy names. */
  method CollectMetrics(inp: Inputs, qc: Params, metric: string, names: seq<string>)
    returns (r: Result<(seq<Table>, seq<string>)>)
    requires inp.Valid()
    ensures r == Collect(inp, qc, metric, names)
  {
    var collection: seq<Table> := [];
    var used: seq<string> := [];
    GlueNothing(Collect(inp, qc, metric, names));
    assert names[0..] == names;
    var i := 0;
    while i < |names|
      invariant 0 <= i <= |names|
      invariant Collect(inp, qc, metric, names) == Glue(collection, used, Collect(inp, qc, metric, names[i..]))
    {
      assert names[i..][1..] == names[i + 1..];
      var step := StrategyStep(inp, qc, metric, names[i]);
      if step.Err? {
        return Err(step.error);
      }
      if step.value.Produced? {
        var u := if step.value.used then [names[i]] else [];
        GlueStep(collection, used, step.value.tables, u, Collect(inp, qc, metric, names[i + 1..]));
        collection := collection + step.value.tables;
        used := used + u;
      }
      i := i + 1;
    }
    assert collection + [] == collection && used + [] == used;
    r := Ok((collection, used));
  }

  /** Whether some subject holds a time series for the strategy's file pattern. */
  function HasSeries(inp: Inputs): string -> bool
  {
    (strategy: string) => inp.anyFiles(FilePattern(inp.atlas, inp.dimension, strategy))
  }

  /** For connectomes, the loop records exactly the strategies that have time series, in loop order. */
  lemma {:induction false} CollectConnectomeUsed(inp: Inputs, qc: Params, names: seq<string>)
    requires inp.Valid()
    requires Collect(inp, qc, "connectome", names).Ok?
    ensures Collect(inp, qc, "connectome", names).value.1 == Filter(HasSeries(inp), names)
    decreases |names|
  {
    if |names| > 0 {
      CollectConnectomeUsed(inp, qc, names[1..]);
    }
  }

  /** For connectomes, every produced table is one column named after a strategy the loop records, in loop order. */
  lemma {:induction false} CollectConnectome(inp: Inputs, qc: Params, names: seq<string>)
    requires inp.Valid()
    requires Collect(inp, qc, "connectome", names).Ok?
    ensures var out := Collect(inp, qc, "connectome", names).value;
      && |out.0| == |out.1|
      && IsSubsequence(out.1, names)
      && forall i :: 0 <= i < |out.0| ==> !out.0[i].multi && KeysOf(out.0[i].columns) == [Single(out.1[i])]
    decreases |names|
  {
    if |names| > 0 {
      CollectConnectome(inp, qc, names[1..]);
      var step := StrategyStep(inp, qc, "connectome", names[0]).value;
      var rest := Collect(inp, qc, "connectome", names[1..]).value;
      if step.Produced? {
        StrategyStepTables(inp, qc, "connectome", names[0]);
        var out := Collect(inp, qc, "connectome", names).value;
        assert out == ([step.tables[0]] + rest.0, [names[0]] + rest.1);
        assert out.1[1..] == rest.1;
      } else {
        SubsequenceOfTail(rest.1, names);
      }
    }
  }

  /** The labels of side-by-side one-column tables, in order. */
  lemma {:induction false} AllColumnKeys(ts: seq<Table>, used: seq<string>)
    requires |ts| == |used|
    requires forall i :: 0 <= i < |ts| ==> KeysOf(ts[i].columns) == [Single(used[i])]
    ensures KeysOf(AllColumns(ts)) == seq(|used|, i requires 0 <= i < |used| => Single(used[i]))
    decreases |ts|
  {
    if |ts| > 0 {
      AllColumnKeys(ts[1..], used[1..]);
      assert |ts[0].columns| == 1;
      assert AllColumns(ts) == ts[0].columns + AllColumns(ts[1..]);
    }
  }

  /** `collection_metric.columns = used_strategy_names` */
  function Rename(t: Table, names: seq<string>): (r: Table)
    requires |names| == |t.columns|
  {
    Table(t.multi, t.rows, seq(|names|, i requires 0 <= i < |names| => Column(Single(names[i]), t.columns[i].values)))
  }

  /**
   * The end of `main`: put the collected tables side by side (nothing collected is a ValueError),
   * restore the canonical order, and for connectomes name the columns after the used strategies.
   */
  function Assemble(allKeys: seq<string>, metric: string, tables: seq<Table>, used: seq<string>): (r: Result<Table>)
    ensures |tables| == 0 ==> r.Err? && r.error.ValueError?
  {
    if |tables| == 0 then Err(ValueError("No objects to concatenate"))
    else
      var ordered := OrderColumns(allKeys, Concat(tables));
      if ordered.Err? then ordered
      else if metric == "connectome" then
        if |ordered.value.columns| != |used| then Err(ValueError("Length mismatch"))
        else Ok(Rename(ordered.value, used))
      else ordered
  }

  /**
   * For connectomes the canonical order already lists the used strategies in loop order, so
   * the renaming at the end neither fails nor changes a label: the run's columns are named
   * after the strategies the loop recorded, in loop order.
   */
  lemma ConnectomeRenameKeepsLabels(inp: Inputs, qc: Params, allKeys: seq<string>, names: seq<string>)
    requires inp.Valid()
    requires IsSubsequence(names, allKeys) && Distinct(allKeys)
    requires Collect(inp, qc, "connectome", names).Ok? && |Collect(inp, qc, "connectome", names).value.0| > 0
    ensures var out := Collect(inp, qc, "connectome", names).value;
      var ordered := OrderColumns(allKeys, Concat(out.0));
      && ordered.Ok? && !ordered.value.multi
      && KeysOf(ordered.value.columns) == seq(|out.1|, i requires 0 <= i < |out.1| => Single(out.1[i]))
      && IsSubsequence(out.1, names)
      && Assemble(allKeys, "connectome", out.0, out.1) == ordered
  {
    var out := Collect(inp, qc, "connectome", names).value;
    var ts, used := out.0, out.1;
    CollectConnectome(inp, qc, names);
    SubsequenceTransitive(used, names, allKeys);
    SubsequenceOfDistinct(used, allKeys);
    var cols := AllColumns(ts);
    AllColumnKeys(ts, used);
    var c := Concat(ts);
    assert !c.multi;
    assert Distinct(KeysOf(cols));
    forall k | 0 <= k < |allKeys| ensures HasSingle(cols)(allKeys[k]) == InSeq(used)(allKeys[k]) {
      if allKeys[k] in used {
        var i :| 0 <= i < |used| && used[i] == allKeys[k];
        assert KeysOf(cols)[i] == Single(allKeys[k]);
      }
    }
    FilterExtensional(HasSingle(cols), InSeq(used), allKeys);
    FilterOfSubsequence(used, allKeys);
    var ordered := OrderColumns(allKeys, c).value;
    assert Rename(ordered, used) == ordered;
  }

  // ------------------------------------------------------------------
  // The whole run

  /**
   * `main` after argument parsing: the strategy registry, the strategies to run, the QC
   * preset, the strategy loop, the assembled table, and its merge into the table an earlier
   * run wrote (None when there is no such file).
   */
  function BuildFeatures(
    config: Option<Registry>, index: Option<int>, qcPresets: Option<map<string, Params>>, qcName: Option<string>,
    metric: string, inp: Inputs, prev: Option<Table>): Result<Table>
    requires config.Some? ==> config.value.Valid()
    requires inp.Valid()
  {
    var all := GetPreproStrategy(config, None);
    if all.Err? then Err(all.error)
    else
      var allKeys := RealKeys(all.value.names);
      var names := StrategyNames(config, index);
      if names.Err? then Err(names.error)
      else
        var qc := GetQcCriteria(qcPresets, qcName);
        if qc.Err? then Err(qc.error)
        else
          var collected := Collect(inp, qc.value, metric, names.value);
          if collected.Err? then Err(collected.error)
          else
            var t := Assemble(allKeys, metric, collected.value.0, collected.value.1);
            if t.Err? then t else Merge(allKeys, prev, t.value)
  }

  /** `main`, with its strategy loop. */
  method RunBuildFeatures(
    config: Option<Registry>, index: Option<int>, qcPresets: Option<map<string, Params>>, qcName: Option<string>,
    metric: string, inp: Inputs, prev: Option<Table>) returns (r: Result<Table>)
    requires config.Some? ==> config.value.Valid()
    requires inp.Valid()
    ensures r == BuildFeatures(config, index, qcPresets, qcName, metric, inp, prev)
  {
    var all := GetPreproStrategy(config, None);
    if all.Err? {
      return Err(all.error);
    }
    var allKeys := RealKeys(all.value.names);
    var names := StrategyNames(config, index);
    if names.Err? {
      return Err(names.error);
    }
    var qc := GetQcCriteria(qcPresets, qcName);
    if qc.Err? {
      return Err(qc.error);
    }
    var collected := CollectMetrics(inp, qc.value, metric, names.value);
    if collected.Err? {
      return Err(collected.error);
    }
    var t := Assemble(allKeys, metric, collected.value.0, collected.value.1);
    if t.Err? {
      return t;
    }
    r := Merge(allKeys, prev, t.value);
  }

  /** The columns of a connectome run are named after the recorded strategies, in loop order. */
  lemma ConnectomeRunKeys(config: Option<Registry>, index: Option<int>, qcPresets: Option<map<string, Params>>, qcName: Option<string>, inp: Inputs)
    requires config.Some? ==> config.value.Valid()
    requires inp.Valid()
    requires BuildFeatures(config, index, qcPresets, qcName, "connectome", inp, None).Ok?
    ensures config.Some? && qcPresets.Some?
    ensures var names := StrategyNames(config, index).value;
      var qc := GetQcCriteria(qcPresets, qcName).value;
      var out := Collect(inp, qc, "connectome", names).value;
      && IsSubsequence(out.1, names)
      && KeysOf(BuildFeatures(config, index, qcPresets, qcName, "connectome", inp, None).value.columns)
        == seq(|out.1|, i requires 0 <= i < |out.1| => Single(out.1[i]))
  {
    var allKeys := RealKeys(config.value.names);
    var names := StrategyNames(config, index).value;
    StrategyNamesOrdered(config, index);
    var qc := GetQcCriteria(qcPresets, qcName).value;
    var out := Collect(inp, qc, "connectome", names).value;
    ConnectomeRenameKeepsLabels(inp, qc, allKeys, names);
    var t := Assemble(allKeys, "connectome", out.0, out.1).value;
    var o := OrderColumns(allKeys, t);
    OrderOneLevel(allKeys, t);
    var ks := Filter(HasSingle(t.columns), allKeys);
    forall k | 0 <= k < |allKeys| ensures HasSingle(t.columns)(allKeys[k]) == InSeq(out.1)(allKeys[k]) {
      if allKeys[k] in out.1 {
        var i :| 0 <= i < |out.1| && out.1[i] == allKeys[k];
        assert KeysOf(t.columns)[i] == Single(allKeys[k]);
      }
    }
    SubsequenceTransitive(out.1, names, allKeys);
    FilterExtensional(HasSingle(t.columns), InSeq(out.1), allKeys);
    FilterOfSubsequence(out.1, allKeys);
  }

  /**
   * A connectome run that collects anything writes, when no earlier table exists, one column
   * per strategy that had time series, in registry order.
   */
  lemma ConnectomeRun(config: Option<Registry>, index: Option<int>, qcPresets: Option<map<string, Params>>, qcName: Option<string>, inp: Inputs)
    requires config.Some? ==> config.value.Valid()
    requires inp.Valid()
    requires BuildFeatures(config, index, qcPresets, qcName, "connectome", inp, None).Ok?
    ensures config.Some? && qcPresets.Some?
    ensures var names := StrategyNames(config, index).value;
      var qc := GetQcCriteria(qcPresets, qcName).value;
      var out := Collect(inp, qc, "connectome", names).value;
      && IsSubsequence(out.1, names)
      && out.1 == Filter(HasSeries(inp), names)
      && KeysOf(BuildFeatures(config, index, qcPresets, qcName, "connectome", inp, None).value.columns)
        == seq(|out.1|, i requires 0 <= i < |out.1| => Single(out.1[i]))
  {
    ConnectomeRunKeys(config, index, qcPresets, qcName, inp);
    CollectConnectomeUsed(inp, GetQcCriteria(qcPresets, qcName).value, StrategyNames(config, index).value);
  }
}
