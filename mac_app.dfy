/**
  * The recommendation page: the one-row input frame built from the form,
  * the check that it has every column the fitted pipeline expects, the
  * reindex to the pipeline's column order, the message chosen for the
  * predicted label, and the permutation-importance table (sample size,
  * sort by importance, top ten). The classifier and the importance values
  * it yields are inputs here.
  */
module MacApp {
  import DataGen
  import opened Wrappers

  /** A cell of a pandas frame: a string, an integer, or the NaN that `reindex` fills in. */
  datatype Cell = Text(s: string) | Int(i: int) | NaN

  /** One row as pandas holds it after `reindex`: each column name with its cell, in column order. */
  type FrameRow = seq<(string, Cell)>

  /** The two outcomes of pressing "Vorhersage". */
  datatype Prediction =
    | SchemaMismatch(missing: set<string>)   // `st.error(...)` then `st.stop()`: no prediction
    | Predicted(verdict: int, message: string)

  /** The importance section: a table, or the message that importances could not be computed. */
  datatype Report = Unavailable | Table(rows: seq<(string, real)>)

  // ---- Input frame, column check and reindex ----

  /** `set(expected_cols) - set(input_df.columns)`. */
  function Missing(expected: seq<string>, frame: map<string, Cell>): (m: set<string>)
    ensures forall c :: c in m <==> c in expected && c !in frame
    ensures m == {} <==> forall i :: 0 <= i < |expected| ==> expected[i] in frame
  {
    (set c | c in expected) - frame.Keys
  }

  /** The column names of a frame row, in order. */
  function Columns(row: FrameRow): (cols: seq<string>)
    ensures |cols| == |row|
    ensures forall i :: 0 <= i < |row| ==> cols[i] == row[i].0
  {
    if row == [] then [] else [row[0].0] + Columns(row[1..])
  }

  /**
    * `input_df.reindex(columns=expected_cols)`: exactly the expected
    * columns, in the expected order, each with the frame's value or NaN.
    */
  function Reindex(frame: map<string, Cell>, expected: seq<string>): (r: FrameRow)
    ensures Columns(r) == expected
    ensures forall i :: 0 <= i < |expected| ==>
      r[i].1 == if expected[i] in frame then frame[expected[i]] else NaN
  {
    if expected == [] then []
    else
      var c := expected[0];
      [(c, if c in frame then frame[c] else NaN)] + Reindex(frame, expected[1..])
  }

  /** No column name occurs twice. */
  predicate DistinctColumns(row: FrameRow)
  {
    forall i, j :: 0 <= i < j < |row| ==> row[i].0 != row[j].0
  }

  /** A frame row as a dictionary from column name to cell. */
  function ToFrame(row: FrameRow): (m: map<string, Cell>)
    ensures forall c :: c in m <==> c in Columns(row)
  {
    if row == [] then map[]
    else
      var rest := ToFrame(row[1..]);
      assert Columns(row) == [row[0].0] + Columns(row[1..]);
      rest[row[0].0 := row[0].1]
  }

  /** With distinct column names, each name looks up its own cell. */
  lemma {:induction false} ToFrameLookup(row: FrameRow, i: nat)
    requires DistinctColumns(row) && i < |row|
    ensures row[i].0 in ToFrame(row) && ToFrame(row)[row[i].0] == row[i].1
    decreases i
  {
    assert Columns(row)[i] == row[i].0;
    if i > 0 {
      assert DistinctColumns(row[1..]) by {
        forall a, b | 0 <= a < b < |row[1..]| ensures row[1..][a].0 != row[1..][b].0 {
          assert row[1..][a] == row[a + 1] && row[1..][b] == row[b + 1];
        }
      }
      assert row[i] == row[1..][i - 1];
      ToFrameLookup(row[1..], i - 1);
      assert row[i].0 != row[0].0;
    }
  }

  /** Reindexing a frame to its own columns, in their own order, gives its row back unchanged. */
  lemma ReindexOwnColumns(row: FrameRow)
    requires DistinctColumns(row)
    ensures Missing(Columns(row), ToFrame(row)) == {}
    ensures Reindex(ToFrame(row), Columns(row)) == row
  {
    var r := Reindex(ToFrame(row), Columns(row));
    assert |r| == |row|;
    forall i | 0 <= i < |row| ensures r[i] == row[i] {
      ToFrameLookup(row, i);
      assert r[i].0 == Columns(r)[i] == Columns(row)[i];
    }
  }

  /**
    * With no column missing, the reindexed row keeps each expected column's
    * value unchanged, introduces no NaN, and the only columns it drops are
    * those the pipeline does not expect.
    */
  lemma ReindexWhenNothingMissing(frame: map<string, Cell>, expected: seq<string>)
    requires Missing(expected, frame) == {}
    requires forall c :: c in frame ==> frame[c] != NaN
    ensures var r := Reindex(frame, expected);
      && (forall i :: 0 <= i < |expected| ==> r[i] == (expected[i], frame[expected[i]]) && r[i].1 != NaN)
      && (forall c :: c in frame && c !in expected ==> c !in Columns(r))
      && (forall c :: c in frame && c in expected ==> c in Columns(r))
  {
  }

  /** The message shown for the predicted label. */
  const Recommended: string := "\U{2705} Mac empfohlen"
  const NotRecommended: string := "\U{274C} Mac nicht empfohlen"

  function Message(pred: int): (m: string)
    ensures m == Recommended <==> pred == 1
    ensures m == Recommended || m == NotRecommended
  {
    if pred == 1 then Recommended else NotRecommended
  }

  /**
    * Pressing "Vorhersage": a missing expected column reports the missing
    * set and stops before the classifier is consulted; otherwise the
    * classifier sees the row reindexed to the expected columns.
    */
  function Predict(expected: seq<string>, frame: map<string, Cell>, classify: FrameRow -> int): (r: Prediction)
    ensures r.SchemaMismatch? <==> exists c :: c in expected && c !in frame
    ensures r.SchemaMismatch? ==> r.missing != {} && forall c :: c in r.missing <==> c in expected && c !in frame
    ensures r.Predicted? ==>
      && r.verdict == classify(Reindex(frame, expected))
      && (r.message == Recommended <==> r.verdict == 1)
  {
    var missing := Missing(expected, frame);
    if missing != {} then SchemaMismatch(missing)
    else
      var pred := classify(Reindex(frame, expected));
      Predicted(pred, Message(pred))
  }

  /**
    * The form's selections as the one row of `input_df`, in the order the
    * dict literal lists them; the yes/no answers are written as `int(bool)`.
    */
  function FormRow(role: DataGen.Role, usesDesign: bool, usesOffice: bool, requiresWindows: bool,
                   mobility: DataGen.Level, security: DataGen.Level, budget: DataGen.Level,
                   prefOs: DataGen.Os): FrameRow
  {
    [("role", Text(DataGen.RoleName(role))),
     ("uses_design_tools", Int(if usesDesign then 1 else 0)),
     ("uses_office_apps", Int(if usesOffice then 1 else 0)),
     ("requires_windows_only_apps", Int(if requiresWindows then 1 else 0)),
     ("mobility", Text(DataGen.LevelName(mobility))),
     ("security_sensitivity", Text(DataGen.LevelName(security))),
     ("budget_sensitivity", Text(DataGen.LevelName(budget))),
     ("preferred_os", Text(DataGen.OsName(prefOs)))]
  }

  /** The form's row has the trained feature columns, in order, each once. */
  lemma FormRowColumns(role: DataGen.Role, usesDesign: bool, usesOffice: bool, requiresWindows: bool,
                       mobility: DataGen.Level, security: DataGen.Level, budget: DataGen.Level,
                       prefOs: DataGen.Os)
    ensures var row := FormRow(role, usesDesign, usesOffice, requiresWindows, mobility, security, budget, prefOs);
      Columns(row) == DataGen.FeatureColumns && DistinctColumns(row)
  {
    var row := FormRow(role, usesDesign, usesOffice, requiresWindows, mobility, security, budget, prefOs);
    var cols := Columns(row);
    forall i | 0 <= i < 8 ensures cols[i] == DataGen.FeatureColumns[i] {
      assert i == 0 || i == 1 || i == 2 || i == 3 || i == 4 || i == 5 || i == 6 || i == 7;
    }
    forall i, j | 0 <= i < j < 8 ensures row[i].0 != row[j].0 {
      assert |row[i].0| != |row[j].0| by {
        assert i == 0 || i == 1 || i == 2 || i == 3 || i == 4 || i == 5 || i == 6;
      }
    }
  }

  /** `pd.DataFrame([{...}])` on the form's selections, looked up by column name. */
  function InputFrame(role: DataGen.Role, usesDesign: bool, usesOffice: bool, requiresWindows: bool,
                      mobility: DataGen.Level, security: DataGen.Level, budget: DataGen.Level,
                      prefOs: DataGen.Os): (m: map<string, Cell>)
  {
    ToFrame(FormRow(role, usesDesign, usesOffice, requiresWindows, mobility, security, budget, prefOs))
  }

  /**
    * A pipeline fitted on the generated dataset expects its eight feature
    * columns in file order; the form's frame has all of them, so prediction
    * always proceeds, and the classifier sees the form's values in the
    * trained column order.
    */
  lemma FormFrameFitsTrainedSchema(role: DataGen.Role, usesDesign: bool, usesOffice: bool, requiresWindows: bool,
                                   mobility: DataGen.Level, security: DataGen.Level, budget: DataGen.Level,
                                   prefOs: DataGen.Os, classify: FrameRow -> int)
    ensures var frame := InputFrame(role, usesDesign, usesOffice, requiresWindows, mobility, security, budget, prefOs);
      var row := FormRow(role, usesDesign, usesOffice, requiresWindows, mobility, security, budget, prefOs);
      && Predict(DataGen.FeatureColumns, frame, classify) == Predicted(classify(row), Message(classify(row)))
  {
    var row := FormRow(role, usesDesign, usesOffice, requiresWindows, mobility, security, budget, prefOs);
    FormRowColumns(role, usesDesign, usesOffice, requiresWindows, mobility, security, budget, prefOs);
    ReindexOwnColumns(row);
  }

  // ---- The importance sample ----

  /** At most 300 rows are sampled. */
  const SampleCap: nat := 300

  /** `min(300, len(X))`. */
  function SampleSize(n: nat): (k: nat)
    ensures k <= SampleCap && k <= n
    ensures k == SampleCap || k == n
  {
    if n < SampleCap then n else SampleCap
  }

  /** perm lists each of 0 .. n-1 exactly once. */
  predicate IsPermutation(perm: seq<nat>, n: nat)
  {
    && |perm| == n
    && (forall i :: 0 <= i < n ==> perm[i] < n)
    && (forall i, j :: 0 <= i < j < n ==> perm[i] != perm[j])
  }

  /** The elements of s at the given positions, in that order. */
  function Select<T>(s: seq<T>, idx: seq<nat>): (r: seq<T>)
    requires forall k :: 0 <= k < |idx| ==> idx[k] < |s|
    ensures |r| == |idx|
    ensures forall k :: 0 <= k < |idx| ==> r[k] == s[idx[k]]
  {
    if idx == [] then [] else [s[idx[0]]] + Select(s, idx[1..])
  }

  /**
    * `X.sample(n=min(300, len(X)), random_state=42)` and
    * `y.loc[X_sample.index]`. Sampling without replacement takes the first
    * n positions of a permutation drawn from the seeded generator (an
    * input here); the labels are taken at the same positions.
    */
  function Sample<X>(xs: seq<X>, ys: seq<int>, perm: seq<nat>): (r: (seq<X>, seq<int>))
    requires |xs| == |ys| && IsPermutation(perm, |xs|)
    ensures |r.0| == |r.1| == SampleSize(|xs|)
    ensures forall k :: 0 <= k < |r.0| ==> r.0[k] == xs[perm[k]] && r.1[k] == ys[perm[k]]
  {
    var idx := perm[..SampleSize(|xs|)];
    (Select(xs, idx), Select(ys, idx))
  }

  /**
    * The sample (sx, sy) takes, at the distinct dataset positions idx, each
    * row's features together with that same row's label.
    */
  ghost predicate DrawnFromRows<X>(xs: seq<X>, ys: seq<int>, sx: seq<X>, sy: seq<int>, idx: seq<nat>)
  {
    && |idx| == |sx| == |sy|
    && (forall k :: 0 <= k < |idx| ==> idx[k] < |xs| && idx[k] < |ys|)
    && (forall k :: 0 <= k < |idx| ==> sx[k] == xs[idx[k]] && sy[k] == ys[idx[k]])
    && (forall k, l :: 0 <= k < l < |idx| ==> idx[k] != idx[l])
  }

  /**
    * Every sampled (features, label) pair is one row of the dataset, and no
    * row is sampled twice.
    */
  lemma SamplePairsRows<X>(xs: seq<X>, ys: seq<int>, perm: seq<nat>)
    requires |xs| == |ys| && IsPermutation(perm, |xs|)
    ensures var (sx, sy) := Sample(xs, ys, perm);
      && (forall k :: 0 <= k < |sx| ==> exists i :: 0 <= i < |xs| && sx[k] == xs[i] && sy[k] == ys[i])
      && exists idx :: DrawnFromRows(xs, ys, sx, sy, idx)
  {
    var (sx, sy) := Sample(xs, ys, perm);
    var idx := perm[..SampleSize(|xs|)];
    forall k | 0 <= k < |sx| ensures exists i :: 0 <= i < |xs| && sx[k] == xs[i] && sy[k] == ys[i] {
      assert sx[k] == xs[idx[k]] && sy[k] == ys[idx[k]];
    }
    assert DrawnFromRows(xs, ys, sx, sy, idx);
  }

  // ---- The importance table ----

  /** Ordered by importance, largest first. */
  predicate SortedByImportance(s: seq<(string, real)>)
  {
    forall i, j :: 0 <= i < j < |s| ==> s[i].1 >= s[j].1
  }

  /** `pd.DataFrame({"feature": names, "importance": means})` as a list of rows. */
  function Pairs(names: seq<string>, means: seq<real>): (r: seq<(string, real)>)
    requires |names| == |means|
    ensures |r| == |names|
    ensures forall i :: 0 <= i < |names| ==> r[i] == (names[i], means[i])
  {
    if names == [] then [] else [(names[0], means[0])] + Pairs(names[1..], means[1..])
  }

  /** Insert x into a list sorted by importance. */
  function InsertByImportance(x: (string, real), s: seq<(string, real)>): (r: seq<(string, real)>)
    requires SortedByImportance(s)
    ensures SortedByImportance(r)
    ensures multiset(r) == multiset(s) + multiset{x}
    ensures |r| == |s| + 1
    ensures forall e :: e in r ==> e == x || e in s
  {
    if s == [] then [x]
    else if x.1 >= s[0].1 then [x] + s
    else
      var rest := InsertByImportance(x, s[1..]);
      assert s == [s[0]] + s[1..];
      HeadDominates(s);
      ConsSorted(s[0], rest);
      [s[0]] + rest
  }

  /** In a list sorted by importance, the head is at least as important as every row. */
  lemma HeadDominates(s: seq<(string, real)>)
    requires SortedByImportance(s) && s != []
    ensures forall e :: e in s ==> e.1 <= s[0].1
  {
    forall e | e in s ensures e.1 <= s[0].1 {
      var i :| 0 <= i < |s| && s[i] == e;
      assert i == 0 || s[0].1 >= s[i].1;
    }
  }

  /** A row at least as important as every row of a sorted list can be put in front of it. */
  lemma ConsSorted(h: (string, real), rest: seq<(string, real)>)
    requires SortedByImportance(rest)
    requires forall e :: e in rest ==> e.1 <= h.1
    ensures SortedByImportance([h] + rest)
  {
    var r := [h] + rest;
    forall i, j | 0 <= i < j < |r| ensures r[i].1 >= r[j].1 {
      assert r[j] == rest[j - 1];
      if i > 0 {
        assert r[i] == rest[i - 1];
      } else {
        assert r[j] in rest;
      }
    }
  }

  /** `sort_values("importance", ascending=False)`. */
  function SortByImportance(s: seq<(string, real)>): (r: seq<(string, real)>)
    ensures SortedByImportance(r)
    ensures multiset(r) == multiset(s)
    ensures |r| == |s|
  {
    if s == [] then []
    else
      assert s == [s[0]] + s[1..];
      InsertByImportance(s[0], SortByImportance(s[1..]))
  }

  /** The first k rows of a sorted list are at least as important as every row after them. */
  lemma PrefixDominates(s: seq<(string, real)>, k: nat)
    requires SortedByImportance(s) && k <= |s|
    ensures multiset(s) == multiset(s[..k]) + multiset(s[k..])
    ensures forall p, e :: p in s[k..] && e in s[..k] ==> p.1 <= e.1
  {
    assert s == s[..k] + s[k..];
  }

  /** The number of rows `head(10)` keeps. */
  const TopCount: nat := 10

  /** `min(10, n)`: how many of n rows `head(10)` keeps. */
  function TopSize(n: nat): (k: nat)
    ensures k <= n && k <= TopCount && (k == n || k == TopCount)
  {
    if n < TopCount then n else TopCount
  }

  /**
    * What `head(10)` of a list sorted by importance is: min(10, n) rows,
    * largest importance first, none more often than in the list, and no row
    * left out more important than a row kept.
    */
  predicate IsTopOf(rows: seq<(string, real)>, all: seq<(string, real)>)
  {
    && |rows| == TopSize(|all|)
    && SortedByImportance(rows)
    && multiset(rows) <= multiset(all)
    && (forall p :: p in multiset(all) - multiset(rows) ==> forall e :: e in rows ==> p.1 <= e.1)
  }

  /**
    * The first k rows after sorting are drawn from the input, and every
    * input row they leave out is no more important than any row they keep.
    */
  lemma TopOfSorted(all: seq<(string, real)>, k: nat)
    requires k <= |all|
    ensures var top := SortByImportance(all)[..k];
      && |top| == k
      && SortedByImportance(top)
      && multiset(top) <= multiset(all)
      && (forall e :: e in top ==> e in all)
      && (forall p :: p in multiset(all) - multiset(top) ==> forall e :: e in top ==> p.1 <= e.1)
  {
    var sorted := SortByImportance(all);
    var top := sorted[..k];
    assert multiset(sorted) == multiset(all);
    forall i, j | 0 <= i < j < k ensures top[i].1 >= top[j].1 {
      assert top[i] == sorted[i] && top[j] == sorted[j];
    }
    PrefixDominates(sorted, k);
    forall e | e in top ensures e in all {
      assert e in multiset(sorted);
    }
    forall p | p in multiset(all) - multiset(top) ensures p in sorted[k..] {
      assert p in multiset(sorted[k..]);
    }
  }

  /** Every row drawn from the pairs is some feature's name with its own importance. */
  lemma PairsMembers(names: seq<string>, means: seq<real>, top: seq<(string, real)>)
    requires |names| == |means|
    requires forall e :: e in top ==> e in Pairs(names, means)
    ensures forall e :: e in top ==> exists i :: 0 <= i < |names| && e == (names[i], means[i])
  {
    var all := Pairs(names, means);
    forall e | e in top ensures exists i :: 0 <= i < |names| && e == (names[i], means[i]) {
      var i :| 0 <= i < |all| && all[i] == e;
      assert e == (names[i], means[i]);
    }
  }

  /**
    * The importance table: the pairs of feature name and mean importance,
    * sorted by importance and cut to the first ten. Any exception raised on
    * the way (the dataset cannot be read, the transform fails, the name and
    * value columns differ in length) is caught and shown as a message, so
    * the section never stops the page; `means == None` stands for a failure
    * before the table is built.
    */
  function ImportanceTable(names: seq<string>, means: Option<seq<real>>): (r: Report)
    ensures r.Unavailable? <==> means.None? || |names| != |means.value|
    ensures means.Some? && |names| == |means.value| ==>
      && r.Table?
      && IsTopOf(r.rows, Pairs(names, means.value))
      && |r.rows| == TopSize(|names|)
      && forall e :: e in r.rows ==> exists i :: 0 <= i < |names| && e == (names[i], means.value[i])
  {
    if means.None? || |names| != |means.value| then Unavailable
    else
      var all := Pairs(names, means.value);
      var top := SortByImportance(all)[..TopSize(|all|)];
      TopOfSorted(all, TopSize(|all|));
      PairsMembers(names, means.value, top);
      Table(top)
  }
}
