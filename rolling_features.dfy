/**
 * Rolling features of a ward-level frame: the frame is sorted by
 * (city_id, ward_id, daily_date), then for every requested column and window
 * size a column `<column>_rolling_mean_<window>` is added whose value at a row
 * is the mean of that row's value and the values of the at most window - 1
 * preceding rows of the same (city, ward) group (a trailing window that
 * accepts a single observation).
 */
module RollingFeatures {
  import opened Wrappers
  import opened RowOrder

  /** The (city_id, ward_id) group a row belongs to. */
  datatype GroupKey = GroupKey(cityId: string, wardId: string)

  /** A frame: its numeric column names, in order, and its rows. */
  datatype Frame = Frame(columnNames: seq<string>, rows: seq<Row>)

  /** Every row holds a value for exactly the frame's columns. */
  predicate WellFormed(f: Frame)
  {
    forall i :: 0 <= i < |f.rows| ==> f.rows[i].columns.Keys == set c | c in f.columnNames
  }

  datatype RollingError =
    | MissingColumn(column: string)   // KeyError from selecting an absent column
    | InvalidWindow(window: int)      // a window below min_periods = 1

  const DEFAULT_WINDOWS: seq<int> := [7, 30]

  // ---------------------------------------------------------------------
  // The trailing mean of one column, by group
  // ---------------------------------------------------------------------

  function Sum(s: seq<real>): real
  {
    if |s| == 0 then 0.0 else Sum(s[..|s| - 1]) + s[|s| - 1]
  }

  function Mean(s: seq<real>): real
    requires |s| > 0
  {
    Sum(s) / (|s| as real)
  }

  /** The last w elements of s, or all of s when it is shorter. */
  function LastN(s: seq<real>, w: nat): (t: seq<real>)
    ensures |t| == if |s| <= w then |s| else w
  {
    if |s| <= w then s else s[|s| - w..]
  }

  /** The values, in row order, of group g among the first n rows. */
  function GroupValues(keys: seq<GroupKey>, vals: seq<real>, g: GroupKey, n: nat): seq<real>
    requires |keys| == |vals| && n <= |keys|
  {
    if n == 0 then []
    else GroupValues(keys, vals, g, n - 1) + (if keys[n - 1] == g then [vals[n - 1]] else [])
  }

  /** The rolling mean of window w at row i: the mean of the last w values of row i's group up to and including row i. */
  function RollingMeanAt(keys: seq<GroupKey>, vals: seq<real>, w: nat, i: nat): real
    requires |keys| == |vals| && i < |keys| && w >= 1
  {
    var prefix := GroupValues(keys, vals, keys[i], i + 1);
    assert prefix == GroupValues(keys, vals, keys[i], i) + [vals[i]];
    Mean(LastN(prefix, w))
  }

  /** Appending one value to a sequence moves its trailing window by one. */
  lemma LastNAppend(s: seq<real>, v: real, w: nat)
    requires w >= 1
    ensures var t := LastN(s, w) + [v];
      LastN(s + [v], w) == if |t| > w then t[1..] else t
  {
    var t := LastN(s, w) + [v];
    if |s| + 1 > w {
      assert LastN(s + [v], w) == (s + [v])[|s| + 1 - w..];
      assert t[1..] == (s + [v])[|s| + 1 - w..];
    }
  }

  /** The trailing window of a group held by the forward pass, empty for a group not yet seen. */
  function Window(history: map<GroupKey, seq<real>>, g: GroupKey): seq<real>
  {
    if g in history then history[g] else []
  }

  /**
   * One column's groupby(["city_id", "ward_id"]).transform(rolling(window=w, min_periods=1).mean()):
   * a single pass over the rows keeping the trailing window of every group.
   */
  method RollingMean(keys: seq<GroupKey>, vals: seq<real>, w: nat) returns (means: seq<real>)
    requires |keys| == |vals| && w >= 1
    ensures |means| == |vals|
    ensures forall i :: 0 <= i < |vals| ==> means[i] == RollingMeanAt(keys, vals, w, i)
  {
    var history: map<GroupKey, seq<real>> := map[];
    means := [];
    var i := 0;
    while i < |vals|
      invariant 0 <= i <= |vals| && |means| == i
      invariant forall g :: Window(history, g) == LastN(GroupValues(keys, vals, g, i), w)
      invariant forall j :: 0 <= j < i ==> means[j] == RollingMeanAt(keys, vals, w, j)
    {
      var g := keys[i];
      var win := Window(history, g) + [vals[i]];
      if |win| > w {
        win := win[1..];
      }
      var history' := history[g := win];
      WindowStep(keys, vals, w, i, history, win, history');
      MeansStep(keys, vals, w, i, means, Mean(win));
      means := means + [Mean(win)];
      history := history';
      i := i + 1;
    }
  }

  /** One step of the forward pass keeps every group's window equal to its trailing values. */
  lemma WindowStep(keys: seq<GroupKey>, vals: seq<real>, w: nat, i: nat,
                   history: map<GroupKey, seq<real>>, win: seq<real>, history': map<GroupKey, seq<real>>)
    requires |keys| == |vals| && i < |keys| && w >= 1
    requires forall g :: Window(history, g) == LastN(GroupValues(keys, vals, g, i), w)
    requires var t := Window(history, keys[i]) + [vals[i]]; win == if |t| > w then t[1..] else t
    requires history' == history[keys[i] := win]
    ensures win == LastN(GroupValues(keys, vals, keys[i], i + 1), w)
    ensures forall g :: Window(history', g) == LastN(GroupValues(keys, vals, g, i + 1), w)
  {
    var prev := GroupValues(keys, vals, keys[i], i);
    GroupValuesAtRow(keys, vals, i);
    LastNAppend(prev, vals[i], w);
    assert win == LastN(prev + [vals[i]], w);
    forall g
      ensures Window(history', g) == LastN(GroupValues(keys, vals, g, i + 1), w)
    {
      if g == keys[i] {
        assert Window(history', g) == win;
      } else {
        GroupValuesOther(keys, vals, g, i);
        assert Window(history', g) == Window(history, g);
      }
    }
  }

  /** Appending row i's mean keeps the computed prefix equal to the specification. */
  lemma MeansStep(keys: seq<GroupKey>, vals: seq<real>, w: nat, i: nat, means: seq<real>, m: real)
    requires |keys| == |vals| && i < |keys| && w >= 1 && |means| == i
    requires forall j :: 0 <= j < i ==> means[j] == RollingMeanAt(keys, vals, w, j)
    requires m == RollingMeanAt(keys, vals, w, i)
    ensures forall j :: 0 <= j < i + 1 ==> (means + [m])[j] == RollingMeanAt(keys, vals, w, j)
  {
    forall j | 0 <= j < i + 1
      ensures (means + [m])[j] == RollingMeanAt(keys, vals, w, j)
    {
      if j < i {
        assert (means + [m])[j] == means[j];
      }
    }
  }

  /** Values of other groups do not enter a group's prefix. */
  lemma GroupValuesOther(keys: seq<GroupKey>, vals: seq<real>, g: GroupKey, i: nat)
    requires |keys| == |vals| && i < |keys| && keys[i] != g
    ensures GroupValues(keys, vals, g, i + 1) == GroupValues(keys, vals, g, i)
  {
    assert GroupValues(keys, vals, g, i + 1) == GroupValues(keys, vals, g, i) + [];
  }

  // ---------------------------------------------------------------------
  // Properties of the trailing mean
  // ---------------------------------------------------------------------

  /** Row i's own value is the last value of its group's prefix. */
  lemma GroupValuesAtRow(keys: seq<GroupKey>, vals: seq<real>, i: nat)
    requires |keys| == |vals| && i < |keys|
    ensures GroupValues(keys, vals, keys[i], i + 1) == GroupValues(keys, vals, keys[i], i) + [vals[i]]
  {
  }

  /** No earlier row of a group means its prefix up to n is empty. */
  lemma {:induction false} GroupValuesEmpty(keys: seq<GroupKey>, vals: seq<real>, g: GroupKey, n: nat)
    requires |keys| == |vals| && n <= |keys|
    requires forall j :: 0 <= j < n ==> keys[j] != g
    ensures GroupValues(keys, vals, g, n) == []
  {
    if n > 0 {
      GroupValuesEmpty(keys, vals, g, n - 1);
    }
  }

  /** The first row of a group has its own value as rolling mean. */
  lemma FirstOfGroupIsOwnValue(keys: seq<GroupKey>, vals: seq<real>, w: nat, i: nat)
    requires |keys| == |vals| && i < |keys| && w >= 1
    requires forall j :: 0 <= j < i ==> keys[j] != keys[i]
    ensures RollingMeanAt(keys, vals, w, i) == vals[i]
  {
    GroupValuesEmpty(keys, vals, keys[i], i);
    assert GroupValues(keys, vals, keys[i], i + 1) == [vals[i]];
    assert Sum([vals[i]]) == Sum([]) + vals[i];
  }

  /** A window of one reproduces the column. */
  lemma WindowOneIsIdentity(keys: seq<GroupKey>, vals: seq<real>, i: nat)
    requires |keys| == |vals| && i < |keys|
    ensures RollingMeanAt(keys, vals, 1, i) == vals[i]
  {
    var prefix := GroupValues(keys, vals, keys[i], i + 1);
    assert LastN(prefix, 1) == [vals[i]];
    assert Sum([vals[i]]) == Sum([]) + vals[i];
  }

  /** Values of other groups do not affect a group's rolling means. */
  lemma {:induction false} GroupValuesIsolated(keys: seq<GroupKey>, vals: seq<real>, vals': seq<real>, g: GroupKey, n: nat)
    requires |keys| == |vals| == |vals'| && n <= |keys|
    requires forall j :: 0 <= j < n && keys[j] == g ==> vals[j] == vals'[j]
    ensures GroupValues(keys, vals, g, n) == GroupValues(keys, vals', g, n)
  {
    if n > 0 {
      GroupValuesIsolated(keys, vals, vals', g, n - 1);
    }
  }

  lemma GroupIsolation(keys: seq<GroupKey>, vals: seq<real>, vals': seq<real>, w: nat, i: nat)
    requires |keys| == |vals| == |vals'| && i < |keys| && w >= 1
    requires forall j :: 0 <= j <= i && keys[j] == keys[i] ==> vals[j] == vals'[j]
    ensures RollingMeanAt(keys, vals, w, i) == RollingMeanAt(keys, vals', w, i)
  {
    GroupValuesIsolated(keys, vals, vals', keys[i], i + 1);
  }

  function SeqMin(s: seq<real>): (m: real)
    requires |s| > 0
    ensures forall k :: 0 <= k < |s| ==> m <= s[k]
    ensures exists k :: 0 <= k < |s| && m == s[k]
  {
    if |s| == 1 then s[0]
    else
      var m := SeqMin(s[..|s| - 1]);
      if s[|s| - 1] < m then s[|s| - 1] else m
  }

  function SeqMax(s: seq<real>): (m: real)
    requires |s| > 0
    ensures forall k :: 0 <= k < |s| ==> s[k] <= m
    ensures exists k :: 0 <= k < |s| && m == s[k]
  {
    if |s| == 1 then s[0]
    else
      var m := SeqMax(s[..|s| - 1]);
      if s[|s| - 1] > m then s[|s| - 1] else m
  }

  lemma {:induction false} SumBounds(s: seq<real>, lo: real, hi: real)
    requires forall k :: 0 <= k < |s| ==> lo <= s[k] <= hi
    ensures (|s| as real) * lo <= Sum(s) <= (|s| as real) * hi
    decreases |s|
  {
    if |s| > 0 {
      var init := s[..|s| - 1];
      SumBounds(init, lo, hi);
      var m := |init| as real;
      assert (|s| as real) * lo == m * lo + lo;
      assert (|s| as real) * hi == m * hi + hi;
    }
  }

  /** A total of n values, each in [lo, hi], divided by n lies in [lo, hi]. */
  lemma DivideBounds(total: real, n: real, lo: real, hi: real)
    requires n > 0.0 && n * lo <= total <= n * hi
    ensures lo <= total / n <= hi
  {
    var q := total / n;
    assert q * n == total;
    assert (q - lo) * n >= 0.0;
    assert (hi - q) * n >= 0.0;
  }

  /** The mean of values that all lie in [lo, hi] lies in [lo, hi]. */
  lemma MeanBounds(s: seq<real>, lo: real, hi: real)
    requires |s| > 0
    requires forall k :: 0 <= k < |s| ==> lo <= s[k] <= hi
    ensures lo <= Mean(s) <= hi
  {
    SumBounds(s, lo, hi);
    DivideBounds(Sum(s), |s| as real, lo, hi);
  }

  /** A mean lies between the smallest and the largest of its values. */
  lemma MeanBetweenMinMax(s: seq<real>)
    requires |s| > 0
    ensures SeqMin(s) <= Mean(s) <= SeqMax(s)
  {
    MeanBounds(s, SeqMin(s), SeqMax(s));
  }

  /** The rolling mean at a row lies between the smallest and largest value of its window. */
  lemma RollingMeanWithinWindow(keys: seq<GroupKey>, vals: seq<real>, w: nat, i: nat)
    requires |keys| == |vals| && i < |keys| && w >= 1
    ensures var win := LastN(GroupValues(keys, vals, keys[i], i + 1), w);
      |win| > 0 && SeqMin(win) <= RollingMeanAt(keys, vals, w, i) <= SeqMax(win)
  {
    GroupValuesAtRow(keys, vals, i);
    MeanBetweenMinMax(LastN(GroupValues(keys, vals, keys[i], i + 1), w));
  }

  // ---------------------------------------------------------------------
  // Column names
  // ---------------------------------------------------------------------

  function DigitChar(d: nat): (c: char)
    requires d < 10
    ensures '0' <= c <= '9' && (c as int) - ('0' as int) == d
  {
    "0123456789"[d]
  }

  /** The decimal digits of n, most significant first, without leading zeros. */
  function NatToString(n: nat): (s: string)
    ensures |s| > 0
    ensures forall j :: 0 <= j < |s| ==> '0' <= s[j] <= '9'
  {
    if n < 10 then [DigitChar(n)] else NatToString(n / 10) + [DigitChar(n % 10)]
  }

  lemma {:induction false} NatToStringStartsWithDigit(n: nat)
    ensures '0' <= NatToString(n)[0] <= '9'
  {
    if n >= 10 {
      NatToStringStartsWithDigit(n / 10);
      assert NatToString(n)[0] == NatToString(n / 10)[0];
    }
  }

  /** Reads a string of decimal digits back as a number. */
  function ParseDigits(s: string): nat
  {
    if |s| == 0 then 0
    else
      var d := (s[|s| - 1] as int) - ('0' as int);
      ParseDigits(s[..|s| - 1]) * 10 + (if 0 <= d < 10 then d else 0)
  }

  lemma {:induction false} ParseNatToString(n: nat)
    ensures ParseDigits(NatToString(n)) == n
  {
    if n >= 10 {
      ParseNatToString(n / 10);
      var s := NatToString(n);
      assert s[..|s| - 1] == NatToString(n / 10);
    }
  }

  /** Python's str() of an int. */
  function IntToString(i: int): (s: string)
    ensures |s| > 0
    ensures forall j :: 0 <= j < |s| ==> s[j] == '-' || '0' <= s[j] <= '9'
  {
    if i < 0 then "-" + NatToString(-i) else NatToString(i)
  }

  lemma IntToStringSign(i: int)
    ensures IntToString(i)[0] == '-' <==> i < 0
  {
    if i >= 0 {
      NatToStringStartsWithDigit(i);
    }
  }

  lemma NatToStringInjective(m: nat, n: nat)
    requires NatToString(m) == NatToString(n)
    ensures m == n
  {
    ParseNatToString(m);
    ParseNatToString(n);
  }

  lemma IntToStringInjective(i: int, j: int)
    requires IntToString(i) == IntToString(j)
    ensures i == j
  {
    IntToStringSign(i);
    IntToStringSign(j);
    if i < 0 {
      assert IntToString(i)[1..] == NatToString(-i);
      assert IntToString(j)[1..] == NatToString(-j);
      NatToStringInjective(-i, -j);
    } else {
      NatToStringInjective(i, j);
    }
  }
  /** f"{column}_rolling_mean_{window}". */
  function MeanColumnName(column: string, window: int): string
  {
    column + "_rolling_mean_" + IntToString(window)
  }

  /** Different windows of one column give different column names. */
  lemma MeanColumnNamesDistinct(column: string, w1: int, w2: int)
    requires w1 != w2
    ensures MeanColumnName(column, w1) != MeanColumnName(column, w2)
  {
    var p := column + "_rolling_mean_";
    if MeanColumnName(column, w1) == MeanColumnName(column, w2) {
      assert MeanColumnName(column, w1)[|p|..] == IntToString(w1);
      assert MeanColumnName(column, w2)[|p|..] == IntToString(w2);
      IntToStringInjective(w1, w2);
    }
  }

  /** The characters after the last '_' of x, or all of x when it has none. */
  function TrailingSegment(x: string): string
  {
    if |x| == 0 || x[|x| - 1] == '_' then [] else TrailingSegment(x[..|x| - 1]) + [x[|x| - 1]]
  }

  lemma {:induction false} TrailingSegmentAfterUnderscore(t: string, s: string)
    requires |t| > 0 && t[|t| - 1] == '_'
    requires forall j :: 0 <= j < |s| ==> s[j] != '_'
    ensures TrailingSegment(t + s) == s
    decreases |s|
  {
    if |s| == 0 {
      assert t + s == t;
    } else {
      var init := s[..|s| - 1];
      assert (t + s)[..|t + s| - 1] == t + init;
      TrailingSegmentAfterUnderscore(t, init);
      assert init + [s[|s| - 1]] == s;
    }
  }

  /** The name f"{column}_rolling_mean_{window}" determines both the column and the window. */
  lemma MeanColumnNameInjective(c1: string, w1: int, c2: string, w2: int)
    requires MeanColumnName(c1, w1) == MeanColumnName(c2, w2)
    ensures c1 == c2 && w1 == w2
  {
    var t1, t2 := c1 + "_rolling_mean_", c2 + "_rolling_mean_";
    TrailingSegmentAfterUnderscore(t1, IntToString(w1));
    TrailingSegmentAfterUnderscore(t2, IntToString(w2));
    IntToStringInjective(w1, w2);
    var x := MeanColumnName(c1, w1);
    assert x[..|t1|] == t1 && x[..|t2|] == t2;
    assert t1[..|c1|] == c1 && t2[..|c2|] == c2;
  }

  // ---------------------------------------------------------------------
  // The frame-level operation
  // ---------------------------------------------------------------------

  function GroupKeys(rows: seq<Row>): (keys: seq<GroupKey>)
    ensures |keys| == |rows|
    ensures forall i :: 0 <= i < |rows| ==> keys[i] == GroupKey(rows[i].cityId, rows[i].wardId)
  {
    seq(|rows|, i requires 0 <= i < |rows| => GroupKey(rows[i].cityId, rows[i].wardId))
  }

  function ColumnValues(rows: seq<Row>, column: string): (vals: seq<real>)
    requires forall i :: 0 <= i < |rows| ==> column in rows[i].columns
    ensures |vals| == |rows|
    ensures forall i :: 0 <= i < |rows| ==> vals[i] == rows[i].columns[column]
  {
    seq(|rows|, i requires 0 <= i < |rows| => rows[i].columns[column])
  }

  /** Assigning a column keeps an existing column's position and appends a new one. */
  function AddName(names: seq<string>, name: string): (r: seq<string>)
    ensures forall c :: c in r <==> c in names || c == name
  {
    if name in names then names else names + [name]
  }

  /** Assigning several columns in turn. */
  function AddNames(names: seq<string>, added: seq<string>): seq<string>
    decreases |added|
  {
    if |added| == 0 then names else AddName(AddNames(names, added[..|added| - 1]), added[|added| - 1])
  }

  lemma {:induction false} AddNamesContains(names: seq<string>, added: seq<string>)
    ensures forall c :: c in names ==> c in AddNames(names, added)
    ensures forall k :: 0 <= k < |added| ==> added[k] in AddNames(names, added)
    decreases |added|
  {
    if |added| > 0 {
      var init := added[..|added| - 1];
      AddNamesContains(names, init);
      assert forall k :: 0 <= k < |init| ==> init[k] == added[k];
    }
  }

  /** The mean column names of one column, window by window. */
  function MeanNames(column: string, windows: seq<int>): (r: seq<string>)
    ensures |r| == |windows|
    ensures forall k :: 0 <= k < |windows| ==> r[k] == MeanColumnName(column, windows[k])
  {
    seq(|windows|, k requires 0 <= k < |windows| => MeanColumnName(column, windows[k]))
  }

  /** Assigning a concatenation of columns is assigning each part in turn. */
  lemma {:induction false} AddNamesAppend(names: seq<string>, a: seq<string>, b: seq<string>)
    ensures AddNames(names, a + b) == AddNames(AddNames(names, a), b)
    decreases |b|
  {
    if |b| > 0 {
      var ab := a + b;
      assert ab[..|ab| - 1] == a + b[..|b| - 1];
      AddNamesAppend(names, a, b[..|b| - 1]);
    } else {
      assert a + b == a;
    }
  }

  /** The mean column names of every column and window, columns outermost. */
  function PairNames(columns: seq<string>, windows: seq<int>): seq<string>
    decreases |columns|
  {
    if |columns| == 0 then [] else PairNames(columns[..|columns| - 1], windows) + MeanNames(columns[|columns| - 1], windows)
  }

  lemma {:induction false} PairNamesContain(columns: seq<string>, windows: seq<int>)
    ensures forall k, m :: 0 <= k < |columns| && 0 <= m < |windows| ==>
      MeanColumnName(columns[k], windows[m]) in PairNames(columns, windows)
    decreases |columns|
  {
    if |columns| > 0 {
      var init := columns[..|columns| - 1];
      PairNamesContain(init, windows);
      var last := MeanNames(columns[|columns| - 1], windows);
      forall k, m | 0 <= k < |columns| && 0 <= m < |windows|
        ensures MeanColumnName(columns[k], windows[m]) in PairNames(columns, windows)
      {
        if k < |init| {
          assert init[k] == columns[k];
          assert MeanColumnName(init[k], windows[m]) in PairNames(init, windows);
        } else {
          assert last[m] == MeanColumnName(columns[k], windows[m]);
        }
      }
    }
  }

  /** Every row with the given value stored under name. */
  function SetColumn(rows: seq<Row>, name: string, vals: seq<real>): (r: seq<Row>)
    requires |vals| == |rows|
    ensures |r| == |rows|
    ensures forall i :: 0 <= i < |rows| ==>
      r[i] == rows[i].(columns := rows[i].columns[name := vals[i]])
  {
    seq(|rows|, i requires 0 <= i < |rows| => rows[i].(columns := rows[i].columns[name := vals[i]]))
  }

  /** The rolling means of one column and window, row by row. */
  function MeanColumn(rows: seq<Row>, column: string, w: nat): (vals: seq<real>)
    requires forall i :: 0 <= i < |rows| ==> column in rows[i].columns
    requires w >= 1
    ensures |vals| == |rows|
    ensures forall i :: 0 <= i < |rows| ==>
      vals[i] == RollingMeanAt(GroupKeys(rows), ColumnValues(rows, column), w, i)
  {
    var keys, colVals := GroupKeys(rows), ColumnValues(rows, column);
    seq(|rows|, i requires 0 <= i < |rows| => RollingMeanAt(keys, colVals, w, i))
  }

  /** Two row sequences with the same (city_id, ward_id, daily_date) keys, row by row. */
  predicate SameKeys(a: seq<Row>, b: seq<Row>)
  {
    |a| == |b| &&
    forall i :: 0 <= i < |a| ==>
      a[i].cityId == b[i].cityId && a[i].wardId == b[i].wardId && a[i].dailyDate == b[i].dailyDate
  }

  /** Order depends on the keys only, so rows with the same keys as sorted rows are sorted. */
  lemma SortedSameKeys(a: seq<Row>, b: seq<Row>)
    requires Sorted(a) && SameKeys(a, b)
    ensures Sorted(b)
  {
    forall i, j | 0 <= i < j < |b|
      ensures KeyLe(b[i], b[j])
    {
      assert KeyLe(a[i], a[j]);
    }
  }

  /** One assignment df[f"{column}_rolling_mean_{window}"] = ...; the column lookup fails first. */
  function AddMeanColumn(f: Frame, column: string, window: int): (r: Result<Frame, RollingError>)
    requires WellFormed(f)
    ensures column !in f.columnNames ==> r == Failure(MissingColumn(column))
    ensures column in f.columnNames && window < 1 && |f.rows| > 0 ==> r == Failure(InvalidWindow(window))
    ensures r.Success? <==> column in f.columnNames && (window >= 1 || |f.rows| == 0)
    ensures r.Success? ==> WellFormed(r.value) && SameKeys(f.rows, r.value.rows)
  {
    if column !in f.columnNames then Failure(MissingColumn(column))
    else if window < 1 && |f.rows| > 0 then Failure(InvalidWindow(window))
    else
      var name := MeanColumnName(column, window);
      var means := if |f.rows| == 0 then [] else MeanColumn(f.rows, column, window);
      Success(Frame(AddName(f.columnNames, name), SetColumn(f.rows, name, means)))
  }

  /** Each row of the new frame has the rolling mean of its row stored under the new name, and its other columns unchanged. */
  lemma AddMeanColumnValues(f: Frame, column: string, window: int)
    requires WellFormed(f) && column in f.columnNames && window >= 1
    ensures var r := AddMeanColumn(f, column, window);
      r.Success? && |r.value.rows| == |f.rows| &&
      forall i :: 0 <= i < |f.rows| ==>
        r.value.rows[i].columns == f.rows[i].columns[MeanColumnName(column, window) :=
          RollingMeanAt(GroupKeys(f.rows), ColumnValues(f.rows, column), window, i)]
  {
  }

  predicate ValidWindows(windows: seq<int>)
  {
    forall k :: 0 <= k < |windows| ==> windows[k] >= 1
  }

  /** The inner loop: every window, in order, for one column. */
  function AddWindows(f: Frame, column: string, windows: seq<int>): (r: Result<Frame, RollingError>)
    requires WellFormed(f)
    ensures r.Success? ==> WellFormed(r.value)
    decreases |windows|
  {
    if |windows| == 0 then Success(f)
    else
      var prev := AddWindows(f, column, windows[..|windows| - 1]);
      if prev.Failure? then prev
      else AddMeanColumn(prev.value, column, windows[|windows| - 1])
  }

  /** The outer loop: every column, in order, each with every window. */
  function AddColumns(f: Frame, columns: seq<string>, windows: seq<int>): (r: Result<Frame, RollingError>)
    requires WellFormed(f)
    ensures r.Success? ==> WellFormed(r.value)
    decreases |columns|
  {
    if |columns| == 0 then Success(f)
    else
      var prev := AddColumns(f, columns[..|columns| - 1], windows);
      if prev.Failure? then prev
      else AddWindows(prev.value, columns[|columns| - 1], windows)
  }

  /** Adding columns keeps every row's keys in place. */
  lemma {:induction false} AddWindowsKeys(f: Frame, column: string, windows: seq<int>)
    requires WellFormed(f)
    ensures var r := AddWindows(f, column, windows); r.Success? ==> SameKeys(f.rows, r.value.rows)
    decreases |windows|
  {
    if |windows| > 0 {
      AddWindowsKeys(f, column, windows[..|windows| - 1]);
    }
  }

  /** The column list after the windows of one column. */
  lemma {:induction false} AddWindowsColumnNames(f: Frame, column: string, windows: seq<int>)
    requires WellFormed(f)
    ensures var r := AddWindows(f, column, windows);
      r.Success? ==> r.value.columnNames == AddNames(f.columnNames, MeanNames(column, windows))
    decreases |windows|
  {
    if |windows| > 0 {
      var init := windows[..|windows| - 1];
      AddWindowsColumnNames(f, column, init);
      assert MeanNames(column, windows)[..|init|] == MeanNames(column, init);
    }
  }

  /** Adding the windows of a column keeps every existing column and adds one per window. */
  lemma AddWindowsNames(f: Frame, column: string, windows: seq<int>)
    requires WellFormed(f)
    ensures var r := AddWindows(f, column, windows);
      r.Success? ==>
        (forall c :: c in f.columnNames ==> c in r.value.columnNames) &&
        (forall k :: 0 <= k < |windows| ==> MeanColumnName(column, windows[k]) in r.value.columnNames)
  {
    AddWindowsColumnNames(f, column, windows);
    AddNamesContains(f.columnNames, MeanNames(column, windows));
  }

  /** The windows of one column succeed exactly when there is no window, or the column exists and every window is at least 1 (or there are no rows). */
  lemma {:induction false} AddWindowsSuccess(f: Frame, column: string, windows: seq<int>)
    requires WellFormed(f)
    ensures AddWindows(f, column, windows).Success? <==>
      |windows| == 0 || (column in f.columnNames && (|f.rows| == 0 || ValidWindows(windows)))
    decreases |windows|
  {
    if |windows| > 0 {
      var init := windows[..|windows| - 1];
      AddWindowsSuccess(f, column, init);
      AddWindowsKeys(f, column, init);
      AddWindowsNames(f, column, init);
      assert forall k :: 0 <= k < |init| ==> init[k] == windows[k];
      var prev := AddWindows(f, column, init);
      if prev.Success? && |init| > 0 {
        assert column in f.columnNames;
      }
      if ValidWindows(init) && windows[|windows| - 1] >= 1 {
        assert ValidWindows(windows);
      }
    }
  }

  /** A failure names the missing column or a window below 1. */
  lemma {:induction false} AddWindowsErrors(f: Frame, column: string, windows: seq<int>)
    requires WellFormed(f)
    ensures var r := AddWindows(f, column, windows);
      r.Failure? ==>
        (column !in f.columnNames && r.error == MissingColumn(column)) ||
        (|f.rows| > 0 && r.error.InvalidWindow? && r.error.window < 1 && r.error.window in windows)
    decreases |windows|
  {
    if |windows| > 0 {
      var init := windows[..|windows| - 1];
      AddWindowsErrors(f, column, init);
      AddWindowsKeys(f, column, init);
      AddWindowsNames(f, column, init);
      var prev := AddWindows(f, column, init);
      if prev.Failure? {
        if prev.error.InvalidWindow? && column in f.columnNames {
          assert prev.error.window in init;
        }
      }
    }
  }

  lemma {:induction false} AddColumnsKeys(f: Frame, columns: seq<string>, windows: seq<int>)
    requires WellFormed(f)
    ensures var r := AddColumns(f, columns, windows); r.Success? ==> SameKeys(f.rows, r.value.rows)
    decreases |columns|
  {
    if |columns| > 0 {
      var init := columns[..|columns| - 1];
      AddColumnsKeys(f, init, windows);
      var prev := AddColumns(f, init, windows);
      if prev.Success? {
        AddWindowsKeys(prev.value, columns[|columns| - 1], windows);
      }
    }
  }

  /** The column list after every column's windows. */
  lemma {:induction false} AddColumnsColumnNames(f: Frame, columns: seq<string>, windows: seq<int>)
    requires WellFormed(f)
    ensures var r := AddColumns(f, columns, windows);
      r.Success? ==> r.value.columnNames == AddNames(f.columnNames, PairNames(columns, windows))
    decreases |columns|
  {
    if |columns| > 0 {
      var init := columns[..|columns| - 1];
      var last := columns[|columns| - 1];
      AddColumnsColumnNames(f, init, windows);
      var prev := AddColumns(f, init, windows);
      if prev.Success? {
        AddWindowsColumnNames(prev.value, last, windows);
        AddNamesAppend(f.columnNames, PairNames(init, windows), MeanNames(last, windows));
      }
    }
  }

  /** Adding the columns keeps every existing column and adds one per column and window. */
  lemma AddColumnsNames(f: Frame, columns: seq<string>, windows: seq<int>)
    requires WellFormed(f)
    ensures var r := AddColumns(f, columns, windows);
      r.Success? ==>
        (forall c :: c in f.columnNames ==> c in r.value.columnNames) &&
        (forall k, m :: 0 <= k < |columns| && 0 <= m < |windows| ==>
          MeanColumnName(columns[k], windows[m]) in r.value.columnNames)
  {
    AddColumnsColumnNames(f, columns, windows);
    var pairs := PairNames(columns, windows);
    AddNamesContains(f.columnNames, pairs);
    PairNamesContain(columns, windows);
  }

  /** Every column present and every window at least 1 (or no rows): the operation succeeds. */
  lemma {:induction false} AddColumnsSucceeds(f: Frame, columns: seq<string>, windows: seq<int>)
    requires WellFormed(f)
    requires forall k :: 0 <= k < |columns| ==> columns[k] in f.columnNames
    requires |f.rows| == 0 || ValidWindows(windows)
    ensures AddColumns(f, columns, windows).Success?
    decreases |columns|
  {
    if |columns| > 0 {
      var init := columns[..|columns| - 1];
      assert forall k :: 0 <= k < |init| ==> init[k] == columns[k];
      AddColumnsSucceeds(f, init, windows);
      AddColumnsNames(f, init, windows);
      AddColumnsKeys(f, init, windows);
      var prev := AddColumns(f, init, windows);
      AddWindowsSuccess(prev.value, columns[|columns| - 1], windows);
    }
  }

  /** A failure names a requested column that is missing or a requested window below 1. */
  lemma {:induction false} AddColumnsErrors(f: Frame, columns: seq<string>, windows: seq<int>)
    requires WellFormed(f)
    ensures var r := AddColumns(f, columns, windows);
      r.Failure? ==>
        (r.error.MissingColumn? && r.error.column in columns) ||
        (|f.rows| > 0 && r.error.InvalidWindow? && r.error.window < 1 && r.error.window in windows)
    decreases |columns|
  {
    if |columns| > 0 {
      var init := columns[..|columns| - 1];
      AddColumnsErrors(f, init, windows);
      AddColumnsKeys(f, init, windows);
      var prev := AddColumns(f, init, windows);
      if prev.Failure? {
        if prev.error.MissingColumn? {
          assert prev.error.column in init;
        }
      } else {
        AddWindowsErrors(prev.value, columns[|columns| - 1], windows);
      }
    }
  }

  /** One more window extends the inner loop by one assignment. */
  lemma AddWindowsStep(f: Frame, column: string, windows: seq<int>, n: nat, df: Frame)
    requires WellFormed(f) && n < |windows|
    requires AddWindows(f, column, windows[..n]) == Success(df)
    ensures WellFormed(df)
    ensures AddWindows(f, column, windows[..n + 1]) == AddMeanColumn(df, column, windows[n])
  {
    assert windows[..n + 1][..n] == windows[..n];
  }

  /** One more column extends the outer loop by that column's windows. */
  lemma AddColumnsStep(f: Frame, columns: seq<string>, windows: seq<int>, n: nat, df: Frame)
    requires WellFormed(f) && n < |columns|
    requires AddColumns(f, columns[..n], windows) == Success(df)
    ensures WellFormed(df)
    ensures AddColumns(f, columns[..n + 1], windows) == AddWindows(df, columns[n], windows)
  {
    assert columns[..n + 1][..n] == columns[..n];
  }

  /** A failure on a prefix of the windows is the failure of all of them. */
  lemma {:induction false} AddWindowsStopsAtFailure(f: Frame, column: string, windows: seq<int>, n: nat)
    requires WellFormed(f) && n <= |windows|
    requires AddWindows(f, column, windows[..n]).Failure?
    ensures AddWindows(f, column, windows) == AddWindows(f, column, windows[..n])
    decreases |windows|
  {
    if n < |windows| {
      var init := windows[..|windows| - 1];
      assert init[..n] == windows[..n];
      AddWindowsStopsAtFailure(f, column, init, n);
    } else {
      assert windows[..n] == windows;
    }
  }

  /** A failure on a prefix of the columns is the failure of all of them: the operation fails as a whole. */
  lemma {:induction false} AddColumnsStopsAtFailure(f: Frame, columns: seq<string>, windows: seq<int>, n: nat)
    requires WellFormed(f) && n <= |columns|
    requires AddColumns(f, columns[..n], windows).Failure?
    ensures AddColumns(f, columns, windows) == AddColumns(f, columns[..n], windows)
    decreases |columns|
  {
    if n < |columns| {
      var init := columns[..|columns| - 1];
      assert init[..n] == columns[..n];
      AddColumnsStopsAtFailure(f, init, windows, n);
    } else {
      assert columns[..n] == columns;
    }
  }

  /** df.sort_values(["city_id", "ward_id", "daily_date"]) on a frame. */
  function SortFrame(f: Frame): (g: Frame)
    requires WellFormed(f)
    ensures WellFormed(g) && g.columnNames == f.columnNames
    ensures Sorted(g.rows) && multiset(g.rows) == multiset(f.rows)
  {
    var sorted := Frame(f.columnNames, SortRows(f.rows));
    SortRowsSorted(f.rows);
    assert WellFormed(sorted) by {
      forall i | 0 <= i < |sorted.rows|
        ensures sorted.rows[i].columns.Keys == set c | c in f.columnNames
      {
        assert sorted.rows[i] in multiset(f.rows);
      }
    }
    sorted
  }

  /**
   * calculate_rolling_features: sort the rows, then add the rolling mean columns.
   * The result is sorted, keeps the sorted input's keys row by row, keeps every
   * input column and has a mean column for every column and window.
   */
  function RollingFeatures(f: Frame, columns: seq<string>, windows: seq<int>): (r: Result<Frame, RollingError>)
    requires WellFormed(f)
    ensures r.Success? ==> WellFormed(r.value) && Sorted(r.value.rows) && SameKeys(SortFrame(f).rows, r.value.rows)
    ensures r.Success? ==> forall c :: c in f.columnNames ==> c in r.value.columnNames
    ensures r.Success? ==> forall k, m :: 0 <= k < |columns| && 0 <= m < |windows| ==>
      MeanColumnName(columns[k], windows[m]) in r.value.columnNames
    ensures (forall k :: 0 <= k < |columns| ==> columns[k] in f.columnNames)
      && (|f.rows| == 0 || ValidWindows(windows))
      ==> r.Success?
    ensures r.Failure? ==>
      (r.error.MissingColumn? && r.error.column in columns) ||
      (|f.rows| > 0 && r.error.InvalidWindow? && r.error.window < 1 && r.error.window in windows)
  {
    var sorted := SortFrame(f);
    AddColumnsKeys(sorted, columns, windows);
    AddColumnsNames(sorted, columns, windows);
    AddColumnsErrors(sorted, columns, windows);
    if (forall k :: 0 <= k < |columns| ==> columns[k] in f.columnNames) && (|f.rows| == 0 || ValidWindows(windows)) then
      AddColumnsSucceeds(sorted, columns, windows);
      var r := AddColumns(sorted, columns, windows);
      SortedSameKeys(sorted.rows, r.value.rows);
      r
    else
      var r := AddColumns(sorted, columns, windows);
      if r.Success? then
        SortedSameKeys(sorted.rows, r.value.rows);
        r
      else r
  }

  /** With no windows nothing is looked up: the result is the sorted frame, whatever the columns. */
  lemma {:induction false} NoWindowsOnlySorts(f: Frame, columns: seq<string>)
    requires WellFormed(f)
    ensures AddColumns(f, columns, []) == Success(f)
    decreases |columns|
  {
    if |columns| > 0 {
      NoWindowsOnlySorts(f, columns[..|columns| - 1]);
    }
  }

  /** A missing first column fails with its KeyError as soon as there is a window. */
  lemma MissingFirstColumn(f: Frame, columns: seq<string>, windows: seq<int>)
    requires WellFormed(f) && |columns| > 0 && |windows| > 0 && columns[0] !in f.columnNames
    ensures RollingFeatures(f, columns, windows) == Failure(MissingColumn(columns[0]))
  {
    var sorted := SortFrame(f);
    var one := columns[..1];
    assert one[..0] == [];
    assert AddColumns(sorted, one, windows) == AddWindows(sorted, columns[0], windows);
    var w1 := windows[..1];
    assert w1[..0] == [];
    assert AddWindows(sorted, columns[0], w1) == Failure(MissingColumn(columns[0]));
    AddWindowsStopsAtFailure(sorted, columns[0], windows, 1);
    AddColumnsStopsAtFailure(sorted, columns, windows, 1);
  }

  /** The values of one rolling mean column over the sorted rows. */
  lemma SingleColumnMeans(f: Frame, column: string, w: int)
    requires WellFormed(f) && column in f.columnNames && w >= 1
    ensures var r, s := RollingFeatures(f, [column], [w]), SortFrame(f).rows;
      r.Success? && |r.value.rows| == |s| &&
      forall i :: 0 <= i < |s| ==>
        r.value.rows[i].columns == s[i].columns[MeanColumnName(column, w) :=
          RollingMeanAt(GroupKeys(s), ColumnValues(s, column), w, i)]
  {
    var sorted := SortFrame(f);
    assert [column][..0] == [] && [w][..0] == [];
    assert AddColumns(sorted, [column], [w]) == AddWindows(sorted, column, [w]);
    assert AddWindows(sorted, column, [w]) == AddMeanColumn(sorted, column, w);
    AddMeanColumnValues(sorted, column, w);
  }

  /** The default windows name the columns <column>_rolling_mean_7 and <column>_rolling_mean_30. */
  lemma DefaultWindowNames(column: string)
    ensures MeanColumnName(column, DEFAULT_WINDOWS[0]) == column + "_rolling_mean_7"
    ensures MeanColumnName(column, DEFAULT_WINDOWS[1]) == column + "_rolling_mean_30"
  {
    assert NatToString(30) == NatToString(3) + [DigitChar(0)];
  }

  /** c is the mean column name of some requested column and window. */
  predicate Generated(c: string, columns: seq<string>, windows: seq<int>)
  {
    exists k, m :: 0 <= k < |columns| && 0 <= m < |windows| && c == MeanColumnName(columns[k], windows[m])
  }

  /** No requested column is itself one of the mean column names the call assigns. */
  predicate NoGeneratedInputs(columns: seq<string>, windows: seq<int>)
  {
    forall k :: 0 <= k < |columns| ==> !Generated(columns[k], columns, windows)
  }

  /** df has b's keys row by row, all of b's columns, and b's value in every column the call does not assign. */
  predicate KeepsInputs(b: Frame, df: Frame, columns: seq<string>, windows: seq<int>)
  {
    && WellFormed(b) && WellFormed(df) && SameKeys(b.rows, df.rows)
    && (forall c :: c in b.columnNames ==> c in df.columnNames)
    && forall i, c :: 0 <= i < |b.rows| && c in b.columnNames && !Generated(c, columns, windows) ==>
         df.rows[i].columns[c] == b.rows[i].columns[c]
  }

  /** df holds, under the mean column name of column and window, the rolling mean of b's column at every row. */
  predicate HasMean(b: Frame, df: Frame, column: string, window: int)
  {
    && WellFormed(b) && WellFormed(df) && |df.rows| == |b.rows|
    && column in b.columnNames && window >= 1 && MeanColumnName(column, window) in df.columnNames
    && forall i :: 0 <= i < |b.rows| ==>
         df.rows[i].columns[MeanColumnName(column, window)] ==
           RollingMeanAt(GroupKeys(b.rows), ColumnValues(b.rows, column), window, i)
  }

  /** After the first n columns and, of column n, the first p windows: those mean columns hold their means over b. */
  predicate MeansDone(b: Frame, df: Frame, columns: seq<string>, windows: seq<int>, n: nat, p: nat)
  {
    && KeepsInputs(b, df, columns, windows)
    && n <= |columns| && p <= |windows|
    && forall k, m :: 0 <= k < |columns| && 0 <= m < |windows| && (k < n || (k == n && m < p)) ==>
         HasMean(b, df, columns[k], windows[m])
  }

  lemma SameKeysGroupKeys(a: seq<Row>, b: seq<Row>)
    requires SameKeys(a, b)
    ensures GroupKeys(a) == GroupKeys(b)
  {
  }

  /** An unassigned column has the same values in df as in b. */
  lemma KeptColumnValues(b: Frame, df: Frame, columns: seq<string>, windows: seq<int>, column: string)
    requires KeepsInputs(b, df, columns, windows)
    requires column in b.columnNames && !Generated(column, columns, windows)
    ensures ColumnValues(df.rows, column) == ColumnValues(b.rows, column)
  {
    assert forall i :: 0 <= i < |b.rows| ==> df.rows[i].columns[column] == b.rows[i].columns[column];
  }

  /** r is df with vals stored under name, row by row. */
  predicate Assigned(df: Frame, r: Frame, name: string, vals: seq<real>)
  {
    && WellFormed(df) && WellFormed(r) && |vals| == |df.rows| && SameKeys(df.rows, r.rows)
    && (forall c :: c in df.columnNames ==> c in r.columnNames) && name in r.columnNames
    && forall i :: 0 <= i < |df.rows| ==> r.rows[i].columns == df.rows[i].columns[name := vals[i]]
  }

  /** Storing under a generated name keeps every unassigned input column. */
  lemma AssignKeeps(b: Frame, df: Frame, r: Frame, columns: seq<string>, windows: seq<int>, name: string, vals: seq<real>)
    requires KeepsInputs(b, df, columns, windows) && Assigned(df, r, name, vals) && Generated(name, columns, windows)
    ensures KeepsInputs(b, r, columns, windows)
  {
  }

  /** Storing under another name keeps a mean column already in place. */
  lemma AssignKeepsMean(b: Frame, df: Frame, r: Frame, column: string, window: int, name: string, vals: seq<real>)
    requires HasMean(b, df, column, window) && Assigned(df, r, name, vals) && MeanColumnName(column, window) != name
    ensures HasMean(b, r, column, window)
  {
  }

  /** The assignment of one mean column, read against b: the new column holds its means over b. */
  lemma AddMeanColumnAssigned(b: Frame, df: Frame, columns: seq<string>, windows: seq<int>, column: string, w: int)
    requires KeepsInputs(b, df, columns, windows) && column in b.columnNames && !Generated(column, columns, windows) && w >= 1
    ensures var r := AddMeanColumn(df, column, w);
      && r.Success? && Assigned(df, r.value, MeanColumnName(column, w), MeanColumn(b.rows, column, w))
      && HasMean(b, r.value, column, w)
  {
    AddMeanColumnValues(df, column, w);
    SameKeysGroupKeys(b.rows, df.rows);
    KeptColumnValues(b, df, columns, windows, column);
  }

  /** Mean columns already in place survive an assignment, and the assigned pair joins them. */
  lemma AssignExtendsDone(b: Frame, df: Frame, r: Frame, columns: seq<string>, windows: seq<int>, n: nat, p: nat, vals: seq<real>)
    requires MeansDone(b, df, columns, windows, n, p) && n < |columns| && p < |windows|
    requires Assigned(df, r, MeanColumnName(columns[n], windows[p]), vals)
    requires HasMean(b, r, columns[n], windows[p]) && KeepsInputs(b, r, columns, windows)
    ensures MeansDone(b, r, columns, windows, n, p + 1)
  {
    var name := MeanColumnName(columns[n], windows[p]);
    forall k, m | 0 <= k < |columns| && 0 <= m < |windows| && (k < n || (k == n && m < p + 1))
      ensures HasMean(b, r, columns[k], windows[m])
    {
      if MeanColumnName(columns[k], windows[m]) == name {
        MeanColumnNameInjective(columns[k], windows[m], columns[n], windows[p]);
      } else {
        AssignKeepsMean(b, df, r, columns[k], windows[m], name, vals);
      }
    }
  }

  /** One more assignment: the new mean column holds its means over b and nothing else the invariant speaks of changes. */
  lemma MeanAssignStep(b: Frame, df: Frame, columns: seq<string>, windows: seq<int>, n: nat, p: nat)
    requires MeansDone(b, df, columns, windows, n, p) && n < |columns| && p < |windows|
    requires ValidWindows(windows) && columns[n] in b.columnNames && NoGeneratedInputs(columns, windows)
    ensures var r := AddMeanColumn(df, columns[n], windows[p]);
      r.Success? && MeansDone(b, r.value, columns, windows, n, p + 1)
  {
    var column, w := columns[n], windows[p];
    var name := MeanColumnName(column, w);
    var vals := MeanColumn(b.rows, column, w);
    AddMeanColumnAssigned(b, df, columns, windows, column, w);
    var r := AddMeanColumn(df, column, w).value;
    assert Generated(name, columns, windows);
    AssignKeeps(b, df, r, columns, windows, name, vals);
    AssignExtendsDone(b, df, r, columns, windows, n, p, vals);
  }

  /** The inner loop over the first p windows of column n keeps the invariant, window by window. */
  lemma {:induction false} AddWindowsMeans(b: Frame, df: Frame, columns: seq<string>, windows: seq<int>, n: nat, p: nat)
    requires MeansDone(b, df, columns, windows, n, 0) && n < |columns| && p <= |windows|
    requires ValidWindows(windows) && columns[n] in b.columnNames && NoGeneratedInputs(columns, windows)
    ensures var r := AddWindows(df, columns[n], windows[..p]);
      r.Success? && MeansDone(b, r.value, columns, windows, n, p)
  {
    if p == 0 {
      assert windows[..0] == [];
    } else {
      AddWindowsMeans(b, df, columns, windows, n, p - 1);
      var prev := AddWindows(df, columns[n], windows[..p - 1]).value;
      AddWindowsStep(df, columns[n], windows, p - 1, prev);
      MeanAssignStep(b, prev, columns, windows, n, p - 1);
    }
  }

  /** The outer loop over the first n columns keeps the invariant, column by column. */
  lemma {:induction false} AddColumnsMeans(b: Frame, columns: seq<string>, windows: seq<int>, n: nat)
    requires WellFormed(b) && n <= |columns| && ValidWindows(windows) && NoGeneratedInputs(columns, windows)
    requires forall k :: 0 <= k < |columns| ==> columns[k] in b.columnNames
    ensures var r := AddColumns(b, columns[..n], windows);
      r.Success? && MeansDone(b, r.value, columns, windows, n, 0)
  {
    if n == 0 {
      assert columns[..0] == [];
    } else {
      AddColumnsMeans(b, columns, windows, n - 1);
      var prev := AddColumns(b, columns[..n - 1], windows).value;
      AddWindowsMeans(b, prev, columns, windows, n - 1, |windows|);
      assert windows[..|windows|] == windows;
      AddColumnsStep(b, columns, windows, n - 1, prev);
    }
  }

  /**
   * Every requested mean column holds, at every row, the rolling mean of its
   * column over the sorted rows, and every input column that is not assigned
   * keeps its sorted value.
   */
  lemma RollingFeaturesMeans(f: Frame, columns: seq<string>, windows: seq<int>)
    requires WellFormed(f) && ValidWindows(windows) && NoGeneratedInputs(columns, windows)
    requires forall k :: 0 <= k < |columns| ==> columns[k] in f.columnNames
    ensures var r, s := RollingFeatures(f, columns, windows), SortFrame(f).rows;
      && r.Success? && WellFormed(r.value) && |r.value.rows| == |s|
      && (forall i, k, m :: 0 <= i < |s| && 0 <= k < |columns| && 0 <= m < |windows| ==>
           MeanColumnName(columns[k], windows[m]) in r.value.rows[i].columns &&
           r.value.rows[i].columns[MeanColumnName(columns[k], windows[m])] ==
             RollingMeanAt(GroupKeys(s), ColumnValues(s, columns[k]), windows[m], i))
      && (forall i, c :: 0 <= i < |s| && c in f.columnNames && !Generated(c, columns, windows) ==>
           c in r.value.rows[i].columns && r.value.rows[i].columns[c] == s[i].columns[c])
  {
    var sorted := SortFrame(f);
    AddColumnsMeans(sorted, columns, windows, |columns|);
    assert columns[..|columns|] == columns;
    var r := RollingFeatures(f, columns, windows).value;
    assert MeansDone(sorted, r, columns, windows, |columns|, 0);
    forall i, k, m | 0 <= i < |sorted.rows| && 0 <= k < |columns| && 0 <= m < |windows|
      ensures MeanColumnName(columns[k], windows[m]) in r.rows[i].columns
      ensures r.rows[i].columns[MeanColumnName(columns[k], windows[m])] ==
        RollingMeanAt(GroupKeys(sorted.rows), ColumnValues(sorted.rows, columns[k]), windows[m], i)
    {
      assert HasMean(sorted, r, columns[k], windows[m]);
    }
  }

  /** One assignment df[f"{col}_rolling_mean_{window}"] = ...: the lookup, the window check, the forward pass. */
  method AssignMeanColumn(df: Frame, column: string, window: int) returns (r: Result<Frame, RollingError>)
    requires WellFormed(df)
    ensures r == AddMeanColumn(df, column, window)
  {
    if column !in df.columnNames {
      return Failure(MissingColumn(column));
    }
    if window < 1 && |df.rows| > 0 {
      return Failure(InvalidWindow(window));
    }
    var name := MeanColumnName(column, window);
    var means := [];
    if |df.rows| > 0 {
      means := RollingMean(GroupKeys(df.rows), ColumnValues(df.rows, column), window);
      assert means == MeanColumn(df.rows, column, window);
    }
    return Success(Frame(AddName(df.columnNames, name), SetColumn(df.rows, name, means)));
  }

  /** The inner loop of calculate_rolling_features: one column, every window in turn. */
  method AddWindowsLoop(start: Frame, column: string, windows: seq<int>) returns (r: Result<Frame, RollingError>)
    requires WellFormed(start)
    ensures r == AddWindows(start, column, windows)
  {
    var df := start;
    var wi := 0;
    assert windows[..0] == [];
    while wi < |windows|
      invariant 0 <= wi <= |windows|
      invariant WellFormed(df)
      invariant AddWindows(start, column, windows[..wi]) == Success(df)
    {
      AddWindowsStep(start, column, windows, wi, df);
      var step := AssignMeanColumn(df, column, windows[wi]);
      if step.Failure? {
        AddWindowsStopsAtFailure(start, column, windows, wi + 1);
        return step;
      }
      df := step.value;
      wi := wi + 1;
    }
    assert windows[..wi] == windows;
    return Success(df);
  }

  /** calculate_rolling_features as the source runs it: a sort, then a loop over columns with a loop over windows inside. */
  method CalculateRollingFeatures(f: Frame, columns: seq<string>, windows: seq<int>) returns (r: Result<Frame, RollingError>)
    requires WellFormed(f)
    ensures r == RollingFeatures(f, columns, windows)
  {
    var sorted := SortFrame(f);
    var df := sorted;
    var ci := 0;
    while ci < |columns|
      invariant 0 <= ci <= |columns|
      invariant WellFormed(df)
      invariant AddColumns(sorted, columns[..ci], windows) == Success(df)
    {
      AddColumnsStep(sorted, columns, windows, ci, df);
      var step := AddWindowsLoop(df, columns[ci], windows);
      if step.Failure? {
        AddColumnsStopsAtFailure(sorted, columns, windows, ci + 1);
        return step;
      }
      df := step.value;
      ci := ci + 1;
    }
    assert columns[..ci] == columns;
    return Success(df);
  }
}
