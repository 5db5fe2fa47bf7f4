/**
 * The data handling of `visualize.py`: reading a training log back, the
 * moving-average smoothing of reward curves, the per-episode averaging of the
 * evaluation success rate across runs, and the grouping of runs listed in the
 * evaluation summary by base name, by gamma and by target-network arm. What is
 * drawn from these values is not modelled.
 */
module Visualize {
  import opened Wrappers
  import opened Numeric
  import opened PyStr
  import Train
  import Evaluate
  import opened Episodes

  // ---------------------------------------------------------------------------
  // load_training_log.

  /** The columns of one `training_log.csv` row that `load_training_log` reads, as text. */
  datatype CsvRow = CsvRow(episode: string, episodeReward: string, loss: string, evalSuccessRate: string, evalAvgReward: string)

  /** What `load_training_log` returns. */
  datatype TrainingLog = TrainingLog(episodes: seq<int>, rewards: seq<real>, losses: seq<real>,
                                     evalSrs: seq<(int, real)>, evalRewards: seq<(int, real)>)

  /** An evaluation column of a row: the average reward when `avgReward`, else the success rate. */
  function EvalColumn(row: CsvRow, avgReward: bool): string
  {
    if avgReward then row.evalAvgReward else row.evalSuccessRate
  }

  /** The points read from that column. */
  function EvalPoints(log: TrainingLog, avgReward: bool): seq<(int, real)>
  {
    if avgReward then log.evalRewards else log.evalSrs
  }

  /**
   * `int` and `float` accept every field the row handling converts: the episode,
   * the reward, and the loss and evaluation fields that are not empty.
   * `parseFloat` is Python's `float()`, `None` where it raises `ValueError`.
   */
  predicate RowParses(row: CsvRow, parseFloat: string -> Option<real>)
  {
    && ParseInt(row.episode).Some?
    && parseFloat(row.episodeReward).Some?
    && (row.loss == "" || parseFloat(row.loss).Some?)
    && (row.evalSuccessRate == "" || parseFloat(row.evalSuccessRate).Some?)
    && (row.evalAvgReward == "" || parseFloat(row.evalAvgReward).Some?)
  }

  /** The lists after one more row, or `None` when converting it raises. */
  function ReadRow(log: TrainingLog, row: CsvRow, parseFloat: string -> Option<real>): Option<TrainingLog>
  {
    if !RowParses(row, parseFloat) then None
    else
      var ep := ParseInt(row.episode).value;
      Some(TrainingLog(
        log.episodes + [ep],
        log.rewards + [parseFloat(row.episodeReward).value],
        log.losses + [if row.loss == "" then 0.0 else parseFloat(row.loss).value],
        log.evalSrs + (if row.evalSuccessRate == "" then [] else [(ep, parseFloat(row.evalSuccessRate).value)]),
        log.evalRewards + (if row.evalAvgReward == "" then [] else [(ep, parseFloat(row.evalAvgReward).value)])))
  }

  /** The log read from `rows`, or `None` when some row raises. */
  function ReadRows(rows: seq<CsvRow>, parseFloat: string -> Option<real>): Option<TrainingLog>
  {
    if rows == [] then Some(TrainingLog([], [], [], [], []))
    else
      match ReadRows(rows[..|rows| - 1], parseFloat)
      case None => None
      case Some(log) => ReadRow(log, rows[|rows| - 1], parseFloat)
  }

  /** Reading one more row continues from the prefix's log. */
  lemma ReadRowsNext(rows: seq<CsvRow>, parseFloat: string -> Option<real>, i: nat, log: TrainingLog)
    requires i < |rows| && ReadRows(rows[..i], parseFloat) == Some(log)
    ensures ReadRows(rows[..i + 1], parseFloat) == ReadRow(log, rows[i], parseFloat)
  {
    assert rows[..i + 1][..i] == rows[..i];
  }

  /** Once a prefix of the rows raises, reading all of them raises. */
  lemma {:induction false} ReadRowsStops(rows: seq<CsvRow>, parseFloat: string -> Option<real>, k: nat)
    requires k <= |rows| && ReadRows(rows[..k], parseFloat).None?
    ensures ReadRows(rows, parseFloat).None?
    decreases |rows| - k
  {
    if k < |rows| {
      assert rows[..k + 1][..k] == rows[..k];
      ReadRowsStops(rows, parseFloat, k + 1);
    } else {
      assert rows[..k] == rows;
    }
  }

  /**
   * `load_training_log(csv_path)` over the rows of the file: each field is
   * converted and appended, an empty loss as 0, and an evaluation value, paired
   * with its episode, only where its field is not empty. A field that does not
   * convert raises, and nothing is returned.
   */
  method LoadTrainingLog(rows: seq<CsvRow>, parseFloat: string -> Option<real>) returns (log: Option<TrainingLog>)
    ensures log == ReadRows(rows, parseFloat)
  {
    var episodes: seq<int>, rewards: seq<real>, losses: seq<real> := [], [], [];
    var evalSrs: seq<(int, real)>, evalRewards: seq<(int, real)> := [], [];
    for i := 0 to |rows|
      invariant ReadRows(rows[..i], parseFloat) == Some(TrainingLog(episodes, rewards, losses, evalSrs, evalRewards))
    {
      var row := rows[i];
      ghost var before := TrainingLog(episodes, rewards, losses, evalSrs, evalRewards);
      ReadRowsNext(rows, parseFloat, i, before);
      if !RowParses(row, parseFloat) {
        ReadRowsStops(rows, parseFloat, i + 1);
        return None;
      }
      var ep := ParseInt(row.episode).value;
      episodes := episodes + [ep];
      rewards := rewards + [parseFloat(row.episodeReward).value];
      losses := losses + [if row.loss != "" then parseFloat(row.loss).value else 0.0];
      if row.evalSuccessRate != "" {
        evalSrs := evalSrs + [(ep, parseFloat(row.evalSuccessRate).value)];
      }
      if row.evalAvgReward != "" {
        evalRewards := evalRewards + [(ep, parseFloat(row.evalAvgReward).value)];
      }
      assert evalSrs == before.evalSrs + (if row.evalSuccessRate == "" then [] else [(ep, parseFloat(row.evalSuccessRate).value)]);
      assert evalRewards == before.evalRewards + (if row.evalAvgReward == "" then [] else [(ep, parseFloat(row.evalAvgReward).value)]);
      assert ReadRow(before, row, parseFloat) == Some(TrainingLog(episodes, rewards, losses, evalSrs, evalRewards));
    }
    assert rows[..|rows|] == rows;
    log := Some(TrainingLog(episodes, rewards, losses, evalSrs, evalRewards));
  }

  /** Reading succeeds exactly when every row converts. */
  lemma {:induction false} ReadRowsSucceeds(rows: seq<CsvRow>, parseFloat: string -> Option<real>)
    ensures ReadRows(rows, parseFloat).Some? <==> forall i | 0 <= i < |rows| :: RowParses(rows[i], parseFloat)
  {
    if rows != [] {
      var init := rows[..|rows| - 1];
      AllRowsSplit(rows, init, parseFloat);
      ReadRowsSucceeds(init, parseFloat);
      ReadRowsLast(rows, parseFloat);
    }
  }

  lemma AllRowsSplit(rows: seq<CsvRow>, init: seq<CsvRow>, parseFloat: string -> Option<real>)
    requires rows != [] && init == rows[..|rows| - 1]
    ensures (forall i | 0 <= i < |rows| :: RowParses(rows[i], parseFloat)) <==>
      (forall i | 0 <= i < |init| :: RowParses(init[i], parseFloat)) && RowParses(rows[|rows| - 1], parseFloat)
  {
    assert forall i | 0 <= i < |init| :: init[i] == rows[i];
  }

  /** The last row decides whether reading a converting prefix succeeds, and what it adds. */
  lemma ReadRowsLast(rows: seq<CsvRow>, parseFloat: string -> Option<real>)
    requires rows != []
    ensures var init := rows[..|rows| - 1];
      && (ReadRows(rows, parseFloat).Some? <==> ReadRows(init, parseFloat).Some? && RowParses(rows[|rows| - 1], parseFloat))
      && (ReadRows(rows, parseFloat).Some? ==> ReadRows(rows, parseFloat) == ReadRow(ReadRows(init, parseFloat).value, rows[|rows| - 1], parseFloat))
  {
  }

  /** The three per-episode lists are as long as the file and hold its converted fields, row by row. */
  lemma {:induction false} ReadRowsAt(rows: seq<CsvRow>, parseFloat: string -> Option<real>, i: nat)
    requires ReadRows(rows, parseFloat).Some? && i < |rows|
    ensures var log := ReadRows(rows, parseFloat).value;
      && |log.episodes| == |log.rewards| == |log.losses| == |rows|
      && ParseInt(rows[i].episode) == Some(log.episodes[i])
      && parseFloat(rows[i].episodeReward) == Some(log.rewards[i])
      && (rows[i].loss == "" ==> log.losses[i] == 0.0)
      && (rows[i].loss != "" ==> parseFloat(rows[i].loss) == Some(log.losses[i]))
  {
    var init := rows[..|rows| - 1];
    ReadRowsLast(rows, parseFloat);
    if i < |init| {
      ReadRowsAt(init, parseFloat, i);
    } else if init != [] {
      ReadRowsAt(init, parseFloat, 0);
    }
  }

  /** The indices of the rows whose evaluation column is not empty, in order. */
  function Filled(rows: seq<CsvRow>, avgReward: bool): (f: seq<nat>)
    ensures forall j | 0 <= j < |f| :: f[j] < |rows| && EvalColumn(rows[f[j]], avgReward) != ""
    ensures forall j, k | 0 <= j < k < |f| :: f[j] < f[k]
    ensures forall i | 0 <= i < |rows| && EvalColumn(rows[i], avgReward) != "" :: i in f
  {
    if rows == [] then []
    else
      var init := rows[..|rows| - 1];
      assert forall i | 0 <= i < |init| :: init[i] == rows[i];
      Filled(init, avgReward) + (if EvalColumn(rows[|rows| - 1], avgReward) != "" then [|rows| - 1] else [])
  }

  /**
   * The points of an evaluation column are one per row that fills it, in row
   * order, each the row's episode paired with the converted value.
   */
  lemma {:induction false} ReadRowsEval(rows: seq<CsvRow>, parseFloat: string -> Option<real>, avgReward: bool)
    requires ReadRows(rows, parseFloat).Some?
    ensures var pts, f := EvalPoints(ReadRows(rows, parseFloat).value, avgReward), Filled(rows, avgReward);
      && |pts| == |f|
      && forall j | 0 <= j < |f| ::
           ParseInt(rows[f[j]].episode) == Some(pts[j].0) && parseFloat(EvalColumn(rows[f[j]], avgReward)) == Some(pts[j].1)
  {
    if rows != [] {
      var init := rows[..|rows| - 1];
      var last := rows[|rows| - 1];
      ReadRowsLast(rows, parseFloat);
      ReadRowsEval(init, parseFloat, avgReward);
      var log := ReadRows(init, parseFloat).value;
      EvalPointsStep(log, last, parseFloat, avgReward);
      var pts, pts' := EvalPoints(log, avgReward), EvalPoints(ReadRows(rows, parseFloat).value, avgReward);
      var f, f' := Filled(init, avgReward), Filled(rows, avgReward);
      assert f' == f + (if EvalColumn(last, avgReward) != "" then [|rows| - 1] else []);
      PointsExtend(rows, init, parseFloat, avgReward, f, f', pts, pts');
    }
  }

  /** The correspondence of points to filled rows survives one more row. */
  lemma PointsExtend(rows: seq<CsvRow>, init: seq<CsvRow>, parseFloat: string -> Option<real>, avgReward: bool,
                     f: seq<nat>, f': seq<nat>, pts: seq<(int, real)>, pts': seq<(int, real)>)
    requires rows != [] && init == rows[..|rows| - 1] && RowParses(rows[|rows| - 1], parseFloat)
    requires forall j | 0 <= j < |f| :: f[j] < |init|
    requires |pts| == |f| && forall j | 0 <= j < |f| ::
      ParseInt(init[f[j]].episode) == Some(pts[j].0) && parseFloat(EvalColumn(init[f[j]], avgReward)) == Some(pts[j].1)
    requires var last := rows[|rows| - 1];
      && f' == f + (if EvalColumn(last, avgReward) != "" then [|rows| - 1] else [])
      && pts' == pts + (if EvalColumn(last, avgReward) == "" then []
                        else [(ParseInt(last.episode).value, parseFloat(EvalColumn(last, avgReward)).value)])
    ensures |pts'| == |f'| && forall j | 0 <= j < |f'| ::
      ParseInt(rows[f'[j]].episode) == Some(pts'[j].0) && parseFloat(EvalColumn(rows[f'[j]], avgReward)) == Some(pts'[j].1)
  {
    assert forall j | 0 <= j < |f| :: f'[j] == f[j] && pts'[j] == pts[j] && init[f[j]] == rows[f[j]];
  }

  /** Reading one more converting row adds at most one point to an evaluation column. */
  lemma EvalPointsStep(log: TrainingLog, row: CsvRow, parseFloat: string -> Option<real>, avgReward: bool)
    requires RowParses(row, parseFloat)
    ensures EvalPoints(ReadRow(log, row, parseFloat).value, avgReward) == EvalPoints(log, avgReward) +
      (if EvalColumn(row, avgReward) == "" then [] else [(ParseInt(row.episode).value, parseFloat(EvalColumn(row, avgReward)).value)])
  {
  }

  // ---------------------------------------------------------------------------
  // smooth.

  /** Entry `k` of `np.convolve(xs, ws, mode="valid")` for `|xs| == |ws|`: the flipped dot product. */
  function FlippedProducts(xs: seq<real>, ws: seq<real>): (ps: seq<real>)
    requires |xs| == |ws|
    ensures |ps| == |xs|
  {
    seq(|xs|, i requires 0 <= i < |xs| => xs[i] * ws[|ws| - 1 - i])
  }

  /** `np.convolve(data, kernel, mode="valid")`. */
  function Convolve(data: seq<real>, kernel: seq<real>): (r: seq<real>)
    requires 0 < |kernel| <= |data|
    ensures |r| == |data| - |kernel| + 1
  {
    seq(|data| - |kernel| + 1, k requires 0 <= k <= |data| - |kernel| =>
      Sum(FlippedProducts(data[k..k + |kernel|], kernel)))
  }

  /** `np.ones(window) / window`. */
  function Kernel(window: nat): (ks: seq<real>)
    requires window > 0
    ensures |ks| == window
  {
    seq(window, _ => 1.0 / window as real)
  }

  /** `smooth(data, window)`. */
  function Smooth(data: seq<real>, window: nat): seq<real>
    requires window > 0
  {
    if |data| < window then data else Convolve(data, Kernel(window))
  }

  /** Against a constant kernel every product is the value scaled by that constant. */
  lemma ConstantProducts(xs: seq<real>, ks: seq<real>, c: real)
    requires |xs| == |ks| && forall i | 0 <= i < |ks| :: ks[i] == c
    ensures FlippedProducts(xs, ks) == Scaled(xs, c)
  {
    var ps := FlippedProducts(xs, ks);
    forall i | 0 <= i < |xs| ensures ps[i] == xs[i] * c {
      assert ks[|ks| - 1 - i] == c;
    }
  }

  /** One output of a uniform-kernel convolution is the mean of its window. */
  lemma UniformWindow(xs: seq<real>, window: nat)
    requires window > 0 && |xs| == window
    ensures Sum(FlippedProducts(xs, Kernel(window))) == Mean(xs)
  {
    ConstantProducts(xs, Kernel(window), 1.0 / window as real);
    SumScaled(xs, 1.0 / window as real);
    DivideIsScale(Sum(xs), window as real);
  }

  /**
   * A series shorter than the window comes back unchanged; otherwise there is one
   * value per full window, and value `k` is the mean of `data[k .. k + window)`.
   */
  lemma SmoothMovingAverage(data: seq<real>, window: nat)
    requires window > 0
    ensures |data| < window ==> Smooth(data, window) == data
    ensures |data| >= window ==> |Smooth(data, window)| == |data| - window + 1
    ensures |data| >= window ==>
      forall k | 0 <= k <= |data| - window :: Smooth(data, window)[k] == Mean(data[k..k + window])
  {
    if |data| >= window {
      forall k | 0 <= k <= |data| - window ensures Smooth(data, window)[k] == Mean(data[k..k + window]) {
        UniformWindow(data[k..k + window], window);
      }
    }
  }

  /** Every smoothed value lies within the bounds of the series. */
  lemma SmoothBounds(data: seq<real>, window: nat, lo: real, hi: real)
    requires window > 0
    requires forall t | 0 <= t < |data| :: lo <= data[t] <= hi
    ensures forall t | 0 <= t < |Smooth(data, window)| :: lo <= Smooth(data, window)[t] <= hi
  {
    SmoothMovingAverage(data, window);
    if |data| >= window {
      forall k | 0 <= k <= |data| - window ensures lo <= Smooth(data, window)[k] <= hi {
        var w := data[k..k + window];
        assert forall t | 0 <= t < |w| :: w[t] == data[k + t];
        MeanBounds(w, lo, hi);
      }
    }
  }

  // ---------------------------------------------------------------------------
  // The reward curves of plot_training_curves.

  /** `min(len(log["rewards"]) for log in logs)`. */
  function MinLength(series: seq<seq<real>>): (m: nat)
    requires |series| > 0
    ensures forall i | 0 <= i < |series| :: m <= |series[i]|
    ensures exists i | 0 <= i < |series| :: m == |series[i]|
  {
    if |series| == 1 then |series[0]|
    else
      var init := series[..|series| - 1];
      var m := MinLength(init);
      assert forall i | 0 <= i < |init| :: init[i] == series[i];
      if |series[|series| - 1]| < m then |series[|series| - 1]| else m
  }

  /** `[smooth(log["rewards"][:min_len]) for log in logs]`. */
  function SmoothedCurves(series: seq<seq<real>>, window: nat): (cs: seq<seq<real>>)
    requires |series| > 0 && window > 0
    ensures |cs| == |series|
  {
    var m := MinLength(series);
    seq(|series|, i requires 0 <= i < |series| => Smooth(series[i][..m], window))
  }

  /** The common length of the smoothed curves. */
  function CurveLength(minLength: nat, window: nat): nat
  {
    if minLength < window then minLength else minLength - window + 1
  }

  /** Truncating to the shortest log makes every smoothed curve the same length. */
  lemma CurvesAligned(series: seq<seq<real>>, window: nat)
    requires |series| > 0 && window > 0
    ensures forall i | 0 <= i < |series| ::
      |SmoothedCurves(series, window)[i]| == CurveLength(MinLength(series), window)
  {
    var m := MinLength(series);
    forall i | 0 <= i < |series| ensures |SmoothedCurves(series, window)[i]| == CurveLength(m, window) {
      SmoothMovingAverage(series[i][..m], window);
    }
  }

  /** Column `t` of a list of rows. */
  function Column(rows: seq<seq<real>>, t: nat): (c: seq<real>)
    requires forall i | 0 <= i < |rows| :: t < |rows[i]|
    ensures |c| == |rows|
  {
    seq(|rows|, i requires 0 <= i < |rows| => rows[i][t])
  }

  /** `np.mean(all_rewards, axis=0)` over `width` columns. */
  function ColumnMeans(rows: seq<seq<real>>, width: nat): (ms: seq<real>)
    requires |rows| > 0 && forall i | 0 <= i < |rows| :: |rows[i]| == width
    ensures |ms| == width
  {
    seq(width, t requires 0 <= t < width => Mean(Column(rows, t)))
  }

  /** The mean reward curve `mean_r`. */
  function MeanCurve(series: seq<seq<real>>, window: nat): seq<real>
    requires |series| > 0 && window > 0
  {
    CurvesAligned(series, window);
    ColumnMeans(SmoothedCurves(series, window), CurveLength(MinLength(series), window))
  }

  /** With every logged reward in `[lo, hi]`, so is every point of the mean curve. */
  lemma MeanCurveBounds(series: seq<seq<real>>, window: nat, lo: real, hi: real)
    requires |series| > 0 && window > 0
    requires forall i, t | 0 <= i < |series| && 0 <= t < |series[i]| :: lo <= series[i][t] <= hi
    ensures forall t | 0 <= t < |MeanCurve(series, window)| :: lo <= MeanCurve(series, window)[t] <= hi
  {
    var m := MinLength(series);
    var cs := SmoothedCurves(series, window);
    var width := CurveLength(m, window);
    CurvesAligned(series, window);
    forall i | 0 <= i < |series|
      ensures forall t | 0 <= t < |cs[i]| :: lo <= cs[i][t] <= hi
    {
      var d := series[i][..m];
      assert forall t | 0 <= t < |d| :: d[t] == series[i][t];
      SmoothBounds(d, window, lo, hi);
    }
    forall t | 0 <= t < width ensures lo <= MeanCurve(series, window)[t] <= hi {
      MeanBounds(Column(cs, t), lo, hi);
    }
  }

  // ---------------------------------------------------------------------------
  // Grouping with `setdefault(key, []).append(value)`.

  /** `groups.setdefault(k, []).append(v)`. */
  function Insert<K>(groups: map<K, seq<real>>, k: K, v: real): map<K, seq<real>>
  {
    groups[k := (if k in groups then groups[k] else []) + [v]]
  }

  /** The dictionary built by inserting the pairs `ps` in order. */
  function Grouped<K>(ps: seq<(K, real)>): (g: map<K, seq<real>>)
    ensures forall k | k in g :: |g[k]| > 0
  {
    if ps == [] then map[] else Insert(Grouped(ps[..|ps| - 1]), ps[|ps| - 1].0, ps[|ps| - 1].1)
  }

  lemma GroupedAppend<K>(ps: seq<(K, real)>, p: (K, real))
    ensures Grouped(ps + [p]) == Insert(Grouped(ps), p.0, p.1)
  {
    assert (ps + [p])[..|ps|] == ps;
  }

  /** The values paired with `k`, in order. */
  function ValuesAt<K(==)>(ps: seq<(K, real)>, k: K): (vs: seq<real>)
    ensures forall v | v in vs :: exists i | 0 <= i < |ps| :: ps[i] == (k, v)
  {
    if ps == [] then []
    else
      var init := ps[..|ps| - 1];
      assert forall i | 0 <= i < |init| :: init[i] == ps[i];
      ValuesAt(init, k) + (if ps[|ps| - 1].0 == k then [ps[|ps| - 1].1] else [])
  }

  /** The groups are keyed by exactly the keys the pairs carry. */
  lemma {:induction false} GroupedKeys<K>(ps: seq<(K, real)>)
    ensures Grouped(ps).Keys == KeysOf(ps)
  {
    if ps != [] {
      var init := ps[..|ps| - 1];
      GroupedKeys(init);
      assert KeysOf(ps) == KeysOf(init) + {ps[|ps| - 1].0} by {
        assert forall i | 0 <= i < |init| :: init[i] == ps[i];
      }
    }
  }

  /** A key's group holds the values paired with it, in the order they came. */
  lemma {:induction false} GroupedValues<K>(ps: seq<(K, real)>, k: K)
    ensures k in Grouped(ps) ==> Grouped(ps)[k] == ValuesAt(ps, k)
    ensures k !in Grouped(ps) ==> ValuesAt(ps, k) == []
  {
    if ps != [] {
      var init := ps[..|ps| - 1];
      GroupedValues(init, k);
    }
  }

  /** With every value in `[lo, hi]`, every group's mean is in `[lo, hi]`. */
  lemma GroupMeanBounds<K>(ps: seq<(K, real)>, k: K, lo: real, hi: real)
    requires forall i | 0 <= i < |ps| :: lo <= ps[i].1 <= hi
    requires k in Grouped(ps)
    ensures lo <= Mean(Grouped(ps)[k]) <= hi
  {
    GroupedValues(ps, k);
    var vs := Grouped(ps)[k];
    forall t | 0 <= t < |vs| ensures lo <= vs[t] <= hi {
      assert vs[t] in vs;
    }
    MeanBounds(vs, lo, hi);
  }

  // ---------------------------------------------------------------------------
  // The mean success-rate curve of plot_training_curves.

  /** The least element of a finite non-empty set. */
  ghost function MinOf(s: set<int>): (m: int)
    requires s != {}
    ensures m in s && forall x | x in s :: m <= x
    decreases |s|
  {
    assert (forall y :: y !in s) ==> s == {};
    var x :| x in s;
    var rest := s - {x};
    if rest == {} then
      assert forall y | y in s :: y == x by {
        forall y | y in s ensures y == x {
          assert y !in rest;
        }
      }
      x
    else
      var r := MinOf(rest);
      assert forall y | y in s :: y == x || y in rest;
      if x < r then x else r
  }

  /** `sorted(s)`. */
  ghost function SortedInts(s: set<int>): (r: seq<int>)
    ensures forall x :: x in r <==> x in s
    ensures forall i, j | 0 <= i < j < |r| :: r[i] < r[j]
    decreases |s|
  {
    if s == {} then []
    else
      var m := MinOf(s);
      var rest := SortedInts(s - {m});
      SortedCons(s, m, rest);
      [m] + rest
  }

  /** The least element put in front of the sorted rest gives the sorted whole. */
  lemma SortedCons(s: set<int>, m: int, rest: seq<int>)
    requires m in s && forall x | x in s :: m <= x
    requires forall x :: x in rest <==> x in s - {m}
    requires forall i, j | 0 <= i < j < |rest| :: rest[i] < rest[j]
    ensures forall x :: x in [m] + rest <==> x in s
    ensures forall i, j | 0 <= i < j < |[m] + rest| :: ([m] + rest)[i] < ([m] + rest)[j]
  {
    var r := [m] + rest;
    assert forall x :: x in r <==> x == m || x in rest;
    forall i, j | 0 <= i < j < |r| ensures r[i] < r[j] {
      if i == 0 {
        assert r[j] == rest[j - 1] && rest[j - 1] in rest;
      } else {
        assert r[i] == rest[i - 1] && r[j] == rest[j - 1];
      }
    }
  }

  /** Every log's evaluation points, log after log. */
  function AllEvalPoints(logs: seq<TrainingLog>): seq<(int, real)>
  {
    if logs == [] then [] else AllEvalPoints(logs[..|logs| - 1]) + logs[|logs| - 1].evalSrs
  }

  /** The mean of each group, at the groups' episodes in ascending order. */
  ghost function MeanPoints(groups: map<int, seq<real>>): (curve: seq<(int, real)>)
    requires forall k | k in groups :: |groups[k]| > 0
  {
    var eps := SortedInts(groups.Keys);
    seq(|eps|, i requires 0 <= i < |eps| => (eps[i], Mean(groups[eps[i]])))
  }

  /** `(eps_sorted, mean_srs)`: drawn only when the first log has evaluation points. */
  ghost function MeanSuccessCurve(logs: seq<TrainingLog>): Option<seq<(int, real)>>
    requires |logs| > 0
  {
    if logs[0].evalSrs == [] then None else Some(MeanPoints(Grouped(AllEvalPoints(logs))))
  }

  lemma GroupStep(groups: map<int, seq<real>>, pre: seq<(int, real)>, pts: seq<(int, real)>, j: nat)
    requires j < |pts| && groups == Grouped(pre + pts[..j])
    ensures Insert(groups, pts[j].0, pts[j].1) == Grouped(pre + pts[..j + 1])
  {
    assert pre + pts[..j + 1] == (pre + pts[..j]) + [pts[j]];
    GroupedAppend(pre + pts[..j], pts[j]);
  }

  /** The `all_srs` dictionary of `plot_training_curves`, built with the source's nested loops. */
  method EvalSrGroups(logs: seq<TrainingLog>) returns (allSrs: map<int, seq<real>>)
    ensures allSrs == Grouped(AllEvalPoints(logs))
  {
    allSrs := map[];
    for i := 0 to |logs|
      invariant allSrs == Grouped(AllEvalPoints(logs[..i]))
    {
      var pts := logs[i].evalSrs;
      ghost var pre := AllEvalPoints(logs[..i]);
      assert pre + pts[..0] == pre;
      for j := 0 to |pts|
        invariant allSrs == Grouped(pre + pts[..j])
      {
        GroupStep(allSrs, pre, pts, j);
        var ep, sr := pts[j].0, pts[j].1;
        allSrs := allSrs[ep := (if ep in allSrs then allSrs[ep] else []) + [sr]];
      }
      assert logs[..i + 1][..i] == logs[..i];
      assert pts[..|pts|] == pts;
    }
    assert logs[..|logs|] == logs;
  }

  /** The keys a list of pairs carries. */
  function KeysOf<K>(ps: seq<(K, real)>): set<K>
  {
    set i | 0 <= i < |ps| :: ps[i].0
  }

  /**
   * The curve's episodes ascend strictly and are exactly the episodes some log
   * evaluated at; the value at each is the mean of every rate logged there.
   */
  lemma MeanPointsFacts(ps: seq<(int, real)>)
    ensures var curve := MeanPoints(Grouped(ps));
      && (forall i, j | 0 <= i < j < |curve| :: curve[i].0 < curve[j].0)
      && (set i | 0 <= i < |curve| :: curve[i].0) == KeysOf(ps)
      && (forall i | 0 <= i < |curve| :: |ValuesAt(ps, curve[i].0)| > 0 && curve[i].1 == Mean(ValuesAt(ps, curve[i].0)))
  {
    var g := Grouped(ps);
    var eps := SortedInts(g.Keys);
    var curve := MeanPoints(g);
    GroupedKeys(ps);
    assert (set i | 0 <= i < |curve| :: curve[i].0) == g.Keys by {
      forall ep | ep in g.Keys ensures ep in (set i | 0 <= i < |curve| :: curve[i].0) {
        var i :| 0 <= i < |eps| && eps[i] == ep;
        assert curve[i].0 == ep;
      }
    }
    forall i | 0 <= i < |curve| ensures |ValuesAt(ps, curve[i].0)| > 0 && curve[i].1 == Mean(ValuesAt(ps, curve[i].0)) {
      GroupedValues(ps, eps[i]);
    }
  }

  /** Success rates logged in `[0, 1]` average to points in `[0, 1]`. */
  lemma MeanPointsBounds(ps: seq<(int, real)>)
    requires forall i | 0 <= i < |ps| :: 0.0 <= ps[i].1 <= 1.0
    ensures var curve := MeanPoints(Grouped(ps));
      forall i | 0 <= i < |curve| :: 0.0 <= curve[i].1 <= 1.0
  {
    var g := Grouped(ps);
    var eps := SortedInts(g.Keys);
    forall i | 0 <= i < |eps| ensures 0.0 <= Mean(g[eps[i]]) <= 1.0 {
      GroupMeanBounds(ps, eps[i], 0.0, 1.0);
    }
  }

  // ---------------------------------------------------------------------------
  // The evaluation summary, grouped three ways.

  /** One row of `evaluation_summary.csv`, its rate already converted. */
  datatype SummaryRow = SummaryRow(experiment: string, successRate: real)

  /** `name.rsplit("_seed", 1)[0]`. */
  function BaseName(name: string): string
  {
    RSplitHead(name, "_seed")
  }

  /** A training run's directory name groups under the experiment name it was trained as. */
  lemma BaseNameOfDirName(name: string, seed: int)
    ensures BaseName(Train.ExperimentDirName(name, seed)) == name
  {
    var digits := IntToString(seed);
    assert Train.ExperimentDirName(name, seed) == name + "_seed" + digits;
    BorderFreeByFirst("_seed");
    IntToStringChars(seed);
    assert [] + digits == digits;
    NoOccurrenceAcross([], digits, "_seed");
    RSplitHeadMarker(name, "_seed", digits);
  }

  /** The `(base, rate)` pairs `plot_comparison_bar` inserts. */
  function BasePoints(rows: seq<SummaryRow>): (ps: seq<(string, real)>)
    ensures |ps| == |rows|
  {
    if rows == [] then []
    else BasePoints(rows[..|rows| - 1]) + [(BaseName(rows[|rows| - 1].experiment), rows[|rows| - 1].successRate)]
  }

  /** The `groups` dictionary of `plot_comparison_bar`. */
  method GroupByBase(rows: seq<SummaryRow>) returns (groups: map<string, seq<real>>)
    ensures groups == Grouped(BasePoints(rows))
  {
    groups := map[];
    for i := 0 to |rows|
      invariant groups == Grouped(BasePoints(rows[..i]))
    {
      var name := rows[i].experiment;
      var base := RSplitHead(name, "_seed");
      assert rows[..i + 1][..i] == rows[..i];
      GroupedAppend(BasePoints(rows[..i]), (base, rows[i].successRate));
      groups := groups[base := (if base in groups then groups[base] else []) + [rows[i].successRate]];
    }
    assert rows[..|rows|] == rows;
  }

  /** `np.mean(rates)` for every base name. */
  function GroupMeans<K>(groups: map<K, seq<real>>): (ms: map<K, real>)
    requires forall k | k in groups :: |groups[k]| > 0
    ensures ms.Keys == groups.Keys
  {
    map k | k in groups :: Mean(groups[k])
  }

  /**
   * The gamma key of a summary row: for names holding `ablation_gamma`, the text
   * after the last `gamma` up to the first `_seed`, converted by `parseFloat`;
   * `None` when the row is skipped.
   */
  function GammaKey(name: string, parseFloat: string -> Option<real>): Option<real>
  {
    if Contains(name, "ablation_gamma") && Contains(name, "gamma") then parseFloat(Evaluate.GammaText(name))
    else None
  }

  /** A gamma-ablation run reads back under the gamma written into its name. */
  lemma GammaKeyOfDirName(base: string, g: string, seed: int, parseFloat: string -> Option<real>)
    requires !Contains(g, "gamma") && !Contains(g, "_seed")
    ensures GammaKey(Train.ExperimentDirName(base + "ablation_gamma" + g, seed), parseFloat) == parseFloat(g)
  {
    var prefix := base + "ablation_";
    var marked := base + "ablation_gamma";
    var digits := IntToString(seed);
    var rest := g + "_seed" + digits;
    var dir := Train.ExperimentDirName(marked + g, seed);
    assert "ablation_gamma" == "ablation_" + "gamma";
    Associative(base, "ablation_", "gamma");
    assert marked == prefix + "gamma";
    Associative(marked, g, "_seed");
    Associative(marked, g + "_seed", digits);
    assert dir == marked + rest;
    Evaluate.GammaForDirName(prefix, g, seed, parseFloat, 0.0);
    ContainsMiddle(base, "ablation_gamma", rest);
    ContainsMiddle(prefix, "gamma", rest);
  }

  /** The pair one row contributes to `gamma_results`, if any. */
  function GammaPoint(row: SummaryRow, parseFloat: string -> Option<real>): seq<(real, real)>
  {
    match GammaKey(row.experiment, parseFloat)
    case Some(g) => [(g, row.successRate)]
    case None => []
  }

  /** The `(gamma, rate)` pairs `plot_ablation_gamma` inserts. */
  function GammaPoints(rows: seq<SummaryRow>, parseFloat: string -> Option<real>): seq<(real, real)>
  {
    if rows == [] then [] else GammaPoints(rows[..|rows| - 1], parseFloat) + GammaPoint(rows[|rows| - 1], parseFloat)
  }

  /** Keys of `gamma_results` are the gammas read from rows that hold `ablation_gamma` and convert. */
  lemma {:induction false} GammaPointsKeys(rows: seq<SummaryRow>, parseFloat: string -> Option<real>)
    ensures forall g | g in KeysOf(GammaPoints(rows, parseFloat)) ::
      exists i | 0 <= i < |rows| :: Contains(rows[i].experiment, "ablation_gamma") && GammaKey(rows[i].experiment, parseFloat) == Some(g)
  {
    if rows != [] {
      var init := rows[..|rows| - 1];
      GammaPointsKeys(init, parseFloat);
      var ps, ps0 := GammaPoints(rows, parseFloat), GammaPoints(init, parseFloat);
      forall g | g in KeysOf(ps)
        ensures exists i | 0 <= i < |rows| :: Contains(rows[i].experiment, "ablation_gamma") && GammaKey(rows[i].experiment, parseFloat) == Some(g)
      {
        var j :| 0 <= j < |ps| && ps[j].0 == g;
        if j < |ps0| {
          assert ps0[j] == ps[j];
          assert g in KeysOf(ps0);
          var i :| 0 <= i < |init| && Contains(init[i].experiment, "ablation_gamma") && GammaKey(init[i].experiment, parseFloat) == Some(g);
          assert init[i] == rows[i];
        } else {
          assert GammaKey(rows[|rows| - 1].experiment, parseFloat) == Some(g);
        }
      }
    }
  }

  /** The `gamma_results` dictionary of `plot_ablation_gamma`. */
  method GroupByGamma(rows: seq<SummaryRow>, parseFloat: string -> Option<real>) returns (gammaResults: map<real, seq<real>>)
    ensures gammaResults == Grouped(GammaPoints(rows, parseFloat))
  {
    gammaResults := map[];
    for i := 0 to |rows|
      invariant gammaResults == Grouped(GammaPoints(rows[..i], parseFloat))
    {
      var name := rows[i].experiment;
      assert rows[..i + 1][..i] == rows[..i];
      ghost var pre := GammaPoints(rows[..i], parseFloat);
      assert GammaPoints(rows[..i + 1], parseFloat) == pre + GammaPoint(rows[i], parseFloat);
      if Contains(name, "ablation_gamma") {
        if Contains(name, "gamma") {
          var gammaStr := SplitHead(SplitTail(name, "gamma"), "_seed");
          var parsed := parseFloat(gammaStr);
          if parsed.Some? {
            var gamma := parsed.value;
            GroupedAppend(pre, (gamma, rows[i].successRate));
            gammaResults := gammaResults[gamma := (if gamma in gammaResults then gammaResults[gamma] else []) + [rows[i].successRate]];
          }
        }
      }
      assert pre + [] == pre;
    }
    assert rows[..|rows|] == rows;
  }

  /** The two arms of the target-network ablation. */
  datatype Arm = WithTarget | WithoutTarget

  /** The arm `plot_ablation_target` puts a run in, `None` when it drops the run. */
  function TargetArm(name: string): Option<Arm>
  {
    if Contains(name, "ablation_no_target") then Some(WithoutTarget)
    else if Contains(name, "reward_shaping") && !Contains(name, "ablation") then Some(WithTarget)
    else None
  }

  /**
   * The arms agree with the configuration `evaluate.py` picks: a run is in the
   * "Without" arm exactly when it is evaluated with the no-target configuration,
   * and a run in the "With" arm is evaluated with the reward-shaping one.
   */
  lemma TargetArmConfig(name: string)
    ensures TargetArm(name) == Some(WithoutTarget) <==> Evaluate.ConfigFor(name) == "ablation_no_target.yaml"
    ensures TargetArm(name) == Some(WithTarget) ==> Evaluate.ConfigFor(name) == "reward_shaping.yaml"
  {
    if !Contains(name, "ablation") {
      if Contains(name, "ablation_no_target") {
        ContainsPrefixOf(name, "ablation", "ablation_no_target");
      }
      if Contains(name, "ablation_gamma") {
        ContainsPrefixOf(name, "ablation", "ablation_gamma");
      }
    }
  }

  /** The rates of the runs in `arm`, in row order. */
  function ArmRates(rows: seq<SummaryRow>, arm: Arm): seq<real>
  {
    if rows == [] then []
    else
      ArmRates(rows[..|rows| - 1], arm) +
        (if TargetArm(rows[|rows| - 1].experiment) == Some(arm) then [rows[|rows| - 1].successRate] else [])
  }

  /** Every rate of an arm is the success rate of a run the arm takes in. */
  lemma {:induction false} ArmRatesFrom(rows: seq<SummaryRow>, arm: Arm)
    ensures forall v | v in ArmRates(rows, arm) ::
      exists i | 0 <= i < |rows| :: TargetArm(rows[i].experiment) == Some(arm) && rows[i].successRate == v
  {
    if rows != [] {
      var init := rows[..|rows| - 1];
      ArmRatesFrom(init, arm);
      forall v | v in ArmRates(rows, arm)
        ensures exists i | 0 <= i < |rows| :: TargetArm(rows[i].experiment) == Some(arm) && rows[i].successRate == v
      {
        if v in ArmRates(init, arm) {
          var i :| 0 <= i < |init| && TargetArm(init[i].experiment) == Some(arm) && init[i].successRate == v;
          assert rows[i] == init[i];
        } else {
          assert rows[|rows| - 1].successRate == v;
        }
      }
    }
  }

  /** The `groups` dictionary of `plot_ablation_target`, as its two lists. */
  method GroupByArm(rows: seq<SummaryRow>) returns (withTarget: seq<real>, withoutTarget: seq<real>)
    ensures withTarget == ArmRates(rows, WithTarget)
    ensures withoutTarget == ArmRates(rows, WithoutTarget)
  {
    withTarget, withoutTarget := [], [];
    for i := 0 to |rows|
      invariant withTarget == ArmRates(rows[..i], WithTarget)
      invariant withoutTarget == ArmRates(rows[..i], WithoutTarget)
    {
      var name := rows[i].experiment;
      assert rows[..i + 1][..i] == rows[..i];
      if Contains(name, "ablation_no_target") {
        withoutTarget := withoutTarget + [rows[i].successRate];
      } else if Contains(name, "reward_shaping") && !Contains(name, "ablation") {
        withTarget := withTarget + [rows[i].successRate];
      }
    }
    assert rows[..|rows|] == rows;
  }

  /** `np.mean(v) if v else 0`. */
  function ArmMean(rates: seq<real>): real
  {
    if rates == [] then 0.0 else Mean(rates)
  }

  /** An empty arm shows 0; one whose rates lie in `[0, 1]` shows a mean in `[0, 1]`. */
  lemma ArmMeanBounds(rates: seq<real>)
    requires forall i | 0 <= i < |rates| :: 0.0 <= rates[i] <= 1.0
    ensures rates == [] ==> ArmMean(rates) == 0.0
    ensures 0.0 <= ArmMean(rates) <= 1.0
  {
    if rates != [] {
      MeanBounds(rates, 0.0, 1.0);
    }
  }
}
