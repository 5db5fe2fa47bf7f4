/**
 * The two environment wrappers: potential-based reward shaping (Ng, Harada and
 * Russell, 1999) with the potential `scale * (1 - manhattan(agent, goal) / max_distance)`,
 * and the observation remap from an (H, W, C) byte image to a (C, H, W) image of
 * floats in [0, 1].
 */
module EnvUtils {
  import opened Wrappers
  import opened Numeric
  import opened Gym

  /** A grid position `(x, y)`: column, then row. */
  datatype Pos = Pos(x: int, y: int)

  /** The type of a grid cell, `None` for an empty cell. */
  type Cell = Option<string>

  predicate IsGoal(c: Cell)
  {
    c.Some? && c.value == "goal"
  }

  /** The scan visits `(i, j)` before `(k, l)`: columns outer, rows inner. */
  predicate ScannedBefore(i: int, j: int, k: int, l: int)
  {
    i < k || (i == k && j < l)
  }

  /**
   * `p` is the first goal cell of the scan. The grid is indexed `grid[i, j]` like
   * `grid.get(i, j)`: `Length0` is the width and `Length1` the height.
   */
  ghost predicate FirstGoal(grid: array2<Cell>, p: Pos)
    reads grid
  {
    && 0 <= p.x < grid.Length0 && 0 <= p.y < grid.Length1
    && IsGoal(grid[p.x, p.y])
    && forall i, j | 0 <= i < grid.Length0 && 0 <= j < grid.Length1 && ScannedBefore(i, j, p.x, p.y) ::
         !IsGoal(grid[i, j])
  }

  ghost predicate NoGoal(grid: array2<Cell>)
    reads grid
  {
    forall i, j | 0 <= i < grid.Length0 && 0 <= j < grid.Length1 :: !IsGoal(grid[i, j])
  }

  /** The corner `(width - 2, height - 2)` assumed when the grid shows no goal. */
  function FallbackGoal(grid: array2<Cell>): Pos
  {
    Pos(grid.Length0 - 2, grid.Length1 - 2)
  }

  /** `(width - 2) + (height - 2)`, whichever way the goal was found. */
  function GridMaxDistance(grid: array2<Cell>): int
  {
    (grid.Length0 - 2) + (grid.Length1 - 2)
  }

  /** The goal a fresh lookup settles on: the first goal cell, or the fallback corner. */
  ghost predicate LookedUpGoal(grid: array2<Cell>, g: Pos)
    reads grid
  {
    FirstGoal(grid, g) || (NoGoal(grid) && g == FallbackGoal(grid))
  }

  /** There is only one first goal. */
  lemma FirstGoalUnique(grid: array2<Cell>, p: Pos, q: Pos)
    requires FirstGoal(grid, p) && FirstGoal(grid, q)
    ensures p == q
  {
    assert IsGoal(grid[p.x, p.y]) && IsGoal(grid[q.x, q.y]);
    assert !ScannedBefore(p.x, p.y, q.x, q.y) && !ScannedBefore(q.x, q.y, p.x, p.y);
  }

  /** A grid with a goal cell never falls back, and a lookup is determined by the grid. */
  lemma LookedUpGoalUnique(grid: array2<Cell>, p: Pos, q: Pos)
    requires LookedUpGoal(grid, p) && LookedUpGoal(grid, q)
    ensures p == q
  {
    if FirstGoal(grid, p) {
      assert IsGoal(grid[p.x, p.y]);
      assert !NoGoal(grid);
      FirstGoalUnique(grid, p, q);
    } else {
      assert !FirstGoal(grid, q);
    }
  }

  /** The nested loop of `_get_goal_pos`: the first cell of type `"goal"`, if any. */
  method ScanForGoal(grid: array2<Cell>) returns (r: Option<Pos>)
    ensures r.Some? ==> FirstGoal(grid, r.value)
    ensures r.None? ==> NoGoal(grid)
  {
    var i := 0;
    while i < grid.Length0
      invariant 0 <= i <= grid.Length0
      invariant forall k, l | 0 <= k < i && 0 <= l < grid.Length1 :: !IsGoal(grid[k, l])
    {
      var j := 0;
      while j < grid.Length1
        invariant 0 <= j <= grid.Length1
        invariant forall k, l | 0 <= k < i && 0 <= l < grid.Length1 :: !IsGoal(grid[k, l])
        invariant forall l | 0 <= l < j :: !IsGoal(grid[i, l])
      {
        if IsGoal(grid[i, j]) {
          return Some(Pos(i, j));
        }
        j := j + 1;
      }
      i := i + 1;
    }
    return None;
  }

  // ---------------------------------------------------------------------------
  // The potential.

  function Abs(n: int): nat
  {
    if n < 0 then -n else n
  }

  function Manhattan(a: Pos, b: Pos): nat
  {
    Abs(a.x - b.x) + Abs(a.y - b.y)
  }

  /** `scale * (1.0 - dist / max(max_distance, 1))`. */
  function Potential(scale: real, goal: Pos, maxDistance: int, pos: Pos): real
  {
    scale * (1.0 - Manhattan(pos, goal) as real / MaxInt(maxDistance, 1) as real)
  }

  /** The potential peaks at the goal, where it equals `scale`. */
  lemma PotentialAtGoal(scale: real, goal: Pos, maxDistance: int)
    ensures Potential(scale, goal, maxDistance, goal) == scale
  {
    assert Manhattan(goal, goal) == 0;
  }

  /** Within `max_distance` of the goal the potential lies in `[0, scale]`. */
  lemma PotentialBounds(scale: real, goal: Pos, maxDistance: int, pos: Pos)
    requires scale >= 0.0
    requires Manhattan(pos, goal) <= MaxInt(maxDistance, 1)
    ensures 0.0 <= Potential(scale, goal, maxDistance, pos) <= scale
  {
    var m := MaxInt(maxDistance, 1) as real;
    var f := Manhattan(pos, goal) as real / m;
    assert 0.0 <= f <= 1.0 by {
      assert f * m == Manhattan(pos, goal) as real;
    }
    ScaleBetween(scale, 1.0 - f);
  }

  /** A position nearer the goal has at least the potential of one farther away. */
  lemma PotentialMonotone(scale: real, goal: Pos, maxDistance: int, near: Pos, far: Pos)
    requires scale >= 0.0
    requires Manhattan(near, goal) <= Manhattan(far, goal)
    ensures Potential(scale, goal, maxDistance, far) <= Potential(scale, goal, maxDistance, near)
  {
    var m := MaxInt(maxDistance, 1) as real;
    var dn, df := Manhattan(near, goal) as real, Manhattan(far, goal) as real;
    DivideMonotone(dn, df, m);
    var a, b := 1.0 - dn / m, 1.0 - df / m;
    assert b <= a;
    ScaleMonotone(scale, b, a);
    assert Potential(scale, goal, maxDistance, near) == scale * a;
    assert Potential(scale, goal, maxDistance, far) == scale * b;
  }

  lemma DivideMonotone(x: real, y: real, m: real)
    requires m > 0.0 && x <= y
    ensures x / m <= y / m
  {
    var k := 1.0 / m;
    assert k > 0.0;
    assert x / m == k * x && y / m == k * y;
    ScaleMonotone(k, x, y);
  }

  lemma ScaleBetween(c: real, t: real)
    requires c >= 0.0 && 0.0 <= t <= 1.0
    ensures 0.0 <= c * t <= c
  {
    assert c * t <= c * 1.0;
  }

  lemma ScaleMonotone(c: real, t: real, u: real)
    requires c >= 0.0 && t <= u
    ensures c * t <= c * u
  {
    assert c * u - c * t == c * (u - t);
  }

  // ---------------------------------------------------------------------------
  // The shaping terms and their telescoping sum.

  /** The shaping term `F(s, s') = gamma * Phi(s') - Phi(s)` of one step. */
  function Bonus(gamma: real, prev: real, next: real): real
  {
    gamma * next - prev
  }

  /** The shaping term of each step, over consecutive potentials. */
  function ShapingTerms(gamma: real, ps: seq<real>): (ts: seq<real>)
    requires |ps| > 0
    ensures |ts| == |ps| - 1
    ensures forall t | 0 <= t < |ts| :: ts[t] == Bonus(gamma, ps[t], ps[t + 1])
  {
    seq(|ps| - 1, t requires 0 <= t < |ps| - 1 => Bonus(gamma, ps[t], ps[t + 1]))
  }

  /** One more potential adds one more shaping term. */
  lemma ShapingTermsAppend(gamma: real, ps: seq<real>, p: real)
    requires |ps| > 0
    ensures ShapingTerms(gamma, ps + [p]) == ShapingTerms(gamma, ps) + [Bonus(gamma, ps[|ps| - 1], p)]
  {
    var qs := ps + [p];
    var whole := ShapingTerms(gamma, qs);
    var rhs := ShapingTerms(gamma, ps) + [Bonus(gamma, ps[|ps| - 1], p)];
    forall t | 0 <= t < |whole| ensures whole[t] == rhs[t] {
      assert qs[t] == ps[t];
      if t < |ps| - 1 {
        assert qs[t + 1] == ps[t + 1];
      } else {
        assert qs[t + 1] == p;
      }
    }
    assert whole == rhs;
  }

  /** `gamma^k * x`. */
  function Discounted(gamma: real, k: nat, x: real): real
  {
    if k == 0 then x else gamma * Discounted(gamma, k - 1, x)
  }

  lemma {:induction false} DiscountedIsPow(gamma: real, k: nat, x: real)
    ensures Discounted(gamma, k, x) == Pow(gamma, k) * x
  {
    if k > 0 {
      DiscountedIsPow(gamma, k - 1, x);
      assert gamma * (Pow(gamma, k - 1) * x) == (gamma * Pow(gamma, k - 1)) * x;
    }
  }

  /** Discounting distributes over one shaping term. */
  lemma {:induction false} DiscountedBonus(gamma: real, k: nat, prev: real, next: real)
    ensures Discounted(gamma, k, Bonus(gamma, prev, next)) == Discounted(gamma, k + 1, next) - Discounted(gamma, k, prev)
  {
    if k > 0 {
      DiscountedBonus(gamma, k - 1, prev, next);
    }
  }

  /** `sum over t of gamma^t * xs[t]`. */
  function DiscountedSum(gamma: real, xs: seq<real>): real
    decreases |xs|
  {
    if xs == [] then 0.0
    else DiscountedSum(gamma, xs[..|xs| - 1]) + Discounted(gamma, |xs| - 1, xs[|xs| - 1])
  }

  lemma DiscountedSumAppend(gamma: real, xs: seq<real>, x: real)
    ensures DiscountedSum(gamma, xs + [x]) == DiscountedSum(gamma, xs) + Discounted(gamma, |xs|, x)
  {
    assert (xs + [x])[..|xs|] == xs;
  }

  /**
   * The discounted shaping terms of a trajectory of `T` steps sum to
   * `gamma^T * Phi(s_T) - Phi(s_0)`.
   */
  lemma {:induction false} Telescoping(gamma: real, ps: seq<real>)
    requires |ps| > 0
    ensures DiscountedSum(gamma, ShapingTerms(gamma, ps)) == Discounted(gamma, |ps| - 1, ps[|ps| - 1]) - ps[0]
  {
    var n := |ps|;
    if n > 1 {
      var init, last := ps[..n - 1], ps[n - 1];
      assert ps == init + [last];
      assert init[0] == ps[0] && init[n - 2] == ps[n - 2];
      ShapingTermsAppend(gamma, init, last);
      Telescoping(gamma, init);
      DiscountedSumAppend(gamma, ShapingTerms(gamma, init), Bonus(gamma, ps[n - 2], last));
      DiscountedBonus(gamma, n - 2, ps[n - 2], last);
    } else {
      assert ShapingTerms(gamma, ps) == [];
    }
  }

  lemma {:induction false} UndiscountedIsIdentity(k: nat, x: real)
    ensures Discounted(1.0, k, x) == x
  {
    if k > 0 {
      UndiscountedIsIdentity(k - 1, x);
    }
  }

  lemma {:induction false} UndiscountedSum(xs: seq<real>)
    ensures DiscountedSum(1.0, xs) == Sum(xs)
  {
    if xs != [] {
      UndiscountedSum(xs[..|xs| - 1]);
      UndiscountedIsIdentity(|xs| - 1, xs[|xs| - 1]);
    }
  }

  /** With `gamma = 1` the plain sum of the shaping terms is `Phi(s_T) - Phi(s_0)`. */
  lemma TelescopingUndiscounted(ps: seq<real>)
    requires |ps| > 0
    ensures Sum(ShapingTerms(1.0, ps)) == ps[|ps| - 1] - ps[0]
  {
    Telescoping(1.0, ps);
    UndiscountedIsIdentity(|ps| - 1, ps[|ps| - 1]);
    UndiscountedSum(ShapingTerms(1.0, ps));
  }

  // ---------------------------------------------------------------------------
  // The shaping wrapper.

  class RewardShapingWrapper {
    const gamma: real
    const scale: real
    var prevPotential: Option<real>
    var goalPos: Option<Pos>
    var maxDistance: Option<int>
    /** The potentials seen since the last reset, oldest first. */
    ghost var potentials: seq<real>
    /** The shaping bonuses handed out since the last reset. */
    ghost var bonuses: seq<real>

    ghost predicate Valid()
      reads this
    {
      && (goalPos.Some? ==> maxDistance.Some?)
      && (prevPotential.None? <==> potentials == [])
      && (potentials == [] ==> bonuses == [])
      && (potentials != [] ==>
            prevPotential == Some(potentials[|potentials| - 1]) && bonuses == ShapingTerms(gamma, potentials))
    }

    constructor (gamma: real, scale: real)
      ensures Valid() && this.gamma == gamma && this.scale == scale
      ensures prevPotential.None? && goalPos.None? && maxDistance.None?
    {
      this.gamma := gamma;
      this.scale := scale;
      prevPotential := None;
      goalPos := None;
      maxDistance := None;
      potentials := [];
      bonuses := [];
    }

    /** `_get_goal_pos()`: the cached goal, or a fresh scan that fills the cache. */
    method GetGoalPos(grid: array2<Cell>) returns (g: Pos)
      requires Valid()
      modifies this
      ensures Valid()
      ensures goalPos == Some(g) && maxDistance.Some?
      ensures old(goalPos).Some? ==> g == old(goalPos).value && maxDistance == old(maxDistance)
      ensures old(goalPos).None? ==> LookedUpGoal(grid, g) && maxDistance == Some(GridMaxDistance(grid))
      ensures prevPotential == old(prevPotential) && potentials == old(potentials) && bonuses == old(bonuses)
    {
      if goalPos.None? {
        var found := ScanForGoal(grid);
        goalPos := Some(if found.Some? then found.value else FallbackGoal(grid));
        maxDistance := Some(GridMaxDistance(grid));
      }
      g := goalPos.value;
    }

    /** `_potential(agent_pos)`. */
    method PotentialAt(grid: array2<Cell>, agentPos: Pos) returns (phi: real)
      requires Valid()
      modifies this
      ensures Valid() && goalPos.Some? && maxDistance.Some?
      ensures phi == Potential(scale, goalPos.value, maxDistance.value, agentPos)
      ensures old(goalPos).Some? ==> goalPos == old(goalPos) && maxDistance == old(maxDistance)
      ensures old(goalPos).None? ==> LookedUpGoal(grid, goalPos.value) && maxDistance == Some(GridMaxDistance(grid))
      ensures prevPotential == old(prevPotential) && potentials == old(potentials) && bonuses == old(bonuses)
    {
      var goal := GetGoalPos(grid);
      phi := Potential(scale, goal, maxDistance.value, agentPos);
    }

    /** `reset()`: clears the goal cache and records the potential of the start position. */
    method Reset<O>(obs: O, info: Info, grid: array2<Cell>, agentPos: Pos) returns (obs': O, info': Info)
      requires Valid()
      modifies this
      ensures Valid()
      ensures obs' == obs && info' == info
      ensures goalPos.Some? && LookedUpGoal(grid, goalPos.value) && maxDistance == Some(GridMaxDistance(grid))
      ensures prevPotential == Some(Potential(scale, goalPos.value, maxDistance.value, agentPos))
      ensures potentials == [prevPotential.value] && bonuses == []
    {
      goalPos := None;
      var phi := PotentialAt(grid, agentPos);
      prevPotential := Some(phi);
      potentials := [phi];
      bonuses := [];
      obs', info' := obs, info;
    }

    /**
     * `step(action)`, given what the inner environment answered: the reward plus
     * `gamma * Phi(s') - Phi(s)`, with the three reward entries added to `info`.
     */
    method Step<O>(inner: StepResult<O>, grid: array2<Cell>, agentPos: Pos) returns (out: StepResult<O>)
      requires Valid() && prevPotential.Some?
      modifies this
      ensures Valid() && goalPos.Some? && maxDistance.Some? && prevPotential.Some?
      ensures out.obs == inner.obs && out.terminated == inner.terminated && out.truncated == inner.truncated
      ensures prevPotential.value == Potential(scale, goalPos.value, maxDistance.value, agentPos)
      ensures old(goalPos).Some? ==> goalPos == old(goalPos) && maxDistance == old(maxDistance)
      ensures old(goalPos).None? ==> LookedUpGoal(grid, goalPos.value) && maxDistance == Some(GridMaxDistance(grid))
      ensures var bonus := Bonus(gamma, old(prevPotential.value), prevPotential.value);
        && out.reward == inner.reward + bonus
        && out.info == inner.info["original_reward" := inner.reward]["shaped_reward" := out.reward]["shaping_bonus" := bonus]
        && potentials == old(potentials) + [prevPotential.value]
        && bonuses == old(bonuses) + [bonus]
    {
      var info := inner.info["original_reward" := inner.reward];
      var current := PotentialAt(grid, agentPos);
      var shaping := Bonus(gamma, prevPotential.value, current);
      assert potentials[|potentials| - 1] == prevPotential.value;
      prevPotential := Some(current);
      ghost var ps := potentials + [current];
      ShapingTermsAppend(gamma, potentials, current);
      potentials := ps;
      bonuses := bonuses + [shaping];
      assert bonuses == ShapingTerms(gamma, potentials);
      assert prevPotential == Some(potentials[|potentials| - 1]);
      var shaped := inner.reward + shaping;
      info := info["shaped_reward" := shaped]["shaping_bonus" := shaping];
      out := StepResult(inner.obs, shaped, inner.terminated, inner.truncated, info);
    }
  }

  /**
   * Over the steps since the last reset, the discounted bonuses of the wrapper sum
   * to `gamma^T * Phi(now) - Phi(start)`: shaping changes a discounted return only
   * by a term fixed by the first and last states.
   */
  lemma ShapedReturn(w: RewardShapingWrapper)
    requires w.Valid() && w.prevPotential.Some?
    ensures DiscountedSum(w.gamma, w.bonuses) == Discounted(w.gamma, |w.bonuses|, w.prevPotential.value) - w.potentials[0]
  {
    Telescoping(w.gamma, w.potentials);
  }

  // ---------------------------------------------------------------------------
  // The observation remap.

  newtype byte = x: int | 0 <= x < 256

  /** `img` has shape `(a, b, c)`. */
  ghost predicate HasShape<T>(img: seq<seq<seq<T>>>, a: nat, b: nat, c: nat)
  {
    |img| == a && forall i | 0 <= i < a :: |img[i]| == b && forall j | 0 <= j < b :: |img[i][j]| == c
  }

  /** `np.transpose(obs, (2, 0, 1)).astype(np.float32) / 255.0` on an (H, W, C) image. */
  function Preprocess(obs: seq<seq<seq<byte>>>, h: nat, w: nat, c: nat): (out: Obs)
    requires HasShape(obs, h, w, c)
    ensures HasShape(out, c, h, w)
    ensures forall k, i, j | 0 <= k < c && 0 <= i < h && 0 <= j < w ::
      out[k][i][j] == obs[i][j][k] as real / 255.0
  {
    seq(c, k requires 0 <= k < c =>
      seq(h, i requires 0 <= i < h =>
        seq(w, j requires 0 <= j < w => obs[i][j][k] as real / 255.0)))
  }

  /** Every preprocessed value lies in `[0, 1]`, the bounds of the new observation space. */
  lemma PreprocessInUnitRange(obs: seq<seq<seq<byte>>>, h: nat, w: nat, c: nat)
    requires HasShape(obs, h, w, c)
    ensures forall k, i, j | 0 <= k < c && 0 <= i < h && 0 <= j < w ::
      0.0 <= Preprocess(obs, h, w, c)[k][i][j] <= 1.0
  {
    var out := Preprocess(obs, h, w, c);
    forall k, i, j | 0 <= k < c && 0 <= i < h && 0 <= j < w ensures 0.0 <= out[k][i][j] <= 1.0 {
      var v := obs[i][j][k] as real;
      assert 0.0 <= v <= 255.0;
    }
  }

  /** Undoes the remap: back to (H, W, C) bytes. */
  function Restore(out: Obs, h: nat, w: nat, c: nat): (img: seq<seq<seq<int>>>)
    requires HasShape(out, c, h, w)
    ensures HasShape(img, h, w, c)
    ensures forall i, j, k | 0 <= i < h && 0 <= j < w && 0 <= k < c :: img[i][j][k] == (out[k][i][j] * 255.0).Floor
  {
    seq(h, i requires 0 <= i < h =>
      seq(w, j requires 0 <= j < w =>
        seq(c, k requires 0 <= k < c => (out[k][i][j] * 255.0).Floor)))
  }

  /** The remap loses nothing: restoring a preprocessed image gives the original bytes. */
  lemma PreprocessRestores(obs: seq<seq<seq<byte>>>, h: nat, w: nat, c: nat)
    requires HasShape(obs, h, w, c)
    ensures var img := Restore(Preprocess(obs, h, w, c), h, w, c);
      forall i, j, k | 0 <= i < h && 0 <= j < w && 0 <= k < c :: img[i][j][k] == obs[i][j][k] as int
  {
    var out := Preprocess(obs, h, w, c);
    var img := Restore(out, h, w, c);
    forall i, j, k | 0 <= i < h && 0 <= j < w && 0 <= k < c ensures img[i][j][k] == obs[i][j][k] as int {
      var v := obs[i][j][k] as real;
      assert out[k][i][j] * 255.0 == v;
    }
  }
}
