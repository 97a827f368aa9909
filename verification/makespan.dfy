/**
 * List scheduling as scripts/db-shards.ts and scripts/ci-shards.ts do it: each
 * weight in turn onto the shard with the least load so far, the lower shard on
 * a tie. `choices[i]` is the shard weight `i` goes to. The two makespan bounds
 * of R. L. Graham, "Bounds on Multiprocessing Timing Anomalies" (1969), are
 * proved here about the weights and choices alone.
 */
module Makespan {

  /** The load of shard `k` once the first `n` weights are placed, from an initial load. */
  ghost function Load(from: real, ws: seq<real>, choices: seq<nat>, n: nat, k: nat): real
    requires n <= |ws| && n <= |choices|
  {
    if n == 0 then from
    else Load(from, ws, choices, n - 1, k) + if choices[n - 1] == k then ws[n - 1] else 0.0
  }

  ghost function Total(ws: seq<real>, n: nat): real
    requires n <= |ws|
  {
    if n == 0 then 0.0 else Total(ws, n - 1) + ws[n - 1]
  }

  /** The initial loads of the first `k` shards together. */
  ghost function Starting(from: seq<real>, k: nat): real
    requires k <= |from|
  {
    if k == 0 then 0.0 else Starting(from, k - 1) + from[k - 1]
  }

  /** The loads of the first `k` shards together, once `n` weights are placed. */
  ghost function Loaded(from: seq<real>, ws: seq<real>, choices: seq<nat>, n: nat, k: nat): real
    requires n <= |ws| && n <= |choices| && k <= |from|
  {
    if k == 0 then 0.0
    else Loaded(from, ws, choices, n, k - 1) + Load(from[k - 1], ws, choices, n, k - 1)
  }

  ghost predicate Placed(choices: seq<nat>, m: nat) {
    forall i :: 0 <= i < |choices| ==> choices[i] < m
  }

  /** Weight `n` went to a shard with the least load of its moment. */
  ghost predicate ToLeast(from: seq<real>, ws: seq<real>, choices: seq<nat>, n: nat)
    requires n < |ws| && n < |choices| && choices[n] < |from|
  {
    forall k :: 0 <= k < |from| ==>
      Load(from[choices[n]], ws, choices, n, choices[n]) <= Load(from[k], ws, choices, n, k)
  }

  ghost predicate Greedy(from: seq<real>, ws: seq<real>, choices: seq<nat>) {
    && |choices| == |ws|
    && Placed(choices, |from|)
    && forall n :: 0 <= n < |ws| ==> ToLeast(from, ws, choices, n)
  }

  /** The first of the first `n` shards with the least load. */
  function LeastOf(loads: seq<real>, n: nat): (least: nat)
    requires 0 < n <= |loads|
    ensures least < n
    ensures forall k :: 0 <= k < n ==> loads[least] <= loads[k]
    ensures forall k :: 0 <= k < least ==> loads[least] < loads[k]
  {
    if n == 1 then 0
    else
      var best := LeastOf(loads, n - 1);
      if loads[n - 1] < loads[best] then n - 1 else best
  }

  ghost function Loads(from: seq<real>, ws: seq<real>, choices: seq<nat>, n: nat): (loads: seq<real>)
    requires n <= |ws| && n <= |choices|
    ensures |loads| == |from|
  {
    seq(|from|, k requires 0 <= k < |from| => Load(from[k], ws, choices, n, k))
  }

  /** Where the first `n` weights go. */
  ghost function Choices(from: seq<real>, ws: seq<real>, n: nat): (choices: seq<nat>)
    requires |from| > 0 && n <= |ws|
    ensures |choices| == n && Placed(choices, |from|)
  {
    if n == 0 then []
    else
      var before := Choices(from, ws, n - 1);
      before + [LeastOf(Loads(from, ws, before, n - 1), |from|)]
  }

  ghost predicate NonNegative(ws: seq<real>) {
    forall i :: 0 <= i < |ws| ==> ws[i] >= 0.0
  }

  ghost predicate Descending(ws: seq<real>) {
    forall i, j :: 0 <= i < j < |ws| ==> ws[i] >= ws[j]
  }

  lemma {:induction false} LoadDependsOnPrefix(from: real, ws: seq<real>, ws': seq<real>,
                                               choices: seq<nat>, choices': seq<nat>, n: nat, k: nat)
    requires n <= |ws| && n <= |ws'| && n <= |choices| && n <= |choices'|
    requires forall i :: 0 <= i < n ==> ws[i] == ws'[i] && choices[i] == choices'[i]
    ensures Load(from, ws, choices, n, k) == Load(from, ws', choices', n, k)
  {
    if n > 0 {
      LoadDependsOnPrefix(from, ws, ws', choices, choices', n - 1, k);
    }
  }

  lemma {:induction false} ChoicesExtend(from: seq<real>, ws: seq<real>, n: nat, n': nat)
    requires |from| > 0 && n <= n' <= |ws|
    ensures Choices(from, ws, n) == Choices(from, ws, n')[..n]
  {
    if n < n' {
      ChoicesExtend(from, ws, n, n' - 1);
    }
  }

  lemma {:induction false} LoadsAsPlaced(from: seq<real>, ws: seq<real>, n: nat, k: nat)
    requires |from| > 0 && n <= |ws| && k < |from|
    ensures Load(from[k], ws, Choices(from, ws, |ws|), n, k) == Loads(from, ws, Choices(from, ws, n), n)[k]
  {
    ChoicesExtend(from, ws, n, |ws|);
    LoadDependsOnPrefix(from[k], ws, ws, Choices(from, ws, |ws|), Choices(from, ws, n), n, k);
  }

  lemma {:induction false} LeastChosen(from: seq<real>, ws: seq<real>, choices: seq<nat>, n: nat, loads: seq<real>)
    requires 0 < |from| == |loads| && n < |ws| == |choices|
    requires forall k :: 0 <= k < |from| ==> Load(from[k], ws, choices, n, k) == loads[k]
    requires choices[n] == LeastOf(loads, |from|)
    ensures ToLeast(from, ws, choices, n)
  {
    var least := choices[n];
    assert Load(from[least], ws, choices, n, least) == loads[least];
  }

  lemma {:induction false} ChoiceAt(from: seq<real>, ws: seq<real>, n: nat)
    requires |from| > 0 && n < |ws|
    ensures Choices(from, ws, |ws|)[n] == LeastOf(Loads(from, ws, Choices(from, ws, n), n), |from|)
  {
    ChoicesExtend(from, ws, n + 1, |ws|);
    assert Choices(from, ws, |ws|)[n] == Choices(from, ws, n + 1)[n];
  }

  lemma {:induction false} ChoiceIsLeast(from: seq<real>, ws: seq<real>, n: nat)
    requires |from| > 0 && n < |ws|
    ensures ToLeast(from, ws, Choices(from, ws, |ws|), n)
  {
    var choices := Choices(from, ws, |ws|);
    var loads := Loads(from, ws, Choices(from, ws, n), n);
    forall k | 0 <= k < |from| ensures Load(from[k], ws, choices, n, k) == loads[k] {
      LoadsAsPlaced(from, ws, n, k);
    }
    ChoiceAt(from, ws, n);
    LeastChosen(from, ws, choices, n, loads);
  }

  lemma {:induction false} ChoicesAreGreedy(from: seq<real>, ws: seq<real>)
    requires |from| > 0
    ensures Greedy(from, ws, Choices(from, ws, |ws|))
  {
    forall n | 0 <= n < |ws| ensures ToLeast(from, ws, Choices(from, ws, |ws|), n) {
      ChoiceIsLeast(from, ws, n);
    }
  }

  lemma {:induction false} LoadGrows(from: real, ws: seq<real>, choices: seq<nat>, n: nat, n': nat, k: nat)
    requires n <= n' <= |ws| && |choices| == |ws| && NonNegative(ws)
    ensures Load(from, ws, choices, n, k) <= Load(from, ws, choices, n', k)
  {
    if n < n' {
      LoadGrows(from, ws, choices, n, n' - 1, k);
    }
  }

  lemma {:induction false} LoadedStep(from: seq<real>, ws: seq<real>, choices: seq<nat>, n: nat, k: nat)
    requires 0 < n <= |ws| && n <= |choices| && k <= |from|
    ensures Loaded(from, ws, choices, n, k)
         == Loaded(from, ws, choices, n - 1, k) + if choices[n - 1] < k then ws[n - 1] else 0.0
  {
    if k > 0 {
      LoadedStep(from, ws, choices, n, k - 1);
    }
  }

  lemma {:induction false} LoadedAtStart(from: seq<real>, ws: seq<real>, choices: seq<nat>, k: nat)
    requires k <= |from|
    ensures Loaded(from, ws, choices, 0, k) == Starting(from, k)
  {
    if k > 0 {
      LoadedAtStart(from, ws, choices, k - 1);
    }
  }

  /** Nothing is lost: the shards together hold what they started with and every weight. */
  lemma {:induction false} Conservation(from: seq<real>, ws: seq<real>, choices: seq<nat>, n: nat)
    requires n <= |ws| && |choices| == |ws| && Placed(choices, |from|)
    ensures Loaded(from, ws, choices, n, |from|) == Starting(from, |from|) + Total(ws, n)
  {
    if n == 0 {
      LoadedAtStart(from, ws, choices, |from|);
    } else {
      Conservation(from, ws, choices, n - 1);
      LoadedStep(from, ws, choices, n, |from|);
    }
  }

  /** `m` times `x`, added up: the bounds are then linear. */
  ghost function Times(m: nat, x: real): real {
    if m == 0 then 0.0 else Times(m - 1, x) + x
  }

  ghost function Thrice(x: real): real {
    x + x + x
  }

  lemma {:induction false} TimesIsProduct(m: nat, x: real)
    ensures Times(m, x) == m as real * x
  {
    if m > 0 {
      TimesIsProduct(m - 1, x);
      assert m as real * x == (m - 1) as real * x + x;
    }
  }

  lemma {:induction false} TimesAdds(m: nat, x: real, y: real)
    ensures Times(m, x + y) == Times(m, x) + Times(m, y)
  {
    if m > 0 {
      TimesAdds(m - 1, x, y);
    }
  }

  lemma {:induction false} TimesGrows(m: nat, x: real, y: real)
    requires x <= y
    ensures Times(m, x) <= Times(m, y)
  {
    if m > 0 {
      TimesGrows(m - 1, x, y);
    }
  }

  /** Shards that each hold at least `low` hold `k * low` together. */
  lemma {:induction false} LoadedAtLeast(from: seq<real>, ws: seq<real>, choices: seq<nat>, n: nat, k: nat, low: real)
    requires n <= |ws| && n <= |choices| && k <= |from|
    requires forall j :: 0 <= j < k ==> Load(from[j], ws, choices, n, j) >= low
    ensures Loaded(from, ws, choices, n, k) >= Times(k, low)
  {
    if k > 0 {
      LoadedAtLeast(from, ws, choices, n, k - 1, low);
    }
  }

  /** Shards that each hold at most `high` hold at most `k * high` together. */
  lemma {:induction false} LoadedAtMost(from: seq<real>, ws: seq<real>, choices: seq<nat>, n: nat, k: nat, high: real)
    requires n <= |ws| && n <= |choices| && k <= |from|
    requires forall j :: 0 <= j < k ==> Load(from[j], ws, choices, n, j) <= high
    ensures Loaded(from, ws, choices, n, k) <= Times(k, high)
  {
    if k > 0 {
      LoadedAtMost(from, ws, choices, n, k - 1, high);
    }
  }

  // ---------------------------------------------------------------- the list-scheduling bound

  /**
   * When weight `n` is placed, `m` times the load it lands on is at most what is
   * placed already: the (2 - 1/m) bound's step.
   */
  lemma {:induction false} LandsBelowAverage(from: seq<real>, ws: seq<real>, choices: seq<nat>, n: nat)
    requires Greedy(from, ws, choices) && n < |ws|
    ensures Times(|from|, Load(from[choices[n]], ws, choices, n, choices[n])) <= Starting(from, |from|) + Total(ws, n)
  {
    assert ToLeast(from, ws, choices, n);
    LoadedAtLeast(from, ws, choices, n, |from|, Load(from[choices[n]], ws, choices, n, choices[n]));
    Conservation(from, ws, choices, n);
  }

  lemma {:induction false} TotalGrows(ws: seq<real>, n: nat, n': nat)
    requires n <= n' <= |ws| && NonNegative(ws)
    ensures Total(ws, n) <= Total(ws, n')
  {
    if n < n' {
      TotalGrows(ws, n, n' - 1);
    }
  }

  /** `load` is at most the average of `total` over `m` shards and 1 - 1/m of `heaviest`. */
  ghost predicate AveragePlus(m: nat, load: real, total: real, heaviest: real) {
    m > 0 && Times(m, load) <= total + Times(m - 1, heaviest)
  }

  lemma {:induction false} AverageArithmetic(m: nat, low: real, p: real, total: real, heaviest: real)
    requires m > 0 && p <= heaviest && Times(m, low) + p <= total
    ensures AveragePlus(m, low + p, total, heaviest)
  {
    TimesAdds(m, low, p);
    TimesGrows(m - 1, p, heaviest);
  }

  /**
   * A greedy split from loads already there: a shard ends at its initial load,
   * or within the average load and (1 - 1/m) of the heaviest weight.
   */
  lemma {:induction false} GreedyFromLoads(from: seq<real>, ws: seq<real>, choices: seq<nat>, heaviest: real, n: nat, k: nat)
    requires Greedy(from, ws, choices) && NonNegative(ws) && n <= |ws| && k < |from|
    requires forall i :: 0 <= i < |ws| ==> ws[i] <= heaviest
    ensures || Load(from[k], ws, choices, n, k) == from[k]
            || AveragePlus(|from|, Load(from[k], ws, choices, n, k), Starting(from, |from|) + Total(ws, |ws|), heaviest)
  {
    if n > 0 {
      if choices[n - 1] != k {
        GreedyFromLoads(from, ws, choices, heaviest, n - 1, k);
      } else {
        LandsBelowAverage(from, ws, choices, n - 1);
        TotalGrows(ws, n, |ws|);
        AverageArithmetic(|from|, Load(from[k], ws, choices, n - 1, k), ws[n - 1],
                          Starting(from, |from|) + Total(ws, |ws|), heaviest);
      }
    }
  }

  lemma {:induction false} ChoicesFromLoads(from: seq<real>, ws: seq<real>, total: real, heaviest: real, k: nat)
    requires NonNegative(ws) && k < |from| && total == Starting(from, |from|) + Total(ws, |ws|)
    requires forall i :: 0 <= i < |ws| ==> ws[i] <= heaviest
    ensures var load := Load(from[k], ws, Choices(from, ws, |ws|), |ws|, k);
            load == from[k] || AveragePlus(|from|, load, total, heaviest)
  {
    ChoicesAreGreedy(from, ws);
    GreedyFromLoads(from, ws, Choices(from, ws, |ws|), heaviest, |ws|, k);
  }

  // ---------------------------------------------------------------- longest first

  ghost function Zeros(m: nat): seq<real> {
    seq(m, i => 0.0)
  }

  /** No shard holds more than `limit` of the first `n` weights. */
  ghost predicate Within(ws: seq<real>, choices: seq<nat>, m: nat, n: nat, limit: real)
    requires n <= |ws| && n <= |choices|
  {
    forall k :: 0 <= k < m ==> Load(0.0, ws, choices, n, k) <= limit
  }

  /** A weight that no shard within `limit` could hold beside the least weight counts twice, any other once. */
  ghost function Slots(ws: seq<real>, limit: real, least: real): seq<real> {
    seq(|ws|, i requires 0 <= i < |ws| => if ws[i] > limit - least then 2.0 else 1.0)
  }

  /**
   * Of weights each at least `least` and above a third of `limit`, a shard holds
   * none; or one that leaves room for another; or two slots' worth, with no room
   * left; or more than `limit`.
   */
  lemma {:induction false} SlotsOfShard(ws: seq<real>, choices: seq<nat>, limit: real, least: real, n: nat, k: nat)
    requires n <= |ws| && |choices| == |ws|
    requires 0.0 <= least <= limit < Thrice(least)
    requires forall i :: 0 <= i < n ==> ws[i] >= least
    ensures var load := Load(0.0, ws, choices, n, k);
            var slots := Load(0.0, Slots(ws, limit, least), choices, n, k);
            || (slots == 0.0 && load == 0.0)
            || (slots == 1.0 && load <= limit - least && load >= least)
            || (slots == 2.0 && load > limit - least)
            || (slots >= 2.0 && load > limit)
  {
    if n > 0 {
      SlotsOfShard(ws, choices, limit, least, n - 1, k);
    }
  }

  /**
   * When the least weight so far is above a third of what the other split's
   * heaviest shard holds, greedy placement of it stays within that shard's load.
   * Counted in slots, the other split has at most `2m` of them and a greedy split
   * that went past would already fill `2m` before this weight.
   */
  lemma {:induction false} HeavyWeightsFit(m: nat, ws: seq<real>, choices: seq<nat>, other: seq<nat>, n: nat, limit: real)
    requires m > 0 && Greedy(Zeros(m), ws, choices) && n < |ws| == |other| && Placed(other, m)
    requires NonNegative(ws) && Descending(ws)
    requires Within(ws, other, m, n + 1, limit)
    requires limit < Thrice(ws[n])
    ensures Load(0.0, ws, choices, n, choices[n]) + ws[n] <= limit
  {
    var p := ws[n];
    var slots := Slots(ws, limit, p);
    LoadGrows(0.0, ws, other, 0, n, other[n]);
    assert Load(0.0, ws, other, n + 1, other[n]) >= p;
    if Load(0.0, ws, choices, n, choices[n]) + p > limit {
      forall k | 0 <= k < m ensures Load(Zeros(m)[k], slots, choices, n, k) >= 2.0 {
        assert ToLeast(Zeros(m), ws, choices, n);
        assert Load(Zeros(m)[k], ws, choices, n, k) >= Load(0.0, ws, choices, n, choices[n]);
        SlotsOfShard(ws, choices, limit, p, n, k);
      }
      forall k | 0 <= k < m ensures Load(Zeros(m)[k], slots, other, n + 1, k) <= 2.0 {
        SlotsOfShard(ws, other, limit, p, n + 1, k);
      }
      LoadedAtLeast(Zeros(m), slots, choices, n, m, 2.0);
      LoadedAtMost(Zeros(m), slots, other, n + 1, m, 2.0);
      Conservation(Zeros(m), slots, choices, n);
      Conservation(Zeros(m), slots, other, n + 1);
      assert false;
    }
  }

  lemma {:induction false} StartingFromZero(m: nat, k: nat)
    requires k <= m
    ensures Starting(Zeros(m), k) == 0.0
  {
    if k > 0 {
      StartingFromZero(m, k - 1);
    }
  }

  lemma {:induction false} WithinEarlier(m: nat, ws: seq<real>, other: seq<nat>, n: nat, limit: real)
    requires n <= |ws| == |other| && NonNegative(ws) && Within(ws, other, m, |ws|, limit)
    ensures Within(ws, other, m, n, limit)
  {
    forall j | 0 <= j < m ensures Load(0.0, ws, other, n, j) <= limit {
      LoadGrows(0.0, ws, other, n, |ws|, j);
    }
  }

  /** A split within `limit` holds at most `m * limit`. */
  lemma {:induction false} OtherHoldsTotal(m: nat, ws: seq<real>, other: seq<nat>, n: nat, limit: real)
    requires n <= |ws| == |other| && Placed(other, m) && Within(ws, other, m, n, limit)
    ensures Total(ws, n) <= Times(m, limit)
  {
    StartingFromZero(m, m);
    LoadedAtMost(Zeros(m), ws, other, n, m, limit);
    Conservation(Zeros(m), ws, other, n);
  }

  /** `load` is at most 4/3 - 1/(3m) of `limit`: 3m of the one within 4m - 1 of the other. */
  ghost predicate FourThirds(m: nat, load: real, limit: real) {
    Thrice(Times(m, load)) <= Thrice(Times(m, limit)) + Times(m, limit) - limit
  }

  /** The bound as it is usually written. */
  lemma {:induction false} FourThirdsMeans(m: nat, load: real, limit: real)
    ensures FourThirds(m, load, limit) <==> 3.0 * (m as real * load) <= 4.0 * (m as real * limit) - limit
  {
    TimesIsProduct(m, load);
    TimesIsProduct(m, limit);
  }

  lemma {:induction false} TimesTriples(m: nat, p: real, limit: real)
    requires Thrice(p) <= limit
    ensures Thrice(Times(m, p)) <= Times(m, limit)
  {
    if m > 0 {
      TimesTriples(m - 1, p, limit);
    }
  }

  lemma {:induction false} LightSum(lows: real, limits: real, sums: real, ps: real, before: real, p: real, limit: real)
    requires lows + p <= limits && Thrice(p) <= limit && sums == lows + ps
    requires Thrice(before) <= limits - limit && ps == before + p
    ensures Thrice(sums) <= Thrice(limits) + limits - limit
  {
  }

  /** The last weight is at most a third of the limit. */
  lemma {:induction false} LightArithmetic(m: nat, low: real, p: real, limit: real)
    requires m > 0 && Times(m, low) + p <= Times(m, limit) && Thrice(p) <= limit
    ensures FourThirds(m, low + p, limit)
  {
    TimesAdds(m, low, p);
    TimesTriples(m - 1, p, limit);
    LightSum(Times(m, low), Times(m, limit), Times(m, low + p), Times(m, p), Times(m - 1, p), p, limit);
  }

  lemma {:induction false} HeavyArithmetic(m: nat, load: real, limit: real)
    requires m > 0 && 0.0 <= load <= limit
    ensures FourThirds(m, load, limit)
  {
    TimesGrows(m, load, limit);
    TimesGrows(m - 1, 0.0, limit);
    TimesOfZero(m - 1);
  }

  lemma {:induction false} TimesOfZero(m: nat)
    ensures Times(m, 0.0) == 0.0
  {
    if m > 0 {
      TimesOfZero(m - 1);
    }
  }

  /** The bound for the shard weight `n` lands on, as it lands. */
  lemma {:induction false} LandingBound(m: nat, ws: seq<real>, choices: seq<nat>, other: seq<nat>, limit: real, n: nat)
    requires m > 0 && Greedy(Zeros(m), ws, choices) && n < |ws| == |other| && Placed(other, m)
    requires NonNegative(ws) && Descending(ws) && Within(ws, other, m, n + 1, limit)
    ensures FourThirds(m, Load(0.0, ws, choices, n, choices[n]) + ws[n], limit)
  {
    var k := choices[n];
    if limit < Thrice(ws[n]) {
      HeavyWeightsFit(m, ws, choices, other, n, limit);
      LoadGrows(0.0, ws, choices, 0, n, k);
      HeavyArithmetic(m, Load(0.0, ws, choices, n, k) + ws[n], limit);
    } else {
      StartingFromZero(m, m);
      LandsBelowAverage(Zeros(m), ws, choices, n);
      OtherHoldsTotal(m, ws, other, n + 1, limit);
      LightArithmetic(m, Load(0.0, ws, choices, n, k), ws[n], limit);
    }
  }

  /**
   * Longest first is within 4/3 - 1/(3m) of any other split: no shard of it holds
   * more than that times the heaviest shard (`limit`) of the other.
   */
  lemma {:induction false} LongestFirstBound(m: nat, ws: seq<real>, choices: seq<nat>, other: seq<nat>, limit: real, n: nat, k: nat)
    requires m > 0 && Greedy(Zeros(m), ws, choices) && |other| == |ws| && Placed(other, m)
    requires NonNegative(ws) && Descending(ws) && Within(ws, other, m, |ws|, limit)
    requires n <= |ws| && k < m
    ensures FourThirds(m, Load(0.0, ws, choices, n, k), limit)
  {
    if n == 0 {
      LoadGrows(0.0, ws, other, 0, |ws|, 0);
      HeavyArithmetic(m, 0.0, limit);
    } else if choices[n - 1] != k {
      LongestFirstBound(m, ws, choices, other, limit, n - 1, k);
    } else {
      WithinEarlier(m, ws, other, n, limit);
      LandingBound(m, ws, choices, other, limit, n - 1);
    }
  }
}
