/**
 * scripts/ci-shards.ts's split of the test files: the plan's timed files fill
 * the shards from the steps' loads, and any other file goes by its hash.
 */
module FileShards {
  import opened Lists
  import opened Orders
  import Makespan
  import Shards

  type Timing = (string, real)

  datatype Plan = Plan(steps: Shards.Timings, files: Shards.Timings, wallPerFileSecond: real) {
    /** As `readShardPlan` leaves it: times are not negative, the wall factor not zero, and each file is timed once. */
    ghost predicate Valid() {
      && wallPerFileSecond > 0.0
      && (forall i :: 0 <= i < |files| ==> files[i].1 >= 0.0)
      && (forall i, j :: 0 <= i < j < |files| ==> files[i].0 != files[j].0)
    }

    function Cost(): Timing -> real {
      (timing: Timing) => timing.1 * wallPerFileSecond
    }
  }

  predicate LongestFirst(a: Timing, b: Timing) {
    a.1 > b.1 || (a.1 == b.1 && StringLeq(a.0, b.0))
  }

  function Ordered(plan: Plan): seq<Timing> {
    Sort(LongestFirst, plan.files)
  }

  /** What each shard's steps take. */
  ghost function StepLoads(plan: Plan, steps: seq<string>, count: nat): (loads: seq<real>)
    requires count > 0
    ensures |loads| == count
  {
    seq(count, k requires 0 <= k < count => Shards.TimeOf(plan.steps, Shards.Assigned(plan.steps, steps, count)[k]))
  }

  ghost function Choices(plan: Plan, steps: seq<string>, count: nat, n: nat): (choices: seq<nat>)
    requires count > 0 && n <= |plan.files|
    ensures |choices| == n && Makespan.Placed(choices, count)
  {
    Makespan.Choices(StepLoads(plan, steps, count), Map(plan.Cost(), Ordered(plan)), n)
  }

  /** Where the first `n` timed files go. */
  ghost function Timed(files: seq<Timing>, choices: seq<nat>, n: nat): map<string, nat>
    requires n <= |files| && n <= |choices|
  {
    if n == 0 then map[] else Timed(files, choices, n - 1)[files[n - 1].0 := choices[n - 1]]
  }

  /** A file's shard: it depends on the file's path, the plan and the steps alone. */
  ghost function ShardOf(plan: Plan, steps: seq<string>, count: nat, hash: string -> nat, file: string): nat
    requires count > 0
  {
    var timed := Timed(Ordered(plan), Choices(plan, steps, count, |plan.files|), |plan.files|);
    if file in timed then timed[file] else hash(file) % count
  }

  // ------------------------------------------------------------------ the algorithm

  /** The loads and places once `n` of the files are placed, each costing what `ws` says. */
  ghost predicate Filling(from: seq<real>, ws: seq<real>, files: seq<Timing>, n: nat, loads: seq<real>, timed: map<string, nat>)
    requires |from| > 0 && n <= |files| == |ws|
  {
    var choices := Makespan.Choices(from, ws, n);
    loads == Makespan.Loads(from, ws, choices, n) && timed == Timed(files, choices, n)
  }

  lemma {:induction false} TimedDependsOnPrefix(files: seq<Timing>, choices: seq<nat>, choices': seq<nat>, n: nat)
    requires n <= |files| && n <= |choices| && n <= |choices'|
    requires forall i :: 0 <= i < n ==> choices[i] == choices'[i]
    ensures Timed(files, choices, n) == Timed(files, choices', n)
  {
    if n > 0 {
      TimedDependsOnPrefix(files, choices, choices', n - 1);
    }
  }

  lemma {:induction false} FillingNext(from: seq<real>, ws: seq<real>, files: seq<Timing>, n: nat, loads: seq<real>, timed: map<string, nat>)
    requires 0 < |from| == |loads| && n < |files| == |ws| && Filling(from, ws, files, n, loads, timed)
    ensures var least := Makespan.LeastOf(loads, |loads|);
            Filling(from, ws, files, n + 1, loads[least := loads[least] + ws[n]], timed[files[n].0 := least])
  {
    var least, before := Makespan.LeastOf(loads, |loads|), Makespan.Choices(from, ws, n);
    Shards.LoadingOne(from, ws, before, least, n);
    assert Makespan.Choices(from, ws, n + 1) == before + [least];
    TimedDependsOnPrefix(files, before, before + [least], n);
  }

  method FillOne(ghost from: seq<real>, ghost ws: seq<real>, ghost files: seq<Timing>, ghost n: nat,
                 loads: array<real>, timed: map<string, nat>, file: string, weight: real) returns (timed': map<string, nat>)
    requires 0 < |from| == loads.Length && n < |files| == |ws| && file == files[n].0 && weight == ws[n]
    requires Filling(from, ws, files, n, loads[..], timed)
    modifies loads
    ensures Filling(from, ws, files, n + 1, loads[..], timed')
  {
    FillingNext(from, ws, files, n, loads[..], timed);
    var least := Makespan.LeastOf(loads[..], loads.Length);
    ghost var before := loads[..];
    loads[least] := loads[least] + weight;
    timed' := timed[file := least];
    assert loads[..] == before[least := before[least] + ws[n]];
  }

  /** The timed files, longest first, each onto the shard with the least time so far. */
  method FillTimed(files: seq<Timing>, cost: Timing -> real, loads: array<real>) returns (timed: map<string, nat>)
    requires loads.Length > 0
    modifies loads
    ensures Filling(old(loads[..]), Map(cost, files), files, |files|, loads[..], timed)
  {
    timed := map[];
    ghost var from, ws := loads[..], Map(cost, files);
    assert loads[..] == Makespan.Loads(from, ws, [], 0);
    for n := 0 to |files|
      invariant Filling(from, ws, files, n, loads[..], timed)
    {
      timed := FillOne(from, ws, files, n, loads, timed, files[n].0, cost(files[n]));
    }
  }

  /** The first files handed out, each on its shard. */
  ghost predicate HandedOut(files: seq<string>, n: nat, shards: seq<seq<string>>, place: string -> nat)
    requires n <= |files|
  {
    forall k :: 0 <= k < |shards| ==>
      && Distinct(shards[k])
      && forall x :: x in shards[k] <==> x in files[..n] && place(x) == k
  }

  lemma {:induction false} HandOutNext(files: seq<string>, n: nat, shards: seq<seq<string>>, place: string -> nat)
    requires n < |files| && Distinct(files) && HandedOut(files, n, shards, place) && place(files[n]) < |shards|
    ensures var k := place(files[n]);
            HandedOut(files, n + 1, shards[k := shards[k] + [files[n]]], place)
  {
    var k := place(files[n]);
    assert files[..n + 1] == files[..n] + [files[n]];
    assert files[n] !in files[..n];
  }

  /**
   * The test files split: every file is on one shard, once, and it is the shard
   * `ShardOf` names, whatever else is in the list; each shard's files are sorted.
   */
  method LocalFileShards(files: seq<string>, plan: Plan, steps: seq<string>, count: nat, hash: string -> nat)
    returns (shards: seq<seq<string>>)
    requires count > 0
    ensures |shards| == count
    ensures forall file, k :: 0 <= k < count ==>
              (file in shards[k] <==> file in files && ShardOf(plan, steps, count, hash, file) == k)
    ensures forall k :: 0 <= k < count ==> Distinct(shards[k]) && SortedBy(StringLeq, shards[k])
  {
    var stepShards := Shards.AssignShards(steps, plan.steps, count);
    var loads := new real[count](k requires 0 <= k < count => Shards.TimeOf(plan.steps, stepShards[k]));
    assert loads[..] == StepLoads(plan, steps, count);
    var timed := FillTimed(Ordered(plan), plan.Cost(), loads);
    TimedAmong(Ordered(plan), Choices(plan, steps, count, |plan.files|), |plan.files|, count);
    var place := file => if file in timed then timed[file] else hash(file) % count;
    assert forall file :: place(file) == ShardOf(plan, steps, count, hash, file);
    var unsorted := HandOut(Unique(files), place, count);
    shards := Map(SortFiles, unsorted);
    forall k | 0 <= k < count
      ensures Distinct(shards[k]) && SortedBy(StringLeq, shards[k]) && forall x :: x in shards[k] <==> x in unsorted[k]
    {
      SortedStrings(unsorted[k]);
    }
  }

  method HandOut(files: seq<string>, place: string -> nat, count: nat) returns (shards: seq<seq<string>>)
    requires Distinct(files) && forall file :: place(file) < count
    ensures |shards| == count && HandedOut(files, |files|, shards, place)
  {
    shards := seq(count, k => []);
    for n := 0 to |files|
      invariant |shards| == count && HandedOut(files, n, shards, place)
    {
      HandOutNext(files, n, shards, place);
      var k := place(files[n]);
      shards := shards[k := shards[k] + [files[n]]];
    }
  }

  function SortFiles(files: seq<string>): seq<string> {
    Sort(StringLeq, files)
  }

  lemma {:induction false} TimedAmong(files: seq<Timing>, choices: seq<nat>, n: nat, count: nat)
    requires n <= |files| && n <= |choices| && Makespan.Placed(choices, count)
    ensures forall file :: file in Timed(files, choices, n) ==> Timed(files, choices, n)[file] < count
  {
    if n > 0 {
      TimedAmong(files, choices, n - 1, count);
    }
  }

  // ------------------------------------------------------------------ the balance

  /** What the plan puts on shard `k`: its steps, and each timed file placed there. */
  ghost function Planned(plan: Plan, steps: seq<string>, count: nat, hash: string -> nat, k: nat): real
    requires k < count
  {
    StepLoads(plan, steps, count)[k] + SumBy(CostOn(plan, steps, count, hash, k), plan.files)
  }

  ghost function CostOn(plan: Plan, steps: seq<string>, count: nat, hash: string -> nat, k: nat): Timing -> real
    requires count > 0
  {
    (timing: Timing) => if ShardOf(plan, steps, count, hash, timing.0) == k then plan.Cost()(timing) else 0.0
  }

  lemma {:induction false} TimedAt(files: seq<Timing>, choices: seq<nat>, n: nat, i: nat)
    requires i < n <= |files| && n <= |choices|
    requires forall i, j :: 0 <= i < j < |files| ==> files[i].0 != files[j].0
    ensures files[i].0 in Timed(files, choices, n) && Timed(files, choices, n)[files[i].0] == choices[i]
  {
    if i < n - 1 {
      TimedAt(files, choices, n - 1, i);
    }
  }

  lemma {:induction false} LoadIsCost(from: real, f: Timing -> real, g: Timing -> real, files: seq<Timing>, choices: seq<nat>, n: nat, k: nat)
    requires n <= |files| && |choices| == |files|
    requires forall i :: 0 <= i < |files| ==> g(files[i]) == if choices[i] == k then f(files[i]) else 0.0
    ensures Makespan.Load(from, Map(f, files), choices, n, k) == from + SumBy(g, files[..n])
  {
    if n > 0 {
      LoadIsCost(from, f, g, files, choices, n - 1, k);
      SumByAppend(g, files[..n - 1], [files[n - 1]]);
      assert files[..n] == files[..n - 1] + [files[n - 1]];
      assert SumBy(g, [files[n - 1]]) == g(files[n - 1]) + SumBy(g, []);
    }
  }

  lemma {:induction false} OrderedFiles(plan: Plan)
    requires plan.Valid()
    ensures multiset(Ordered(plan)) == multiset(plan.files)
    ensures forall i, j :: 0 <= i < j < |plan.files| ==> Ordered(plan)[i].0 != Ordered(plan)[j].0
    ensures forall i :: 0 <= i < |plan.files| ==> Ordered(plan)[i] in plan.files
  {
    var files := Ordered(plan);
    SortPermutes(LongestFirst, plan.files);
    forall i | 0 <= i < |files| ensures files[i] in plan.files {
      assert files[i] in multiset(files);
    }
    forall i, j | 0 <= i < j < |files| ensures files[i].0 != files[j].0 {
      if files[i] == files[j] {
        TwiceCounts(files, i, j);
        DistinctCount(plan.files, files[i]);
      }
    }
  }

  /** What filling shard `k` loads it with. */
  ghost function Filled(from: seq<real>, cost: Timing -> real, files: seq<Timing>, k: nat): real
    requires k < |from|
  {
    Makespan.Load(from[k], Map(cost, files), Makespan.Choices(from, Map(cost, files), |files|), |files|, k)
  }

  /** What the plan puts on a shard is what filling it loaded it with. */
  lemma {:induction false} PlannedIsLoad(plan: Plan, steps: seq<string>, count: nat, hash: string -> nat, k: nat)
    requires plan.Valid() && k < count
    ensures Planned(plan, steps, count, hash, k)
         == Filled(StepLoads(plan, steps, count), plan.Cost(), Ordered(plan), k)
  {
    var files, choices := Ordered(plan), Choices(plan, steps, count, |plan.files|);
    var g := CostOn(plan, steps, count, hash, k);
    OrderedFiles(plan);
    forall i | 0 <= i < |files| ensures g(files[i]) == if choices[i] == k then plan.Cost()(files[i]) else 0.0 {
      TimedAt(files, choices, |files|, i);
    }
    LoadIsCost(StepLoads(plan, steps, count)[k], plan.Cost(), g, files, choices, |files|, k);
    assert files[..|files|] == files;
    SumByPermutes(g, files, plan.files);
  }

  /** A load that is what it started as, or at most the average of `total` and 1 - 1/m of `largest`. */
  ghost predicate Within(m: nat, start: real, load: real, total: real, largest: real) {
    load == start || Makespan.AveragePlus(m, load, total, largest)
  }

  /** Everything planned, together. */
  ghost function Everything(plan: Plan, steps: seq<string>, count: nat): real
    requires count > 0
  {
    Makespan.Starting(StepLoads(plan, steps, count), count) + SumBy(plan.Cost(), plan.files)
  }

  lemma {:induction false} TotalIsSum(f: Timing -> real, files: seq<Timing>, n: nat)
    requires n <= |files|
    ensures Makespan.Total(Map(f, files), n) == SumBy(f, files[..n])
  {
    if n > 0 {
      TotalIsSum(f, files, n - 1);
      SumByAppend(f, files[..n - 1], [files[n - 1]]);
      assert files[..n] == files[..n - 1] + [files[n - 1]];
      assert SumBy(f, [files[n - 1]]) == f(files[n - 1]) + SumBy(f, []);
    }
  }

  /**
   * A shard's planned load is its steps' alone, or at most the average of
   * everything planned and 1 - 1/m of the largest timed file.
   */
  lemma {:induction false} PlannedLoadBound(plan: Plan, steps: seq<string>, count: nat, hash: string -> nat, k: nat, largest: real)
    requires plan.Valid() && k < count
    requires forall i :: 0 <= i < |plan.files| ==> plan.Cost()(plan.files[i]) <= largest
    ensures Within(count, StepLoads(plan, steps, count)[k], Planned(plan, steps, count, hash, k), Everything(plan, steps, count), largest)
  {
    var cost, files, from := plan.Cost(), Ordered(plan), StepLoads(plan, steps, count);
    PlannedIsLoad(plan, steps, count, hash, k);
    OrderedFiles(plan);
    CostsWithin(plan, largest);
    FilledBound(from, cost, files, plan.files, k, Everything(plan, steps, count), largest);
  }

  lemma {:induction false} CostsWithin(plan: Plan, largest: real)
    requires plan.Valid()
    requires forall i :: 0 <= i < |plan.files| ==> plan.Cost()(plan.files[i]) <= largest
    ensures forall i :: 0 <= i < |plan.files| ==> 0.0 <= plan.Cost()(Ordered(plan)[i]) <= largest
  {
    OrderedFiles(plan);
    forall i | 0 <= i < |plan.files| ensures 0.0 <= plan.Cost()(Ordered(plan)[i]) <= largest {
      assert Ordered(plan)[i] in plan.files;
      CostNotNegative(plan, Ordered(plan)[i]);
    }
  }

  lemma {:induction false} CostNotNegative(plan: Plan, file: Timing)
    requires plan.Valid() && file in plan.files
    ensures plan.Cost()(file) >= 0.0
  {
  }

  lemma {:induction false} FilledBound(from: seq<real>, cost: Timing -> real, files: seq<Timing>, plan: seq<Timing>, k: nat,
                                         total: real, largest: real)
    requires k < |from| && multiset(files) == multiset(plan) && total == Makespan.Starting(from, |from|) + SumBy(cost, plan)
    requires forall i :: 0 <= i < |files| ==> 0.0 <= cost(files[i]) <= largest
    ensures Within(|from|, from[k], Filled(from, cost, files, k), total, largest)
  {
    TotalIsSum(cost, files, |files|);
    assert files[..|files|] == files;
    SumByPermutes(cost, files, plan);
    Makespan.ChoicesFromLoads(from, Map(cost, files), total, largest, k);
  }

  // ------------------------------------------------------------------ a step's shard

  lemma {:induction false} HeldBy(shards: seq<seq<string>>, step: string, k: nat)
    requires k < |shards| && step in shards[k]
    ensures multiset(Flatten(shards))[step] >= 1
  {
    if k == 0 {
      assert step in multiset(shards[0]);
    } else {
      HeldBy(shards[1..], step, k - 1);
    }
  }

  lemma {:induction false} HeldByTwo(shards: seq<seq<string>>, step: string, j: nat, k: nat)
    requires j < k < |shards| && step in shards[j] && step in shards[k]
    ensures multiset(Flatten(shards))[step] >= 2
  {
    if j == 0 {
      assert step in multiset(shards[0]);
      HeldBy(shards[1..], step, k - 1);
    } else {
      HeldByTwo(shards[1..], step, j - 1, k - 1);
    }
  }

  lemma {:induction false} OnOneShard(shards: seq<seq<string>>, step: string) returns (k: nat)
    requires multiset(Flatten(shards))[step] == 1
    ensures k < |shards| && forall j :: 0 <= j < |shards| ==> (step in shards[j] <==> j == k)
  {
    assert step in multiset(Flatten(shards));
    var i: nat;
    k, i := InFlatten(shards, step);
    assert shards[k][i] in shards[k];
    forall j | 0 <= j < |shards| && j != k ensures step !in shards[j] {
      if step in shards[j] {
        HeldByTwo(shards, step, if j < k then j else k, if j < k then k else j);
      }
    }
  }

  /** A step among distinct items is on one shard of the split. */
  lemma {:induction false} StepOnOneShard(seconds: Shards.Timings, items: seq<string>, count: nat, step: string) returns (k: nat)
    requires count > 0 && Distinct(items) && step in items
    ensures k < count && forall j :: 0 <= j < count ==> (step in Shards.Assigned(seconds, items, count)[j] <==> j == k)
  {
    Shards.AssignedIsPartition(seconds, items, count);
    DistinctCount(items, step);
    k := OnOneShard(Shards.Assigned(seconds, items, count), step);
  }

  /** The 1-based shard that runs a step, that shard alone; refused for a step not known. */
  method ShardOfStep(step: string, known: seq<string>, items: seq<string>, seconds: Shards.Timings, count: nat) returns (shard: Option<nat>)
    requires count > 0 && Distinct(items) && forall s :: s in known ==> s in items
    ensures shard.None? <==> step !in known
    ensures shard.Some? ==>
              && 1 <= shard.value <= count
              && forall k :: 0 <= k < count ==> (step in Shards.Assigned(seconds, items, count)[k] <==> k == shard.value - 1)
  {
    if step !in known {
      return None;
    }
    ghost var k := StepOnOneShard(seconds, items, count, step);
    var shards := Shards.AssignShards(items, seconds, count);
    var at := 0;
    while step !in shards[at]
      invariant 0 <= at <= k < count == |shards|
      decreases count - at
    {
      at := at + 1;
    }
    shard := Some(at + 1);
  }
}
