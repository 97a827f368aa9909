/**
 * scripts/db-shards.ts: the run items' weights, and the split of them into
 * shards, longest first.
 */
module Shards {
  import opened Lists
  import opened Orders
  import Makespan

  /** The plan's recorded seconds: a JSON object's entries. */
  type Timings = seq<(string, real)>

  function Recorded(seconds: Timings, item: string): Option<real> {
    if seconds == [] then None
    else if seconds[0].0 == item then Some(seconds[0].1)
    else Recorded(seconds[1..], item)
  }

  function Known(seconds: Timings): (known: seq<real>)
    ensures forall i :: 0 <= i < |known| ==> known[i] > 0.0
  {
    if seconds == [] then []
    else (if seconds[0].1 > 0.0 then [seconds[0].1] else []) + Known(seconds[1..])
  }

  predicate RealLeq(a: real, b: real) {
    a <= b
  }

  /** The median of the timed items, or one second when nothing is timed. */
  function Fallback(seconds: Timings): (w: real)
    ensures w > 0.0
  {
    var known := Sort(RealLeq, Known(seconds));
    if known == [] then 1.0
    else
      SortPermutes(RealLeq, Known(seconds));
      assert known[|known| / 2] in multiset(Known(seconds));
      known[|known| / 2]
  }

  /** An item's weight: its recorded seconds, or the median when it has none. */
  function Weight(seconds: Timings, item: string): (w: real)
    ensures w > 0.0
  {
    match Recorded(seconds, item)
    case Some(n) => if n > 0.0 then n else Fallback(seconds)
    case None => Fallback(seconds)
  }

  /** The fallback has as many known timings at or below it as half of them, and the rest at or above. */
  lemma {:induction false} FallbackIsMedian(seconds: Timings) returns (below: seq<real>, above: seq<real>)
    requires Known(seconds) != []
    ensures multiset(below + [Fallback(seconds)] + above) == multiset(Known(seconds))
    ensures |below| == |Known(seconds)| / 2
    ensures forall x :: x in below ==> x <= Fallback(seconds)
    ensures forall x :: x in above ==> Fallback(seconds) <= x
  {
    var known := Sort(RealLeq, Known(seconds));
    SortPermutes(RealLeq, Known(seconds));
    SortSorts(RealLeq, Known(seconds));
    below, above := SplitAt(known, |known| / 2);
  }

  lemma {:induction false} SplitAt(sorted: seq<real>, at: nat) returns (below: seq<real>, above: seq<real>)
    requires at < |sorted| && SortedBy(RealLeq, sorted)
    ensures multiset(below + [sorted[at]] + above) == multiset(sorted) && |below| == at
    ensures forall x :: x in below ==> x <= sorted[at]
    ensures forall x :: x in above ==> sorted[at] <= x
  {
    below, above := sorted[..at], sorted[at + 1..];
    assert below + [sorted[at]] + above == sorted;
    forall x | x in below ensures x <= sorted[at] {
      var i :| 0 <= i < at && sorted[i] == x;
      assert RealLeq(sorted[i], sorted[at]);
    }
    forall x | x in above ensures sorted[at] <= x {
      var i :| 0 <= i < |above| && above[i] == x;
      assert RealLeq(sorted[at], sorted[at + 1 + i]);
    }
  }

  // ------------------------------------------------------------------ what an item takes

  /** The places from `from` on whose recorded time is `t`. */
  ghost function PlacesOf(seconds: Timings, t: real, from: nat): set<nat> {
    set i: nat | from <= i < |seconds| && seconds[i].1 == t
  }

  lemma {:induction false} PlacesFrom(seconds: Timings, t: real, from: nat)
    requires from < |seconds|
    ensures |PlacesOf(seconds, t, from)| == |PlacesOf(seconds, t, from + 1)| + if seconds[from].1 == t then 1 else 0
  {
    var rest := PlacesOf(seconds, t, from + 1);
    assert PlacesOf(seconds, t, from) == if seconds[from].1 == t then rest + {from} else rest;
  }

  lemma {:induction false} KnownMore(seconds: Timings, t: real)
    requires seconds != []
    ensures multiset(Known(seconds))[t] == multiset(Known(seconds[1..]))[t] + if seconds[0].1 == t && t > 0.0 then 1 else 0
  {
    var rest, first := Known(seconds[1..]), seconds[0].1;
    if first > 0.0 {
      assert Known(seconds) == [first] + rest;
      assert multiset([first] + rest) == multiset{first} + multiset(rest);
    } else {
      assert Known(seconds) == rest;
    }
  }

  lemma {:induction false} KnownFrom(seconds: Timings, t: real, from: nat)
    requires from <= |seconds|
    ensures multiset(Known(seconds[from..]))[t] == if t > 0.0 then |PlacesOf(seconds, t, from)| else 0
    decreases |seconds| - from
  {
    if from < |seconds| {
      KnownFrom(seconds, t, from + 1);
      KnownMore(seconds[from..], t);
      PlacesFrom(seconds, t, from);
      assert seconds[from..][1..] == seconds[from + 1..];
    } else {
      assert PlacesOf(seconds, t, from) == {};
    }
  }

  /** The timed items' seconds are the positive times of the table, each as often as it stands there. */
  lemma {:induction false} KnownAre(seconds: Timings, t: real)
    ensures multiset(Known(seconds))[t] == if t > 0.0 then |PlacesOf(seconds, t, 0)| else 0
  {
    assert seconds[0..] == seconds;
    KnownFrom(seconds, t, 0);
  }

  ghost predicate Halves(known: seq<real>, t: real, below: seq<real>, above: seq<real>) {
    && multiset(below + [t] + above) == multiset(known) && |below| == |known| / 2
    && (forall x :: x in below ==> x <= t) && (forall x :: x in above ==> t <= x)
  }

  /** What an item with no positive time takes: the upper median of the positive ones, or a second. */
  ghost predicate Untimed(seconds: Timings, t: real) {
    if Known(seconds) == [] then t == 1.0 else exists below, above :: Halves(Known(seconds), t, below, above)
  }

  /** The table says the item takes `t`. */
  ghost predicate Takes(seconds: Timings, item: string, t: real) {
    && (forall n: real :: (item, n) in seconds && n > 0.0 ==> t == n)
    && ((forall n: real :: (item, n) in seconds ==> n <= 0.0) ==> Untimed(seconds, t))
  }

  /** The table is a JSON object's: no name stands in it twice. */
  predicate NamedOnce(seconds: Timings) {
    forall i, j :: 0 <= i < j < |seconds| ==> seconds[i].0 != seconds[j].0
  }

  function UpTo(t: real): real -> real {
    x => if x <= t then 1.0 else 0.0
  }

  lemma {:induction false} CountUpTo(xs: seq<real>, t: real)
    ensures 0.0 <= SumBy(UpTo(t), xs) <= |xs| as real
    ensures (forall x :: x in xs ==> x <= t) ==> SumBy(UpTo(t), xs) == |xs| as real
    ensures (forall x :: x in xs ==> x > t) ==> SumBy(UpTo(t), xs) == 0.0
  {
    if xs != [] {
      CountUpTo(xs[1..], t);
      assert xs[0] in xs && (forall x :: x in xs[1..] ==> x in xs);
    }
  }

  lemma {:induction false} HalvesUpTo(known: seq<real>, t: real, below: seq<real>, above: seq<real>, u: real)
    requires Halves(known, t, below, above)
    ensures t <= u ==> SumBy(UpTo(u), known) >= |below| as real + 1.0
    ensures u < t ==> SumBy(UpTo(u), known) <= |below| as real
  {
    SumByPermutes(UpTo(u), below + [t] + above, known);
    SumByAppend(UpTo(u), below + [t], above);
    SumByAppend(UpTo(u), below, [t]);
    CountUpTo(below, u);
    CountUpTo([t], u);
    CountUpTo(above, u);
  }

  /** There is one upper median. */
  lemma {:induction false} MedianIsOne(known: seq<real>, t: real, below: seq<real>, above: seq<real>, u: real, lower: seq<real>, upper: seq<real>)
    requires Halves(known, t, below, above) && Halves(known, u, lower, upper)
    ensures t == u
  {
    HalvesUpTo(known, t, below, above, if t < u then t else u);
    HalvesUpTo(known, u, lower, upper, if t < u then t else u);
  }

  lemma {:induction false} RecordedIs(seconds: Timings, item: string)
    requires NamedOnce(seconds)
    ensures Recorded(seconds, item).Some? ==> (item, Recorded(seconds, item).value) in seconds
    ensures forall n: real :: (item, n) in seconds ==> Recorded(seconds, item) == Some(n)
  {
    if seconds != [] {
      RecordedIs(seconds[1..], item);
    }
  }

  lemma {:induction false} UntimedIs(seconds: Timings, t: real)
    ensures Untimed(seconds, t) <==> t == Fallback(seconds)
  {
    if Known(seconds) == [] {
      assert multiset(Sort(RealLeq, Known(seconds))) == multiset{};
    } else {
      var below, above := FallbackIsMedian(seconds);
      assert Halves(Known(seconds), Fallback(seconds), below, above);
      if Untimed(seconds, t) {
        var lower, upper :| Halves(Known(seconds), t, lower, upper);
        MedianIsOne(Known(seconds), t, lower, upper, Fallback(seconds), below, above);
      }
    }
  }

  /** An item weighs exactly what the table says it takes. */
  lemma {:induction false} WeighsWhatItTakes(seconds: Timings, item: string, t: real)
    requires NamedOnce(seconds)
    ensures Takes(seconds, item, t) <==> t == Weight(seconds, item)
  {
    RecordedIs(seconds, item);
    UntimedIs(seconds, t);
  }

  function WeightIn(seconds: Timings): string -> real {
    item => Weight(seconds, item)
  }

  /** What a list of items takes, one after another. */
  function TimeOf(seconds: Timings, items: seq<string>): real {
    SumBy(WeightIn(seconds), items)
  }

  // ------------------------------------------------------------------ the split

  /** An item at its place in the manifest, weighed. */
  datatype Entry = Entry(item: string, index: nat, weight: real)

  predicate LongestFirst(a: Entry, b: Entry) {
    a.weight > b.weight || (a.weight == b.weight && a.index <= b.index)
  }

  predicate ByIndex(a: Entry, b: Entry) {
    a.index <= b.index
  }

  function ItemOf(e: Entry): string {
    e.item
  }

  function WeightOf(e: Entry): real {
    e.weight
  }

  function Weigh(seconds: Timings, items: seq<string>): (es: seq<Entry>)
    ensures |es| == |items|
    ensures forall i :: 0 <= i < |es| ==> es[i] == Entry(items[i], i, Weight(seconds, items[i]))
  {
    seq(|items|, i requires 0 <= i < |items| => Entry(items[i], i, Weight(seconds, items[i])))
  }

  function Weighed(seconds: Timings, items: seq<string>): seq<Entry> {
    Sort(LongestFirst, Weigh(seconds, items))
  }

  /** What shard `k` is handed of the first `n` entries, in the order handed. */
  function Held<T>(es: seq<T>, choices: seq<nat>, n: nat, k: nat): seq<T>
    requires n <= |es| && n <= |choices|
  {
    if n == 0 then []
    else Held(es, choices, n - 1, k) + if choices[n - 1] == k then [es[n - 1]] else []
  }

  function InOrder(es: seq<Entry>): seq<string> {
    Map(ItemOf, Sort(ByIndex, es))
  }

  function Weights(es: seq<Entry>): seq<real> {
    Map(WeightOf, es)
  }

  /** Where each weighed entry goes. */
  ghost function Split(seconds: Timings, items: seq<string>, count: nat): (choices: seq<nat>)
    requires count > 0
    ensures |choices| == |items| && Makespan.Placed(choices, count)
  {
    Makespan.Choices(Makespan.Zeros(count), Weights(Weighed(seconds, items)), |items|)
  }

  ghost function Assigned(seconds: Timings, items: seq<string>, count: nat): (shards: seq<seq<string>>)
    requires count > 0
    ensures |shards| == count
  {
    seq(count, k requires 0 <= k < count =>
      InOrder(Held(Weighed(seconds, items), Split(seconds, items, count), |items|, k)))
  }

  lemma {:induction false} HeldDependsOnPrefix<T>(es: seq<T>, choices: seq<nat>, choices': seq<nat>, n: nat, k: nat)
    requires n <= |es| && n <= |choices| && n <= |choices'|
    requires choices[..n] == choices'[..n]
    ensures Held(es, choices, n, k) == Held(es, choices', n, k)
  {
    if n > 0 {
      assert choices[n - 1] == choices[..n][n - 1] == choices'[..n][n - 1] == choices'[n - 1];
      assert choices[..n - 1] == choices[..n][..n - 1];
      assert choices'[..n - 1] == choices'[..n][..n - 1];
      HeldDependsOnPrefix(es, choices, choices', n - 1, k);
    }
  }

  /** What every shard is handed of the first `n` entries. */
  function HeldByAll<T>(es: seq<T>, choices: seq<nat>, n: nat, count: nat): (held: seq<seq<T>>)
    requires n <= |es| && n <= |choices|
    ensures |held| == count
    ensures forall k :: 0 <= k < count ==> held[k] == Held(es, choices, n, k)
  {
    seq(count, k requires 0 <= k < count => Held(es, choices, n, k))
  }

  lemma {:induction false} PlacingOne<T>(es: seq<T>, before: seq<nat>, least: nat, n: nat, count: nat)
    requires n < |es| && |before| == n && least < count
    ensures var held := HeldByAll(es, before, n, count);
            HeldByAll(es, before + [least], n + 1, count) == held[least := held[least] + [es[n]]]
  {
    var after, held := before + [least], HeldByAll(es, before, n, count);
    var placed := held[least := held[least] + [es[n]]];
    forall k | 0 <= k < count ensures HeldByAll(es, after, n + 1, count)[k] == placed[k] {
      HeldDependsOnPrefix(es, before, after, n, k);
    }
  }

  lemma {:induction false} LoadingOne(from: seq<real>, ws: seq<real>, before: seq<nat>, least: nat, n: nat)
    requires n < |ws| && |before| == n && least < |from|
    ensures var loads := Makespan.Loads(from, ws, before, n);
            Makespan.Loads(from, ws, before + [least], n + 1) == loads[least := loads[least] + ws[n]]
  {
    forall k | 0 <= k < |from|
      ensures Makespan.Load(from[k], ws, before + [least], n, k) == Makespan.Load(from[k], ws, before, n, k)
    {
      Makespan.LoadDependsOnPrefix(from[k], ws, ws, before, before + [least], n, k);
    }
  }

  /** The loads and lists after the first `n` entries. */
  ghost predicate Placing(es: seq<Entry>, count: nat, n: nat, load: seq<real>, held: seq<seq<Entry>>)
    requires count > 0 && n <= |es|
  {
    var from, ws := Makespan.Zeros(count), Weights(es);
    var choices := Makespan.Choices(from, ws, n);
    load == Makespan.Loads(from, ws, choices, n) && held == HeldByAll(es, choices, n, count)
  }

  lemma {:induction false} PlacingNext(es: seq<Entry>, count: nat, n: nat, load: seq<real>, held: seq<seq<Entry>>)
    requires count > 0 && n < |es| && Placing(es, count, n, load, held)
    ensures var least := Makespan.LeastOf(load, count);
            Placing(es, count, n + 1, load[least := load[least] + es[n].weight], held[least := held[least] + [es[n]]])
  {
    var from, ws, least := Makespan.Zeros(count), Weights(es), Makespan.LeastOf(load, count);
    var before := Makespan.Choices(from, ws, n);
    LoadingOne(from, ws, before, least, n);
    PlacingOne(es, before, least, n, count);
    assert Makespan.Choices(from, ws, n + 1) == before + [least];
    assert ws[n] == es[n].weight;
  }

  /** One entry onto the shard with the least load, the lower shard on a tie. */
  method PlaceOnLeast(load: array<real>, held: array<seq<Entry>>, entry: Entry, ghost weighed: seq<Entry>, ghost n: nat)
    requires 0 < load.Length == held.Length && n < |weighed| && weighed[n] == entry
    requires Placing(weighed, load.Length, n, load[..], held[..])
    modifies load, held
    ensures Placing(weighed, load.Length, n + 1, load[..], held[..])
  {
    PlacingNext(weighed, load.Length, n, load[..], held[..]);
    ghost var loads, lists := load[..], held[..];
    var least := Makespan.LeastOf(load[..], load.Length);
    load[least] := load[least] + entry.weight;
    held[least] := held[least] + [entry];
    assert load[..] == loads[least := loads[least] + entry.weight];
    assert held[..] == lists[least := lists[least] + [entry]];
  }

  /** Each entry in turn onto the shard with the least load. */
  method Fill(weighed: seq<Entry>, load: array<real>, held: array<seq<Entry>>)
    requires 0 < load.Length == held.Length
    requires Placing(weighed, load.Length, 0, load[..], held[..])
    modifies load, held
    ensures Placing(weighed, load.Length, |weighed|, load[..], held[..])
  {
    for n := 0 to |weighed|
      invariant Placing(weighed, load.Length, n, load[..], held[..])
    {
      PlaceOnLeast(load, held, weighed[n], weighed, n);
    }
  }

  method AssignShards(items: seq<string>, seconds: Timings, count: nat) returns (shards: seq<seq<string>>)
    requires count > 0
    ensures shards == Assigned(seconds, items, count)
  {
    var weighed := Weighed(seconds, items);
    var load := new real[count](i => 0.0);
    var held := new seq<Entry>[count](i => []);
    Fill(weighed, load, held);
    shards := Map(InOrder, held[..]);
  }

  // ------------------------------------------------------------------ what every split keeps

  lemma {:induction false} LongestFirstOrders()
    ensures TotalPreorder(LongestFirst)
  {
  }

  lemma {:induction false} ByIndexOrders()
    ensures TotalPreorder(ByIndex)
  {
  }

  lemma {:induction false} HeldTogether<T>(es: seq<T>, choices: seq<nat>, n: nat, count: nat)
    requires n <= |es| && |choices| == |es| && Makespan.Placed(choices, count)
    ensures multiset(Flatten(HeldByAll(es, choices, n, count))) == multiset(es[..n])
  {
    if n == 0 {
      NothingHeld(es, choices, count);
    } else {
      HeldTogether(es, choices, n - 1, count);
      OneMoreTogether(es, choices, n, count);
      TakenOneMore(es, n);
    }
  }

  lemma {:induction false} OneMoreTogether<T>(es: seq<T>, choices: seq<nat>, n: nat, count: nat)
    requires 0 < n <= |es| && |choices| == |es| && choices[n - 1] < count
    ensures multiset(Flatten(HeldByAll(es, choices, n, count)))
         == multiset(Flatten(HeldByAll(es, choices, n - 1, count))) + multiset{es[n - 1]}
  {
    HeldOneMore(es, choices, n, count);
    FlattenPush(HeldByAll(es, choices, n - 1, count), choices[n - 1], es[n - 1]);
  }

  lemma {:induction false} HeldOneMore<T>(es: seq<T>, choices: seq<nat>, n: nat, count: nat)
    requires 0 < n <= |es| && |choices| == |es| && choices[n - 1] < count
    ensures var held, least := HeldByAll(es, choices, n - 1, count), choices[n - 1];
            HeldByAll(es, choices, n, count) == held[least := held[least] + [es[n - 1]]]
  {
    var held, least := HeldByAll(es, choices, n - 1, count), choices[n - 1];
    var placed := held[least := held[least] + [es[n - 1]]];
    forall k | 0 <= k < count ensures HeldByAll(es, choices, n, count)[k] == placed[k] {
    }
  }

  lemma {:induction false} NothingHeld<T>(es: seq<T>, choices: seq<nat>, count: nat)
    ensures Flatten(HeldByAll(es, choices, 0, count)) == []
  {
    if count > 0 {
      NothingHeld(es, choices, count - 1);
      assert HeldByAll(es, choices, 0, count)[1..] == HeldByAll(es, choices, 0, count - 1);
    }
  }

  lemma {:induction false} FlattenMap<T, U>(f: T -> U, ss: seq<seq<T>>, ts: seq<seq<U>>)
    requires |ss| == |ts|
    requires forall k :: 0 <= k < |ss| ==> multiset(ts[k]) == multiset(Map(f, ss[k]))
    ensures multiset(Flatten(ts)) == multiset(Map(f, Flatten(ss)))
  {
    if ss != [] {
      FlattenMap(f, ss[1..], ts[1..]);
      MapAppend(f, ss[0], Flatten(ss[1..]));
      assert multiset(Flatten(ts)) == multiset(ts[0]) + multiset(Flatten(ts[1..]));
    }
  }

  lemma {:induction false} InOrderPermutes(es: seq<Entry>)
    ensures multiset(InOrder(es)) == multiset(Map(ItemOf, es))
  {
    SortPermutes(ByIndex, es);
    MapPermutes(ItemOf, Sort(ByIndex, es), es);
  }

  lemma {:induction false} WeighedItems(seconds: Timings, items: seq<string>)
    ensures multiset(Map(ItemOf, Weighed(seconds, items))) == multiset(items)
  {
    SortPermutes(LongestFirst, Weigh(seconds, items));
    MapPermutes(ItemOf, Weighed(seconds, items), Weigh(seconds, items));
    assert Map(ItemOf, Weigh(seconds, items)) == items;
  }

  /** Nothing is lost or run twice: the shards together hold exactly the items. */
  lemma {:induction false} AssignedIsPartition(seconds: Timings, items: seq<string>, count: nat)
    requires count > 0
    ensures multiset(Flatten(Assigned(seconds, items, count))) == multiset(items)
  {
    var weighed, choices := Weighed(seconds, items), Split(seconds, items, count);
    var held := HeldByAll(weighed, choices, |weighed|, count);
    HeldTogether(weighed, choices, |weighed|, count);
    assert weighed[..|weighed|] == weighed;
    forall k | 0 <= k < count ensures multiset(Assigned(seconds, items, count)[k]) == multiset(Map(ItemOf, held[k])) {
      InOrderPermutes(held[k]);
    }
    FlattenMap(ItemOf, held, Assigned(seconds, items, count));
    MapPermutes(ItemOf, Flatten(held), weighed);
    WeighedItems(seconds, items);
  }

  lemma {:induction false} OneMoreOfBoth<T>(a: multiset<T>, b: multiset<T>, x: T)
    requires a <= b
    ensures a + multiset{x} <= b + multiset{x} && a <= b + multiset{x}
  {
  }

  lemma {:induction false} HeldAmong<T>(es: seq<T>, choices: seq<nat>, n: nat, k: nat)
    requires n <= |es| && n <= |choices|
    ensures multiset(Held(es, choices, n, k)) <= multiset(es[..n])
  {
    if n > 0 {
      var before := Held(es, choices, n - 1, k);
      HeldAmong(es, choices, n - 1, k);
      TakenOneMore(es, n);
      OneMoreOfBoth(multiset(before), multiset(es[..n - 1]), es[n - 1]);
      assert multiset(before + [es[n - 1]]) == multiset(before) + multiset{es[n - 1]};
    }
  }

  /** `places` picks the items of `shard` out of the manifest, left to right. */
  ghost predicate Picks(places: seq<nat>, items: seq<string>, shard: seq<string>) {
    && |places| == |shard|
    && (forall i :: 0 <= i < |places| ==> places[i] < |items| && items[places[i]] == shard[i])
    && (forall i, j :: 0 <= i < j < |places| ==> places[i] < places[j])
  }

  function IndexOf(e: Entry): nat {
    e.index
  }

  lemma {:induction false} WeighDistinct(seconds: Timings, items: seq<string>, e: Entry)
    ensures multiset(Weigh(seconds, items))[e] <= 1
    ensures e in Weigh(seconds, items) ==> e.index < |items| && e == Weigh(seconds, items)[e.index]
  {
    assert Distinct(Weigh(seconds, items));
    DistinctCount(Weigh(seconds, items), e);
  }

  /** The entries are placed longest first, and of as long in manifest order: the split depends on nothing else. */
  lemma {:induction false} WeighedInOrder(seconds: Timings, items: seq<string>, i: nat, j: nat)
    requires i < j < |Weighed(seconds, items)|
    ensures var a, b := Weighed(seconds, items)[i], Weighed(seconds, items)[j];
            a.weight > b.weight || (a.weight == b.weight && a.index < b.index)
  {
    var weighed := Weighed(seconds, items);
    LongestFirstOrders();
    SortSorts(LongestFirst, Weigh(seconds, items));
    SortPermutes(LongestFirst, Weigh(seconds, items));
    assert LongestFirst(weighed[i], weighed[j]);
    assert weighed[i] in multiset(weighed) && weighed[j] in multiset(weighed);
    WeighDistinct(seconds, items, weighed[i]);
    WeighDistinct(seconds, items, weighed[j]);
    if weighed[i] == weighed[j] {
      TwiceCounts(weighed, i, j);
    }
  }

  /** Entries of the manifest, each once, are picked out of it left to right once sorted by place. */
  lemma {:induction false} SortedPicks(seconds: Timings, items: seq<string>, sorted: seq<Entry>)
    requires SortedBy(ByIndex, sorted) && multiset(sorted) <= multiset(Weigh(seconds, items))
    ensures Picks(Map(IndexOf, sorted), items, Map(ItemOf, sorted))
  {
    forall i | 0 <= i < |sorted| ensures sorted[i] in Weigh(seconds, items) {
      assert sorted[i] in multiset(sorted);
    }
    forall i | 0 <= i < |sorted|
      ensures sorted[i].index < |items| && items[sorted[i].index] == sorted[i].item
    {
      WeighDistinct(seconds, items, sorted[i]);
    }
    forall i, j | 0 <= i < j < |sorted| ensures sorted[i].index < sorted[j].index {
      assert ByIndex(sorted[i], sorted[j]);
      WeighDistinct(seconds, items, sorted[i]);
      WeighDistinct(seconds, items, sorted[j]);
      if sorted[i] == sorted[j] {
        TwiceCounts(sorted, i, j);
      }
    }
  }

  /** No shard reorders what the manifest lists. */
  lemma {:induction false} AssignedKeepsOrder(seconds: Timings, items: seq<string>, count: nat, k: nat) returns (places: seq<nat>)
    requires k < count
    ensures Picks(places, items, Assigned(seconds, items, count)[k])
  {
    var weighed, choices := Weighed(seconds, items), Split(seconds, items, count);
    var held := Held(weighed, choices, |items|, k);
    HeldAmong(weighed, choices, |items|, k);
    assert weighed[..|items|] == weighed;
    SortPermutes(LongestFirst, Weigh(seconds, items));
    SortPermutes(ByIndex, held);
    ByIndexOrders();
    SortSorts(ByIndex, held);
    places := Map(IndexOf, Sort(ByIndex, held));
    SortedPicks(seconds, items, Sort(ByIndex, held));
  }

  // ------------------------------------------------------------------ the makespan bound

  /** What the longest shard of a split takes. */
  function Longest(time: string -> real, shards: seq<seq<string>>): (t: real)
    ensures forall k :: 0 <= k < |shards| ==> SumBy(time, shards[k]) <= t
    ensures shards != [] ==> exists k :: 0 <= k < |shards| && SumBy(time, shards[k]) == t
  {
    if shards == [] then 0.0
    else
      var first, rest := SumBy(time, shards[0]), Longest(time, shards[1..]);
      assert forall j :: 0 <= j < |shards| - 1 ==> shards[1..][j] == shards[j + 1];
      assert forall k :: 1 <= k < |shards| ==> shards[k] == shards[1..][k - 1];
      if |shards| == 1 || first >= rest then first else rest
  }

  /** Placed as `choices` says, each shard holds what it has in the split. */
  ghost predicate PlacesAs(items: seq<string>, choices: seq<nat>, shards: seq<seq<string>>) {
    && |choices| == |items| && Makespan.Placed(choices, |shards|)
    && forall k :: 0 <= k < |shards| ==> multiset(Held(items, choices, |items|, k)) == multiset(shards[k])
  }

  /** Any split of the same items is a placement of them, one by one. */
  lemma {:induction false} Placement(items: seq<string>, shards: seq<seq<string>>) returns (choices: seq<nat>)
    requires multiset(items) == multiset(Flatten(shards))
    ensures PlacesAs(items, choices, shards)
    decreases |items|
  {
    if items == [] {
      choices := [];
      forall k | 0 <= k < |shards| ensures shards[k] == [] {
        NothingFlattened(shards, k);
      }
    } else {
      var k, i := TakenOut(items, shards);
      var before := Placement(items[..|items| - 1], shards[k := Without(shards[k], i)]);
      choices := before + [k];
      PlacedWithLast(items, before, shards, k, i);
    }
  }

  lemma {:induction false} PlacedWithLast(items: seq<string>, before: seq<nat>, shards: seq<seq<string>>, k: nat, i: nat)
    requires items != [] && k < |shards| && i < |shards[k]| && shards[k][i] == items[|items| - 1]
    requires PlacesAs(items[..|items| - 1], before, shards[k := Without(shards[k], i)])
    ensures PlacesAs(items, before + [k], shards)
  {
    forall j | 0 <= j < |shards| ensures multiset(Held(items, before + [k], |items|, j)) == multiset(shards[j]) {
      PlacedLast(items, before, shards, k, i, j);
    }
  }

  lemma {:induction false} NothingFlattened(shards: seq<seq<string>>, k: nat)
    requires k < |shards|
    ensures multiset(Flatten(shards)) == multiset{} ==> shards[k] == []
  {
    if shards[k] != [] {
      EntryInFlatten(shards, k, 0);
      assert shards[k][0] in multiset(Flatten(shards));
    }
  }

  /** Where the last item is, and what is left without it. */
  lemma {:induction false} TakenOut(items: seq<string>, shards: seq<seq<string>>) returns (k: nat, i: nat)
    requires items != [] && multiset(items) == multiset(Flatten(shards))
    ensures k < |shards| && i < |shards[k]| && shards[k][i] == items[|items| - 1]
    ensures multiset(items[..|items| - 1]) == multiset(Flatten(shards[k := Without(shards[k], i)]))
  {
    var n := |items| - 1;
    assert items == items[..n] + [items[n]];
    assert items[n] in multiset(Flatten(shards));
    k, i := InFlatten(shards, items[n]);
    FlattenWithout(shards, k, i);
  }

  lemma {:induction false} PlacedLast(items: seq<string>, before: seq<nat>, shards: seq<seq<string>>, k: nat, i: nat, j: nat)
    requires |items| == |before| + 1 && j < |shards| && k < |shards| && i < |shards[k]|
    requires shards[k][i] == items[|before|]
    requires multiset(Held(items[..|before|], before, |before|, j)) == multiset(shards[k := Without(shards[k], i)][j])
    ensures multiset(Held(items, before + [k], |items|, j)) == multiset(shards[j])
  {
    HeldLast(items, before, k, j);
    if j == k {
      assert multiset(shards[k]) == multiset(Without(shards[k], i)) + multiset{shards[k][i]};
    }
  }

  lemma {:induction false} HeldLast<T>(items: seq<T>, before: seq<nat>, k: nat, j: nat)
    requires |items| == |before| + 1
    ensures Held(items, before + [k], |items|, j)
         == Held(items[..|before|], before, |before|, j) + if j == k then [items[|before|]] else []
  {
    HeldOfLonger(items, before + [k], items[..|before|], before, |before|, j);
  }

  lemma {:induction false} FlattenWithout(shards: seq<seq<string>>, k: nat, i: nat)
    requires k < |shards| && i < |shards[k]|
    ensures multiset(Flatten(shards[k := Without(shards[k], i)])) == multiset(Flatten(shards)) - multiset{shards[k][i]}
  {
    FlattenUpdate(shards, k, Without(shards[k], i));
    RemovedOne(multiset(Flatten(shards[k := Without(shards[k], i)])), multiset(shards[k]), multiset(Flatten(shards)), shards[k][i]);
  }

  lemma {:induction false} RemovedOne(rest: multiset<string>, shard: multiset<string>, all: multiset<string>, x: string)
    requires x in shard && rest + shard == all + (shard - multiset{x})
    ensures rest == all - multiset{x}
  {
    assert shard == (shard - multiset{x}) + multiset{x};
    assert rest + multiset{x} == all by {
      assert (rest + multiset{x}) + (shard - multiset{x}) == rest + shard;
      assert ((rest + multiset{x}) + (shard - multiset{x})) - (shard - multiset{x}) == rest + multiset{x};
    }
  }

  lemma {:induction false} EntryInFlatten<T>(ss: seq<seq<T>>, k: nat, i: nat)
    requires k < |ss| && i < |ss[k]|
    ensures ss[k][i] in Flatten(ss)
  {
    if k > 0 {
      EntryInFlatten(ss[1..], k - 1, i);
    }
  }

  lemma {:induction false} HeldOfLonger<T>(es: seq<T>, choices: seq<nat>, es': seq<T>, choices': seq<nat>, n: nat, k: nat)
    requires n <= |es| && n <= |choices| && n <= |es'| && n <= |choices'|
    requires forall i :: 0 <= i < n ==> es[i] == es'[i] && choices[i] == choices'[i]
    ensures Held(es, choices, n, k) == Held(es', choices', n, k)
  {
    if n > 0 {
      HeldOfLonger(es, choices, es', choices', n - 1, k);
    }
  }

  lemma {:induction false} LoadIsTime<T>(f: T -> real, es: seq<T>, choices: seq<nat>, n: nat, k: nat)
    requires n <= |es| && n <= |choices|
    ensures Makespan.Load(0.0, Map(f, es), choices, n, k) == SumBy(f, Held(es, choices, n, k))
  {
    if n > 0 {
      LoadIsTime(f, es, choices, n - 1, k);
      var held := Held(es, choices, n - 1, k);
      if choices[n - 1] == k {
        SumByAppend(f, held, [es[n - 1]]);
        assert SumBy(f, [es[n - 1]]) == f(es[n - 1]) + SumBy(f, []);
      } else {
        assert held + [] == held;
      }
    }
  }

  lemma {:induction false} SumByItem(seconds: Timings, es: seq<Entry>)
    requires forall i :: 0 <= i < |es| ==> es[i].weight == Weight(seconds, es[i].item)
    ensures SumBy(WeightOf, es) == TimeOf(seconds, Map(ItemOf, es))
  {
    if es != [] {
      SumByItem(seconds, es[1..]);
    }
  }

  lemma {:induction false} WeighedEntries(seconds: Timings, items: seq<string>, e: Entry)
    requires e in multiset(Weighed(seconds, items))
    ensures e.weight == Weight(seconds, e.item)
  {
    SortPermutes(LongestFirst, Weigh(seconds, items));
    assert e in Weigh(seconds, items);
  }

  /** Shard `k` takes what the placement loads it with. */
  lemma {:induction false} AssignedTime(seconds: Timings, items: seq<string>, count: nat, k: nat)
    requires k < count
    ensures TimeOf(seconds, Assigned(seconds, items, count)[k])
         == Makespan.Load(0.0, Weights(Weighed(seconds, items)), Split(seconds, items, count), |items|, k)
  {
    var weighed, choices := Weighed(seconds, items), Split(seconds, items, count);
    var held := Held(weighed, choices, |items|, k);
    LoadIsTime(WeightOf, weighed, choices, |items|, k);
    HeldAmong(weighed, choices, |items|, k);
    assert weighed[..|items|] == weighed;
    forall i | 0 <= i < |held| ensures held[i].weight == Weight(seconds, held[i].item) {
      assert held[i] in multiset(held);
      WeighedEntries(seconds, items, held[i]);
    }
    SumByItem(seconds, held);
    InOrderPermutes(held);
    SumByPermutes(WeightIn(seconds), InOrder(held), Map(ItemOf, held));
  }

  lemma {:induction false} WeightsDescend(seconds: Timings, items: seq<string>)
    ensures var ws := Weights(Weighed(seconds, items));
            Makespan.NonNegative(ws) && Makespan.Descending(ws)
  {
    var weighed := Weighed(seconds, items);
    LongestFirstOrders();
    SortSorts(LongestFirst, Weigh(seconds, items));
    forall i | 0 <= i < |weighed| ensures weighed[i].weight >= 0.0 {
      assert weighed[i] in multiset(weighed);
      WeighedEntries(seconds, items, weighed[i]);
    }
    forall i, j | 0 <= i < j < |weighed| ensures weighed[i].weight >= weighed[j].weight {
      assert LongestFirst(weighed[i], weighed[j]);
    }
  }

  /** Another split's shards take what its placement of the weighed entries loads them with. */
  lemma {:induction false} OtherTime(seconds: Timings, items: seq<string>, other: seq<seq<string>>) returns (choices: seq<nat>)
    requires multiset(Flatten(other)) == multiset(items)
    ensures |choices| == |items| && Makespan.Placed(choices, |other|)
    ensures forall k :: 0 <= k < |other| ==>
              Makespan.Load(0.0, Weights(Weighed(seconds, items)), choices, |items|, k) == TimeOf(seconds, other[k])
  {
    var weighed := Weighed(seconds, items);
    var names := Map(ItemOf, weighed);
    WeighedItems(seconds, items);
    choices := Placement(names, other);
    forall i | 0 <= i < |weighed| ensures weighed[i].weight == Weight(seconds, names[i]) {
      assert weighed[i] in multiset(weighed);
      WeighedEntries(seconds, items, weighed[i]);
    }
    assert Weights(weighed) == Map(WeightIn(seconds), names);
    forall k | 0 <= k < |other|
      ensures Makespan.Load(0.0, Weights(weighed), choices, |items|, k) == TimeOf(seconds, other[k])
    {
      LoadIsTime(WeightIn(seconds), names, choices, |items|, k);
      SumByPermutes(WeightIn(seconds), Held(names, choices, |items|, k), other[k]);
    }
  }

  lemma {:induction false} SameTimes(time: string -> real, other: string -> real, items: seq<string>)
    requires forall item :: time(item) == other(item)
    ensures SumBy(time, items) == SumBy(other, items)
  {
    if items != [] {
      SameTimes(time, other, items[1..]);
    }
  }

  lemma {:induction false} SameLongest(time: string -> real, other: string -> real, shards: seq<seq<string>>)
    requires forall item :: time(item) == other(item)
    ensures Longest(time, shards) == Longest(other, shards)
  {
    if shards != [] {
      SameTimes(time, other, shards[0]);
      SameLongest(time, other, shards[1..]);
    }
  }

  /**
   * Graham's bound, in the seconds the table records and the upper median for what
   * it does not: against any split of the same items into as many shards, the
   * longest shard assigned takes at most 4/3 - 1/(3m) of that split's longest.
   */
  lemma {:induction false} AssignedWithinFourThirds(seconds: Timings, time: string -> real, items: seq<string>, count: nat, other: seq<seq<string>>)
    requires NamedOnce(seconds) && forall item :: Takes(seconds, item, time(item))
    requires count > 0 && |other| == count && multiset(Flatten(other)) == multiset(items)
    ensures Makespan.FourThirds(count, Longest(time, Assigned(seconds, items, count)), Longest(time, other))
  {
    forall item ensures time(item) == WeightIn(seconds)(item) {
      WeighsWhatItTakes(seconds, item, time(item));
    }
    var shards := Assigned(seconds, items, count);
    var k :| 0 <= k < count && SumBy(time, shards[k]) == Longest(time, shards);
    SameTimes(time, WeightIn(seconds), shards[k]);
    ShardWithinFourThirds(seconds, items, count, other, k);
    SameLongest(time, WeightIn(seconds), other);
  }

  lemma {:induction false} ShardWithinFourThirds(seconds: Timings, items: seq<string>, count: nat, other: seq<seq<string>>, k: nat)
    requires k < count && |other| == count && multiset(Flatten(other)) == multiset(items)
    ensures Makespan.FourThirds(count, TimeOf(seconds, Assigned(seconds, items, count)[k]), Longest(WeightIn(seconds), other))
  {
    var ws, choices := Weights(Weighed(seconds, items)), Split(seconds, items, count);
    var others := OtherTime(seconds, items, other);
    WeightsDescend(seconds, items);
    Makespan.ChoicesAreGreedy(Makespan.Zeros(count), ws);
    AssignedTime(seconds, items, count, k);
    assert Makespan.Within(ws, others, count, |ws|, Longest(WeightIn(seconds), other));
    Makespan.LongestFirstBound(count, ws, choices, others, Longest(WeightIn(seconds), other), |ws|, k);
  }
}
