/**
 * What a run of the shards runs: scripts/db-shards.ts's run items and parts,
 * scripts/ci-shards.ts's isolation shards beside them, and the census of a
 * split in scripts/db-census.ts.
 */
module Runs {
  import opened Lists
  import opened Text
  import Shards

  datatype Part = Part(index: nat, count: nat)

  predicate IsCount(s: string) {
    s != [] && AllDigits(s) && s[0] != '0'
  }

  /** "i/n" to its numbers; refused unless 1 <= i <= n. */
  function ParseShard(text: string): Option<Part> {
    var fields := Split(text, '/');
    if |fields| == 2 && IsCount(fields[0]) && IsCount(fields[1]) && Number(fields[0]) <= Number(fields[1])
    then Some(Part(Number(fields[0]), Number(fields[1])))
    else None
  }

  function ShardText(part: Part): string {
    Numeral(part.index) + "/" + Numeral(part.count)
  }

  lemma {:induction false} DigitsHoldNoMark(s: string, mark: char)
    requires AllDigits(s) && !IsDigit(mark)
    ensures mark !in s
  {
  }

  /** The parser undoes the printer, on every part there can be. */
  lemma {:induction false} ShardTextParses(part: Part)
    requires 1 <= part.index <= part.count
    ensures ParseShard(ShardText(part)) == Some(part)
  {
    NumeralReads(part.index);
    NumeralReads(part.count);
    DigitsHoldNoMark(Numeral(part.index), '/');
    DigitsHoldNoMark(Numeral(part.count), '/');
    assert ShardText(part) == Numeral(part.index) + ['/'] + Numeral(part.count);
    SplitFirst(Numeral(part.index), '/', Numeral(part.count));
    SplitNone(Numeral(part.count), '/');
  }

  /** It is read from exactly the texts that print a part there can be; every other is refused. */
  lemma {:induction false} ParsesExactly(text: string, part: Part)
    ensures ParseShard(text) == Some(part) <==> 1 <= part.index <= part.count && text == ShardText(part)
  {
    var fields := Split(text, '/');
    SplitJoins(text, '/');
    if ParseShard(text).Some? {
      NumberPrints(fields[0]);
      NumberPrints(fields[1]);
      assert JoinWith(fields, '/') == fields[0] + ['/'] + fields[1];
      assert text == ShardText(ParseShard(text).value);
    }
    if 1 <= part.index <= part.count {
      ShardTextParses(part);
    }
  }

  datatype Item = Item(suite: string, part: Option<string>)

  /** A run item back to its suite and, for a part, its "i/k". */
  function ItemOf(item: string): Item {
    var fields := Split(item, '#');
    Item(fields[0], if |fields| > 1 then Some(fields[1]) else None)
  }

  /** The part a suite runs as: its SUITE_PART, or the whole suite when unset; refused when malformed. */
  function SuitePart(text: Option<string>): Option<Part> {
    if text.None? || text.value == "" then Some(Part(1, 1)) else ParseShard(text.value)
  }

  /** With no part said every case is the suite's to run; said, it is the part parsed or a refusal. */
  lemma {:induction false} WholeSuiteRunsAll(text: Option<string>, c: nat)
    ensures text.None? || text.value == "" ==> SuitePart(text).Some? && SuitePart(text).value.count > 0 && InPart(c, SuitePart(text).value)
    ensures text.Some? && text.value != "" ==> SuitePart(text) == ParseShard(text.value)
  {
  }

  predicate InPart(index: nat, part: Part)
    requires part.count > 0
  {
    index % part.count == part.index - 1
  }

  /** The suites the plan splits, and in how many parts. */
  type Parts = map<string, int>

  function PartItem(suite: string, i: nat, count: nat): string {
    suite + "#" + ShardText(Part(i, count))
  }

  function PartItems(suite: string, count: nat, n: nat): (items: seq<string>)
    requires n <= count
  {
    if n == 0 then [] else PartItems(suite, count, n - 1) + [PartItem(suite, n, count)]
  }

  /** The run items, refused when the plan gives a named suite fewer than two parts. */
  function PlanItems(named: seq<string>, parts: Parts): Option<seq<string>> {
    if named == [] then Some([])
    else
      var rest := PlanItems(named[1..], parts);
      if named[0] in parts && parts[named[0]] < 2 then None
      else if rest.None? then None
      else Some(ItemsOfSuite(named[0], parts) + rest.value)
  }

  function ItemsOfSuite(suite: string, parts: Parts): seq<string>
    requires suite in parts ==> parts[suite] >= 2
  {
    if suite in parts then PartItems(suite, parts[suite], parts[suite]) else [suite]
  }

  /** A plan is refused exactly when it gives some suite named fewer than two parts. */
  lemma {:induction false} PlanRefusesExactly(named: seq<string>, parts: Parts)
    ensures PlanItems(named, parts).None? <==> exists s :: s in named && s in parts && parts[s] < 2
  {
    if named != [] {
      PlanRefusesExactly(named[1..], parts);
      assert named[0] in named && forall s :: s in named <==> s == named[0] || s in named[1..];
    }
  }

  function NotIn(isolation: seq<string>): string -> bool {
    item => ItemOf(item).suite !in isolation
  }

  /** The items of the suites that do not run apart. */
  function DatabaseItems(items: seq<string>, isolation: seq<string>): seq<string> {
    Filter(NotIn(isolation), items)
  }

  /** Whether the entry `item` runs the case at index `c` of `suite`. */
  predicate RunsCase(item: string, suite: string, c: nat) {
    var it := ItemOf(item);
    it.suite == suite
    && match SuitePart(it.part)
       case Some(part) => part.count > 0 && InPart(c, part)
       case None => false
  }

  function Runs(suite: string, c: nat): string -> real {
    item => if RunsCase(item, suite, c) then 1.0 else 0.0
  }

  /** How many times the entries of `shards` run the case. */
  function TimesRun(shards: seq<seq<string>>, suite: string, c: nat): real {
    SumBy(Runs(suite, c), Flatten(shards))
  }

  lemma {:induction false} PartItemOf(suite: string, i: nat, count: nat)
    requires '#' !in suite && 1 <= i <= count
    ensures ItemOf(PartItem(suite, i, count)) == Item(suite, Some(ShardText(Part(i, count))))
    ensures SuitePart(Some(ShardText(Part(i, count)))) == Some(Part(i, count))
  {
    var text := ShardText(Part(i, count));
    NumeralReads(i);
    NumeralReads(count);
    DigitsHoldNoMark(Numeral(i), '#');
    DigitsHoldNoMark(Numeral(count), '#');
    assert PartItem(suite, i, count) == suite + ['#'] + text;
    assert '#' !in text;
    SplitFirst(suite, '#', text);
    SplitNone(text, '#');
    ShardTextParses(Part(i, count));
  }

  /** Of a suite's first `n` parts, one runs the case when its remainder is among them, and none otherwise. */
  lemma {:induction false} PartsRunOnce(split: string, count: nat, n: nat, suite: string, c: nat)
    requires '#' !in split && n <= count && count > 0
    ensures SumBy(Runs(suite, c), PartItems(split, count, n)) == if suite == split && c % count < n then 1.0 else 0.0
  {
    if n > 0 {
      PartsRunOnce(split, count, n - 1, suite, c);
      PartItemOf(split, n, count);
      SumByAppend(Runs(suite, c), PartItems(split, count, n - 1), [PartItem(split, n, count)]);
      OneEntry(Runs(suite, c), PartItem(split, n, count));
    }
  }

  lemma {:induction false} OneEntry(f: string -> real, item: string)
    ensures SumBy(f, [item]) == f(item)
  {
    assert [item][1..] == [];
  }

  lemma {:induction false} WholeItem(item: string, suite: string, c: nat)
    requires '#' !in item
    ensures RunsCase(item, suite, c) <==> item == suite
  {
    SplitNone(item, '#');
  }

  /** Each case of a named suite is in one run item, and no case of any other suite is in one. */
  lemma {:induction false} PlanRunsOnce(named: seq<string>, parts: Parts, suite: string, c: nat)
    requires Distinct(named) && (forall s :: s in named ==> '#' !in s)
    requires PlanItems(named, parts).Some?
    ensures SumBy(Runs(suite, c), PlanItems(named, parts).value) == if suite in named then 1.0 else 0.0
  {
    if named != [] {
      var first := named[0];
      PlanRunsOnce(named[1..], parts, suite, c);
      SumByAppend(Runs(suite, c), ItemsOfSuite(first, parts), PlanItems(named[1..], parts).value);
      if first in parts {
        PartsRunOnce(first, parts[first], parts[first], suite, c);
      } else {
        WholeItem(first, suite, c);
        OneEntry(Runs(suite, c), first);
      }
      assert suite == first ==> suite !in named[1..];
    }
  }

  lemma {:induction false} DatabaseItemsRun(items: seq<string>, isolation: seq<string>, suite: string, c: nat)
    ensures SumBy(Runs(suite, c), DatabaseItems(items, isolation))
         == if suite in isolation then 0.0 else SumBy(Runs(suite, c), items)
  {
    if items != [] {
      DatabaseItemsRun(items[1..], isolation, suite, c);
    }
  }

  lemma {:induction false} StepsRunNothing(steps: seq<string>, suite: string, c: nat)
    requires suite !in steps && forall s :: s in steps ==> ItemOf(s) == Item(s, None)
    ensures SumBy(Runs(suite, c), steps) == 0.0
  {
    if steps != [] {
      StepsRunNothing(steps[1..], suite, c);
    }
  }

  /** The ci.yml steps beside the isolation suites. */
  const ISOLATION_STEPS := ["service stop, two addresses", "seed boundaries", "seed redirect"]

  lemma {:induction false} IsolationStepsAreNoParts(step: string)
    requires step in ISOLATION_STEPS
    ensures ItemOf(step) == Item(step, None)
  {
    assert '#' !in "service stop, two addresses";
    assert '#' !in "seed boundaries";
    assert '#' !in "seed redirect";
    SplitNone(step, '#');
  }

  /** The isolation suites' items and the steps beside them, split. */
  ghost function IsolationShards(items: seq<string>, steps: seq<string>, seconds: Shards.Timings, count: nat): seq<seq<string>>
    requires count > 0
  {
    Shards.Assigned(seconds, items + steps, count)
  }

  /**
   * Every case of every named suite runs once: in one part, in one shard, of the
   * database shards and the isolation shards together.
   */
  lemma {:induction false} EveryCaseRunsOnce(named: seq<string>, isolation: seq<string>, parts: Parts,
                          seconds: Shards.Timings, shards: nat,
                          steps: seq<string>, isolationSeconds: Shards.Timings, isolationShards: nat, suite: string, c: nat)
    requires Distinct(named) && (forall s :: s in named ==> '#' !in s) && suite in named
    requires Distinct(isolation) && (forall s :: s in isolation ==> '#' !in s)
    requires PlanItems(named, parts).Some? && PlanItems(isolation, parts).Some?
    requires suite !in steps && forall s :: s in steps ==> ItemOf(s) == Item(s, None)
    requires shards > 0 && isolationShards > 0
    ensures var items := DatabaseItems(PlanItems(named, parts).value, isolation);
            TimesRun(Shards.Assigned(seconds, items, shards), suite, c)
            + TimesRun(IsolationShards(PlanItems(isolation, parts).value, steps, isolationSeconds, isolationShards), suite, c) == 1.0
  {
    DatabaseShardsRun(named, isolation, parts, seconds, shards, suite, c);
    IsolationShardsRun(isolation, parts, steps, isolationSeconds, isolationShards, suite, c);
  }

  lemma {:induction false} DatabaseShardsRun(named: seq<string>, isolation: seq<string>, parts: Parts,
                          seconds: Shards.Timings, count: nat, suite: string, c: nat)
    requires Distinct(named) && (forall s :: s in named ==> '#' !in s) && suite in named
    requires PlanItems(named, parts).Some? && count > 0
    ensures var items := DatabaseItems(PlanItems(named, parts).value, isolation);
            TimesRun(Shards.Assigned(seconds, items, count), suite, c) == if suite in isolation then 0.0 else 1.0
  {
    var items := DatabaseItems(PlanItems(named, parts).value, isolation);
    Shards.AssignedIsPartition(seconds, items, count);
    SumByPermutes(Runs(suite, c), Flatten(Shards.Assigned(seconds, items, count)), items);
    PlanRunsOnce(named, parts, suite, c);
    DatabaseItemsRun(PlanItems(named, parts).value, isolation, suite, c);
  }

  lemma {:induction false} IsolationShardsRun(isolation: seq<string>, parts: Parts, steps: seq<string>, seconds: Shards.Timings, count: nat,
                           suite: string, c: nat)
    requires Distinct(isolation) && (forall s :: s in isolation ==> '#' !in s)
    requires suite !in steps && forall s :: s in steps ==> ItemOf(s) == Item(s, None)
    requires PlanItems(isolation, parts).Some? && count > 0
    ensures TimesRun(IsolationShards(PlanItems(isolation, parts).value, steps, seconds, count), suite, c)
         == if suite in isolation then 1.0 else 0.0
  {
    var items := PlanItems(isolation, parts).value;
    PlanRunsOnce(isolation, parts, suite, c);
    Shards.AssignedIsPartition(seconds, items + steps, count);
    SumByPermutes(Runs(suite, c), Flatten(IsolationShards(items, steps, seconds, count)), items + steps);
    SumByAppend(Runs(suite, c), items, steps);
    StepsRunNothing(steps, suite, c);
  }

  // ------------------------------------------------------------------ the census

  datatype Census = Census(items: nat, placed: nat, missing: seq<string>, twice: seq<string>, extra: seq<string>, tests: real)

  function Members<T>(s: seq<T>): set<T> {
    set x | x in s
  }

  /** What a census must say of the shards. */
  ghost predicate Accounts(census: Census, items: seq<string>, shards: seq<seq<string>>, counts: map<string, real>) {
    var flat := Flatten(shards);
    && census.items == |Members(items)|
    && census.placed == |Members(items) * Members(flat)|
    && (forall x :: x in census.missing <==> x in items && x !in flat)
    && (forall x :: x in census.twice <==> x in items && multiset(flat)[x] > 1)
    && (forall x :: x in census.extra <==> x in flat && x !in items)
    && Distinct(census.twice) && Distinct(census.extra)
    && census.tests == SumBy(TestsIn(counts), flat)
  }

  function TestsIn(counts: map<string, real>): string -> real {
    item => if item in counts then counts[item] else 0.0
  }

  /** A split is sound when it places every item and finds none missing, twice or extra. */
  predicate Sound(census: Census) {
    census.placed == census.items && |census.missing| + |census.twice| + |census.extra| == 0
  }

  /** The keys seen so far, in the order first seen, each with how often. */
  ghost predicate Seen(seen: map<string, nat>, order: seq<string>, flat: seq<string>) {
    && (forall x :: x in seen <==> x in flat)
    && (forall x :: x in seen ==> seen[x] == multiset(flat)[x])
    && Distinct(order) && (forall x :: x in order <==> x in flat)
  }

  function Recount(seen: map<string, nat>, item: string): map<string, nat> {
    seen[item := (if item in seen then seen[item] else 0) + 1]
  }

  function Reorder(seen: map<string, nat>, order: seq<string>, item: string): seq<string> {
    if item in seen then order else order + [item]
  }

  lemma {:induction false} SeenNext(seen: map<string, nat>, order: seq<string>, flat: seq<string>, item: string)
    requires Seen(seen, order, flat)
    ensures Seen(Recount(seen, item), Reorder(seen, order, item), flat + [item])
  {
    assert multiset(flat + [item]) == multiset(flat) + multiset{item};
    forall x ensures x in flat + [item] <==> x in flat || x == item {
    }
  }

  lemma {:induction false} DistinctSize<T>(s: seq<T>)
    requires Distinct(s)
    ensures |Members(s)| == |s|
  {
    if s != [] {
      DistinctSize(s[1..]);
      assert s[0] !in Members(s[1..]);
      assert Members(s) == {s[0]} + Members(s[1..]);
    }
  }

  method CountSeen(flat: seq<string>) returns (seen: map<string, nat>, order: seq<string>)
    ensures Seen(seen, order, flat)
  {
    seen, order := map[], [];
    for i := 0 to |flat|
      invariant Seen(seen, order, flat[..i])
    {
      SeenNext(seen, order, flat[..i], flat[i]);
      assert flat[..i] + [flat[i]] == flat[..i + 1];
      seen, order := Recount(seen, flat[i]), Reorder(seen, order, flat[i]);
    }
    assert flat[..|flat|] == flat;
  }

  method CensusOf(items: seq<string>, shards: seq<seq<string>>, counts: map<string, real>) returns (census: Census)
    ensures Accounts(census, items, shards, counts)
  {
    var flat := Flatten(shards);
    var seen, order := CountSeen(flat);
    var wanted := Members(items);
    var known, strange := x => x in wanted, x => x !in wanted;
    var unseen, again := x => x !in seen, x => x in seen && seen[x] > 1;
    var placed := Filter(known, order);
    census := Census(|wanted|, |placed|, Filter(unseen, items), Filter(again, placed), Filter(strange, order), SumBy(TestsIn(counts), flat));
    CensusAccounts(items, shards, counts, seen, order, known, strange, unseen, again);
  }

  /** The filters over what was seen give what a census must say. */
  lemma {:induction false} CensusAccounts(items: seq<string>, shards: seq<seq<string>>, counts: map<string, real>,
                       seen: map<string, nat>, order: seq<string>,
                       known: string -> bool, strange: string -> bool, unseen: string -> bool, again: string -> bool)
    requires Seen(seen, order, Flatten(shards))
    requires forall x :: known(x) <==> x in items
    requires forall x :: strange(x) <==> x !in items
    requires forall x :: unseen(x) <==> x !in seen
    requires forall x :: again(x) <==> x in seen && seen[x] > 1
    ensures Accounts(Census(|Members(items)|, |Filter(known, order)|, Filter(unseen, items), Filter(again, Filter(known, order)),
                            Filter(strange, order), SumBy(TestsIn(counts), Flatten(shards))), items, shards, counts)
  {
    var placed := Filter(known, order);
    forall x
      ensures x in placed <==> x in order && known(x)
      ensures x in Filter(again, placed) <==> x in placed && again(x)
      ensures x in Filter(strange, order) <==> x in order && strange(x)
      ensures x in Filter(unseen, items) <==> x in items && unseen(x)
    {
      FilterMembers(known, order, x);
      FilterMembers(again, placed, x);
      FilterMembers(strange, order, x);
      FilterMembers(unseen, items, x);
    }
    FilterDistinct(known, order);
    FilterDistinct(strange, order);
    FilterDistinct(again, placed);
    DistinctSize(placed);
    assert Members(placed) == Members(items) * Members(Flatten(shards));
  }

  /** A census is sound exactly when the shards hold each wanted item once and nothing else. */
  lemma {:induction false} SoundIffPermutation(census: Census, items: seq<string>, shards: seq<seq<string>>, counts: map<string, real>)
    requires Accounts(census, items, shards, counts)
    ensures Sound(census) <==> multiset(Flatten(shards)) == multiset(Members(items))
  {
    var flat := Flatten(shards);
    if Sound(census) {
      forall x ensures multiset(flat)[x] == multiset(Members(items))[x] {
        assert x !in census.missing && x !in census.twice && x !in census.extra;
      }
    }
    if multiset(flat) == multiset(Members(items)) {
      forall x ensures x !in census.missing && x !in census.twice && x !in census.extra {
        assert x in flat <==> x in multiset(flat);
        assert x in items <==> x in multiset(Members(items));
      }
      NoMembers(census.missing);
      NoMembers(census.twice);
      NoMembers(census.extra);
      assert Members(items) * Members(flat) == Members(items) by {
        forall x | x in items ensures x in flat {
          assert x in multiset(Members(items));
        }
      }
    }
  }

  lemma {:induction false} NoMembers(s: seq<string>)
    ensures (forall x :: x !in s) ==> s == []
  {
    if s != [] {
      assert s[0] in s;
    }
  }

  /**
   * Every split of a manifest of distinct items, into however many shards, has a
   * sound census, and one test total.
   */
  lemma {:induction false} EverySplitIsSound(census: Census, items: seq<string>, seconds: Shards.Timings, count: nat, counts: map<string, real>)
    requires Distinct(items) && count > 0
    requires Accounts(census, items, Shards.Assigned(seconds, items, count), counts)
    ensures Sound(census) && census.tests == SumBy(TestsIn(counts), items)
  {
    var shards := Shards.Assigned(seconds, items, count);
    Shards.AssignedIsPartition(seconds, items, count);
    SumByPermutes(TestsIn(counts), Flatten(shards), items);
    forall x ensures multiset(items)[x] == multiset(Members(items))[x] {
      DistinctCount(items, x);
    }
    assert multiset(items) == multiset(Members(items));
    SoundIffPermutation(census, items, shards, counts);
  }
}
