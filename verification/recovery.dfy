/**
 * apps/api/function.ts, `recoveryPass`: each run attempts the keys owed, the
 * longest due first, until its deadline; a key that fails is due again at once,
 * behind the others owed.
 */
module Recovery {
  import opened Lists
  import opened Orders

  const RECOVERY_WAIT_MS: nat := 2_000
  const SWEEP_INTERVAL_MS: nat := 60_000

  /** The clock read before an attempt and after it, and how it went. */
  datatype Reading = Reading(begun: nat, ended: nat, ok: bool)

  /** One run: the clock when the owed are listed and when the deadline is set, and what each attempt reads. */
  datatype Run = Run(start: nat, from: nat, readings: seq<Reading>)

  /** The clock never goes back, within a run. */
  predicate Timed(run: Run) {
    && run.start <= run.from
    && (forall i :: 0 <= i < |run.readings| ==> run.from <= run.readings[i].begun <= run.readings[i].ended)
    && forall i, j :: 0 <= i < j < |run.readings| ==> run.readings[i].ended <= run.readings[j].begun
  }

  function DueOf(due: map<string, nat>, key: string): nat {
    if key in due then due[key] else 0
  }

  function DueAt(keys: seq<string>, due: map<string, nat>, i: nat): nat {
    if i < |keys| then DueOf(due, keys[i]) else 0
  }

  predicate DueLeq(keys: seq<string>, due: map<string, nat>, i: nat, j: nat) {
    DueAt(keys, due, i) <= DueAt(keys, due, j)
  }

  /** The keys owed, by their place in the scope. */
  function OwedFrom(keys: seq<string>, due: map<string, nat>, now: nat, i: nat): seq<nat>
    requires i <= |keys|
    decreases |keys| - i
  {
    if i == |keys| then []
    else (if now >= DueOf(due, keys[i]) then [i] else []) + OwedFrom(keys, due, now, i + 1)
  }

  /** Sorted by when they were due, a stable sort. */
  function Owed(keys: seq<string>, due: map<string, nat>, now: nat): seq<nat> {
    Sort((i: nat, j: nat) => DueLeq(keys, due, i, j), OwedFrom(keys, due, now, 0))
  }

  /** How many of the owed are begun before the deadline. */
  function Begun(readings: seq<Reading>, deadline: nat, count: nat): (n: nat)
    ensures n <= count && n <= |readings|
    ensures forall i :: 0 <= i < n ==> readings[i].begun < deadline
    ensures n < count && n < |readings| ==> readings[n].begun >= deadline
  {
    if count == 0 || readings == [] || readings[0].begun >= deadline then 0
    else
      var n := Begun(readings[1..], deadline, count - 1);
      assert forall i :: 0 < i < n + 1 ==> readings[i] == readings[1..][i - 1];
      n + 1
  }

  function NextDue(reading: Reading): nat {
    reading.ended + if reading.ok then SWEEP_INTERVAL_MS else 0
  }

  function DueAfter(keys: seq<string>, due: map<string, nat>, owed: seq<nat>, readings: seq<Reading>, n: nat): map<string, nat>
    requires n <= |owed| && n <= |readings| && forall a :: 0 <= a < |owed| ==> owed[a] < |keys|
  {
    if n == 0 then due
    else DueAfter(keys, due, owed, readings, n - 1)[keys[owed[n - 1]] := NextDue(readings[n - 1])]
  }

  // ------------------------------------------------------------------ the order

  /** Longer due, or as long and earlier in the scope. */
  predicate Ahead(keys: seq<string>, due: map<string, nat>, i: nat, j: nat) {
    DueAt(keys, due, i) < DueAt(keys, due, j) || (DueAt(keys, due, i) == DueAt(keys, due, j) && i < j)
  }

  ghost predicate InTurn(keys: seq<string>, due: map<string, nat>, s: seq<nat>) {
    forall a, b :: 0 <= a < b < |s| ==> Ahead(keys, due, s[a], s[b])
  }

  lemma {:induction false} InsertMembers(le: (nat, nat) -> bool, x: nat, s: seq<nat>, i: nat)
    ensures i in Insert(le, x, s) <==> i == x || i in s
  {
    InsertPermutes(le, x, s);
    assert i in multiset(Insert(le, x, s)) <==> i in multiset(s) + multiset{x};
  }

  lemma {:induction false} SortMembers(le: (nat, nat) -> bool, s: seq<nat>, i: nat)
    ensures i in Sort(le, s) <==> i in s
  {
    SortPermutes(le, s);
    assert i in multiset(Sort(le, s)) <==> i in multiset(s);
  }

  lemma {:induction false} InsertInTurn(keys: seq<string>, due: map<string, nat>, x: nat, s: seq<nat>)
    requires InTurn(keys, due, s) && forall a :: 0 <= a < |s| ==> x < s[a]
    ensures InTurn(keys, due, Insert((i: nat, j: nat) => DueLeq(keys, due, i, j), x, s))
    decreases |s|
  {
    var le := (i: nat, j: nat) => DueLeq(keys, due, i, j);
    if s == [] || le(x, s[0]) {
      assert Insert(le, x, s) == [x] + s;
      assert forall b :: 0 < b < |s| ==> Ahead(keys, due, s[0], s[b]);
    } else {
      InsertInTurn(keys, due, x, s[1..]);
      var rest := Insert(le, x, s[1..]);
      forall b | 0 <= b < |rest| ensures Ahead(keys, due, s[0], rest[b]) {
        InsertMembers(le, x, s[1..], rest[b]);
        assert rest[b] in rest;
        assert forall c :: 0 < c < |s| ==> Ahead(keys, due, s[0], s[c]);
      }
    }
  }

  lemma {:induction false} SortInTurn(keys: seq<string>, due: map<string, nat>, s: seq<nat>)
    requires forall a, b :: 0 <= a < b < |s| ==> s[a] < s[b]
    ensures InTurn(keys, due, Sort((i: nat, j: nat) => DueLeq(keys, due, i, j), s))
    decreases |s|
  {
    if s != [] {
      var le := (i: nat, j: nat) => DueLeq(keys, due, i, j);
      SortInTurn(keys, due, s[1..]);
      var rest := Sort(le, s[1..]);
      forall a | 0 <= a < |rest| ensures s[0] < rest[a] {
        SortMembers(le, s[1..], rest[a]);
        assert rest[a] in rest;
      }
      InsertInTurn(keys, due, s[0], rest);
    }
  }

  lemma {:induction false} OwedFromMembers(keys: seq<string>, due: map<string, nat>, now: nat, i: nat, k: nat)
    requires i <= |keys|
    ensures k in OwedFrom(keys, due, now, i) <==> i <= k < |keys| && now >= DueOf(due, keys[k])
    decreases |keys| - i
  {
    if i < |keys| {
      OwedFromMembers(keys, due, now, i + 1, k);
    }
  }

  lemma {:induction false} OwedFromInOrder(keys: seq<string>, due: map<string, nat>, now: nat, i: nat)
    requires i <= |keys|
    ensures forall a, b :: 0 <= a < b < |OwedFrom(keys, due, now, i)| ==> OwedFrom(keys, due, now, i)[a] < OwedFrom(keys, due, now, i)[b]
    decreases |keys| - i
  {
    if i < |keys| {
      OwedFromInOrder(keys, due, now, i + 1);
      var rest := OwedFrom(keys, due, now, i + 1);
      forall b | 0 <= b < |rest| ensures i < rest[b] {
        OwedFromMembers(keys, due, now, i + 1, rest[b]);
        assert rest[b] in rest;
      }
    }
  }

  /** The owed are exactly the keys due, the longest due first and then as the scope names them. */
  lemma {:induction false} OwedIs(keys: seq<string>, due: map<string, nat>, now: nat)
    ensures InTurn(keys, due, Owed(keys, due, now))
    ensures forall k :: k in Owed(keys, due, now) <==> 0 <= k < |keys| && now >= DueOf(due, keys[k])
    ensures forall a :: 0 <= a < |Owed(keys, due, now)| ==> Owed(keys, due, now)[a] < |keys|
  {
    OwedFromInOrder(keys, due, now, 0);
    SortInTurn(keys, due, OwedFrom(keys, due, now, 0));
    forall k: nat ensures k in Owed(keys, due, now) <==> k < |keys| && now >= DueOf(due, keys[k]) {
      OwedFromMembers(keys, due, now, 0, k);
      SortMembers((i: nat, j: nat) => DueLeq(keys, due, i, j), OwedFrom(keys, due, now, 0), k);
    }
    forall a | 0 <= a < |Owed(keys, due, now)| ensures Owed(keys, due, now)[a] < |keys| {
      assert Owed(keys, due, now)[a] in Owed(keys, due, now);
    }
  }

  // ------------------------------------------------------------------ one run

  ghost predicate Enough(keys: seq<string>, run: Run) {
    Timed(run) && |run.readings| >= |keys|
  }

  function Count(keys: seq<string>, due: map<string, nat>, run: Run): nat {
    Begun(run.readings, run.from + RECOVERY_WAIT_MS, |Owed(keys, due, run.start)|)
  }

  ghost function After(keys: seq<string>, due: map<string, nat>, run: Run): map<string, nat> {
    OwedIs(keys, due, run.start);
    DueAfter(keys, due, Owed(keys, due, run.start), run.readings, Count(keys, due, run))
  }

  ghost predicate Attempts(keys: seq<string>, due: map<string, nat>, run: Run, k: nat) {
    k in Owed(keys, due, run.start)[..Count(keys, due, run)]
  }

  lemma {:induction false} DueAfterAt(keys: seq<string>, due: map<string, nat>, owed: seq<nat>, readings: seq<Reading>, n: nat, k: nat)
    requires n <= |owed| && n <= |readings| && (forall a :: 0 <= a < |owed| ==> owed[a] < |keys|) && k < |keys|
    requires Distinct(keys) && Distinct(owed)
    ensures k !in owed[..n] ==> DueOf(DueAfter(keys, due, owed, readings, n), keys[k]) == DueOf(due, keys[k])
    ensures forall a :: 0 <= a < n && owed[a] == k ==> DueOf(DueAfter(keys, due, owed, readings, n), keys[k]) == NextDue(readings[a])
  {
    if n > 0 {
      DueAfterAt(keys, due, owed, readings, n - 1, k);
      assert owed[..n] == owed[..n - 1] + [owed[n - 1]];
      assert owed[n - 1] in owed;
      assert owed[n - 1] != k ==> keys[owed[n - 1]] != keys[k];
    }
  }

  ghost function AheadOf(keys: seq<string>, due: map<string, nat>, k: nat): set<nat>
    requires k < |keys|
  {
    set i: nat | i in Below(|keys|) && Ahead(keys, due, i, k)
  }

  lemma {:induction false} InTurnDistinct(keys: seq<string>, due: map<string, nat>, s: seq<nat>)
    requires InTurn(keys, due, s)
    ensures Distinct(s)
  {
    forall a, b | 0 <= a < b < |s| ensures s[a] != s[b] {
      assert Ahead(keys, due, s[a], s[b]);
    }
  }

  /** What is attempted before a key owed, and not it, is ahead of it. */
  lemma {:induction false} AttemptedAhead(keys: seq<string>, due: map<string, nat>, run: Run, k: nat, a: nat)
    requires Enough(keys, run) && k < |keys| && run.start >= DueOf(due, keys[k])
    requires !Attempts(keys, due, run, k) && a < Count(keys, due, run)
    ensures Owed(keys, due, run.start)[a] < |keys| && Ahead(keys, due, Owed(keys, due, run.start)[a], k)
  {
    OwedIs(keys, due, run.start);
    var owed, n := Owed(keys, due, run.start), Count(keys, due, run);
    var at :| 0 <= at < |owed| && owed[at] == k;
    assert forall b :: 0 <= b < n ==> owed[b] in owed[..n];
    assert Ahead(keys, due, owed[a], owed[at]);
  }

  lemma {:induction false} DueThen(keys: seq<string>, due: map<string, nat>, run: Run, i: nat)
    requires Distinct(keys) && Enough(keys, run) && i < |keys|
    ensures !Attempts(keys, due, run, i) ==> DueOf(After(keys, due, run), keys[i]) == DueOf(due, keys[i])
    ensures forall a :: 0 <= a < Count(keys, due, run) && Owed(keys, due, run.start)[a] == i ==>
              DueOf(After(keys, due, run), keys[i]) == NextDue(run.readings[a])
  {
    OwedIs(keys, due, run.start);
    InTurnDistinct(keys, due, Owed(keys, due, run.start));
    DueAfterAt(keys, due, Owed(keys, due, run.start), run.readings, Count(keys, due, run), i);
  }

  /** While a key owed is not attempted, no key comes ahead of it, and one that ends past its due time no longer is. */
  lemma {:induction false} WaitingMovesUp(keys: seq<string>, due: map<string, nat>, run: Run, k: nat, a: nat)
    requires Distinct(keys) && Enough(keys, run) && k < |keys| && run.start >= DueOf(due, keys[k])
    requires !Attempts(keys, due, run, k) && a < Count(keys, due, run)
    ensures var t := After(keys, due, run);
            && DueOf(t, keys[k]) == DueOf(due, keys[k])
            && AheadOf(keys, t, k) <= AheadOf(keys, due, k)
            && Owed(keys, due, run.start)[a] in AheadOf(keys, due, k)
            && (run.readings[a].ended > DueOf(due, keys[k]) ==> Owed(keys, due, run.start)[a] !in AheadOf(keys, t, k))
  {
    var owed, n, t := Owed(keys, due, run.start), Count(keys, due, run), After(keys, due, run);
    DueThen(keys, due, run, k);
    forall i | i in AheadOf(keys, t, k) ensures i in AheadOf(keys, due, k) {
      DueThen(keys, due, run, i);
      if Attempts(keys, due, run, i) {
        var b :| 0 <= b < n && owed[..n][b] == i;
        AttemptedAhead(keys, due, run, k, b);
      }
    }
    AttemptedAhead(keys, due, run, k, a);
    DueThen(keys, due, run, owed[a]);
  }

  // ------------------------------------------------------------------ bounded waiting

  /** When a run is over: it broke off at this reading, or its last attempt ended then. */
  function StopOf(keys: seq<string>, due: map<string, nat>, run: Run): nat
    requires |run.readings| >= Count(keys, due, run)
  {
    var n := Count(keys, due, run);
    if n < |Owed(keys, due, run.start)| && n < |run.readings| then run.readings[n].begun
    else if n > 0 then run.readings[n - 1].ended
    else run.from
  }

  /** Runs one after the other, each of which begins some attempt. */
  ghost predicate Runs(keys: seq<string>, due: map<string, nat>, runs: seq<Run>)
    decreases |runs|
  {
    runs != [] ==>
      && Enough(keys, runs[0]) && Count(keys, due, runs[0]) > 0
      && (|runs| > 1 ==> runs[1].start >= StopOf(keys, due, runs[0]))
      && Runs(keys, After(keys, due, runs[0]), runs[1..])
  }

  ghost predicate Waits(keys: seq<string>, due: map<string, nat>, runs: seq<Run>, k: nat)
    decreases |runs|
  {
    runs != [] ==> !Attempts(keys, due, runs[0], k) && Waits(keys, After(keys, due, runs[0]), runs[1..], k)
  }

  lemma {:induction false} SubsetSize(a: set<nat>, b: set<nat>)
    requires a <= b
    ensures |a| <= |b|
  {
    assert b == a + (b - a);
    assert |b| == |a| + |b - a|;
  }

  /** Past its due time, each run that does not attempt the key takes one from ahead of it. */
  lemma {:induction false} EachRunTakesOne(keys: seq<string>, due: map<string, nat>, run: Run, k: nat)
    requires Distinct(keys) && Enough(keys, run) && k < |keys| && run.start >= DueOf(due, keys[k]) && Count(keys, due, run) > 0
    requires !Attempts(keys, due, run, k)
    ensures var t := After(keys, due, run);
            && DueOf(t, keys[k]) == DueOf(due, keys[k])
            && 1 <= |AheadOf(keys, due, k)| && |AheadOf(keys, t, k)| <= |AheadOf(keys, due, k)|
            && (run.readings[0].ended > DueOf(due, keys[k]) ==> |AheadOf(keys, t, k)| <= |AheadOf(keys, due, k)| - 1)
    ensures StopOf(keys, due, run) > run.start
  {
    var t := After(keys, due, run);
    WaitingMovesUp(keys, due, run, k, 0);
    var first := Owed(keys, due, run.start)[0];
    SubsetSize({first}, AheadOf(keys, due, k));
    SubsetSize(AheadOf(keys, t, k), AheadOf(keys, due, k));
    if run.readings[0].ended > DueOf(due, keys[k]) {
      SubsetSize(AheadOf(keys, t, k), AheadOf(keys, due, k) - {first});
    }
    BreaksOff(keys, due, run, k);
  }

  /** A run that leaves an owed key unattempted broke off at its deadline. */
  lemma {:induction false} BreaksOff(keys: seq<string>, due: map<string, nat>, run: Run, k: nat)
    requires Enough(keys, run) && k < |keys| && run.start >= DueOf(due, keys[k]) && !Attempts(keys, due, run, k)
    ensures Count(keys, due, run) < |Owed(keys, due, run.start)| && Count(keys, due, run) < |run.readings|
    ensures StopOf(keys, due, run) >= run.from + RECOVERY_WAIT_MS
  {
    OwedIs(keys, due, run.start);
    var owed, n := Owed(keys, due, run.start), Count(keys, due, run);
    OwedFits(keys, due, run.start);
    assert k in owed && owed[..|owed|] == owed;
  }

  lemma {:induction false} OwedFits(keys: seq<string>, due: map<string, nat>, now: nat)
    ensures |Owed(keys, due, now)| <= |keys|
  {
    OwedFromFits(keys, due, now, 0);
  }

  lemma {:induction false} OwedFromFits(keys: seq<string>, due: map<string, nat>, now: nat, i: nat)
    requires i <= |keys|
    ensures |OwedFrom(keys, due, now, i)| <= |keys| - i
    decreases |keys| - i
  {
    if i < |keys| {
      OwedFromFits(keys, due, now, i + 1);
    }
  }

  lemma {:induction false} WaitsAtMostAhead(keys: seq<string>, due: map<string, nat>, runs: seq<Run>, k: nat)
    requires Distinct(keys) && k < |keys| && Runs(keys, due, runs) && Waits(keys, due, runs, k)
    requires runs != [] ==> runs[0].start > DueOf(due, keys[k])
    ensures |runs| <= |AheadOf(keys, due, k)|
    decreases |runs|
  {
    if runs != [] {
      EachRunTakesOne(keys, due, runs[0], k);
      WaitsAtMostAhead(keys, After(keys, due, runs[0]), runs[1..], k);
    }
  }

  function Below(n: nat): (s: set<nat>)
    ensures |s| == n && forall i :: i in s <==> 0 <= i < n
  {
    if n == 0 then {} else Below(n - 1) + {n - 1}
  }

  lemma {:induction false} FewAhead(keys: seq<string>, due: map<string, nat>, k: nat)
    requires k < |keys|
    ensures |AheadOf(keys, due, k)| <= |keys| - 1
  {
    SubsetSize(AheadOf(keys, due, k), Below(|keys|) - {k});
  }

  /**
   * Whatever passes fail or run into the deadline, a key owed is attempted within
   * one run more than there are keys; within as many as there are keys, if the
   * clock moved past its due time during the first run's first attempt.
   */
  lemma {:induction false} OwedIsAttempted(keys: seq<string>, due: map<string, nat>, runs: seq<Run>, k: nat)
    requires Distinct(keys) && k < |keys| && Runs(keys, due, runs) && Waits(keys, due, runs, k)
    requires runs != [] ==> runs[0].start >= DueOf(due, keys[k])
    ensures |runs| <= |keys|
    ensures runs != [] && runs[0].readings != [] && runs[0].readings[0].ended > DueOf(due, keys[k]) ==> |runs| <= |keys| - 1
  {
    if runs != [] {
      EachRunTakesOne(keys, due, runs[0], k);
      FewAhead(keys, due, k);
      WaitsAtMostAhead(keys, After(keys, due, runs[0]), runs[1..], k);
    }
  }

  // ------------------------------------------------------------------ once a minute

  /** A key attempted is owed again from a minute after a pass that succeeded, and at once after one that failed. */
  lemma {:induction false} OwedAgainExactlyFrom(keys: seq<string>, due: map<string, nat>, run: Run, a: nat, now: nat)
    requires Distinct(keys) && Enough(keys, run) && a < Count(keys, due, run)
    ensures Owed(keys, due, run.start)[a] in Owed(keys, After(keys, due, run), now)
       <==> now >= run.readings[a].ended + if run.readings[a].ok then 60_000 else 0
  {
    OwedIs(keys, due, run.start);
    OwedIs(keys, After(keys, due, run), now);
    DueThen(keys, due, run, Owed(keys, due, run.start)[a]);
  }

  /** A key not attempted yet is owed at any time, and before any is, all are, as the scope names them. */
  lemma {:induction false} UntriedAreOwed(keys: seq<string>, due: map<string, nat>, now: nat, k: nat)
    requires k < |keys|
    ensures keys[k] !in due ==> k in Owed(keys, due, now)
    ensures due == map[] ==> |Owed(keys, due, now)| == |keys| && Owed(keys, due, now)[k] == k
  {
    OwedIs(keys, due, now);
    if due == map[] {
      AllFrom(keys, now, 0);
      SortedStay(keys, OwedFrom(keys, map[], now, 0));
    }
  }

  lemma {:induction false} AllFrom(keys: seq<string>, now: nat, i: nat)
    requires i <= |keys|
    ensures |OwedFrom(keys, map[], now, i)| == |keys| - i
    ensures forall a :: 0 <= a < |keys| - i ==> OwedFrom(keys, map[], now, i)[a] == i + a
    decreases |keys| - i
  {
    if i < |keys| {
      AllFrom(keys, now, i + 1);
    }
  }

  /** With nothing due later than anything else, sorting keeps the order. */
  lemma {:induction false} SortedStay(keys: seq<string>, s: seq<nat>)
    ensures Sort((i: nat, j: nat) => DueLeq(keys, map[], i, j), s) == s
  {
    if s != [] {
      SortedStay(keys, s[1..]);
    }
  }

  /** No run before a key is due attempts it, or changes when it is. */
  lemma {:induction false} NotDueIsLeftAlone(keys: seq<string>, due: map<string, nat>, runs: seq<Run>, k: nat)
    requires Distinct(keys) && k < |keys|
    requires forall i :: 0 <= i < |runs| ==> Enough(keys, runs[i]) && runs[i].start < DueOf(due, keys[k])
    ensures Waits(keys, due, runs, k)
    decreases |runs|
  {
    if runs != [] {
      OwedIs(keys, due, runs[0].start);
      DueThen(keys, due, runs[0], k);
      NotDueIsLeftAlone(keys, After(keys, due, runs[0]), runs[1..], k);
    }
  }

  /** A key whose pass succeeded is attempted by no run that starts within a minute of its end, whatever those runs do. */
  lemma {:induction false} SucceededIsLeftAlone(keys: seq<string>, due: map<string, nat>, run: Run, a: nat, runs: seq<Run>)
    requires Distinct(keys) && Enough(keys, run) && a < Count(keys, due, run) && run.readings[a].ok
    requires forall i :: 0 <= i < |runs| ==> Enough(keys, runs[i]) && runs[i].start < run.readings[a].ended + 60_000
    ensures Waits(keys, After(keys, due, run), runs, Owed(keys, due, run.start)[a])
  {
    OwedIs(keys, due, run.start);
    var k := Owed(keys, due, run.start)[a];
    DueThen(keys, due, run, k);
    NotDueIsLeftAlone(keys, After(keys, due, run), runs, k);
  }

  // ------------------------------------------------------------------ the function's own code

  class Sweep {
    const keys: seq<string>
    var due: map<string, nat>

    constructor (keys: seq<string>)
      ensures this.keys == keys && due == map[]
    {
      this.keys, due := keys, map[];
    }

    /** One run: each key owed, in turn, none begun past the deadline. */
    method RunOnce(run: Run) returns (attempted: seq<nat>)
      requires Enough(keys, run)
      modifies this
      ensures due == After(keys, old(due), run)
      ensures attempted == Owed(keys, old(due), run.start)[..Count(keys, old(due), run)]
    {
      OwedIs(keys, due, run.start);
      OwedFits(keys, due, run.start);
      var owed := Owed(keys, due, run.start);
      var deadline := run.from + RECOVERY_WAIT_MS;
      var n := 0;
      while n < |owed|
        invariant n <= |owed| && forall i :: 0 <= i < n ==> run.readings[i].begun < deadline
        invariant due == DueAfter(keys, old(due), owed, run.readings, n)
        decreases |owed| - n
      {
        if run.readings[n].begun >= deadline {
          break;
        }
        assert owed[n] in owed;
        var again := run.readings[n].ended + if run.readings[n].ok then SWEEP_INTERVAL_MS else 0;
        assert again == NextDue(run.readings[n]);
        due := due[keys[owed[n]] := again];
        n := n + 1;
      }
      assert n == Count(keys, old(due), run);
      attempted := owed[..n];
    }
  }
}
