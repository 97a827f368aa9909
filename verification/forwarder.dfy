/**
 * apps/forwarder/forward.ts: one forwarder at a time replays the events table.
 * Errors go to the sink under an id fixed by their row; signals are counted by
 * the detector; each alert raised is kept with an id fixed then, and leaves the
 * kept table only once the sink took it.
 */
module Forwarder {
  import opened Lists
  import opened Detector

  datatype RowKind = Error | Signal(kind: SignalKind) | Other(name: string)

  /** A row of `ops.api_events`; `at` in microseconds. */
  datatype Row = Row(id: nat, kind: RowKind, scope: string, weight: nat, at: nat)

  /** Ids at the sink, each fixed by what it stands for: hashing is taken to keep them apart. */
  datatype Id = OfRow(row: nat, ms: nat) | OfAlert(kind: AlertKind, source: Id) | OfDropped(last: nat)

  function Ms(at: nat): nat {
    at / 1000
  }

  function RowId(row: Row): Id {
    OfRow(row.id, Ms(row.at))
  }

  /** The longest rule's window and a quarter of an hour. */
  const RETENTION_MS: nat := 75 * MINUTE

  // ------------------------------------------------------------------ one replay

  datatype Raise = Raise(kind: AlertKind, row: Row, counted: seq<Row>)

  datatype Tally = Tally(held: map<Key, seq<Row>>, seen: map<Key, seq<Event>>, raised: seq<Raise>, spent: seq<nat>)

  const EMPTY := Tally(map[], map[], [], [])

  function HeldAt(held: map<Key, seq<Row>>, key: Key): seq<Row> {
    if key in held then held[key] else []
  }

  function Within(rows: seq<Row>, row: Row, window: nat): seq<Row> {
    if rows == [] then []
    else (if Ms(row.at) - Ms(rows[0].at) < window then [rows[0]] else []) + Within(rows[1..], row, window)
  }

  function WeightOf(row: Row): nat {
    if row.kind == Signal(Export) then row.weight else 1
  }

  function Weigh(rows: seq<Row>): nat {
    if rows == [] then 0 else WeightOf(rows[0]) + Weigh(rows[1..])
  }

  function Ids(rows: seq<Row>): (ids: seq<nat>)
    ensures |ids| == |rows| && forall i :: 0 <= i < |ids| ==> ids[i] == rows[i].id
  {
    if rows == [] then [] else [rows[0].id] + Ids(rows[1..])
  }

  /** The scope the detector counts under: a failed secret scan has none. */
  function KeyOf(row: Row): Key
    requires row.kind.Signal?
  {
    Key(row.kind.kind, row.scope)
  }

  function DetectorKey(row: Row): Key
    requires row.kind.Signal?
  {
    Key(row.kind.kind, if row.kind.kind == SecretScanFailed then "" else row.scope)
  }

  predicate Past(row: Row, now: nat)
    requires row.kind.Signal?
  {
    Ms(now) - Ms(row.at) >= WindowMs(row.kind.kind)
  }

  /** The rows held beside the detector's count, this one with them. */
  function HeldWith(held: map<Key, seq<Row>>, row: Row): seq<Row>
    requires row.kind.Signal?
  {
    Within(HeldAt(held, KeyOf(row)), row, WindowMs(row.kind.kind)) + [row]
  }

  function Step(t: Tally, row: Row, now: nat): Tally {
    match row.kind
    case Error => t.(spent := t.spent + [row.id])
    case Other(_) => t
    case Signal(kind) =>
      var key, rows := KeyOf(row), HeldWith(t.held, row);
      var spent := if Past(row, now) then t.spent + [row.id] else t.spent;
      var seen := Observed(t.seen, DetectorKey(row), Ms(row.at), WeightOf(row));
      if Raises(t.seen, DetectorKey(row), Ms(row.at), WeightOf(row)) then
        Tally(t.held - {key}, seen, t.raised + [Raise(AlertOf(kind), row, rows)], spent + Ids(rows))
      else Tally(t.held[key := rows], seen, t.raised, spent)
  }

  function Replay(rows: seq<Row>, now: nat): Tally {
    if rows == [] then EMPTY else Step(Replay(rows[..|rows| - 1], now), rows[|rows| - 1], now)
  }

  // ------------------------------------------------------------------ the rows held are the detector's events

  function Events(rows: seq<Row>): seq<Event> {
    if rows == [] then [] else [Event(Ms(rows[0].at), WeightOf(rows[0]))] + Events(rows[1..])
  }

  lemma {:induction false} EventsWithin(rows: seq<Row>, row: Row, window: nat)
    ensures Events(Within(rows, row, window)) == Since(Events(rows), Ms(row.at), window)
  {
    if rows != [] {
      EventsWithin(rows[1..], row, window);
      var first, rest := if Ms(row.at) - Ms(rows[0].at) < window then [rows[0]] else [], Within(rows[1..], row, window);
      assert first != [] ==> (first + rest)[1..] == rest;
      assert first == [] ==> first + rest == rest;
      assert Events(rows)[1..] == Events(rows[1..]);
    }
  }

  lemma {:induction false} EventsAppend(rows: seq<Row>, row: Row)
    ensures Events(rows + [row]) == Events(rows) + [Event(Ms(row.at), WeightOf(row))]
    ensures Weigh(rows + [row]) == Weigh(rows) + WeightOf(row)
    ensures Sum(Events(rows + [row])) == Weigh(rows + [row])
    decreases |rows|
  {
    if rows != [] {
      EventsAppend(rows[1..], row);
      assert (rows + [row])[1..] == rows[1..] + [row];
      assert Events(rows + [row])[1..] == Events(rows[1..] + [row]);
    }
  }

  ghost predicate Aligned(t: Tally) {
    && (forall key: Key :: key.kind != SecretScanFailed ==> SeenAt(t.seen, key) == Events(HeldAt(t.held, key)))
    && (forall key: Key :: key.kind == SecretScanFailed ==> SeenAt(t.seen, key) == [] && HeldAt(t.held, key) == [])
  }

  /** An alert is raised exactly when the rows held with this one reach the threshold. */
  lemma {:induction false} RaisesOnHeld(t: Tally, row: Row)
    requires Aligned(t) && row.kind.Signal?
    ensures Raises(t.seen, DetectorKey(row), Ms(row.at), WeightOf(row)) <==> Weigh(HeldWith(t.held, row)) >= Threshold(row.kind.kind)
    ensures row.kind.kind != SecretScanFailed ==>
              Counting(t.seen, DetectorKey(row), Ms(row.at), WeightOf(row)) == Events(HeldWith(t.held, row))
    ensures row.kind.kind == SecretScanFailed ==> Raises(t.seen, DetectorKey(row), Ms(row.at), WeightOf(row))
  {
    var window := WindowMs(row.kind.kind);
    var within := Within(HeldAt(t.held, KeyOf(row)), row, window);
    EventsWithin(HeldAt(t.held, KeyOf(row)), row, window);
    EventsAppend(within, row);
    if row.kind.kind == SecretScanFailed {
      assert HeldWith(t.held, row) == [row];
      assert Counting(t.seen, DetectorKey(row), Ms(row.at), 1) == [Event(Ms(row.at), 1)];
    }
  }

  lemma {:induction false} StepAligned(t: Tally, row: Row, now: nat)
    requires Aligned(t)
    ensures Aligned(Step(t, row, now))
  {
    if row.kind.Signal? {
      RaisesOnHeld(t, row);
      var u := Step(t, row, now);
      forall key: Key | key.kind != SecretScanFailed ensures SeenAt(u.seen, key) == Events(HeldAt(u.held, key)) {
        assert SeenAt(t.seen, key) == Events(HeldAt(t.held, key));
      }
      forall key: Key | key.kind == SecretScanFailed ensures SeenAt(u.seen, key) == [] && HeldAt(u.held, key) == [] {
        assert SeenAt(t.seen, key) == [] && HeldAt(t.held, key) == [];
      }
    }
  }

  lemma {:induction false} InWithin(rows: seq<Row>, row: Row, window: nat, r: Row)
    ensures r in Within(rows, row, window) <==> r in rows && Ms(row.at) - Ms(r.at) < window
  {
    if rows != [] {
      InWithin(rows[1..], row, window, r);
    }
  }

  // ------------------------------------------------------------------ what a replay has counted

  ghost predicate CountedIn(raised: seq<Raise>, r: Row) {
    exists i :: 0 <= i < |raised| && r in raised[i].counted
  }

  /** Rows counted for an alert: of its kind and scope, within its window, and enough of them. */
  ghost predicate RaisedRightly(raise: Raise, rows: seq<Row>) {
    && raise.row.kind.Signal? && raise.kind == AlertOf(raise.row.kind.kind)
    && raise.row in raise.counted && Weigh(raise.counted) >= Threshold(raise.row.kind.kind)
    && forall r :: r in raise.counted ==>
         r in rows && r.kind == raise.row.kind && r.scope == raise.row.scope && Ms(raise.row.at) - Ms(r.at) < WindowMs(raise.row.kind.kind)
  }

  ghost predicate HeldRightly(rows: seq<Row>, t: Tally) {
    forall key: Key :: 
      && (forall r :: r in HeldAt(t.held, key) ==> r in rows && r.kind == Signal(key.kind) && r.scope == key.scope && !CountedIn(t.raised, r))
      && Weigh(HeldAt(t.held, key)) < Threshold(key.kind)
  }

  ghost predicate AllRaisedRightly(rows: seq<Row>, t: Tally) {
    forall i :: 0 <= i < |t.raised| ==> RaisedRightly(t.raised[i], rows)
  }

  /** No row is counted twice. */
  ghost predicate CountedOnce(raised: seq<Raise>) {
    forall i, j, r :: 0 <= i < j < |raised| && r in raised[i].counted ==> r !in raised[j].counted
  }

  /** What a replay clears: errors sent, signals past their window, and what an alert counted. */
  ghost predicate Clears(t: Tally, now: nat, r: Row) {
    r.kind.Error? || (r.kind.Signal? && (Past(r, now) || CountedIn(t.raised, r)))
  }

  ghost predicate SpentExactly(rows: seq<Row>, now: nat, t: Tally) {
    && (forall r :: r in rows && Clears(t, now, r) ==> r.id in t.spent)
    && (forall id :: id in t.spent ==> exists r :: r in rows && r.id == id && Clears(t, now, r))
  }

  ghost predicate DistinctIds(rows: seq<Row>) {
    forall i, j :: 0 <= i < j < |rows| ==> rows[i].id != rows[j].id
  }

  lemma {:induction false} CountedMore(raised: seq<Raise>, raise: Raise, r: Row)
    ensures CountedIn(raised + [raise], r) <==> CountedIn(raised, r) || r in raise.counted
  {
    var more := raised + [raise];
    if CountedIn(raised, r) {
      var i :| 0 <= i < |raised| && r in raised[i].counted;
      assert r in more[i].counted;
    }
    if r in raise.counted {
      assert r in more[|raised|].counted;
    }
  }

  lemma {:induction false} CountedAreRows(rows: seq<Row>, t: Tally, r: Row)
    requires AllRaisedRightly(rows, t)
    ensures CountedIn(t.raised, r) ==> r in rows && r.kind.Signal?
  {
    if CountedIn(t.raised, r) {
      var i :| 0 <= i < |t.raised| && r in t.raised[i].counted;
      assert RaisedRightly(t.raised[i], rows);
    }
  }

  /** The tally of the rows read so far. */
  ghost predicate Right(rows: seq<Row>, now: nat, t: Tally) {
    && Aligned(t) && HeldRightly(rows, t) && AllRaisedRightly(rows, t) && CountedOnce(t.raised)
  }

  lemma {:induction false} HeldWithMembers(held: map<Key, seq<Row>>, row: Row, r: Row)
    requires row.kind.Signal?
    ensures r in HeldWith(held, row) <==>
              r == row || (r in HeldAt(held, KeyOf(row)) && Ms(row.at) - Ms(r.at) < WindowMs(row.kind.kind))
  {
    InWithin(HeldAt(held, KeyOf(row)), row, WindowMs(row.kind.kind), r);
  }

  lemma {:induction false} StepHeld(rows: seq<Row>, now: nat, t: Tally, row: Row)
    requires Right(rows, now, t) && row !in rows && row.kind.Signal?
    ensures HeldRightly(rows + [row], Step(t, row, now))
  {
    RaisesOnHeld(t, row);
    var u, more := Step(t, row, now), rows + [row];
    forall key: Key
      ensures forall r :: r in HeldAt(u.held, key) ==> r in more && r.kind == Signal(key.kind) && r.scope == key.scope && !CountedIn(u.raised, r)
      ensures Weigh(HeldAt(u.held, key)) < Threshold(key.kind)
    {
      assert key != KeyOf(row) ==> HeldAt(u.held, key) == HeldAt(t.held, key);
      forall r | r in HeldAt(u.held, key) ensures r in more && r.kind == Signal(key.kind) && r.scope == key.scope && !CountedIn(u.raised, r) {
        HeldWithMembers(t.held, row, r);
        if Raises(t.seen, DetectorKey(row), Ms(row.at), WeightOf(row)) {
          CountedMore(t.raised, u.raised[|t.raised|], r);
        } else {
          CountedAreRows(rows, t, row);
        }
      }
    }
  }

  lemma {:induction false} StepRaised(rows: seq<Row>, now: nat, t: Tally, row: Row)
    requires Right(rows, now, t) && row !in rows && row.kind.Signal?
    ensures AllRaisedRightly(rows + [row], Step(t, row, now)) && CountedOnce(Step(t, row, now).raised)
  {
    RaisesOnHeld(t, row);
    var u, more := Step(t, row, now), rows + [row];
    forall i | 0 <= i < |u.raised| ensures RaisedRightly(u.raised[i], more) {
      if i < |t.raised| {
        assert RaisedRightly(t.raised[i], rows);
      } else {
        forall r | r in u.raised[i].counted
          ensures r in more && r.kind == row.kind && r.scope == row.scope && Ms(row.at) - Ms(r.at) < WindowMs(row.kind.kind)
        {
          HeldWithMembers(t.held, row, r);
        }
        HeldWithMembers(t.held, row, row);
      }
    }
    forall i, j, r | 0 <= i < j < |u.raised| && r in u.raised[i].counted ensures r !in u.raised[j].counted {
      if j == |t.raised| {
        assert CountedIn(t.raised, r);
        assert RaisedRightly(t.raised[i], rows);
        HeldWithMembers(t.held, row, r);
      }
    }
  }

  lemma {:induction false} ReplayRight(rows: seq<Row>, now: nat)
    requires Distinct(rows)
    ensures Right(rows, now, Replay(rows, now))
    decreases |rows|
  {
    if rows != [] {
      var n := |rows| - 1;
      var before, row := rows[..n], rows[n];
      ReplayRight(before, now);
      var t := Replay(before, now);
      assert before + [row] == rows;
      StepAligned(t, row, now);
      if row.kind.Signal? {
        StepHeld(before, now, t, row);
        StepRaised(before, now, t, row);
      }
    }
  }

  /** Counted by an alert, still held, or out of the window by some row of its kind and scope. */
  ghost predicate HeldOrAged(rows: seq<Row>, t: Tally, r: Row) {
    || !r.kind.Signal? || CountedIn(t.raised, r) || r in HeldAt(t.held, KeyOf(r))
    || exists y :: y in rows && Ages(y, r)
  }

  predicate Ages(y: Row, r: Row) {
    y.kind == r.kind && y.scope == r.scope && y.kind.Signal? && Ms(y.at) - Ms(r.at) >= WindowMs(y.kind.kind)
  }

  lemma {:induction false} StepHeldOrAged(rows: seq<Row>, t: Tally, row: Row, now: nat, r: Row)
    requires r in rows + [row] && (r in rows ==> HeldOrAged(rows, t, r))
    ensures HeldOrAged(rows + [row], Step(t, row, now), r)
  {
    var u, more := Step(t, row, now), rows + [row];
    if r.kind.Signal? && row.kind.Signal? {
      HeldWithMembers(t.held, row, r);
      if Raises(t.seen, DetectorKey(row), Ms(row.at), WeightOf(row)) {
        CountedMore(t.raised, u.raised[|t.raised|], r);
      }
      if r != row && r in HeldAt(t.held, KeyOf(r)) && KeyOf(r) == KeyOf(row) && !Ages(row, r) {
        assert r in HeldWith(t.held, row);
      }
    }
    if y :| y in rows && Ages(y, r) {
      assert y in more;
    }
    assert row in more;
  }

  lemma {:induction false} ReplayHeldOrAged(rows: seq<Row>, now: nat, r: Row)
    requires r in rows
    ensures HeldOrAged(rows, Replay(rows, now), r)
    decreases |rows|
  {
    var n := |rows| - 1;
    assert rows[..n] + [rows[n]] == rows;
    if r in rows[..n] {
      ReplayHeldOrAged(rows[..n], now, r);
    }
    StepHeldOrAged(rows[..n], Replay(rows[..n], now), rows[n], now, r);
  }

  /** What an alert has counted stays counted. */
  lemma {:induction false} StaysCounted(rows: seq<Row>, k: nat, now: nat, r: Row)
    requires k <= |rows| && CountedIn(Replay(rows[..k], now).raised, r)
    ensures CountedIn(Replay(rows, now).raised, r)
    decreases |rows|
  {
    if k == |rows| {
      assert rows[..k] == rows;
    } else {
      var n := |rows| - 1;
      assert rows[..n][..k] == rows[..k];
      StaysCounted(rows[..n], k, now, r);
      var t, u := Replay(rows[..n], now), Replay(rows, now);
      if |u.raised| > |t.raised| {
        CountedMore(t.raised, u.raised[|t.raised|], r);
      }
    }
  }

  lemma {:induction false} InIds(rows: seq<Row>, id: nat)
    ensures id in Ids(rows) <==> exists r :: r in rows && r.id == id
  {
    if id in Ids(rows) {
      var i :| 0 <= i < |rows| && Ids(rows)[i] == id;
      assert rows[i] in rows;
    }
    if exists r :: r in rows && r.id == id {
      var r :| r in rows && r.id == id;
      var i :| 0 <= i < |rows| && rows[i] == r;
      assert Ids(rows)[i] == id;
    }
  }

  lemma {:induction false} StepClears(t: Tally, row: Row, now: nat, r: Row)
    requires row.kind.Signal? ==> Aligned(t)
    ensures Clears(Step(t, row, now), now, r) <==>
              Clears(t, now, r) || (row.kind.Signal? && Weigh(HeldWith(t.held, row)) >= Threshold(row.kind.kind)
                                    && r.kind.Signal? && r in HeldWith(t.held, row))
  {
    if row.kind.Signal? {
      RaisesOnHeld(t, row);
      if Raises(t.seen, DetectorKey(row), Ms(row.at), WeightOf(row)) {
        CountedMore(t.raised, Raise(AlertOf(row.kind.kind), row, HeldWith(t.held, row)), r);
      }
    }
  }

  lemma {:induction false} StepSpent(rows: seq<Row>, now: nat, t: Tally, row: Row)
    requires Right(rows, now, t) && SpentExactly(rows, now, t)
    ensures SpentExactly(rows + [row], now, Step(t, row, now))
  {
    var u, more := Step(t, row, now), rows + [row];
    forall r | r in more && Clears(u, now, r) ensures r.id in u.spent {
      StepClears(t, row, now, r);
      if row.kind.Signal? {
        RaisesOnHeld(t, row);
        InIds(HeldWith(t.held, row), r.id);
      }
      CountedAreRows(rows, t, r);
    }
    forall id | id in u.spent ensures exists r :: r in more && r.id == id && Clears(u, now, r) {
      if id in t.spent {
        var r :| r in rows && r.id == id && Clears(t, now, r);
        StepClears(t, row, now, r);
        assert r in more;
      } else if row.kind.Signal? && id != row.id {
        RaisesOnHeld(t, row);
        InIds(HeldWith(t.held, row), id);
        var r :| r in HeldWith(t.held, row) && r.id == id;
        HeldWithMembers(t.held, row, r);
        StepClears(t, row, now, r);
        assert r in more;
      } else {
        StepClears(t, row, now, row);
        assert row in more;
        if row.kind.Signal? {
          RaisesOnHeld(t, row);
          HeldWithMembers(t.held, row, row);
        }
      }
    }
  }

  lemma {:induction false} ReplaySpends(rows: seq<Row>, now: nat)
    requires Distinct(rows)
    ensures SpentExactly(rows, now, Replay(rows, now))
    decreases |rows|
  {
    if rows != [] {
      var n := |rows| - 1;
      ReplayRight(rows[..n], now);
      ReplaySpends(rows[..n], now);
      assert rows[..n] + [rows[n]] == rows;
      StepSpent(rows[..n], now, Replay(rows[..n], now), rows[n]);
    }
  }

  // ------------------------------------------------------------------ passes

  datatype Alert = Alert(kind: AlertKind, id: Id)

  datatype Sent = ErrorSent(id: Id, row: Row) | AlertSent(alert: Alert)

  /** How a run of sends went: all taken, or the one at `at` failed, taken or not. */
  datatype Answers = AllTook | FailedAt(at: nat, took: bool)

  /** `issued` and `raised` are history: every row id so far, and every alert ever kept. */
  datatype State = State(events: seq<Row>, kept: seq<Alert>, log: seq<AlertKind>, sink: seq<Sent>, issued: set<nat>, raised: seq<Alert>)

  const NEW := State([], [], [], [], {}, [])

  /** Replay order. */
  predicate Before(a: Row, b: Row) {
    a.at < b.at || (a.at == b.at && a.id < b.id)
  }

  function Placed(events: seq<Row>, row: Row): seq<Row> {
    if events == [] || Before(row, events[0]) then [row] + events else [events[0]] + Placed(events[1..], row)
  }

  predicate Stale(row: Row, now: nat) {
    row.at < now - RETENTION_MS * 1000
  }

  function Gone(events: seq<Row>, now: nat): seq<Row> {
    Filter((r: Row) => Stale(r, now), events)
  }

  function Live(events: seq<Row>, now: nat): seq<Row> {
    Filter((r: Row) => !Stale(r, now), events)
  }

  function MaxId(rows: seq<Row>): nat {
    if rows == [] then 0
    else
      var rest := MaxId(rows[1..]);
      if rows[0].id > rest then rows[0].id else rest
  }

  function Errors(rows: seq<Row>): seq<Sent> {
    if rows == [] then []
    else (if rows[0].kind.Error? then [ErrorSent(RowId(rows[0]), rows[0])] else []) + Errors(rows[1..])
  }

  function Deliveries(kept: seq<Alert>): seq<Sent> {
    if kept == [] then [] else [AlertSent(kept[0])] + Deliveries(kept[1..])
  }

  predicate AllTaken(items: seq<Sent>, answers: Answers) {
    answers.FailedAt? ==> answers.at >= |items|
  }

  function TakenOf(items: seq<Sent>, answers: Answers): seq<Sent> {
    if AllTaken(items, answers) then items else items[..answers.at] + if answers.took then [items[answers.at]] else []
  }

  function AlertFor(raise: Raise): Alert {
    Alert(raise.kind, OfAlert(raise.kind, RowId(raise.row)))
  }

  function AlertsFor(raised: seq<Raise>): (alerts: seq<Alert>)
    ensures |alerts| == |raised| && forall i :: 0 <= i < |alerts| ==> alerts[i] == AlertFor(raised[i])
  {
    if raised == [] then [] else [AlertFor(raised[0])] + AlertsFor(raised[1..])
  }

  /** What a pass raises, first the one for the rows dropped uncounted. */
  function RaisedBy(events: seq<Row>, now: nat): seq<Alert> {
    (if Gone(events, now) == [] then [] else [Alert(SignalsDropped, OfDropped(MaxId(Gone(events, now))))])
    + AlertsFor(Replay(Live(events, now), now).raised)
  }

  predicate HasId(alerts: seq<Alert>, id: Id) {
    alerts != [] && (alerts[0].id == id || HasId(alerts[1..], id))
  }

  /** Kept, but for an id kept already. */
  function Keep(kept: seq<Alert>, raised: seq<Alert>): (all: seq<Alert>)
    ensures |kept| <= |all| && all[..|kept|] == kept
    decreases |raised|
  {
    if raised == [] then kept
    else if HasId(kept, raised[0].id) then Keep(kept, raised[1..])
    else Keep(kept + [raised[0]], raised[1..])
  }

  function Kinds(alerts: seq<Alert>): seq<AlertKind> {
    if alerts == [] then [] else [alerts[0].kind] + Kinds(alerts[1..])
  }

  function Left(rows: seq<Row>, spent: seq<nat>): seq<Row> {
    Filter((r: Row) => r.id !in spent, rows)
  }

  predicate Commits(s: State, now: nat, answers: Answers, commits: bool) {
    AllTaken(Errors(Live(s.events, now)), answers) && commits
  }

  /** One pass's transaction: a send that fails, or a commit that does, rolls the tables back and never the sink. */
  function Pass(s: State, now: nat, answers: Answers, commits: bool): State {
    var live := Live(s.events, now);
    var sink := s.sink + TakenOf(Errors(live), answers);
    if !Commits(s, now, answers, commits) then s.(sink := sink)
    else
      var tally := Replay(live, now);
      var kept := Keep(s.kept, RaisedBy(s.events, now));
      s.(events := Left(live, tally.spent), kept := kept, log := s.log + Kinds(kept[|s.kept|..]), sink := sink,
         raised := s.raised + kept[|s.kept|..])
  }

  function Deliver(s: State, answers: Answers, commits: bool): State {
    var items := Deliveries(s.kept);
    s.(sink := s.sink + TakenOf(items, answers), kept := if AllTaken(items, answers) && commits then [] else s.kept)
  }

  datatype Move =
    | Append(row: Row)
    | Passes(now: nat, answers: Answers, commits: bool)
    | Delivers(answers: Answers, commits: bool)

  /** Row ids are a sequence's, never used twice. */
  function Next(s: State, m: Move): State {
    match m
    case Append(row) =>
      if row.id in s.issued then s else s.(events := Placed(s.events, row), issued := s.issued + {row.id})
    case Passes(now, answers, commits) => Pass(s, now, answers, commits)
    case Delivers(answers, commits) => Deliver(s, answers, commits)
  }

  function Run(s: State, moves: seq<Move>): State
    decreases |moves|
  {
    if moves == [] then s else Run(Next(s, moves[0]), moves[1..])
  }

  // ------------------------------------------------------------------ what every run keeps

  /** The row an alert's id is fixed by. */
  function SourceRow(id: Id): nat {
    match id
    case OfRow(row, _) => row
    case OfAlert(_, source) => SourceRow(source)
    case OfDropped(last) => last
  }

  ghost predicate RowsIssued(s: State) {
    DistinctIds(s.events) && forall r :: r in s.events ==> r.id in s.issued
  }

  /** An alert's row has left the table, and no other alert of its kind of id came of it. */
  ghost predicate RaisedApart(alerts: seq<Alert>, events: seq<Row>, issued: set<nat>) {
    && (forall i, j :: 0 <= i < j < |alerts| ==> alerts[i].id != alerts[j].id)
    && (forall a :: a in alerts ==> SourceRow(a.id) in issued && forall r :: r in events ==> r.id != SourceRow(a.id))
  }

  ghost predicate KeptOrTaken(s: State) {
    && (forall a :: a in s.kept ==> a in s.raised)
    && (forall a :: a in s.raised ==> a in s.kept || AlertSent(a) in s.sink)
    && (forall i, j :: 0 <= i < j < |s.kept| ==> s.kept[i].id != s.kept[j].id)
  }

  ghost predicate SentAsIs(s: State) {
    forall x :: x in s.sink ==>
      match x
      case AlertSent(alert) => alert in s.raised
      case ErrorSent(id, row) => id == RowId(row) && row.kind.Error? && row.id in s.issued
  }

  ghost predicate Inv(s: State) {
    && RowsIssued(s) && RaisedApart(s.raised, s.events, s.issued) && KeptOrTaken(s) && SentAsIs(s)
    && s.log == Kinds(s.raised)
  }

  lemma {:induction false} PlacedMembers(events: seq<Row>, row: Row, r: Row)
    ensures r in Placed(events, row) <==> r in events || r == row
  {
    if events != [] && !Before(row, events[0]) {
      PlacedMembers(events[1..], row, r);
    }
  }

  lemma {:induction false} PlacedDistinct(events: seq<Row>, row: Row)
    requires DistinctIds(events) && forall r :: r in events ==> r.id != row.id
    ensures DistinctIds(Placed(events, row))
  {
    if events != [] && !Before(row, events[0]) {
      PlacedDistinct(events[1..], row);
      var rest := Placed(events[1..], row);
      forall r | r in rest ensures r.id != events[0].id {
        PlacedMembers(events[1..], row, r);
      }
    }
  }

  lemma {:induction false} FilterDistinctIds(p: Row -> bool, rows: seq<Row>)
    requires DistinctIds(rows)
    ensures DistinctIds(Filter(p, rows)) && Distinct(Filter(p, rows))
  {
    if rows != [] {
      FilterDistinctIds(p, rows[1..]);
      forall r | r in Filter(p, rows[1..]) ensures r.id != rows[0].id {
        FilterMembers(p, rows[1..], r);
      }
    }
  }

  lemma {:induction false} TakenMembers(items: seq<Sent>, answers: Answers, x: Sent)
    ensures x in TakenOf(items, answers) ==> x in items
  {
  }

  lemma {:induction false} ErrorsMembers(rows: seq<Row>, x: Sent)
    ensures x in Errors(rows) <==> x.ErrorSent? && x.row in rows && x.row.kind.Error? && x.id == RowId(x.row)
  {
    if rows != [] {
      ErrorsMembers(rows[1..], x);
    }
  }

  lemma {:induction false} DeliveriesMembers(kept: seq<Alert>, x: Sent)
    ensures x in Deliveries(kept) <==> x.AlertSent? && x.alert in kept
  {
    if kept != [] {
      DeliveriesMembers(kept[1..], x);
    }
  }

  lemma {:induction false} HasIdMeans(alerts: seq<Alert>, id: Id)
    ensures HasId(alerts, id) <==> exists a :: a in alerts && a.id == id
  {
    if alerts != [] {
      HasIdMeans(alerts[1..], id);
      assert alerts[0] in alerts;
      if exists a :: a in alerts && a.id == id {
        var a :| a in alerts && a.id == id;
        assert a == alerts[0] || a in alerts[1..];
      }
    }
  }

  lemma {:induction false} KindsAppend(a: seq<Alert>, b: seq<Alert>)
    ensures Kinds(a + b) == Kinds(a) + Kinds(b)
  {
    if a == [] {
      assert a + b == b;
    } else {
      var first, rest, more := [a[0].kind], Kinds(a[1..]), Kinds(b);
      assert Kinds(a + b) == first + (rest + more) by {
        KindsAppend(a[1..], b);
        assert (a + b)[1..] == a[1..] + b && (a + b)[0] == a[0];
      }
      assert Kinds(a) == first + rest;
      assert first + (rest + more) == (first + rest) + more;
    }
  }

  ghost predicate IdsApart(alerts: seq<Alert>) {
    forall i, j :: 0 <= i < j < |alerts| ==> alerts[i].id != alerts[j].id
  }

  lemma {:induction false} ApartFrom(a: seq<Alert>, b: seq<Alert>)
    requires IdsApart(a) && IdsApart(b) && forall x, y :: x in a && y in b ==> x.id != y.id
    ensures IdsApart(a + b)
  {
  }

  /** Alerts with ids of their own are all kept. */
  lemma {:induction false} KeepsAll(kept: seq<Alert>, raised: seq<Alert>)
    requires IdsApart(kept + raised)
    ensures Keep(kept, raised) == kept + raised
    decreases |raised|
  {
    if raised != [] {
      HasIdMeans(kept, raised[0].id);
      forall a | a in kept ensures a.id != raised[0].id {
        var i :| 0 <= i < |kept| && kept[i] == a;
        assert (kept + raised)[i] == a && (kept + raised)[|kept|] == raised[0];
      }
      assert kept + [raised[0]] + raised[1..] == kept + raised;
      KeepsAll(kept + [raised[0]], raised[1..]);
    }
  }

  lemma {:induction false} MaxIdIn(rows: seq<Row>) returns (r: Row)
    requires rows != []
    ensures r in rows && r.id == MaxId(rows)
  {
    if |rows| == 1 || MaxId(rows[1..]) < rows[0].id {
      r := rows[0];
      assert |rows| == 1 ==> rows[1..] == [];
    } else {
      r := MaxIdIn(rows[1..]);
    }
  }

  lemma {:induction false} LeftMembers(events: seq<Row>, now: nat, spent: seq<nat>, r: Row)
    ensures r in Left(Live(events, now), spent) <==> r in events && !Stale(r, now) && r.id !in spent
    ensures r in Live(events, now) <==> r in events && !Stale(r, now)
    ensures r in Gone(events, now) <==> r in events && Stale(r, now)
  {
    FilterMembers((x: Row) => x.id !in spent, Live(events, now), r);
    FilterMembers((x: Row) => !Stale(x, now), events, r);
    FilterMembers((x: Row) => Stale(x, now), events, r);
  }

  /** What the pass at `now` leaves of the table. */
  function LeftBy(events: seq<Row>, now: nat): seq<Row> {
    Left(Live(events, now), Replay(Live(events, now), now).spent)
  }

  lemma {:induction false} LiveRight(events: seq<Row>, now: nat)
    requires DistinctIds(events)
    ensures DistinctIds(Live(events, now)) && Right(Live(events, now), now, Replay(Live(events, now), now))
    ensures SpentExactly(Live(events, now), now, Replay(Live(events, now), now))
  {
    FilterDistinctIds((r: Row) => !Stale(r, now), events);
    ReplayRight(Live(events, now), now);
    ReplaySpends(Live(events, now), now);
  }

  lemma {:induction false} CountedAlertRow(events: seq<Row>, now: nat, i: nat)
    requires DistinctIds(events) && i < |Replay(Live(events, now), now).raised|
    ensures var r := Replay(Live(events, now), now).raised[i].row; r in events && r !in LeftBy(events, now)
  {
    var live := Live(events, now);
    var t := Replay(live, now);
    LiveRight(events, now);
    var r := t.raised[i].row;
    assert RaisedRightly(t.raised[i], live);
    assert CountedIn(t.raised, r);
    LeftMembers(events, now, t.spent, r);
  }

  lemma {:induction false} CountedAlertsApart(rows: seq<Row>, t: Tally)
    requires DistinctIds(rows) && AllRaisedRightly(rows, t) && CountedOnce(t.raised)
    ensures IdsApart(AlertsFor(t.raised))
  {
    var alerts := AlertsFor(t.raised);
    forall i, j | 0 <= i < j < |alerts| ensures alerts[i].id != alerts[j].id {
      assert RaisedRightly(t.raised[i], rows) && RaisedRightly(t.raised[j], rows);
      SameRow(rows, t.raised[i].row, t.raised[j].row);
    }
  }

  /** The pass at `now` read the row this id is fixed by, and clears it. */
  ghost predicate FixedByCleared(events: seq<Row>, now: nat, id: Id) {
    exists r :: r in events && r.id == SourceRow(id) && r !in LeftBy(events, now)
  }

  lemma {:induction false} CountedFixed(events: seq<Row>, now: nat, a: Alert)
    requires DistinctIds(events) && a in AlertsFor(Replay(Live(events, now), now).raised)
    ensures FixedByCleared(events, now, a.id) && a.id.OfAlert?
  {
    var raised := Replay(Live(events, now), now).raised;
    var i :| 0 <= i < |raised| && AlertsFor(raised)[i] == a;
    CountedAlertRow(events, now, i);
    assert SourceRow(a.id) == SourceRow(RowId(raised[i].row));
  }

  lemma {:induction false} DroppedFixed(events: seq<Row>, now: nat)
    requires Gone(events, now) != []
    ensures FixedByCleared(events, now, OfDropped(MaxId(Gone(events, now))))
  {
    var r := MaxIdIn(Gone(events, now));
    LeftMembers(events, now, Replay(Live(events, now), now).spent, r);
  }

  /** Every alert a pass raises is fixed by a row the pass read and clears; no two by the same. */
  lemma {:induction false} RaisedByRows(events: seq<Row>, now: nat)
    requires DistinctIds(events)
    ensures IdsApart(RaisedBy(events, now))
    ensures forall a :: a in RaisedBy(events, now) ==> FixedByCleared(events, now, a.id)
  {
    var counted := AlertsFor(Replay(Live(events, now), now).raised);
    LiveRight(events, now);
    CountedAlertsApart(Live(events, now), Replay(Live(events, now), now));
    forall a | a in counted ensures FixedByCleared(events, now, a.id) && a.id.OfAlert? {
      CountedFixed(events, now, a);
    }
    if Gone(events, now) != [] {
      DroppedFixed(events, now);
      ApartFrom([Alert(SignalsDropped, OfDropped(MaxId(Gone(events, now))))], counted);
    } else {
      assert RaisedBy(events, now) == counted;
    }
  }

  lemma {:induction false} SameRow(rows: seq<Row>, a: Row, b: Row)
    requires DistinctIds(rows) && a in rows && b in rows
    ensures a.id == b.id ==> a == b
  {
    var i :| 0 <= i < |rows| && rows[i] == a;
    var j :| 0 <= j < |rows| && rows[j] == b;
    assert i < j ==> a.id != b.id;
    assert j < i ==> a.id != b.id;
  }

  // ------------------------------------------------------------------ every step keeps it

  lemma {:induction false} LeftStaysIssued(s: State, now: nat)
    requires RowsIssued(s)
    ensures DistinctIds(LeftBy(s.events, now)) && forall r :: r in LeftBy(s.events, now) ==> r in s.events && r.id in s.issued
  {
    var spent := Replay(Live(s.events, now), now).spent;
    FilterDistinctIds((r: Row) => !Stale(r, now), s.events);
    FilterDistinctIds((r: Row) => r.id !in spent, Live(s.events, now));
    forall r | r in LeftBy(s.events, now) ensures r in s.events {
      LeftMembers(s.events, now, spent, r);
    }
  }

  lemma {:induction false} NewAlertsApart(s: State, now: nat)
    requires RowsIssued(s) && RaisedApart(s.raised, s.events, s.issued)
    ensures RaisedApart(s.raised + RaisedBy(s.events, now), LeftBy(s.events, now), s.issued)
  {
    var more := RaisedBy(s.events, now);
    RaisedByRows(s.events, now);
    LeftStaysIssued(s, now);
    forall x, y | x in s.raised && y in more ensures x.id != y.id {
      assert FixedByCleared(s.events, now, y.id);
    }
    ApartFrom(s.raised, more);
    forall a | a in more
      ensures SourceRow(a.id) in s.issued && forall r :: r in LeftBy(s.events, now) ==> r.id != SourceRow(a.id)
    {
      assert FixedByCleared(s.events, now, a.id);
      var source :| source in s.events && source.id == SourceRow(a.id) && source !in LeftBy(s.events, now);
      forall r | r in LeftBy(s.events, now) ensures r.id != source.id {
        SameRow(s.events, r, source);
      }
    }
  }

  lemma {:induction false} ApartInWhole(a: seq<Alert>, b: seq<Alert>, x: Alert, y: Alert)
    requires IdsApart(a + b) && x in a && y in b
    ensures x.id != y.id
  {
    var i :| 0 <= i < |a| && a[i] == x;
    var j :| 0 <= j < |b| && b[j] == y;
    assert (a + b)[i] == x && (a + b)[|a| + j] == y;
  }

  /** No alert of a pass has an id kept already: all it raises are kept, and logged. */
  lemma {:induction false} PassKeepsAll(s: State, now: nat)
    requires Inv(s)
    ensures Keep(s.kept, RaisedBy(s.events, now)) == s.kept + RaisedBy(s.events, now)
  {
    var more := RaisedBy(s.events, now);
    assert IdsApart(s.raised + more) by {
      NewAlertsApart(s, now);
    }
    assert IdsApart(more) by {
      RaisedByRows(s.events, now);
    }
    forall x, y | x in s.kept && y in more ensures x.id != y.id {
      ApartInWhole(s.raised, more, x, y);
    }
    ApartFrom(s.kept, more);
    KeepsAll(s.kept, more);
  }

  lemma {:induction false} PassSends(s: State, now: nat, answers: Answers, raised: seq<Alert>)
    requires SentAsIs(s) && RowsIssued(s)
    ensures SentAsIs(s.(sink := s.sink + TakenOf(Errors(Live(s.events, now)), answers), raised := s.raised + raised))
  {
    var live := Live(s.events, now);
    forall x | x in TakenOf(Errors(live), answers) ensures x.ErrorSent? && x.id == RowId(x.row) && x.row.kind.Error? && x.row.id in s.issued {
      TakenMembers(Errors(live), answers, x);
      ErrorsMembers(live, x);
      LeftMembers(s.events, now, [], x.row);
    }
  }

  lemma {:induction false} PassKeeps(s: State, now: nat, answers: Answers, commits: bool)
    requires Inv(s)
    ensures Inv(Pass(s, now, answers, commits))
  {
    PassSends(s, now, answers, []);
    assert s.raised + [] == s.raised;
    if Commits(s, now, answers, commits) {
      var more := RaisedBy(s.events, now);
      PassKeepsAll(s, now);
      assert (s.kept + more)[|s.kept|..] == more;
      NewAlertsApart(s, now);
      LeftStaysIssued(s, now);
      KindsAppend(s.raised, more);
      PassSends(s, now, answers, more);
      KeptApart(s, more);
    }
  }

  lemma {:induction false} KeptApart(s: State, more: seq<Alert>)
    requires KeptOrTaken(s) && IdsApart(s.raised + more)
    ensures IdsApart(s.kept + more)
  {
    forall i, j | 0 <= i < j < |more| ensures more[i].id != more[j].id {
      assert (s.raised + more)[|s.raised| + i] == more[i] && (s.raised + more)[|s.raised| + j] == more[j];
    }
    forall x, y | x in s.kept && y in more ensures x.id != y.id {
      var i :| 0 <= i < |s.raised| && s.raised[i] == x;
      var j :| 0 <= j < |more| && more[j] == y;
      assert (s.raised + more)[i] == x && (s.raised + more)[|s.raised| + j] == y;
    }
    ApartFrom(s.kept, more);
  }

  lemma {:induction false} DeliverKeeps(s: State, answers: Answers, commits: bool)
    requires Inv(s)
    ensures Inv(Deliver(s, answers, commits))
  {
    var items := Deliveries(s.kept);
    forall x | x in TakenOf(items, answers) ensures x.AlertSent? && x.alert in s.raised {
      TakenMembers(items, answers, x);
      DeliveriesMembers(s.kept, x);
    }
    forall a | a in s.kept ensures AlertSent(a) in items {
      DeliveriesMembers(s.kept, AlertSent(a));
    }
  }

  lemma {:induction false} NextKeeps(s: State, m: Move)
    requires Inv(s)
    ensures Inv(Next(s, m))
  {
    match m {
      case Append(row) =>
        if row.id !in s.issued {
          PlacedDistinct(s.events, row);
          forall r ensures r in Placed(s.events, row) <==> r in s.events || r == row {
            PlacedMembers(s.events, row, r);
          }
        }
      case Passes(now, answers, commits) => PassKeeps(s, now, answers, commits);
      case Delivers(answers, commits) => DeliverKeeps(s, answers, commits);
    }
  }

  lemma {:induction false} RunKeeps(s: State, moves: seq<Move>)
    requires Inv(s)
    ensures Inv(Run(s, moves))
    decreases |moves|
  {
    if moves != [] {
      NextKeeps(s, moves[0]);
      RunKeeps(Next(s, moves[0]), moves[1..]);
    }
  }

  /**
   * Over every run of appended rows, passes and deliveries, rolled back or not,
   * with answers lost or refused: alerts have ids of their own, each is logged
   * once, it leaves the kept table only once the sink took it, and the sink is
   * given no other alert and each error only under its own row's id.
   */
  lemma {:induction false} EveryAlertOnce(moves: seq<Move>)
    ensures var s := Run(NEW, moves);
            && (forall i, j :: 0 <= i < j < |s.raised| ==> s.raised[i].id != s.raised[j].id)
            && |s.log| == |s.raised| && (forall i :: 0 <= i < |s.log| ==> s.log[i] == s.raised[i].kind)
            && (forall a :: a in s.raised ==> a in s.kept || AlertSent(a) in s.sink)
            && SentAsIs(s)
  {
    RunKeeps(NEW, moves);
    KindsAre(Run(NEW, moves).raised);
  }

  // ------------------------------------------------------------------ what a committed pass clears

  ghost predicate ClearedFor(s: State, now: nat, r: Row) {
    exists i :: 0 <= i < |Replay(Live(s.events, now), now).raised|
      && var raise := Replay(Live(s.events, now), now).raised[i];
         RaisedRightly(raise, Live(s.events, now)) && r in raise.counted && AlertFor(raise) in Pass(s, now, AllTook, true).raised
  }

  lemma {:induction false} ClearedForCounted(s: State, now: nat, r: Row)
    requires Inv(s)
    ensures CountedIn(Replay(Live(s.events, now), now).raised, r) <==> ClearedFor(s, now, r)
  {
    var live := Live(s.events, now);
    var tally := Replay(live, now);
    LiveRight(s.events, now);
    PassRaises(s, now);
    if CountedIn(tally.raised, r) {
      var i :| 0 <= i < |tally.raised| && r in tally.raised[i].counted;
      assert RaisedRightly(tally.raised[i], live);
      assert AlertsFor(tally.raised)[i] == AlertFor(tally.raised[i]);
      assert AlertFor(tally.raised[i]) in RaisedBy(s.events, now);
    }
  }

  lemma {:induction false} PassRaises(s: State, now: nat)
    requires Inv(s)
    ensures Pass(s, now, AllTook, true).raised == s.raised + RaisedBy(s.events, now)
  {
    PassKeepsAll(s, now);
    assert (s.kept + RaisedBy(s.events, now))[|s.kept|..] == RaisedBy(s.events, now);
  }

  /** What a pass that commits leaves out. */
  lemma {:induction false} LeftOutExactlyWhen(s: State, now: nat, r: Row)
    requires Inv(s) && r in s.events
    ensures r !in LeftBy(s.events, now) <==>
              Stale(r, now) || r.kind.Error? || (r.kind.Signal? && (Past(r, now) || CountedIn(Replay(Live(s.events, now), now).raised, r)))
  {
    var live := Live(s.events, now);
    var tally := Replay(live, now);
    LiveRight(s.events, now);
    LeftMembers(s.events, now, tally.spent, r);
    if r in live && r.id in tally.spent {
      var q :| q in live && q.id == r.id && Clears(tally, now, q);
      SameRow(live, q, r);
    }
    CountedAreRows(live, tally, r);
  }

  lemma {:induction false} ClearedIsTold(s: State, now: nat, answers: Answers, commits: bool, r: Row)
    requires Inv(s) && r in s.events && Commits(s, now, answers, commits)
    ensures var t := Pass(s, now, answers, commits);
            && (Stale(r, now) ==> Alert(SignalsDropped, OfDropped(MaxId(Gone(s.events, now)))) in t.raised)
            && (!Stale(r, now) && r.kind.Error? ==> ErrorSent(RowId(r), r) in t.sink)
  {
    LeftMembers(s.events, now, [], r);
    ErrorsMembers(Live(s.events, now), ErrorSent(RowId(r), r));
    PassRaises(s, now);
  }

  /**
   * A row leaves the table only in a pass that commits, and exactly when it is
   * more than 75 minutes old (then `signals-dropped` is raised with it), is an error that
   * this pass sent, is a signal past its rule's window, or is counted by an
   * alert raised in this pass on its own kind and scope, with its threshold met.
   */
  lemma {:induction false} ClearedExactlyWhen(s: State, now: nat, answers: Answers, commits: bool, r: Row)
    requires Inv(s) && r in s.events
    ensures var t := Next(s, Passes(now, answers, commits));
            r !in t.events <==>
              Commits(s, now, answers, commits)
              && (now - r.at > 4_500_000_000 || r.kind.Error? || (r.kind.Signal? && (Past(r, now) || ClearedFor(s, now, r))))
    ensures var t := Next(s, Passes(now, answers, commits));
            r !in t.events ==>
              && (now - r.at > 4_500_000_000 ==> Alert(SignalsDropped, OfDropped(MaxId(Gone(s.events, now)))) in t.raised)
              && (now - r.at <= 4_500_000_000 && r.kind.Error? ==> ErrorSent(RowId(r), r) in t.sink)
  {
    LeftOutExactlyWhen(s, now, r);
    ClearedForCounted(s, now, r);
    if Commits(s, now, answers, commits) {
      ClearedIsTold(s, now, answers, commits, r);
    }
  }

  /** A signal past retention is past every rule's window too. */
  lemma {:induction false} StaleIsPast(r: Row, now: nat)
    requires r.kind.Signal? && Stale(r, now)
    ensures Past(r, now)
  {
  }

  /** A signal still in its rule's window is cleared only as part of an alert raised on its kind and scope. */
  lemma {:induction false} InWindowClearedOnlyByAlert(s: State, now: nat, answers: Answers, commits: bool, r: Row)
    requires Inv(s) && r in s.events && r.kind.Signal? && !Past(r, now)
    ensures r !in Next(s, Passes(now, answers, commits)).events <==> Commits(s, now, answers, commits) && ClearedFor(s, now, r)
  {
    ClearedExactlyWhen(s, now, answers, commits, r);
    if Stale(r, now) {
      StaleIsPast(r, now);
    }
  }

  lemma {:induction false} WeighAppend(a: seq<Row>, b: seq<Row>)
    ensures Weigh(a + b) == Weigh(a) + Weigh(b)
  {
    if a == [] {
      assert a + b == b;
    } else {
      WeighAppend(a[1..], b);
      assert (a + b)[1..] == a[1..] + b;
    }
  }

  lemma {:induction false} WeighWithin(a: seq<Row>, b: seq<Row>)
    requires Distinct(a) && forall r :: r in a ==> r in b
    ensures Weigh(a) <= Weigh(b)
    decreases |a|
  {
    if a != [] {
      assert a[0] in b;
      var i :| 0 <= i < |b| && b[i] == a[0];
      var before, after := b[..i], b[i + 1..];
      assert b == before + ([b[i]] + after) && ([b[i]] + after)[1..] == after;
      WeighAppend(before, [b[i]] + after);
      WeighAppend(before, after);
      forall r | r in a[1..] ensures r in before + after {
        assert r in b && r != a[0];
      }
      WeighWithin(a[1..], before + after);
    }
  }

  function OfKey(rows: seq<Row>, key: Key): seq<Row> {
    Filter((r: Row) => r.kind == Signal(key.kind) && r.scope == key.scope, rows)
  }

  /** The rows of its kind and scope up to one row, within one window of it. */
  predicate InWindowOf(x: Row, r: Row) {
    r.kind == x.kind && r.scope == x.scope && x.kind.Signal? && !Before(x, r) && Ms(x.at) - Ms(r.at) < WindowMs(x.kind.kind)
  }

  function WindowTo(rows: seq<Row>, x: Row): seq<Row> {
    Filter((r: Row) => InWindowOf(x, r), rows)
  }

  ghost predicate InOrder(rows: seq<Row>) {
    forall i, j :: 0 <= i < j < |rows| ==> Before(rows[i], rows[j])
  }

  lemma {:induction false} PlacedInOrder(events: seq<Row>, row: Row)
    requires InOrder(events) && forall r :: r in events ==> r.id != row.id
    ensures InOrder(Placed(events, row))
  {
    if events != [] && !Before(row, events[0]) {
      PlacedInOrder(events[1..], row);
      forall r | r in Placed(events[1..], row) ensures Before(events[0], r) {
        PlacedMembers(events[1..], row, r);
      }
    }
  }

  lemma {:induction false} FilterInOrder(p: Row -> bool, rows: seq<Row>)
    requires InOrder(rows)
    ensures InOrder(Filter(p, rows))
  {
    if rows != [] {
      FilterInOrder(p, rows[1..]);
      forall r | r in Filter(p, rows[1..]) ensures Before(rows[0], r) {
        FilterMembers(p, rows[1..], r);
      }
    }
  }

  lemma {:induction false} LiveInOrder(events: seq<Row>, now: nat)
    requires InOrder(events)
    ensures InOrder(Live(events, now)) && InOrder(LeftBy(events, now))
  {
    FilterInOrder((r: Row) => !Stale(r, now), events);
    var spent := Replay(Live(events, now), now).spent;
    FilterInOrder((r: Row) => r.id !in spent, Live(events, now));
  }

  lemma {:induction false} RunInOrder(s: State, moves: seq<Move>)
    requires Inv(s) && InOrder(s.events)
    ensures InOrder(Run(s, moves).events)
    decreases |moves|
  {
    if moves != [] {
      NextKeeps(s, moves[0]);
      match moves[0] {
        case Append(row) =>
          if row.id !in s.issued {
            PlacedInOrder(s.events, row);
          }
        case Passes(now, _, _) => LiveInOrder(s.events, now);
        case Delivers(_, _) =>
      }
      RunInOrder(Next(s, moves[0]), moves[1..]);
    }
  }

  /** A row counted by no alert found, with what was held before it, less than the threshold. */
  lemma {:induction false} NotRaisedAt(rows: seq<Row>, k: nat, now: nat)
    requires Distinct(rows) && k < |rows| && rows[k].kind.Signal? && !CountedIn(Replay(rows, now).raised, rows[k])
    ensures Weigh(HeldWith(Replay(rows[..k], now).held, rows[k])) < Threshold(rows[k].kind.kind)
  {
    var t, x := Replay(rows[..k], now), rows[k];
    ReplayRight(rows[..k], now);
    RaisesOnHeld(t, x);
    assert rows[..k + 1][..k] == rows[..k];
    if Raises(t.seen, DetectorKey(x), Ms(x.at), WeightOf(x)) {
      HeldWithMembers(t.held, x, x);
      CountedMore(t.raised, Raise(AlertOf(x.kind.kind), x, HeldWith(t.held, x)), x);
      StaysCounted(rows, k + 1, now, x);
    }
  }

  /** What of its window is counted by no alert was held when it was read. */
  lemma {:induction false} WindowWasHeld(rows: seq<Row>, k: nat, now: nat, r: Row)
    requires InOrder(rows) && k < |rows| && r in rows && InWindowOf(rows[k], r) && !CountedIn(Replay(rows, now).raised, r)
    ensures r in HeldWith(Replay(rows[..k], now).held, rows[k])
  {
    var t, x := Replay(rows[..k], now), rows[k];
    HeldWithMembers(t.held, x, r);
    if r != x {
      var i :| 0 <= i < |rows| && rows[i] == r;
      assert i < k;
      assert rows[..k][i] == r;
      ReplayHeldOrAged(rows[..k], now, r);
      if CountedIn(t.raised, r) {
        StaysCounted(rows, k, now, r);
      }
      forall y | y in rows[..k] ensures !Ages(y, r) {
        assert Before(y, x);
      }
    }
  }

  /**
   * No burst is missed, over every run and whatever the clocks say: of the rows a
   * committed pass leaves, those of one kind and scope within one window of any
   * of them weigh less than the threshold.
   */
  lemma {:induction false} NoBurstIsLeft(moves: seq<Move>, now: nat, answers: Answers, x: Row)
    ensures var s := Run(NEW, moves);
            var left := Pass(s, now, answers, true).events;
            Commits(s, now, answers, true) && x in left && x.kind.Signal? ==>
              x in WindowTo(left, x) && Weigh(WindowTo(left, x)) < Threshold(x.kind.kind)
  {
    var s := Run(NEW, moves);
    RunKeeps(NEW, moves);
    RunInOrder(NEW, moves);
    if Commits(s, now, answers, true) && x in LeftBy(s.events, now) && x.kind.Signal? {
      FilterMembers((r: Row) => InWindowOf(x, r), LeftBy(s.events, now), x);
      LeftInWindow(s, now, x);
    }
  }

  lemma {:induction false} LeftIsUncounted(s: State, now: nat, r: Row)
    requires Inv(s) && r in LeftBy(s.events, now)
    ensures r in Live(s.events, now) && (r.kind.Signal? ==> !CountedIn(Replay(Live(s.events, now), now).raised, r) && !Past(r, now))
  {
    LeftMembers(s.events, now, Replay(Live(s.events, now), now).spent, r);
    LeftOutExactlyWhen(s, now, r);
  }

  lemma {:induction false} LeftInWindow(s: State, now: nat, x: Row)
    requires Inv(s) && InOrder(s.events) && x in LeftBy(s.events, now) && x.kind.Signal?
    ensures Weigh(WindowTo(LeftBy(s.events, now), x)) < Threshold(x.kind.kind)
  {
    var live, left := Live(s.events, now), LeftBy(s.events, now);
    LiveRight(s.events, now);
    LiveInOrder(s.events, now);
    LeftIsUncounted(s, now, x);
    var k :| 0 <= k < |live| && live[k] == x;
    NotRaisedAt(live, k, now);
    var held := HeldWith(Replay(live[..k], now).held, x);
    forall r | r in WindowTo(left, x) ensures r in held {
      FilterMembers((r: Row) => InWindowOf(x, r), left, r);
      LeftIsUncounted(s, now, r);
      WindowWasHeld(live, k, now, r);
    }
    LeftStaysIssued(s, now);
    FilterDistinctIds((r: Row) => InWindowOf(x, r), left);
    WeighWithin(WindowTo(left, x), held);
  }

  /** With no row dated past the pass's clock, all it leaves of a kind and scope is below the threshold. */
  lemma {:induction false} LeftAltogether(s: State, now: nat, answers: Answers, key: Key)
    requires Inv(s) && Commits(s, now, answers, true) && forall r :: r in s.events ==> Ms(r.at) <= Ms(now)
    ensures Weigh(OfKey(Pass(s, now, answers, true).events, key)) < Threshold(key.kind)
  {
    var live, left := Live(s.events, now), LeftBy(s.events, now);
    var t := Replay(live, now);
    LiveRight(s.events, now);
    forall r | r in OfKey(left, key) ensures r in HeldAt(t.held, key) {
      FilterMembers((x: Row) => x.kind == Signal(key.kind) && x.scope == key.scope, left, r);
      LeftIsUncounted(s, now, r);
      ReplayHeldOrAged(live, now, r);
      forall y | y in live ensures !Ages(y, r) {
        LeftMembers(s.events, now, t.spent, y);
      }
    }
    LeftStaysIssued(s, now);
    FilterDistinctIds((x: Row) => x.kind == Signal(key.kind) && x.scope == key.scope, left);
    WeighWithin(OfKey(left, key), HeldAt(t.held, key));
  }

  // ------------------------------------------------------------------ what is counted, kept and raised

  function Items(rows: seq<Row>): nat {
    if rows == [] then 0 else rows[0].weight + Items(rows[1..])
  }

  /** Exports weigh their items; any other rows of one kind, one each. */
  lemma {:induction false} WeighCounts(rows: seq<Row>, kind: SignalKind)
    requires forall r :: r in rows ==> r.kind == Signal(kind)
    ensures Weigh(rows) == if kind == Export then Items(rows) else |rows|
  {
    if rows != [] {
      assert rows[0] in rows && forall r :: r in rows[1..] ==> r in rows;
      WeighCounts(rows[1..], kind);
    }
  }

  /** A row appended joins the table in its order, and nothing else changes; one whose id was issued before cannot be. */
  lemma {:induction false} AppendsExactly(s: State, row: Row, r: Row)
    requires Inv(s) && InOrder(s.events)
    ensures var t := Next(s, Append(row));
            && (r in t.events <==> r in s.events || (r == row && row.id !in s.issued))
            && InOrder(t.events) && t == s.(events := t.events, issued := s.issued + {row.id})
  {
    if row.id !in s.issued {
      PlacedMembers(s.events, row, r);
      PlacedInOrder(s.events, row);
    } else {
      assert s.issued + {row.id} == s.issued;
    }
  }

  lemma {:induction false} KindsAre(alerts: seq<Alert>)
    ensures |Kinds(alerts)| == |alerts| && forall i :: 0 <= i < |alerts| ==> Kinds(alerts)[i] == alerts[i].kind
  {
    if alerts != [] {
      KindsAre(alerts[1..]);
    }
  }

  lemma {:induction false} Behind<T>(a: seq<T>, b: seq<T>)
    ensures (a + b)[|a|..] == b
  {
  }

  /** A pass that commits keeps and logs all it raises behind what was kept; one that does not, nothing. */
  lemma {:induction false} PassRaisesExactly(s: State, now: nat, answers: Answers, commits: bool)
    requires Inv(s)
    ensures var t, more := Next(s, Passes(now, answers, commits)), RaisedBy(s.events, now);
            if Commits(s, now, answers, commits) then t.kept == s.kept + more && t.raised == s.raised + more && t.log == s.log + Kinds(more)
            else t.kept == s.kept && t.raised == s.raised && t.log == s.log
  {
    PassKeepsAll(s, now);
    Behind(s.kept, RaisedBy(s.events, now));
  }

  /** An id kept already is not kept again. */
  lemma {:induction false} KeepsEachIdOnce(kept: seq<Alert>, raised: seq<Alert>)
    requires IdsApart(kept)
    ensures IdsApart(Keep(kept, raised))
    decreases |raised|
  {
    if raised != [] {
      HasIdMeans(kept, raised[0].id);
      if HasId(kept, raised[0].id) {
        KeepsEachIdOnce(kept, raised[1..]);
      } else {
        forall x, y | x in kept && y in [raised[0]] ensures x.id != y.id {
        }
        ApartFrom(kept, [raised[0]]);
        KeepsEachIdOnce(kept + [raised[0]], raised[1..]);
      }
    }
  }

  // ------------------------------------------------------------------ what reaches the sink

  /** How many of a list of sends the sink took. */
  function TakenCount(count: nat, answers: Answers): nat {
    if answers.AllTook? || answers.at >= count then count else answers.at + if answers.took then 1 else 0
  }

  lemma {:induction false} TakenAre(items: seq<Sent>, answers: Answers)
    ensures |TakenOf(items, answers)| == TakenCount(|items|, answers)
    ensures forall i :: 0 <= i < |TakenOf(items, answers)| ==> TakenOf(items, answers)[i] == items[i]
  {
  }

  lemma {:induction false} DeliveriesAre(kept: seq<Alert>)
    ensures |Deliveries(kept)| == |kept| && forall i :: 0 <= i < |kept| ==> Deliveries(kept)[i] == AlertSent(kept[i])
  {
    if kept != [] {
      DeliveriesAre(kept[1..]);
    }
  }

  /** A delivery sends every alert kept in the order raised, up to the first send that fails, and clears them exactly when all were taken and it commits. */
  lemma {:induction false} DeliversExactly(s: State, answers: Answers, commits: bool)
    ensures var t, n := Next(s, Delivers(answers, commits)), TakenCount(|s.kept|, answers);
            && |t.sink| == |s.sink| + n && t.sink[..|s.sink|] == s.sink
            && (forall i :: 0 <= i < n ==> t.sink[|s.sink| + i] == AlertSent(s.kept[i]))
            && t.kept == (if n == |s.kept| && (answers.AllTook? || answers.at >= |s.kept|) && commits then [] else s.kept)
            && t.events == s.events && t.raised == s.raised && t.log == s.log
  {
    DeliveriesAre(s.kept);
    TakenAre(Deliveries(s.kept), answers);
  }

  lemma {:induction false} ErrorsAre(rows: seq<Row>)
    ensures Errors(rows) == Map((r: Row) => ErrorSent(RowId(r), r), Filter((r: Row) => r.kind.Error?, rows))
  {
    if rows != [] {
      ErrorsAre(rows[1..]);
    }
  }

  /** A pass sends each error of the table not past retention, in the order read, up to the first send that fails, commit or not. */
  lemma {:induction false} PassSendsExactly(s: State, now: nat, answers: Answers, commits: bool)
    ensures var t := Next(s, Passes(now, answers, commits));
            var errors := Filter((r: Row) => r.kind.Error?, Live(s.events, now));
            var n := TakenCount(|errors|, answers);
            && |t.sink| == |s.sink| + n && t.sink[..|s.sink|] == s.sink
            && forall i :: 0 <= i < n ==> t.sink[|s.sink| + i] == ErrorSent(RowId(errors[i]), errors[i])
  {
    ErrorsAre(Live(s.events, now));
    TakenAre(Errors(Live(s.events, now)), answers);
    PassSinks(s, now, answers, commits);
  }

  lemma {:induction false} PassSinks(s: State, now: nat, answers: Answers, commits: bool)
    ensures Pass(s, now, answers, commits).sink == s.sink + TakenOf(Errors(Live(s.events, now)), answers)
  {
  }

  // ------------------------------------------------------------------ the forwarder's own code

  lemma {:induction false} ErrorsAppend(a: seq<Row>, b: seq<Row>)
    ensures Errors(a + b) == Errors(a) + Errors(b)
  {
    if a == [] {
      assert a + b == b;
    } else {
      var first, rest, more := if a[0].kind.Error? then [ErrorSent(RowId(a[0]), a[0])] else [], Errors(a[1..]), Errors(b);
      assert Errors(a + b) == first + (rest + more) by {
        ErrorsAppend(a[1..], b);
        assert (a + b)[1..] == a[1..] + b && (a + b)[0] == a[0];
      }
      assert Errors(a) == first + rest;
      assert first + (rest + more) == (first + rest) + more;
    }
  }

  lemma {:induction false} FailsThere(live: seq<Row>, i: nat, answers: Answers)
    requires i < |live| && live[i].kind.Error? && answers.FailedAt? && answers.at == |Errors(live[..i])|
    ensures !AllTaken(Errors(live), answers)
    ensures TakenOf(Errors(live), answers)
         == Errors(live[..i]) + if answers.took then [ErrorSent(RowId(live[i]), live[i])] else []
  {
    assert live == live[..i] + ([live[i]] + live[i + 1..]);
    ErrorsAppend(live[..i], [live[i]] + live[i + 1..]);
    ErrorsAppend([live[i]], live[i + 1..]);
    assert Errors([live[i]]) == [ErrorSent(RowId(live[i]), live[i])];
  }

  lemma {:induction false} ReplayOneMore(live: seq<Row>, i: nat, now: nat)
    requires i < |live|
    ensures Replay(live[..i + 1], now) == Step(Replay(live[..i], now), live[i], now)
    ensures Errors(live[..i + 1]) == Errors(live[..i]) + if live[i].kind.Error? then [ErrorSent(RowId(live[i]), live[i])] else []
  {
    assert live[..i + 1][..i] == live[..i] && live[..i + 1] == live[..i] + [live[i]];
    ErrorsAppend(live[..i], [live[i]]);
    assert [live[i]][1..] == [];
  }

  /** The tables and the sink, as one forwarder works on them. */
  class Outbox {
    var events: seq<Row>
    var kept: seq<Alert>
    var log: seq<AlertKind>
    var sink: seq<Sent>
    ghost var issued: set<nat>
    ghost var raised: seq<Alert>

    ghost function View(): State
      reads this
    {
      State(events, kept, log, sink, issued, raised)
    }

    constructor ()
      ensures View() == NEW
    {
      events, kept, log, sink, issued, raised := [], [], [], [], {}, [];
    }

    /** One signal counted: held beside the detector's count, and all held spent once it raises. */
    method Count(detector: Counts, tally: Tally, row: Row, now: nat) returns (after: Tally)
      requires row.kind.Signal? && detector.seen == tally.seen
      modifies detector
      ensures after == Step(tally, row, now) && detector.seen == after.seen
    {
      var key, rows := KeyOf(row), HeldWith(tally.held, row);
      var held, alerts, spent := tally.held[key := rows], tally.raised, tally.spent;
      if Past(row, now) {
        spent := spent + [row.id];
      }
      var hit := detector.Observe(DetectorKey(row), Ms(row.at), WeightOf(row));
      if hit {
        alerts := alerts + [Raise(AlertOf(row.kind.kind), row, rows)];
        spent := spent + Ids(rows);
        held := tally.held - {key};
      }
      after := Tally(held, detector.seen, alerts, spent);
    }

    /** One error to the sink, under its own id; the send at `answers.at` fails, taken or not. */
    method SendError(row: Row, sends: nat, answers: Answers, ghost before: seq<Sent>, ghost sent: seq<Sent>) returns (failed: bool)
      requires sink == before + sent
      modifies this`sink
      ensures failed == (answers.FailedAt? && answers.at == sends)
      ensures sink == before + (sent + if !failed || answers.took then [ErrorSent(RowId(row), row)] else [])
    {
      failed := answers.FailedAt? && answers.at == sends;
      if !failed || answers.took {
        sink := sink + [ErrorSent(RowId(row), row)];
        assert sink == before + (sent + [ErrorSent(RowId(row), row)]);
      }
    }

    /** One replay over the rows not stale; not `ok` at the first send that fails, and nothing past it is read. */
    method Replays(live: seq<Row>, now: nat, answers: Answers) returns (ok: bool, tally: Tally)
      modifies this`sink
      ensures sink == old(sink) + TakenOf(Errors(live), answers)
      ensures ok == AllTaken(Errors(live), answers)
      ensures ok ==> tally == Replay(live, now)
    {
      var detector := new Counts();
      var sends := 0;
      tally := EMPTY;
      for i := 0 to |live|
        invariant tally == Replay(live[..i], now) && detector.seen == tally.seen
        invariant sends == |Errors(live[..i])| && sink == old(sink) + Errors(live[..i])
        invariant answers.FailedAt? ==> sends <= answers.at
        modifies this`sink, detector
      {
        var row := live[i];
        ReplayOneMore(live, i, now);
        match row.kind {
          case Error =>
            var failed := SendError(row, sends, answers, old(sink), Errors(live[..i]));
            if failed {
              FailsThere(live, i, answers);
              return false, tally;
            }
            sends := sends + 1;
            tally := tally.(spent := tally.spent + [row.id]);
          case Other(_) =>
          case Signal(kind) =>
            tally := Count(detector, tally, row, now);
        }
      }
      assert live[..|live|] == live;
      ok := true;
    }

    method KeepNew(alerts: seq<Alert>)
      modifies this`kept, this`log, this`raised
      ensures kept == Keep(old(kept), alerts)
      ensures log == old(log) + Kinds(kept[|old(kept)|..]) && raised == old(raised) + kept[|old(kept)|..]
    {
      for i := 0 to |alerts|
        invariant |old(kept)| <= |kept| && Keep(kept, alerts[i..]) == Keep(old(kept), alerts)
        invariant kept[..|old(kept)|] == old(kept)
        invariant log == old(log) + Kinds(kept[|old(kept)|..]) && raised == old(raised) + kept[|old(kept)|..]
      {
        assert alerts[i..][1..] == alerts[i + 1..];
        if !HasId(kept, alerts[i].id) {
          KindsAppend(kept[|old(kept)|..], [alerts[i]]);
          assert (kept + [alerts[i]])[|old(kept)|..] == kept[|old(kept)|..] + [alerts[i]];
          kept := kept + [alerts[i]];
          log := log + [alerts[i].kind];
          raised := raised + [alerts[i]];
        }
      }
    }

    method PassOnce(now: nat, answers: Answers, commits: bool) returns (done: bool)
      modifies this
      ensures View() == Pass(old(View()), now, answers, commits)
      ensures done == Commits(old(View()), now, answers, commits)
    {
      var gone, live := Gone(events, now), Live(events, now);
      var ok, tally := Replays(live, now, answers);
      done := ok && commits;
      if done {
        KeepNew((if gone == [] then [] else [Alert(SignalsDropped, OfDropped(MaxId(gone)))]) + AlertsFor(tally.raised));
        events := Left(live, tally.spent);
      }
    }

    method DeliverOnce(answers: Answers, commits: bool) returns (done: bool)
      modifies this
      ensures View() == Deliver(old(View()), answers, commits)
      ensures done == (AllTaken(Deliveries(old(kept)), answers) && commits)
    {
      var items := Deliveries(kept);
      for i := 0 to |items|
        invariant sink == old(sink) + items[..i] && View() == old(View()).(sink := sink)
        invariant answers.FailedAt? ==> i <= answers.at
      {
        if answers.FailedAt? && answers.at == i {
          if answers.took {
            sink := sink + [items[i]];
          }
          return false;
        }
        sink := sink + [items[i]];
      }
      done := commits;
      if done {
        kept := [];
      }
    }
  }
}