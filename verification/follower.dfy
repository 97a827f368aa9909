/**
 * apps/api/live-follow.ts: one stream's deliveries, one at a time. What is heard
 * for a watch while its delivery waits merges into one; every delivery asks
 * again first; what could not be asked is owed to the watch's next check.
 *
 * Each awaited question or write is a step of its own, and signals, checks and
 * presence changes may come before any step. The opening frames are not here.
 */
module LiveFollow {
  import opened Lists

  /** A task's page, or one conversation, which carries no presence. */
  datatype Watch = Watch(task: string, chat: bool)

  datatype Signal = Check | Invalidate | Resync

  function Rank(signal: Signal): nat {
    match signal
    case Check => 0
    case Invalidate => 1
    case Resync => 2
  }

  datatype Person = Person(personId: string, name: string, side: string)

  datatype Frame = Signalled(signal: Signal) | PresenceChanged | ClosedNow

  /** What the stream asked, was told and said, in order; `sat` and `sitter` as they were when it was said. */
  datatype Entry =
    | Asked(watch: Watch)
    | Admitted(watch: Watch, personId: string)
    | Moved(sitter: Option<Person>)
    | Said(watch: Watch, frame: Frame, sat: bool, sitter: Option<Person>)

  /** The delivery in flight and what it waits for. */
  datatype Stage =
    | Idle
    | Asking(watch: Watch, signal: Option<Signal>, shown: bool)
    | Reseating(watch: Watch, signal: Option<Signal>, shown: bool, admitted: string)
    | Writing(watch: Watch, signal: Option<Signal>, shown: bool, admitted: string)
    | Closing(watch: Watch)

  datatype State = State(
    open: seq<Watch>, seats: set<Watch>, pending: map<Watch, Signal>, presence: set<Watch>,
    owed: map<Watch, Signal>, owedPresence: set<Watch>, queue: seq<Watch>,
    sitter: Option<Person>, stage: Stage, aborted: bool, log: seq<Entry>)

  datatype Again = NoAnswer | No | Yes(personId: string)
  datatype Sitting = NotAnswered | Sits(person: Option<Person>)

  datatype Event =
    | Hear(watch: Watch, signal: Signal)
    | Tick
    | Seen(watch: Watch)
    | Begin
    | AgainIs(again: Again)
    | SitterIs(sitting: Sitting)
    | Wrote
    | Failed
    | Abort
    | StopAll

  function Start(watches: seq<Watch>, sitter: Option<Person>): State {
    State(watches, {}, map[], {}, map[], {}, [], sitter, Idle, false, [])
  }

  // ------------------------------------------------------------------ what each step does

  predicate Due(s: State, w: Watch) {
    w in s.pending || w in s.presence
  }

  function Queue(s: State, w: Watch): seq<Watch> {
    if Due(s, w) then s.queue else s.queue + [w]
  }

  function Stronger(was: Option<Signal>, signal: Signal): Signal {
    if was.None? || Rank(signal) > Rank(was.value) then signal else was.value
  }

  function Held(m: map<Watch, Signal>, w: Watch): Option<Signal> {
    if w in m then Some(m[w]) else None
  }

  function WantOf(s: State, w: Watch, signal: Signal): State {
    var was := if w in s.pending then Held(s.pending, w) else Held(s.owed, w);
    s.(queue := Queue(s, w),
       pending := s.pending[w := Stronger(was, signal)],
       owed := s.owed - {w},
       presence := if w in s.owedPresence then s.presence + {w} else s.presence,
       owedPresence := s.owedPresence - {w})
  }

  function WantAll(s: State, watches: seq<Watch>): State
    decreases |watches|
  {
    if watches == [] then s else WantAll(WantOf(s, watches[0], Check), watches[1..])
  }

  function CheckAllOf(s: State): State {
    WantAll(s, s.open)
  }

  function Show(s: State, w: Watch): State {
    s.(queue := Queue(s, w), presence := s.presence + {w})
  }

  function OweOf(s: State, w: Watch, signal: Option<Signal>, shown: bool): State {
    s.(owed := s.owed[w := Stronger(Held(s.owed, w), signal.GetOr(Check))],
       owedPresence := if shown then s.owedPresence + {w} else s.owedPresence)
  }

  function Close(s: State, w: Watch): State {
    s.(open := Filter(v => v != w, s.open), seats := s.seats - {w}, stage := Closing(w))
  }

  /** What is to be said, if anything; `check` says nothing. */
  function StartWriting(s: State, w: Watch, signal: Option<Signal>, shown: bool, admitted: string): State {
    var says := signal.Some? && signal.value != Check;
    s.(stage := if says || shown then Writing(w, if says then signal else None, shown, admitted) else Idle)
  }

  function Admit(s: State, w: Watch, signal: Option<Signal>, shown: bool, admitted: string): State {
    StartWriting(s.(log := s.log + [Admitted(w, admitted)]), w, signal, shown, admitted)
  }

  /** The next delivery starts: it takes what is due, and asks unless there is no one to ask for. */
  function Begun(s: State): State
    requires s.queue != []
  {
    var w := s.queue[0];
    var taken := s.(queue := s.queue[1..], pending := s.pending - {w}, presence := s.presence - {w});
    if s.aborted || !Due(s, w) || w !in s.open then taken
    else taken.(stage := Asking(w, Held(s.pending, w), w in s.presence), log := s.log + [Asked(w)])
  }

  function Answered(seated: bool, s: State, again: Again): State
    requires s.stage.Asking?
  {
    var w, signal, shown := s.stage.watch, s.stage.signal, s.stage.shown;
    match again
    case NoAnswer => OweOf(s.(stage := Idle), w, signal, shown)
    case No => Close(s, w)
    case Yes(personId) =>
      if !seated || w.chat then Admit(s, w, signal, shown, personId)
      else s.(stage := Reseating(w, signal, shown, personId))
  }

  function MoveTo(s: State, person: Option<Person>): State {
    CheckAllOf(s.(stage := Idle, seats := {}, sitter := person, log := s.log + [Moved(person)]))
  }

  function Resat(s: State, sitting: Sitting): State
    requires s.stage.Reseating?
  {
    var w, signal, shown, admitted := s.stage.watch, s.stage.signal, s.stage.shown, s.stage.admitted;
    match sitting
    case NotAnswered => OweOf(s.(stage := Idle), w, signal, shown)
    case Sits(person) =>
      if person != s.sitter then
        var asked := WantOf(MoveTo(s, person), w, signal.GetOr(Check));
        if shown then asked.(presence := asked.presence + {w}) else asked
      else if person.None? || person.value.personId != admitted then Close(s, w)
      else Admit(s.(seats := s.seats + {w}), w, signal, shown, admitted)
  }

  /** A stream that has ended is written nothing. */
  function Say(s: State, frame: Frame): seq<Entry>
    requires !s.stage.Idle?
  {
    if s.aborted then s.log else s.log + [Said(s.stage.watch, frame, s.stage.watch in s.seats, s.sitter)]
  }

  function Written(s: State): State
    requires s.stage.Writing? || s.stage.Closing?
  {
    match s.stage
    case Writing(w, Some(signal), shown, admitted) =>
      StartWriting(s.(log := Say(s, Signalled(signal))), w, None, shown, admitted)
    case Writing(w, None, _, _) => s.(log := Say(s, PresenceChanged), stage := Idle)
    case Closing(w) => s.(log := Say(s, ClosedNow), stage := Idle, aborted := s.aborted || s.open == [])
  }

  function Next(seated: bool, s: State, e: Event): State {
    match e
    case Hear(w, signal) => if w in s.open then WantOf(s, w, signal) else s
    case Tick => CheckAllOf(s)
    case Seen(w) => if w in s.seats then Show(s, w) else s
    case Begin => if s.stage.Idle? && s.queue != [] then Begun(s) else s
    case AgainIs(again) => if s.stage.Asking? then Answered(seated, s, again) else s
    case SitterIs(sitting) => if s.stage.Reseating? then Resat(s, sitting) else s
    case Wrote => if s.stage.Writing? || s.stage.Closing? then Written(s) else s
    case Failed => if s.stage.Idle? then s else s.(stage := Idle, aborted := true)
    case Abort => s.(aborted := true)
    case StopAll => if s.aborted && s.stage.Idle? then s.(open := [], seats := {}) else s
  }

  function Run(seated: bool, s: State, events: seq<Event>): State
    decreases |events|
  {
    if events == [] then s else Run(seated, Next(seated, s, events[0]), events[1..])
  }

  // ------------------------------------------------------------------ one delivery is queued for what is due

  ghost predicate OneIn(queue: seq<Watch>, pending: map<Watch, Signal>, presence: set<Watch>) {
    forall w :: multiset(queue)[w] == if w in pending || w in presence then 1 else 0
  }

  ghost predicate OneQueued(s: State) {
    OneIn(s.queue, s.pending, s.presence)
  }

  lemma {:induction false} WantQueues(s: State, w: Watch, signal: Signal)
    requires OneQueued(s)
    ensures OneQueued(WantOf(s, w, signal))
  {
  }

  lemma {:induction false} WantAllQueues(s: State, watches: seq<Watch>)
    requires OneQueued(s)
    ensures OneQueued(WantAll(s, watches))
    decreases |watches|
  {
    if watches != [] {
      WantQueues(s, watches[0], Check);
      WantAllQueues(WantOf(s, watches[0], Check), watches[1..]);
    }
  }

  lemma {:induction false} BegunQueues(s: State)
    requires OneQueued(s) && s.queue != []
    ensures OneQueued(Begun(s))
  {
    var w, t := s.queue[0], Begun(s);
    assert s.queue == [w] + s.queue[1..];
    assert multiset(s.queue) == multiset{w} + multiset(s.queue[1..]);
    forall v ensures multiset(t.queue)[v] == if Due(t, v) then 1 else 0 {
      assert multiset(s.queue)[v] == if Due(s, v) then 1 else 0;
    }
  }

  lemma {:induction false} ResatQueues(s: State, sitting: Sitting)
    requires OneQueued(s) && s.stage.Reseating?
    ensures OneQueued(Resat(s, sitting))
  {
    if sitting.Sits? && sitting.person != s.sitter {
      var left := s.(stage := Idle, seats := {}, sitter := sitting.person, log := s.log + [Moved(sitting.person)]);
      WantAllQueues(left, s.open);
      var moved := MoveTo(s, sitting.person);
      assert OneQueued(moved);
      WantQueues(moved, s.stage.watch, s.stage.signal.GetOr(Check));
    }
  }

  lemma {:induction false} AnsweredSame(seated: bool, s: State, again: Again)
    requires s.stage.Asking?
    ensures var t := Answered(seated, s, again); t.queue == s.queue && t.pending == s.pending && t.presence == s.presence
  {
  }

  lemma {:induction false} WrittenSame(s: State)
    requires s.stage.Writing? || s.stage.Closing?
    ensures var t := Written(s); t.queue == s.queue && t.pending == s.pending && t.presence == s.presence
  {
  }

  lemma {:induction false} NextQueues(seated: bool, s: State, e: Event)
    requires OneQueued(s)
    ensures OneQueued(Next(seated, s, e))
  {
    match e {
      case Hear(w, signal) => WantQueues(s, w, signal);
      case Tick => WantAllQueues(s, s.open);
      case Begin =>
        if s.stage.Idle? && s.queue != [] {
          BegunQueues(s);
        }
      case SitterIs(sitting) =>
        if s.stage.Reseating? {
          ResatQueues(s, sitting);
        }
      case AgainIs(again) =>
        if s.stage.Asking? {
          AnsweredSame(seated, s, again);
        }
      case Wrote =>
        if s.stage.Writing? || s.stage.Closing? {
          WrittenSame(s);
        }
      case _ =>
    }
  }

  /** In every reachable state, a watch has a signal or a presence change pending exactly when one unstarted delivery of it is queued. */
  lemma {:induction false} OneDeliveryIsQueued(seated: bool, s: State, events: seq<Event>)
    requires OneQueued(s)
    ensures OneQueued(Run(seated, s, events))
    decreases |events|
  {
    if events != [] {
      NextQueues(seated, s, events[0]);
      OneDeliveryIsQueued(seated, Next(seated, s, events[0]), events[1..]);
    }
  }

  // ------------------------------------------------------------------ what was heard stays covered until it is said

  datatype Heard = HeardSignal(signal: Signal) | HeardPresence

  /** What waits for one watch: pending for the queued delivery, or owed to the next check. */
  datatype Box = Box(pending: Option<Signal>, owed: Option<Signal>, shown: bool, owedShown: bool)

  function At(s: State, w: Watch): Box {
    Box(Held(s.pending, w), Held(s.owed, w), w in s.presence, w in s.owedPresence)
  }

  function WantBox(b: Box, signal: Signal): Box {
    Box(Some(Stronger(if b.pending.Some? then b.pending else b.owed, signal)), None, b.shown || b.owedShown, false)
  }

  predicate AtLeast(held: Option<Signal>, signal: Signal) {
    held.Some? && Rank(held.value) >= Rank(signal)
  }

  predicate Waits(b: Box, h: Heard) {
    match h
    case HeardSignal(signal) => AtLeast(b.pending, signal) || AtLeast(b.owed, signal)
    case HeardPresence => b.shown || b.owedShown
  }

  /** The watch is closed, or the stream has ended. */
  predicate Over(s: State, w: Watch) {
    s.aborted || w !in s.open
  }

  /** The delivery in flight is to say it. */
  predicate Carries(stage: Stage, w: Watch, h: Heard) {
    && (stage.Asking? || stage.Reseating? || stage.Writing?)
    && stage.watch == w
    && match h {
         case HeardSignal(signal) => AtLeast(stage.signal, signal)
         case HeardPresence => stage.shown
       }
  }

  predicate Says(entry: Entry, w: Watch, h: Heard) {
    && entry.Said? && entry.watch == w
    && match h {
         case HeardSignal(signal) => entry.frame.Signalled? && Rank(entry.frame.signal) >= Rank(signal)
         case HeardPresence => entry.frame == PresenceChanged
       }
  }

  /** Where one thing heard has come to: waiting, taken by a delivery begun since, or said by that delivery. */
  datatype Place = Waiting | Taken | SaidIt

  function Track(place: Place, s: State, t: State, w: Watch, h: Heard): Place {
    match place
    case Waiting => if s.stage.Idle? && Carries(t.stage, w, h) then Taken else Waiting
    case Taken =>
      if |t.log| > |s.log| && Says(t.log[|s.log|], w, h) then SaidIt
      else if t.stage.Idle? then Waiting
      else Taken
    case SaidIt => SaidIt
  }

  predicate Placed(place: Place, s: State, w: Watch, h: Heard) {
    match place
    case Waiting => Over(s, w) || Waits(At(s, w), h)
    case Taken => Over(s, w) || Carries(s.stage, w, h)
    case SaidIt => true
  }

  /** The signal a step wants of `w`, if any. */
  function Wanted(s: State, e: Event, w: Watch): Option<Signal> {
    if w !in s.open then None
    else match e
    case Hear(v, signal) => if v == w then Some(signal) else None
    case Tick => Some(Check)
    case SitterIs(Sits(person)) =>
      if !s.stage.Reseating? || person == s.sitter then None
      else if s.stage.watch == w then Some(s.stage.signal.GetOr(Check))
      else Some(Check)
    case _ => None
  }

  /** `want` drops what is owed when something weaker is pending. */
  predicate Drops(b: Box, signal: Signal) {
    && b.pending.Some? && b.owed.Some?
    && Rank(b.owed.value) > Rank(b.pending.value) && Rank(b.owed.value) > Rank(signal)
  }

  predicate Keeps(s: State, e: Event, w: Watch) {
    Wanted(s, e, w).Some? ==> !Drops(At(s, w), Wanted(s, e, w).value)
  }

  lemma {:induction false} WantAllFrame(s: State, watches: seq<Watch>)
    ensures var t := WantAll(s, watches);
            t == s.(queue := t.queue, pending := t.pending, presence := t.presence, owed := t.owed, owedPresence := t.owedPresence)
    decreases |watches|
  {
    if watches != [] {
      WantAllFrame(WantOf(s, watches[0], Check), watches[1..]);
    }
  }

  lemma {:induction false} WantAllAt(s: State, watches: seq<Watch>, w: Watch)
    ensures At(WantAll(s, watches), w) == if w in watches then WantBox(At(s, w), Check) else At(s, w)
    decreases |watches|
  {
    if watches != [] {
      WantAllAt(WantOf(s, watches[0], Check), watches[1..], w);
    }
  }

  predicate Kept(place: Place, s: State, t: State, w: Watch, h: Heard) {
    Placed(Track(place, s, t, w, h), t, w, h)
  }

  lemma {:induction false} WantKeeps(s: State, w: Watch, signal: Signal, v: Watch, place: Place, h: Heard)
    requires Placed(place, s, v, h) && (v == w ==> !Drops(At(s, w), signal))
    ensures Kept(place, s, WantOf(s, w, signal), v, h)
  {
    assert v != w ==> At(WantOf(s, w, signal), v) == At(s, v);
    assert At(WantOf(s, w, signal), w) == WantBox(At(s, w), signal);
  }

  lemma {:induction false} CheckAllKeeps(s: State, w: Watch, place: Place, h: Heard)
    requires Placed(place, s, w, h) && !Drops(At(s, w), Check)
    ensures Kept(place, s, CheckAllOf(s), w, h)
  {
    WantAllAt(s, s.open, w);
    WantAllFrame(s, s.open);
  }

  lemma {:induction false} BegunKeeps(s: State, w: Watch, place: Place, h: Heard)
    requires s.stage.Idle? && s.queue != [] && OneQueued(s) && Placed(place, s, w, h)
    ensures Kept(place, s, Begun(s), w, h)
  {
    var v := s.queue[0];
    if v != w {
      assert At(Begun(s), w) == At(s, w);
    } else {
      assert At(Begun(s), w) == Box(None, At(s, w).owed, false, At(s, w).owedShown);
    }
  }

  lemma {:induction false} OweKeeps(s: State, w: Watch, place: Place, h: Heard)
    requires (s.stage.Asking? || s.stage.Reseating?) && Placed(place, s, w, h)
    ensures Kept(place, s, OweOf(s.(stage := Idle), s.stage.watch, s.stage.signal, s.stage.shown), w, h)
  {
    var t := OweOf(s.(stage := Idle), s.stage.watch, s.stage.signal, s.stage.shown);
    if s.stage.watch != w {
      assert At(t, w) == At(s, w);
    } else {
      assert At(t, w) == At(s, w).(owed := Some(Stronger(At(s, w).owed, s.stage.signal.GetOr(Check))),
                                   owedShown := At(s, w).owedShown || s.stage.shown);
    }
  }

  lemma {:induction false} MoveToAt(s: State, person: Option<Person>, w: Watch)
    ensures var t := MoveTo(s, person);
            && t == s.(stage := Idle, seats := {}, sitter := person, log := s.log + [Moved(person)], queue := t.queue,
                       pending := t.pending, presence := t.presence, owed := t.owed, owedPresence := t.owedPresence)
            && At(t, w) == if w in s.open then WantBox(At(s, w), Check) else At(s, w)
  {
    var left := s.(stage := Idle, seats := {}, sitter := person, log := s.log + [Moved(person)]);
    WantAllAt(left, s.open, w);
    WantAllFrame(left, s.open);
  }

  /** A person who moved in: each open watch is asked again, and what this one was to say waits for that. */
  lemma {:induction false} MovedAt(s: State, person: Option<Person>, w: Watch)
    requires s.stage.Reseating? && person != s.sitter
    ensures var t := Resat(s, Sits(person));
            && t.stage.Idle? && t.log == s.log + [Moved(person)] && t.open == s.open && t.aborted == s.aborted
            && t.seats == {} && t.sitter == person
            && (w in s.open ==>
                  At(t, w) == if s.stage.watch == w
                              then var b := WantBox(At(s, w), s.stage.signal.GetOr(Check)); b.(shown := b.shown || s.stage.shown)
                              else WantBox(At(s, w), Check))
  {
    MoveToAt(s, person, w);
    var moved, signal := MoveTo(s, person), s.stage.signal.GetOr(Check);
    var asked := WantOf(moved, s.stage.watch, signal);
    if w == s.stage.watch {
      assert At(asked, w) == WantBox(At(moved, w), signal);
    } else {
      assert At(asked, w) == At(moved, w);
    }
  }

  lemma {:induction false} MovedKeeps(s: State, person: Option<Person>, w: Watch, place: Place, h: Heard)
    requires s.stage.Reseating? && person != s.sitter && Placed(place, s, w, h)
    requires h.HeardSignal? ==> h.signal != Check && Keeps(s, SitterIs(Sits(person)), w)
    ensures Kept(place, s, Resat(s, Sits(person)), w, h)
  {
    MovedAt(s, person, w);
  }

  lemma {:induction false} ResatKeeps(s: State, sitting: Sitting, w: Watch, place: Place, h: Heard)
    requires s.stage.Reseating? && Placed(place, s, w, h)
    requires h.HeardSignal? ==> h.signal != Check && Keeps(s, SitterIs(sitting), w)
    ensures Kept(place, s, Resat(s, sitting), w, h)
  {
    match sitting {
      case NotAnswered => OweKeeps(s, w, place, h);
      case Sits(person) =>
        if person != s.sitter {
          MovedKeeps(s, person, w, place, h);
        } else {
          FilterMembers(v => v != s.stage.watch, s.open, w);
        }
    }
  }

  lemma {:induction false} AnsweredKeeps(seated: bool, s: State, again: Again, w: Watch, place: Place, h: Heard)
    requires s.stage.Asking? && Placed(place, s, w, h)
    requires h.HeardSignal? ==> h.signal != Check
    ensures Kept(place, s, Answered(seated, s, again), w, h)
  {
    match again {
      case NoAnswer => OweKeeps(s, w, place, h);
      case _ => FilterMembers(v => v != s.stage.watch, s.open, w);
    }
  }

  lemma {:induction false} SaidKeeps(s: State, w: Watch, place: Place, h: Heard)
    requires s.stage.Writing? && Placed(place, s, w, h)
    requires h.HeardSignal? ==> h.signal != Check
    ensures Kept(place, s, Written(s), w, h)
  {
    assert At(Written(s), w) == At(s, w);
  }

  lemma {:induction false} WrittenKeeps(s: State, w: Watch, place: Place, h: Heard)
    requires (s.stage.Writing? || s.stage.Closing?) && Placed(place, s, w, h)
    requires h.HeardSignal? ==> h.signal != Check
    ensures Kept(place, s, Written(s), w, h)
  {
    if s.stage.Writing? {
      SaidKeeps(s, w, place, h);
    } else {
      assert At(Written(s), w) == At(s, w);
    }
  }

  /**
   * Each thing heard, wherever it has come to, stays waiting or with the delivery
   * that took it until that delivery says it, its watch is closed or the stream
   * ends, unless the step drops what is owed.
   */
  lemma {:induction false} NextKeepsHeard(seated: bool, s: State, e: Event, w: Watch, place: Place, h: Heard)
    requires OneQueued(s) && Placed(place, s, w, h) && Keeps(s, e, w)
    requires h.HeardSignal? ==> h.signal != Check
    ensures Kept(place, s, Next(seated, s, e), w, h)
  {
    match e {
      case Hear(v, signal) =>
        if w in s.open && v in s.open {
          WantKeeps(s, v, signal, w, place, h);
        }
      case Tick =>
        if w in s.open {
          CheckAllKeeps(s, w, place, h);
        } else {
          WantAllAt(s, s.open, w);
          WantAllFrame(s, s.open);
        }
      case Begin =>
        if s.stage.Idle? && s.queue != [] {
          BegunKeeps(s, w, place, h);
        }
      case AgainIs(again) =>
        if s.stage.Asking? {
          AnsweredKeeps(seated, s, again, w, place, h);
        }
      case SitterIs(sitting) =>
        if s.stage.Reseating? {
          ResatKeeps(s, sitting, w, place, h);
        }
      case Wrote =>
        if s.stage.Writing? || s.stage.Closing? {
          WrittenKeeps(s, w, place, h);
        }
      case _ =>
    }
  }

  /** A step leaves everything heard for an open watch covered exactly when it wants nothing weaker than what it would drop. */
  lemma {:induction false} CoveredExactlyWhenKept(seated: bool, s: State, e: Event, w: Watch)
    requires OneQueued(s) && w in s.open && !s.aborted
    ensures (forall place, h | Placed(place, s, w, h) && (h.HeardSignal? ==> h.signal != Check) :: Kept(place, s, Next(seated, s, e), w, h))
         <==> Keeps(s, e, w)
  {
    if Keeps(s, e, w) {
      forall place, h | Placed(place, s, w, h) && (h.HeardSignal? ==> h.signal != Check)
        ensures Kept(place, s, Next(seated, s, e), w, h)
      {
        NextKeepsHeard(seated, s, e, w, place, h);
      }
    } else {
      DroppedIsLost(seated, s, e, w);
    }
  }

  lemma {:induction false} DroppedIsLost(seated: bool, s: State, e: Event, w: Watch)
    requires w in s.open && !s.aborted && !Keeps(s, e, w)
    ensures var h := HeardSignal(s.owed[w]);
            w in s.owed && h.signal != Check && Placed(Waiting, s, w, h) && !Kept(Waiting, s, Next(seated, s, e), w, h)
  {
    match e {
      case Hear(v, signal) => assert At(WantOf(s, w, signal), w) == WantBox(At(s, w), signal);
      case Tick => WantAllAt(s, s.open, w);
          WantAllFrame(s, s.open);
      case SitterIs(Sits(person)) => MovedAt(s, person, w);
      case _ =>
    }
  }

  function Tracked(seated: bool, s: State, events: seq<Event>, w: Watch, h: Heard, place: Place): Place
    decreases |events|
  {
    if events == [] then place
    else var t := Next(seated, s, events[0]); Tracked(seated, t, events[1..], w, h, Track(place, s, t, w, h))
  }

  predicate KeptThroughout(seated: bool, s: State, events: seq<Event>, w: Watch)
    decreases |events|
  {
    events != [] ==> Keeps(s, events[0], w) && KeptThroughout(seated, Next(seated, s, events[0]), events[1..], w)
  }

  lemma {:induction false} StaysPlaced(seated: bool, s: State, events: seq<Event>, w: Watch, h: Heard, place: Place)
    requires OneQueued(s) && Placed(place, s, w, h) && KeptThroughout(seated, s, events, w)
    requires h.HeardSignal? ==> h.signal != Check
    ensures Placed(Tracked(seated, s, events, w, h, place), Run(seated, s, events), w, h)
    decreases |events|
  {
    if events != [] {
      var t := Next(seated, s, events[0]);
      NextKeepsHeard(seated, s, events[0], w, place, h);
      NextQueues(seated, s, events[0]);
      StaysPlaced(seated, t, events[1..], w, h, Track(place, s, t, w, h));
    }
  }

  /** A signal heard in any reachable state, over any run that drops nothing owed to its watch. */
  lemma {:induction false} HeardStaysCovered(seated: bool, watches: seq<Watch>, sitter: Option<Person>, before: seq<Event>,
                                             w: Watch, signal: Signal, after: seq<Event>)
    requires signal != Check
    ensures var s := Run(seated, Start(watches, sitter), before);
            var t := Next(seated, s, Hear(w, signal));
            Keeps(s, Hear(w, signal), w) && KeptThroughout(seated, t, after, w) ==>
              Placed(Tracked(seated, t, after, w, HeardSignal(signal), Waiting), Run(seated, t, after), w, HeardSignal(signal))
  {
    var s := Run(seated, Start(watches, sitter), before);
    OneDeliveryIsQueued(seated, Start(watches, sitter), before);
    var t := Next(seated, s, Hear(w, signal));
    NextQueues(seated, s, Hear(w, signal));
    if Keeps(s, Hear(w, signal), w) && KeptThroughout(seated, t, after, w) {
      assert w in s.open ==> At(t, w) == WantBox(At(s, w), signal);
      StaysPlaced(seated, t, after, w, HeardSignal(signal), Waiting);
    }
  }

  lemma {:induction false} PresenceStep(seated: bool, s: State, e: Event, w: Watch, place: Place)
    requires OneQueued(s) && Placed(place, s, w, HeardPresence)
    ensures Kept(place, s, Next(seated, s, e), w, HeardPresence)
  {
    match e {
      case Hear(v, signal) =>
        if v in s.open {
          assert v != w ==> At(WantOf(s, v, signal), w) == At(s, w);
          assert At(WantOf(s, v, signal), v) == WantBox(At(s, v), signal);
        }
      case Tick => WantAllAt(s, s.open, w);
          WantAllFrame(s, s.open);
      case SitterIs(sitting) =>
        if s.stage.Reseating? {
          ResatKeeps(s, sitting, w, place, HeardPresence);
        }
      case _ => NextKeepsHeard(seated, s, e, w, place, HeardPresence);
    }
  }

  /** A presence change seen is never dropped. */
  lemma {:induction false} PresenceStaysCovered(seated: bool, s: State, events: seq<Event>, w: Watch, place: Place)
    requires OneQueued(s) && Placed(place, s, w, HeardPresence)
    ensures Placed(Tracked(seated, s, events, w, HeardPresence, place), Run(seated, s, events), w, HeardPresence)
    decreases |events|
  {
    if events != [] {
      var t := Next(seated, s, events[0]);
      PresenceStep(seated, s, events[0], w, place);
      NextQueues(seated, s, events[0]);
      PresenceStaysCovered(seated, t, events[1..], w, Track(place, s, t, w, HeardPresence));
    }
  }

  predicate Runs(seated: bool, states: seq<State>, events: seq<Event>) {
    && |states| == |events| + 1
    && forall i :: 0 <= i < |events| ==> states[i + 1] == Next(seated, states[i], events[i])
  }

  lemma {:induction false} RunsTo(seated: bool, states: seq<State>, events: seq<Event>)
    requires Runs(seated, states, events)
    ensures Run(seated, states[0], events) == states[|events|]
    decreases |events|
  {
    if events != [] {
      RunsTo(seated, states[1..], events[1..]);
    }
  }

  lemma {:induction false} RunOn(seated: bool, s: State, before: seq<Event>, after: seq<Event>)
    ensures Run(seated, s, before + after) == Run(seated, Run(seated, s, before), after)
    decreases |before|
  {
    if before == [] {
      assert before + after == after;
    } else {
      assert (before + after)[1..] == before[1..] + after;
      RunOn(seated, Next(seated, s, before[0]), before[1..], after);
    }
  }

  /** A check of `a` waits behind the delivery of `b`, and a `resync` it could not be asked about is owed to it. */
  function OwedBehind(a: Watch, b: Watch): State {
    State([a, b], {}, map[a := Check], {}, map[a := Resync], {}, [a], None, Asking(b, Some(Invalidate), false), false,
          [Asked(a), Asked(b)])
  }

  lemma {:induction false} RunThree(seated: bool, s: State, a: Event, b: Event, c: Event)
    ensures Run(seated, s, [a, b, c]) == Next(seated, Next(seated, Next(seated, s, a), b), c)
  {
    var s1 := Next(seated, s, a);
    var s2 := Next(seated, s1, b);
    RunsTo(seated, [s, s1, s2, Next(seated, s2, c)], [a, b, c]);
  }

  /** `a` is being asked about, for a `resync`; the delivery of `b` waits behind it. */
  function AskedAhead(a: Watch, b: Watch): State {
    State([a, b], {}, map[b := Invalidate], {}, map[], {}, [b], None, Asking(a, Some(Resync), false), false, [Asked(a)])
  }

  lemma {:induction false} ReachesAskedAhead(a: Watch, b: Watch)
    requires a != b
    ensures Run(false, Start([a, b], None), [Hear(a, Resync), Begin, Hear(b, Invalidate)]) == AskedAhead(a, b)
  {
    var s0 := Start([a, b], None);
    var s1 := s0.(queue := [a], pending := map[a := Resync]);
    assert s1 == Next(false, s0, Hear(a, Resync));
    var s2 := s1.(queue := [], pending := map[], stage := Asking(a, Some(Resync), false), log := [Asked(a)]);
    assert s2 == Next(false, s1, Begin);
    assert AskedAhead(a, b) == Next(false, s2, Hear(b, Invalidate));
    RunThree(false, s0, Hear(a, Resync), Begin, Hear(b, Invalidate));
  }

  lemma {:induction false} ReachesOwedBehind(a: Watch, b: Watch)
    requires a != b
    ensures Run(false, AskedAhead(a, b), [Tick, AgainIs(NoAnswer), Begin]) == OwedBehind(a, b)
  {
    var s0 := AskedAhead(a, b);
    CheckBoth(s0, a, b);
    var s1 := s0.(queue := [b, a], pending := map[a := Check, b := Invalidate]);
    assert s1 == Next(false, s0, Tick);
    var s2 := s1.(owed := map[a := Resync], stage := Idle);
    assert s2 == Next(false, s1, AgainIs(NoAnswer));
    assert OwedBehind(a, b) == Next(false, s2, Begin);
    RunThree(false, s0, Tick, AgainIs(NoAnswer), Begin);
  }

  lemma {:induction false} CheckDropsIt(a: Watch, b: Watch)
    requires a != b
    ensures Run(false, OwedBehind(a, b), [Tick, AgainIs(Yes("p")), Wrote])
         == State([a, b], {}, map[a := Check, b := Check], {}, map[], {}, [a, b], None, Idle, false,
                  [Asked(a), Asked(b), Admitted(b, "p"), Said(b, Signalled(Invalidate), false, None)])
  {
    var s0 := OwedBehind(a, b);
    CheckBoth(s0, a, b);
    var s1 := s0.(queue := [a, b], pending := map[a := Check, b := Check], owed := map[]);
    assert s1 == Next(false, s0, Tick);
    var s2 := s1.(stage := Writing(b, Some(Invalidate), false, "p"), log := s1.log + [Admitted(b, "p")]);
    assert s2 == Next(false, s1, AgainIs(Yes("p")));
    RunThree(false, s0, Tick, AgainIs(Yes("p")), Wrote);
  }

  /**
   * What is owed can be lost: with a check of its watch already waiting behind
   * another delivery, the next check drops a `resync` the provider could not be
   * asked about. Nothing has been said of it, and only the check is left.
   */
  lemma {:induction false} OwedResyncIsLost(a: Watch, b: Watch)
    requires a != b
    ensures var t := Run(false, Start([a, b], None), [Hear(a, Resync), Begin, Hear(b, Invalidate)]
                         + [Tick, AgainIs(NoAnswer), Begin] + [Tick, AgainIs(Yes("p")), Wrote]);
            && At(t, a) == Box(Some(Check), None, false, false) && t.stage.Idle? && !Over(t, a)
            && forall i :: 0 <= i < |t.log| ==> t.log[i].Said? ==> t.log[i].watch == b
  {
    ReachesAskedAhead(a, b);
    ReachesOwedBehind(a, b);
    CheckDropsIt(a, b);
    var first, second, third := [Hear(a, Resync), Begin, Hear(b, Invalidate)], [Tick, AgainIs(NoAnswer), Begin], [Tick, AgainIs(Yes("p")), Wrote];
    RunOn(false, Start([a, b], None), first, second);
    RunOn(false, Start([a, b], None), first + second, third);
  }

  lemma {:induction false} CheckBoth(s: State, a: Watch, b: Watch)
    requires s.open == [a, b]
    ensures CheckAllOf(s) == WantOf(WantOf(s, a, Check), b, Check)
  {
    assert [a, b][1..] == [b];
    assert WantAll(WantOf(WantOf(s, a, Check), b, Check), []) == WantOf(WantOf(s, a, Check), b, Check);
    assert WantAll(WantOf(s, a, Check), [b]) == WantAll(WantOf(WantOf(s, a, Check), b, Check), [b][1..]);
  }

  // ------------------------------------------------------------------ nothing is said without a fresh answer

  /** `log[j]` admitted a person to `w`, just asked for; all said since is about `w`. */
  predicate FreshAt(log: seq<Entry>, j: nat, w: Watch, personId: string) {
    && 0 < j < |log| && log[j - 1] == Asked(w) && log[j] == Admitted(w, personId)
    && forall k :: j < k < |log| ==> log[k].Said? && log[k].watch == w
  }

  ghost predicate FreshFor(log: seq<Entry>, w: Watch, personId: string) {
    exists j: nat :: FreshAt(log, j, w, personId)
  }

  /** A signal or presence frame at `i` was asked for first, and on a seated page says so to the person sitting there. */
  ghost predicate Justified(seated: bool, log: seq<Entry>, i: nat)
    requires i < |log|
  {
    log[i].Said? && log[i].frame != ClosedNow ==>
      exists personId :: FreshFor(log[..i], log[i].watch, personId)
        && (seated && !log[i].watch.chat ==> log[i].sat && log[i].sitter.Some? && log[i].sitter.value.personId == personId)
  }

  ghost predicate AllJustified(seated: bool, log: seq<Entry>) {
    forall i: nat :: i < |log| ==> Justified(seated, log, i)
  }

  /** Since the present sitter came, this person was admitted on `w`. */
  ghost predicate AdmittedSince(log: seq<Entry>, w: Watch, personId: string) {
    exists j :: 0 <= j < |log| && log[j] == Admitted(w, personId) && forall k :: j < k < |log| ==> !log[k].Moved?
  }

  ghost predicate SeatsHold(s: State) {
    forall w :: w in s.seats ==> !w.chat && s.sitter.Some? && AdmittedSince(s.log, w, s.sitter.value.personId)
  }

  ghost predicate StageHolds(seated: bool, s: State) {
    match s.stage
    case Asking(w, _, _) => s.log != [] && s.log[|s.log| - 1] == Asked(w)
    case Reseating(w, _, _, _) => s.log != [] && s.log[|s.log| - 1] == Asked(w) && seated && !w.chat
    case Writing(w, signal, _, admitted) =>
      && FreshFor(s.log, w, admitted) && signal != Some(Check)
      && (seated && !w.chat ==> w in s.seats && s.sitter.Some? && s.sitter.value.personId == admitted)
    case _ => true
  }

  ghost predicate Told(seated: bool, s: State) {
    AllJustified(seated, s.log) && SeatsHold(s) && StageHolds(seated, s)
  }

  lemma {:induction false} AskedAgain(seated: bool, s: State, e: Event)
    requires Told(seated, s) && (e.Hear? || e.Tick? || e.Seen? || e.Abort? || e.StopAll? || e.Failed?)
    ensures Told(seated, Next(seated, s, e))
  {
    match e {
      case Tick =>
        WantAllFrame(s, s.open);
      case _ =>
    }
  }

  /** An entry that is not a frame takes nothing back, unless it tells of a new sitter. */
  lemma {:induction false} LogGrows(seated: bool, log: seq<Entry>, entry: Entry)
    requires AllJustified(seated, log) && Justified(seated, log + [entry], |log|)
    ensures AllJustified(seated, log + [entry])
    ensures forall w, p {:trigger AdmittedSince(log + [entry], w, p)} :: AdmittedSince(log, w, p) && !entry.Moved? ==> AdmittedSince(log + [entry], w, p)
  {
    var more := log + [entry];
    forall i: nat | i < |more| ensures Justified(seated, more, i) {
      if i < |log| {
        assert more[..i] == log[..i];
        assert Justified(seated, log, i);
      }
    }
    forall w, p | AdmittedSince(log, w, p) && !entry.Moved? ensures AdmittedSince(more, w, p) {
      var j :| 0 <= j < |log| && log[j] == Admitted(w, p) && forall k :: j < k < |log| ==> !log[k].Moved?;
      assert more[j] == Admitted(w, p);
    }
  }

  lemma {:induction false} BegunTells(seated: bool, s: State)
    requires Told(seated, s) && s.stage.Idle? && s.queue != []
    ensures Told(seated, Begun(s))
  {
    LogGrows(seated, s.log, Asked(s.queue[0]));
  }

  /** The answer admits: what follows is fresh. */
  lemma {:induction false} AdmitTells(seated: bool, s: State, w: Watch, signal: Option<Signal>, shown: bool, admitted: string)
    requires AllJustified(seated, s.log) && s.log != [] && s.log[|s.log| - 1] == Asked(w)
    requires forall v :: v in s.seats && v != w ==> !v.chat && s.sitter.Some? && AdmittedSince(s.log, v, s.sitter.value.personId)
    requires w in s.seats ==> !w.chat && s.sitter.Some? && s.sitter.value.personId == admitted
    requires seated && !w.chat ==> w in s.seats
    ensures Told(seated, Admit(s, w, signal, shown, admitted))
  {
    var log := s.log + [Admitted(w, admitted)];
    LogGrows(seated, s.log, Admitted(w, admitted));
    assert FreshAt(log, |s.log|, w, admitted);
    assert log[|s.log|] == Admitted(w, admitted);
    assert AdmittedSince(log, w, admitted);
  }

  lemma {:induction false} AnsweredTells(seated: bool, s: State, again: Again)
    requires Told(seated, s) && s.stage.Asking? && (!seated ==> s.seats == {})
    ensures Told(seated, Answered(seated, s, again))
  {
    if again.Yes? && (!seated || s.stage.watch.chat) {
      AdmitTells(seated, s, s.stage.watch, s.stage.signal, s.stage.shown, again.personId);
    }
  }

  lemma {:induction false} ResatTells(seated: bool, s: State, sitting: Sitting)
    requires Told(seated, s) && s.stage.Reseating?
    ensures Told(seated, Resat(s, sitting))
  {
    if sitting.Sits? && sitting.person != s.sitter {
      MovedAt(s, sitting.person, s.stage.watch);
      LogGrows(seated, s.log, Moved(sitting.person));
    } else if sitting.Sits? && sitting.person.Some? && sitting.person.value.personId == s.stage.admitted {
      AdmitTells(seated, s.(seats := s.seats + {s.stage.watch}), s.stage.watch, s.stage.signal, s.stage.shown, s.stage.admitted);
    }
  }

  lemma {:induction false} SaidJustified(seated: bool, s: State)
    requires Told(seated, s) && (s.stage.Writing? || s.stage.Closing?) && !s.aborted
    ensures Justified(seated, Written(s).log, |s.log|)
  {
    assert Written(s).log[..|s.log|] == s.log;
  }

  lemma {:induction false} SaysTells(seated: bool, s: State)
    requires Told(seated, s) && (s.stage.Writing? || s.stage.Closing?) && !s.aborted
    ensures Told(seated, Written(s))
  {
    var t := Written(s);
    var entry := t.log[|s.log|];
    assert t.log == s.log + [entry] && t.log[..|s.log|] == s.log;
    SaidJustified(seated, s);
    LogGrows(seated, s.log, entry);
    if s.stage.Writing? {
      var w, admitted := s.stage.watch, s.stage.admitted;
      var j: nat :| FreshAt(s.log, j, w, admitted);
      assert FreshAt(t.log, j, w, admitted);
    }
  }

  lemma {:induction false} WrittenTells(seated: bool, s: State)
    requires Told(seated, s) && (s.stage.Writing? || s.stage.Closing?)
    ensures Told(seated, Written(s))
  {
    if !s.aborted {
      SaysTells(seated, s);
    }
  }

  lemma {:induction false} NextTells(seated: bool, s: State, e: Event)
    requires Told(seated, s) && (!seated ==> s.seats == {})
    ensures Told(seated, Next(seated, s, e)) && (!seated ==> Next(seated, s, e).seats == {})
  {
    match e {
      case Begin =>
        if s.stage.Idle? && s.queue != [] {
          BegunTells(seated, s);
        }
      case AgainIs(again) =>
        if s.stage.Asking? {
          AnsweredTells(seated, s, again);
        }
      case SitterIs(sitting) =>
        if s.stage.Reseating? {
          ResatTells(seated, s, sitting);
        }
      case Wrote =>
        if s.stage.Writing? || s.stage.Closing? {
          WrittenTells(seated, s);
        }
      case _ =>
        AskedAgain(seated, s, e);
        if e.Tick? {
          WantAllFrame(s, s.open);
        }
    }
  }

  lemma {:induction false} RunTells(seated: bool, s: State, events: seq<Event>)
    requires Told(seated, s) && (!seated ==> s.seats == {})
    ensures Told(seated, Run(seated, s, events))
    decreases |events|
  {
    if events != [] {
      NextTells(seated, s, events[0]);
      RunTells(seated, Next(seated, s, events[0]), events[1..]);
    }
  }

  /**
   * Over every run: each signal or presence frame follows a fresh answer on its
   * watch, on a seated page the answer for the very person seated there; and
   * every seat is held by the present sitter, admitted on that page since they
   * became so.
   */
  lemma {:induction false} NothingIsSaidUnasked(seated: bool, watches: seq<Watch>, sitter: Option<Person>, events: seq<Event>)
    ensures var t := Run(seated, Start(watches, sitter), events); AllJustified(seated, t.log) && SeatsHold(t)
  {
    RunTells(seated, Start(watches, sitter), events);
  }

  // ------------------------------------------------------------------ what ends a watch, a seat and the stream

  /** The step ends the stream: by itself, by a failed question or write, or by a closing after which nothing is watched. */
  predicate Ends(s: State, e: Event) {
    match e
    case Abort => true
    case Failed => !s.stage.Idle?
    case Wrote => s.stage.Closing? && s.open == []
    case _ => false
  }

  /** The fresh answer about `w` is that the person may not follow it, or is about someone who does not sit. */
  predicate Refuses(s: State, e: Event, w: Watch) {
    match e
    case AgainIs(No) => s.stage.Asking? && s.stage.watch == w
    case SitterIs(Sits(person)) =>
      && s.stage.Reseating? && s.stage.watch == w && person == s.sitter
      && !(person.Some? && person.value.personId == s.stage.admitted)
    case _ => false
  }

  /** The login now resolves to someone else. */
  predicate MovesIn(s: State, e: Event) {
    e.SitterIs? && e.sitting.Sits? && s.stage.Reseating? && e.sitting.person != s.sitter
  }

  /** The person admitted to `w` sits there. */
  predicate SitsAt(s: State, e: Event, w: Watch) {
    && e.SitterIs? && e.sitting.Sits? && s.stage.Reseating? && s.stage.watch == w && e.sitting.person == s.sitter
    && s.sitter.Some? && s.sitter.value.personId == s.stage.admitted
  }

  lemma {:induction false} CheckAllFrame(s: State)
    ensures var t := CheckAllOf(s);
            t.open == s.open && t.seats == s.seats && t.aborted == s.aborted && t.stage == s.stage && t.log == s.log && t.sitter == s.sitter
  {
    WantAllFrame(s, s.open);
  }

  lemma {:induction false} MovesInFrame(s: State, person: Option<Person>)
    requires s.stage.Reseating? && person != s.sitter
    ensures var t := Resat(s, Sits(person));
            t.open == s.open && t.seats == {} && t.aborted == s.aborted && t.stage == Idle && t.log == s.log + [Moved(person)] && t.sitter == person
  {
    CheckAllFrame(s.(stage := Idle, seats := {}, sitter := person, log := s.log + [Moved(person)]));
  }

  /** From any state: the stream ends exactly by such a step, and never opens again. */
  lemma {:induction false} EndsExactlyBy(seated: bool, s: State, e: Event)
    ensures Next(seated, s, e).aborted <==> s.aborted || Ends(s, e)
  {
    if e.Tick? {
      CheckAllFrame(s);
    } else if MovesIn(s, e) {
      MovesInFrame(s, e.sitting.person);
    }
  }

  /** From any state: a watch leaves exactly by its own refusal, or with all of them once the stream has ended. */
  lemma {:induction false} LeavesExactlyBy(seated: bool, s: State, e: Event, w: Watch)
    ensures w in Next(seated, s, e).open <==> w in s.open && !Refuses(s, e, w) && !(e.StopAll? && s.aborted && s.stage.Idle?)
  {
    if e.Tick? {
      CheckAllFrame(s);
    } else if MovesIn(s, e) {
      MovesInFrame(s, e.sitting.person);
    } else if s.stage.Asking? || s.stage.Reseating? {
      FilterMembers(v => v != s.stage.watch, s.open, w);
    }
  }

  /** From any state: a page is sat on exactly from its own answer for the sitter, until a new person, its refusal or the end. */
  lemma {:induction false} SeatedExactlyBy(seated: bool, s: State, e: Event, w: Watch)
    ensures var t := Next(seated, s, e);
            w in t.seats <==> SitsAt(s, e, w) || (w in s.seats && !MovesIn(s, e) && !Refuses(s, e, w) && !(e.StopAll? && s.aborted && s.stage.Idle?))
    ensures Next(seated, s, e).sitter == if MovesIn(s, e) then e.sitting.person else s.sitter
  {
    if e.Tick? {
      CheckAllFrame(s);
    } else if MovesIn(s, e) {
      MovesInFrame(s, e.sitting.person);
    }
  }

  ghost predicate EndedAt(seated: bool, s: State, events: seq<Event>, n: nat) {
    n < |events| && Ends(Run(seated, s, events[..n]), events[n])
  }

  lemma {:induction false} EndedAtMore(seated: bool, s: State, events: seq<Event>, n: nat)
    requires events != []
    ensures var k := |events| - 1;
            EndedAt(seated, s, events, n) <==> EndedAt(seated, s, events[..k], n) || (n == k && Ends(Run(seated, s, events[..k]), events[k]))
  {
    if n < |events| - 1 {
      assert events[..n] == events[..|events| - 1][..n];
    }
  }

  /** Over every run: the stream has ended exactly when one of its steps was such. */
  lemma {:induction false} EndedExactlyWhen(seated: bool, s: State, events: seq<Event>)
    requires !s.aborted
    ensures Run(seated, s, events).aborted <==> exists n: nat :: EndedAt(seated, s, events, n)
  {
    if events != [] {
      var k := |events| - 1;
      RunLast(seated, s, events);
      EndedExactlyWhen(seated, s, events[..k]);
      EndsExactlyBy(seated, Run(seated, s, events[..k]), events[k]);
      forall n: nat ensures EndedAt(seated, s, events, n) <==> EndedAt(seated, s, events[..k], n) || (n == k && Ends(Run(seated, s, events[..k]), events[k])) {
        EndedAtMore(seated, s, events, n);
      }
      if Ends(Run(seated, s, events[..k]), events[k]) {
        assert EndedAt(seated, s, events, k);
      }
    }
  }

  lemma {:induction false} RunLast(seated: bool, s: State, events: seq<Event>)
    requires events != []
    ensures Run(seated, s, events) == Next(seated, Run(seated, s, events[..|events| - 1]), events[|events| - 1])
    decreases |events|
  {
    var k := |events| - 1;
    if k == 0 {
      assert events[1..] == [] && events[..0] == [];
    } else {
      assert events[1..][..k - 1] == events[..k][1..];
      RunLast(seated, Next(seated, s, events[0]), events[1..]);
    }
  }

  /** How often `w` was told it is closed. */
  function ToldClosed(log: seq<Entry>, w: Watch): nat {
    if log == [] then 0
    else ToldClosed(log[..|log| - 1], w) + if log[|log| - 1].Said? && log[|log| - 1].watch == w && log[|log| - 1].frame == ClosedNow then 1 else 0
  }

  lemma {:induction false} ToldClosedMore(log: seq<Entry>, entry: Entry, w: Watch)
    ensures ToldClosed(log + [entry], w) == ToldClosed(log, w) + if entry.Said? && entry.watch == w && entry.frame == ClosedNow then 1 else 0
  {
    assert (log + [entry])[..|log|] == log;
  }

  /** Watched and never told; or left, and told or about to be, once. An ended stream may leave it untold. */
  predicate ClosedRight(s: State, w: Watch, told: nat) {
    && ((s.stage.Asking? || s.stage.Reseating? || s.stage.Writing?) && s.stage.watch == w ==> w in s.open)
    && (s.stage == Closing(w) ==> w !in s.open)
    && (w in s.seats ==> w in s.open)
    && told <= 1
    && (w in s.open || s.stage == Closing(w) ==> told == 0)
    && (w !in s.open && !s.aborted && s.stage != Closing(w) ==> told == 1)
  }

  predicate ClosedOnce(s: State, w: Watch) {
    ClosedRight(s, w, ToldClosed(s.log, w))
  }

  predicate TellsClosed(s: State, e: Event, w: Watch) {
    e.Wrote? && s.stage == Closing(w) && !s.aborted
  }

  lemma {:induction false} WrittenTellsClosed(s: State, w: Watch)
    requires s.stage.Writing? || s.stage.Closing?
    ensures ToldClosed(Written(s).log, w) == ToldClosed(s.log, w) + if s.stage == Closing(w) && !s.aborted then 1 else 0
  {
    var frame := match s.stage case Writing(_, Some(signal), _, _) => Signalled(signal) case Closing(_) => ClosedNow case _ => PresenceChanged;
    ToldClosedMore(s.log, Said(s.stage.watch, frame, s.stage.watch in s.seats, s.sitter), w);
  }

  lemma {:induction false} AdmitTellsNoClosing(s: State, w: Watch, signal: Option<Signal>, shown: bool, admitted: string, v: Watch)
    ensures ToldClosed(Admit(s, w, signal, shown, admitted).log, v) == ToldClosed(s.log, v)
  {
    ToldClosedMore(s.log, Admitted(w, admitted), v);
  }

  lemma {:induction false} OthersTellNoClosing(seated: bool, s: State, e: Event, w: Watch)
    requires !e.Wrote? && !e.Tick? && !MovesIn(s, e)
    ensures ToldClosed(Next(seated, s, e).log, w) == ToldClosed(s.log, w)
  {
    if e.Begin? && s.stage.Idle? && s.queue != [] {
      ToldClosedMore(s.log, Asked(s.queue[0]), w);
    } else if e.AgainIs? && s.stage.Asking? && e.again.Yes? {
      AdmitTellsNoClosing(s, s.stage.watch, s.stage.signal, s.stage.shown, e.again.personId, w);
    } else if e.SitterIs? && s.stage.Reseating? {
      AdmitTellsNoClosing(s.(seats := s.seats + {s.stage.watch}), s.stage.watch, s.stage.signal, s.stage.shown, s.stage.admitted, w);
    }
  }

  /** From any state: `closed` is told exactly by the write of a closing, on a stream not ended. */
  lemma {:induction false} ToldClosedExactlyBy(seated: bool, s: State, e: Event, w: Watch)
    ensures ToldClosed(Next(seated, s, e).log, w) == ToldClosed(s.log, w) + if TellsClosed(s, e, w) then 1 else 0
  {
    if e.Tick? {
      CheckAllFrame(s);
    } else if MovesIn(s, e) {
      MovesInFrame(s, e.sitting.person);
      ToldClosedMore(s.log, Moved(e.sitting.person), w);
    } else if e.Wrote? {
      if s.stage.Writing? || s.stage.Closing? {
        WrittenTellsClosed(s, w);
      }
    } else {
      OthersTellNoClosing(seated, s, e, w);
    }
  }

  /** A closing starts only by its watch's refusal, always does so, and lasts until its write. */
  lemma {:induction false} ClosingStays(seated: bool, s: State, e: Event)
    ensures var t := Next(seated, s, e);
            && (t.stage.Closing? ==> t.stage == s.stage || Refuses(s, e, t.stage.watch))
            && (s.stage.Closing? ==> t.stage == if e.Wrote? || e.Failed? then Idle else s.stage)
            && (forall w :: Refuses(s, e, w) ==> t.stage == Closing(w))
  {
    if e.Tick? {
      CheckAllFrame(s);
    } else if MovesIn(s, e) {
      MovesInFrame(s, e.sitting.person);
    }
  }

  /** A delivery goes on with its own watch, or stops; one starts only for a watch still open. */
  lemma {:induction false} WatchStays(seated: bool, s: State, e: Event)
    ensures var t := Next(seated, s, e);
            t.stage.Asking? || t.stage.Reseating? || t.stage.Writing? ==>
              if s.stage.Idle? then e.Begin? && t.stage.watch in s.open
              else t.stage.watch == s.stage.watch && !s.stage.Closing? && !Refuses(s, e, t.stage.watch)
  {
    if e.Tick? {
      CheckAllFrame(s);
    } else if MovesIn(s, e) {
      MovesInFrame(s, e.sitting.person);
    }
  }

  /** How many answers and writes a delivery may still wait for. */
  function AnswersLeft(stage: Stage): nat {
    match stage
    case Idle => 0
    case Asking(_, _, _) => 4
    case Reseating(_, _, _, _) => 3
    case Writing(_, signal, _, _) => if signal.Some? then 2 else 1
    case Closing(_) => 1
  }

  /** The step is what the delivery waits for. */
  predicate Answers(s: State, e: Event) {
    match e
    case AgainIs(_) => s.stage.Asking?
    case SitterIs(_) => s.stage.Reseating?
    case Wrote => s.stage.Writing? || s.stage.Closing?
    case Failed => !s.stage.Idle?
    case _ => false
  }

  /** A delivery is over after four answers and writes at most, and nothing but one of them moves it. */
  lemma {:induction false} DeliveryMovesOn(seated: bool, s: State, e: Event)
    ensures var t := Next(seated, s, e);
            if Answers(s, e) then AnswersLeft(t.stage) < AnswersLeft(s.stage)
            else t.stage == s.stage || (e.Begin? && s.stage.Idle? && t.stage.Asking?)
  {
    if e.Tick? {
      CheckAllFrame(s);
    } else if MovesIn(s, e) {
      MovesInFrame(s, e.sitting.person);
    }
  }

  lemma {:induction false} NextClosesOnce(seated: bool, s: State, e: Event, w: Watch)
    requires ClosedOnce(s, w)
    ensures ClosedOnce(Next(seated, s, e), w)
  {
    ClosingStays(seated, s, e);
    WatchStays(seated, s, e);
    EndsExactlyBy(seated, s, e);
    LeavesExactlyBy(seated, s, e, w);
    SeatedExactlyBy(seated, s, e, w);
    ToldClosedExactlyBy(seated, s, e, w);
    ClosesOnceBy(seated, s, e, w, Next(seated, s, e), ToldClosed(s.log, w));
  }

  lemma {:induction false} ClosesOnceBy(seated: bool, s: State, e: Event, w: Watch, t: State, told: nat)
    requires ClosedRight(s, w, told)
    requires t.stage.Closing? ==> t.stage == s.stage || Refuses(s, e, t.stage.watch)
    requires t.stage.Asking? || t.stage.Reseating? || t.stage.Writing? ==>
               if s.stage.Idle? then e.Begin? && t.stage.watch in s.open
               else t.stage.watch == s.stage.watch && !s.stage.Closing? && !Refuses(s, e, t.stage.watch)
    requires s.stage.Closing? ==> t.stage == if e.Wrote? || e.Failed? then Idle else s.stage
    requires Refuses(s, e, w) ==> t.stage == Closing(w)
    requires t.aborted <==> s.aborted || Ends(s, e)
    requires w in t.open <==> w in s.open && !Refuses(s, e, w) && !(e.StopAll? && s.aborted && s.stage.Idle?)
    requires w in t.seats <==> SitsAt(s, e, w) || (w in s.seats && !MovesIn(s, e) && !Refuses(s, e, w) && !(e.StopAll? && s.aborted && s.stage.Idle?))
    ensures ClosedRight(t, w, told + if TellsClosed(s, e, w) then 1 else 0)
  {
  }

  lemma {:induction false} RunClosesOnce(seated: bool, s: State, events: seq<Event>, w: Watch)
    requires ClosedOnce(s, w)
    ensures ClosedOnce(Run(seated, s, events), w)
    decreases |events|
  {
    if events != [] {
      NextClosesOnce(seated, s, events[0], w);
      RunClosesOnce(seated, Next(seated, s, events[0]), events[1..], w);
    }
  }

  /**
   * Over every run: a watch still open was never told it is closed; one that left
   * an open stream is being told, or was told, once; none is ever told twice; and
   * no one sits at a watch that left.
   */
  lemma {:induction false} ClosedIsToldOnce(seated: bool, watches: seq<Watch>, sitter: Option<Person>, events: seq<Event>, w: Watch)
    requires w in watches
    ensures var s := Run(seated, Start(watches, sitter), events);
            && ToldClosed(s.log, w) <= 1
            && (w in s.open ==> ToldClosed(s.log, w) == 0)
            && (w in s.seats ==> w in s.open)
            && (w !in s.open && !s.aborted ==> s.stage == Closing(w) || ToldClosed(s.log, w) == 1)
  {
    RunClosesOnce(seated, Start(watches, sitter), events, w);
  }

  // ------------------------------------------------------------------ what is heard, and when nothing is asked

  /** A signal is taken exactly for a watch still open, and a presence change exactly where someone is seated; what is taken waits. */
  lemma {:induction false} HeardExactlyWhere(seated: bool, s: State, e: Event)
    ensures var t := Next(seated, s, e);
            && (e.Hear? && e.watch in s.open ==> AtLeast(At(t, e.watch).pending, e.signal) && At(t, e.watch).owed.None?)
            && (e.Seen? && e.watch in s.seats ==> At(t, e.watch).shown)
            && ((e.Hear? && e.watch !in s.open) || (e.Seen? && e.watch !in s.seats) ==> t == s)
  {
  }

  /** An ended stream asks nothing and says nothing. */
  lemma {:induction false} EndedIsSilent(seated: bool, s: State, e: Event)
    requires s.aborted
    ensures var t := Next(seated, s, e);
            t.log == s.log || (|t.log| == |s.log| + 1 && t.log[..|s.log|] == s.log && !t.log[|s.log|].Asked? && !t.log[|s.log|].Said?)
  {
    if e.Tick? {
      CheckAllFrame(s);
    } else if MovesIn(s, e) {
      MovesInFrame(s, e.sitting.person);
    }
  }

  // ------------------------------------------------------------------ nothing is said that nothing caused

  predicate SignalHeard(signal: Option<Signal>, heard: set<Event>, w: Watch) {
    signal.Some? && signal.value != Check ==> Hear(w, signal.value) in heard
  }

  predicate BoxCaused(b: Box, heard: set<Event>, w: Watch) {
    SignalHeard(b.pending, heard, w) && SignalHeard(b.owed, heard, w) && (b.shown || b.owedShown ==> Seen(w) in heard)
  }

  predicate StageCaused(stage: Stage, heard: set<Event>) {
    stage.Asking? || stage.Reseating? || stage.Writing? ==>
      && SignalHeard(stage.signal, heard, stage.watch) && (stage.shown ==> Seen(stage.watch) in heard)
      && (stage.Writing? ==> stage.signal != Some(Check) && (stage.signal.None? ==> stage.shown))
  }

  /** A frame tells a signal or a change heard of its own watch. */
  predicate EntryCaused(entry: Entry, heard: set<Event>) {
    entry.Said? ==>
      match entry.frame
      case Signalled(signal) => signal != Check && Hear(entry.watch, signal) in heard
      case PresenceChanged => Seen(entry.watch) in heard
      case ClosedNow => true
  }

  ghost predicate Caused(s: State, heard: set<Event>) {
    && (forall w :: BoxCaused(At(s, w), heard, w)) && StageCaused(s.stage, heard)
    && forall i :: 0 <= i < |s.log| ==> EntryCaused(s.log[i], heard)
  }

  lemma {:induction false} MoreHeard(s: State, heard: set<Event>, e: Event)
    requires Caused(s, heard)
    ensures Caused(s, heard + {e})
  {
    forall w ensures BoxCaused(At(s, w), heard + {e}, w) {
      assert BoxCaused(At(s, w), heard, w);
    }
    forall i | 0 <= i < |s.log| ensures EntryCaused(s.log[i], heard + {e}) {
      assert EntryCaused(s.log[i], heard);
    }
  }

  lemma {:induction false} WantCaused(s: State, w: Watch, signal: Signal, heard: set<Event>)
    requires Caused(s, heard) && SignalHeard(Some(signal), heard, w)
    ensures Caused(WantOf(s, w, signal), heard)
  {
    forall v ensures BoxCaused(At(WantOf(s, w, signal), v), heard, v) {
      assert BoxCaused(At(s, v), heard, v);
      assert At(WantOf(s, w, signal), v) == if v == w then WantBox(At(s, v), signal) else At(s, v);
    }
  }

  lemma {:induction false} CheckAllCaused(s: State, heard: set<Event>)
    requires Caused(s, heard)
    ensures Caused(CheckAllOf(s), heard)
  {
    CheckAllFrame(s);
    forall v ensures BoxCaused(At(CheckAllOf(s), v), heard, v) {
      assert BoxCaused(At(s, v), heard, v);
      WantAllAt(s, s.open, v);
    }
  }

  lemma {:induction false} SameBoxesCaused(s: State, t: State, heard: set<Event>)
    requires Caused(s, heard) && t.pending == s.pending && t.owed == s.owed && t.presence == s.presence && t.owedPresence == s.owedPresence
    requires StageCaused(t.stage, heard) && (t.log == s.log || (|t.log| == |s.log| + 1 && t.log[..|s.log|] == s.log && EntryCaused(t.log[|s.log|], heard)))
    ensures Caused(t, heard)
  {
    forall v ensures BoxCaused(At(t, v), heard, v) {
      assert BoxCaused(At(s, v), heard, v);
      assert At(t, v) == At(s, v);
    }
    forall i | 0 <= i < |t.log| ensures EntryCaused(t.log[i], heard) {
      if i < |s.log| {
        assert t.log[i] == s.log[i];
        assert EntryCaused(s.log[i], heard);
      }
    }
  }

  lemma {:induction false} BegunCaused(s: State, heard: set<Event>)
    requires Caused(s, heard) && s.stage.Idle? && s.queue != []
    ensures Caused(Begun(s), heard)
  {
    var w, t := s.queue[0], Begun(s);
    assert BoxCaused(At(s, w), heard, w);
    forall v ensures BoxCaused(At(t, v), heard, v) {
      assert BoxCaused(At(s, v), heard, v);
      assert At(t, v) == if v == w then At(s, v).(pending := None, shown := false) else At(s, v);
    }
  }

  lemma {:induction false} OweCaused(s: State, heard: set<Event>)
    requires Caused(s, heard) && (s.stage.Asking? || s.stage.Reseating?)
    ensures Caused(OweOf(s.(stage := Idle), s.stage.watch, s.stage.signal, s.stage.shown), heard)
  {
    var w, signal, shown := s.stage.watch, s.stage.signal, s.stage.shown;
    var t := OweOf(s.(stage := Idle), w, signal, shown);
    forall v ensures BoxCaused(At(t, v), heard, v) {
      assert BoxCaused(At(s, v), heard, v);
      assert v != w ==> At(t, v) == At(s, v);
      assert At(t, w) == At(s, w).(owed := Some(Stronger(At(s, w).owed, signal.GetOr(Check))), owedShown := At(s, w).owedShown || shown);
    }
  }

  lemma {:induction false} AnsweredCaused(seated: bool, s: State, again: Again, heard: set<Event>)
    requires Caused(s, heard) && s.stage.Asking?
    ensures Caused(Answered(seated, s, again), heard)
  {
    if again.NoAnswer? {
      OweCaused(s, heard);
    } else {
      SameBoxesCaused(s, Answered(seated, s, again), heard);
    }
  }

  lemma {:induction false} MovesInCaused(s: State, person: Option<Person>, heard: set<Event>)
    requires Caused(s, heard) && s.stage.Reseating? && person != s.sitter
    ensures Caused(Resat(s, Sits(person)), heard)
  {
    var w, signal, shown := s.stage.watch, s.stage.signal, s.stage.shown;
    var left := s.(stage := Idle, seats := {}, sitter := person, log := s.log + [Moved(person)]);
    SameBoxesCaused(s, left, heard);
    CheckAllCaused(left, heard);
    WantCaused(CheckAllOf(left), w, signal.GetOr(Check), heard);
    var asked, t := WantOf(CheckAllOf(left), w, signal.GetOr(Check)), Resat(s, Sits(person));
    if shown {
      forall v ensures BoxCaused(At(t, v), heard, v) {
        assert BoxCaused(At(asked, v), heard, v);
        assert At(t, v) == if v == w then At(asked, v).(shown := true) else At(asked, v);
      }
    }
  }

  lemma {:induction false} ResatCaused(s: State, sitting: Sitting, heard: set<Event>)
    requires Caused(s, heard) && s.stage.Reseating?
    ensures Caused(Resat(s, sitting), heard)
  {
    if sitting.NotAnswered? {
      OweCaused(s, heard);
    } else if sitting.person != s.sitter {
      MovesInCaused(s, sitting.person, heard);
    } else {
      SameBoxesCaused(s, Resat(s, sitting), heard);
    }
  }

  lemma {:induction false} NextCaused(seated: bool, s: State, e: Event, heard: set<Event>)
    requires Caused(s, heard) && e in heard
    ensures Caused(Next(seated, s, e), heard)
  {
    match e {
      case Hear(w, signal) => WantCaused(s, w, signal, heard);
      case Tick => CheckAllCaused(s, heard);
      case Seen(w) =>
        forall v ensures BoxCaused(At(Show(s, w), v), heard, v) {
          assert BoxCaused(At(s, v), heard, v);
          assert At(Show(s, w), v) == if v == w then At(s, v).(shown := true) else At(s, v);
        }
      case Begin =>
        if s.stage.Idle? && s.queue != [] {
          BegunCaused(s, heard);
        }
      case AgainIs(again) =>
        if s.stage.Asking? {
          AnsweredCaused(seated, s, again, heard);
        }
      case SitterIs(sitting) =>
        if s.stage.Reseating? {
          ResatCaused(s, sitting, heard);
        }
      case _ => SameBoxesCaused(s, Next(seated, s, e), heard);
    }
  }

  lemma {:induction false} RunCaused(seated: bool, s: State, events: seq<Event>, heard: set<Event>)
    requires Caused(s, heard)
    ensures Caused(Run(seated, s, events), heard + set e | e in events)
    decreases |events|
  {
    if events != [] {
      MoreHeard(s, heard, events[0]);
      NextCaused(seated, s, events[0], heard + {events[0]});
      RunCaused(seated, Next(seated, s, events[0]), events[1..], heard + {events[0]});
      assert heard + (set e | e in events) == heard + {events[0]} + set e | e in events[1..];
    }
  }

  /** Over every run: a signal is said only of a watch it was heard for and as it was heard; a presence change only where one was seen. */
  lemma {:induction false} NothingIsSaidUnheard(seated: bool, watches: seq<Watch>, sitter: Option<Person>, events: seq<Event>, i: nat)
    ensures var log := Run(seated, Start(watches, sitter), events).log;
            i < |log| && log[i].Said? ==>
              match log[i].frame
              case Signalled(signal) => signal != Check && Hear(log[i].watch, signal) in events
              case PresenceChanged => Seen(log[i].watch) in events
              case ClosedNow => true
  {
    var s := Start(watches, sitter);
    forall w ensures BoxCaused(At(s, w), {}, w) {
    }
    RunCaused(seated, s, events, {});
  }

  // ------------------------------------------------------------------ the follower's own code

  /** One stream's follower, its delivery cut at each question and write it waits for. */
  class Follower {
    const seated: bool
    var stops: seq<Watch>
    var leaves: set<Watch>
    var pending: map<Watch, Signal>
    var presence: set<Watch>
    var owed: map<Watch, Signal>
    var owedPresence: set<Watch>
    var chain: seq<Watch>
    var sitter: Option<Person>
    var stage: Stage
    var aborted: bool
    var log: seq<Entry>

    function View(): State
      reads this
    {
      State(stops, leaves, pending, presence, owed, owedPresence, chain, sitter, stage, aborted, log)
    }

    constructor (watches: seq<Watch>, session: Option<Person>, seated: bool)
      ensures View() == Start(watches, session) && this.seated == seated
    {
      this.seated := seated;
      stops, leaves, pending, presence, owed, owedPresence, chain := watches, {}, map[], {}, map[], {}, [];
      sitter, stage, aborted, log := session, Idle, false, [];
    }

    method Enqueue(w: Watch)
      modifies this`chain
      ensures chain == Queue(old(View()), w)
    {
      if w in pending || w in presence {
        return;
      }
      chain := chain + [w];
    }

    method Want(w: Watch, signal: Signal)
      modifies this`pending, this`presence, this`owed, this`owedPresence, this`chain
      ensures View() == WantOf(old(View()), w, signal)
    {
      var was := if w in pending then Some(pending[w]) else if w in owed then Some(owed[w]) else None;
      owed := owed - {w};
      Enqueue(w);
      pending := pending[w := if was.None? || Rank(signal) > Rank(was.value) then signal else was.value];
      ghost var asked := View();
      assert asked.pending == WantOf(old(View()), w, signal).pending && asked.queue == WantOf(old(View()), w, signal).queue;
      if w in owedPresence {
        owedPresence := owedPresence - {w};
        presence := presence + {w};
      } else {
        assert owedPresence - {w} == owedPresence;
      }
    }

    method CheckAll()
      modifies this
      ensures View() == CheckAllOf(old(View()))
    {
      var asked := stops;
      for i := 0 to |asked|
        invariant WantAll(View(), asked[i..]) == CheckAllOf(old(View()))
      {
        assert asked[i..][1..] == asked[i + 1..];
        Want(asked[i], Check);
      }
    }

    method Showed(w: Watch)
      requires w in leaves
      modifies this
      ensures View() == Next(seated, old(View()), Seen(w))
    {
      Enqueue(w);
      presence := presence + {w};
    }

    method Owe(w: Watch, signal: Option<Signal>, shown: bool)
      modifies this`owed, this`owedPresence
      ensures View() == OweOf(old(View()), w, signal, shown)
    {
      var now := signal.GetOr(Check);
      owed := owed[w := if w !in owed || Rank(now) > Rank(owed[w]) then now else owed[w]];
      if shown {
        owedPresence := owedPresence + {w};
      }
    }

    method Shut(w: Watch)
      modifies this
      ensures View() == Close(old(View()), w)
    {
      stops := Filter(v => v != w, stops);
      leaves := leaves - {w};
      stage := Closing(w);
    }

    /** The delivery at the head of the chain, up to its question. */
    method Send()
      requires stage.Idle? && chain != []
      modifies this
      ensures View() == Next(seated, old(View()), Begin)
    {
      var w := chain[0];
      var signal, shown := if w in pending then Some(pending[w]) else None, w in presence;
      chain := chain[1..];
      pending := pending - {w};
      presence := presence - {w};
      if (signal.None? && !shown) || aborted || w !in stops {
        return;
      }
      stage := Asking(w, signal, shown);
      log := log + [Asked(w)];
    }

    method Told(w: Watch, signal: Option<Signal>, shown: bool, admitted: string)
      modifies this
      ensures View() == Admit(old(View()), w, signal, shown, admitted)
    {
      log := log + [Admitted(w, admitted)];
      var says := signal.Some? && signal.value != Check;
      stage := if says || shown then Writing(w, if says then signal else None, shown, admitted) else Idle;
    }

    method AnsweredAgain(again: Again)
      requires stage.Asking?
      modifies this
      ensures View() == Next(seated, old(View()), AgainIs(again))
    {
      var w, signal, shown := stage.watch, stage.signal, stage.shown;
      match again {
        case NoAnswer =>
          stage := Idle;
          Owe(w, signal, shown);
        case No => Shut(w);
        case Yes(personId) =>
          if !seated || w.chat {
            Told(w, signal, shown, personId);
          } else {
            stage := Reseating(w, signal, shown, personId);
          }
      }
    }

    /** A new person: every seat left, every open watch asked again. */
    method MoveIn(person: Option<Person>)
      modifies this
      ensures View() == MoveTo(old(View()), person)
    {
      stage, leaves, sitter, log := Idle, {}, person, log + [Moved(person)];
      CheckAll();
    }

    method Reseat(sitting: Sitting)
      requires stage.Reseating?
      modifies this
      ensures View() == Next(seated, old(View()), SitterIs(sitting))
    {
      var w, signal, shown, admitted := stage.watch, stage.signal, stage.shown, stage.admitted;
      if sitting.NotAnswered? {
        stage := Idle;
        Owe(w, signal, shown);
        return;
      }
      if sitting.person != sitter {
        MoveIn(sitting.person);
        Want(w, signal.GetOr(Check));
        if shown {
          presence := presence + {w};
        }
        return;
      }
      if sitting.person.None? || sitting.person.value.personId != admitted {
        Shut(w);
        return;
      }
      leaves := leaves + {w};
      Told(w, signal, shown, admitted);
    }

    method Write(w: Watch, frame: Frame)
      requires !stage.Idle? && stage.watch == w
      modifies this`log
      ensures log == Say(old(View()), frame)
    {
      if !aborted {
        log := log + [Said(w, frame, w in leaves, sitter)];
      }
    }

    /** A write done: the rest of the delivery, or after a closing the stream's end once nothing is watched. */
    method Wrote()
      requires stage.Writing? || stage.Closing?
      modifies this
      ensures View() == Next(seated, old(View()), Event.Wrote)
    {
      match stage {
        case Writing(w, Some(signal), shown, admitted) =>
          Write(w, Signalled(signal));
          stage := if shown then Writing(w, None, shown, admitted) else Idle;
        case Writing(w, None, _, _) =>
          Write(w, PresenceChanged);
          stage := Idle;
        case Closing(w) =>
          Write(w, ClosedNow);
          stage := Idle;
          if |stops| == 0 {
            aborted := true;
          }
      }
    }

    /** The deliveries over: every watch left. */
    method StopAll()
      requires aborted && stage.Idle? && forall w :: w in leaves ==> w in stops
      modifies this`stops, this`leaves
      ensures View() == Next(seated, old(View()), Event.StopAll)
    {
      while stops != []
        invariant forall w :: w in leaves ==> w in stops
        invariant View() == old(View()).(open := stops, seats := leaves)
      {
        leaves := leaves - {stops[0]};
        stops := stops[1..];
      }
    }
  }
}
