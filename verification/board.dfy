/**
 * apps/api/live-board.ts: the board's stream. What is heard waits in one box;
 * one rule runs at a time for all that waits, asks whose reads it digested, and
 * says so only to that very person.
 *
 * Each awaited question is a step of its own; signals, the tab's leaving and a
 * failure may come before any step.
 */
module Board {
  import opened Lists

  datatype Signal = OwnCheck | Conversation(id: string) | Topic(resync: bool)

  datatype Chats = Every | These(ids: set<string>)

  datatype Pending = Pending(heard: bool, check: bool, any: bool, chats: set<string>)

  datatype Taken = Taken(heard: bool, check: bool, chats: Chats)

  datatype Digest = Digest(tasks: string, inbox: string)

  /** The person whose reads are digested, the digest last told, and whether a rebind is still to be told. */
  datatype Bound = Bound(personId: string, seen: Option<Digest>, owed: bool)

  datatype Frame = Resync(digest: Digest) | ConversationFrame | Closed

  /** What was asked, found and said, in order. */
  datatype Entry =
    | Took(taken: Taken)
    | Reached(personId: string, tasks: Option<string>)
    | Shown(personId: string, inbox: Option<string>)
    | Joined(personId: string)
    | Rebound(personId: string)
    | Digested(personId: string, digest: Digest, check: bool)
    | Hears(personId: string, member: bool)
    | Said(frame: Frame)

  datatype Phase =
    | Idle
    | Reaching(taken: Taken)
    | Showing(taken: Taken, tasks: Option<string>)
    | Ruling(taken: Taken, tasks: Option<string>, inbox: Option<string>)
    | Hearing(chats: Chats)
    | Telling(chats: Chats, member: bool)
    | HearingAgain(chats: Chats)

  /** `stalled` since a run the provider could not answer, until the next signal or run. */
  datatype State = State(pending: Pending, bound: Bound, phase: Phase, queued: bool, stalled: bool, aborted: bool, log: seq<Entry>)

  datatype Join = NoAnswer | Refused | As(personId: string)

  datatype Event =
    | Hear(signal: Signal)
    | Drain
    | ReachIs(tasks: Option<string>)
    | ShownIs(inbox: Option<string>)
    | JoinIs(join: Join)
    | HearsIs(member: bool)
    | Failed
    | Abort

  const NOTHING := Pending(false, false, false, {})

  function Start(personId: string): State {
    State(NOTHING, Bound(personId, None, false), Idle, false, false, false, [])
  }

  function Heard(p: Pending, signal: Signal): Pending {
    match signal
    case OwnCheck => p.(check := true)
    case Conversation(id) => p.(chats := p.chats + {id})
    case Topic(resync) => p.(heard := true, any := p.any || resync)
  }

  /** What wakes a run: every conversation's turn alone does not. */
  predicate Wakes(p: Pending) {
    p.heard || p.check || p.chats != {}
  }

  function TakenFrom(p: Pending): Taken {
    Taken(p.heard, p.check, if p.any then Every else These(p.chats))
  }

  function Owed(p: Pending, heard: bool, check: bool, chats: Chats): Pending {
    Pending(p.heard || heard, p.check || check, p.any || chats.Every?, p.chats + if chats.These? then chats.ids else {})
  }

  predicate ToTell(chats: Chats) {
    chats.Every? || chats.ids != {}
  }

  function Logged(s: State, entry: Entry): State {
    s.(log := s.log + [entry])
  }

  function Send(s: State, frame: Frame): State {
    if s.aborted then s else Logged(s, Said(frame))
  }

  /** The next run, of all that waits, or the end of this drain. */
  function Continue(s: State): State {
    if s.aborted || !Wakes(s.pending) then s.(phase := Idle)
    else
      var taken := TakenFrom(s.pending);
      Logged(s, Took(taken)).(pending := NOTHING, stalled := false,
                              phase := if taken.heard || taken.check then Reaching(taken) else Hearing(taken.chats))
  }

  function Unanswered(s: State, heard: bool, check: bool, chats: Chats): State {
    s.(pending := Owed(s.pending, heard, check, chats), phase := Idle, stalled := true)
  }

  function Ended(s: State): State {
    Send(s, Closed).(aborted := true, phase := Idle)
  }

  function Rebind(s: State, personId: string): State {
    Logged(s, Rebound(personId)).(bound := Bound(personId, None, true))
  }

  function AfterRule(s: State, chats: Chats): State {
    if ToTell(chats) then s.(phase := Hearing(chats)) else Continue(s)
  }

  /** The join answered the person digested: a moved digest is said, to one not yet told of a rebind only by a check. */
  function Ruled(s: State, check: bool, tasks: Option<string>, inbox: Option<string>): State {
    if tasks.None? || inbox.None? || (s.bound.owed && !check) then s
    else
      var digest := Digest(tasks.value, inbox.value);
      var read := Logged(s, Digested(s.bound.personId, digest, check));
      if s.bound.seen == Some(digest) then read.(bound := s.bound.(owed := false))
      else Send(read.(bound := s.bound.(owed := false, seen := Some(digest))), Resync(digest))
  }

  /** The rule's join answered someone: the person digested, or one to bind to, told by the recheck if this is one. */
  function RuleSettled(s: State, personId: string): State
    requires s.phase.Ruling?
  {
    if personId == s.bound.personId then Ruled(Logged(s, Joined(personId)), s.phase.taken.check, s.phase.tasks, s.phase.inbox)
    else
      var t := Rebind(s, personId);
      if s.phase.taken.check then t.(pending := t.pending.(check := true)) else t
  }

  function RuleJoined(s: State, join: Join): State
    requires s.phase.Ruling?
  {
    var taken := s.phase.taken;
    match join
    case NoAnswer => Unanswered(s, taken.heard, taken.check, taken.chats)
    case Refused => Ended(s)
    case As(personId) =>
      AfterRule(RuleSettled(s, personId), taken.chats)
  }

  function ToldJoined(s: State, join: Join): State
    requires s.phase.Telling?
  {
    var chats := s.phase.chats;
    match join
    case NoAnswer => Unanswered(s, false, false, chats)
    case Refused => Ended(s)
    case As(personId) =>
      if personId != s.bound.personId then Continue(Rebind(s, personId))
      else if s.phase.member && !s.bound.owed then Logged(s, Joined(personId)).(phase := HearingAgain(chats))
      else Continue(Logged(s, Joined(personId)))
  }

  function HeardWhether(s: State, member: bool): State
    requires s.phase.Hearing? || s.phase.HearingAgain?
  {
    var t := Logged(s, Hears(s.bound.personId, member));
    if s.phase.Hearing? then t.(phase := Telling(s.phase.chats, member))
    else Continue(if member then Send(t, ConversationFrame) else t)
  }

  function Next(s: State, e: Event): State {
    match e
    case Hear(signal) => s.(pending := Heard(s.pending, signal), queued := true, stalled := false)
    case Drain => if s.phase.Idle? && s.queued then Continue(s.(queued := false)) else s
    case ReachIs(tasks) =>
      if s.phase.Reaching? then Logged(s, Reached(s.bound.personId, tasks)).(phase := Showing(s.phase.taken, tasks)) else s
    case ShownIs(inbox) =>
      if s.phase.Showing? then Logged(s, Shown(s.bound.personId, inbox)).(phase := Ruling(s.phase.taken, s.phase.tasks, inbox)) else s
    case JoinIs(join) =>
      if s.phase.Ruling? then RuleJoined(s, join) else if s.phase.Telling? then ToldJoined(s, join) else s
    case HearsIs(member) => if s.phase.Hearing? || s.phase.HearingAgain? then HeardWhether(s, member) else s
    case Failed => if s.phase.Idle? then s else s.(phase := Idle, aborted := true)
    case Abort => s.(aborted := true)
  }

  function Run(s: State, events: seq<Event>): State
    decreases |events|
  {
    if events == [] then s else Run(Next(s, events[0]), events[1..])
  }

  // ------------------------------------------------------------------ what the log shows

  /** The digest last told since the stream was last bound. */
  function LastTold(log: seq<Entry>): Option<Digest> {
    if log == [] then None
    else
      var last := log[|log| - 1];
      if last.Rebound? then None
      else if last.Said? && last.frame.Resync? then Some(last.frame.digest)
      else LastTold(log[..|log| - 1])
  }

  /** Rebound, and the new person not yet digested by a check. */
  predicate OwedBy(log: seq<Entry>) {
    log != [] &&
      var last := log[|log| - 1];
      if last.Rebound? then true
      else if last.Digested? && last.check then false
      else OwedBy(log[..|log| - 1])
  }

  /** The person the stream is bound to. */
  function BoundBy(first: string, log: seq<Entry>): string {
    if log == [] then first
    else if log[|log| - 1].Rebound? then log[|log| - 1].personId
    else BoundBy(first, log[..|log| - 1])
  }

  /** What the last run took. */
  function LastTook(log: seq<Entry>): Option<Taken> {
    if log == [] then None
    else if log[|log| - 1].Took? then Some(log[|log| - 1].taken)
    else LastTook(log[..|log| - 1])
  }

  /** Both reads were `p`'s, and the join then answered that very person. */
  predicate DigestRead(log: seq<Entry>, p: string, digest: Digest) {
    var n := |log|;
    n >= 3 && log[n - 3] == Reached(p, Some(digest.tasks)) && log[n - 2] == Shown(p, Some(digest.inbox)) && log[n - 1] == Joined(p)
  }

  /** A member before the join answered that very person, and after. */
  predicate MemberTwice(log: seq<Entry>, p: string) {
    var n := |log|;
    n >= 3 && log[n - 3] == Hears(p, true) && log[n - 2] == Joined(p) && log[n - 1] == Hears(p, true)
  }

  /** What one more entry of the log rests on. */
  predicate Rests(first: string, log: seq<Entry>, entry: Entry) {
    var p := BoundBy(first, log);
    match entry
    case Digested(who, digest, check) =>
      && who == p && DigestRead(log, p, digest)
      && LastTook(log).Some? && LastTook(log).value.check == check
      && (check || !OwedBy(log))
    case Said(Resync(digest)) =>
      && log != [] && log[|log| - 1].Digested? && log[|log| - 1].personId == p && log[|log| - 1].digest == digest
      && LastTold(log) != Some(digest) && !OwedBy(log)
    case Said(ConversationFrame) => MemberTwice(log, p) && !OwedBy(log)
    case Said(Closed) => log != [] && (log[|log| - 1].Shown? || log[|log| - 1].Hears?)
    case Rebound(who) => who != p
    case _ => true
  }

  predicate AllRest(first: string, log: seq<Entry>) {
    log != [] ==> AllRest(first, log[..|log| - 1]) && Rests(first, log[..|log| - 1], log[|log| - 1])
  }

  predicate AfterMember(log: seq<Entry>) {
    |log| >= 2 && log[|log| - 2].Hears? && log[|log| - 1].Joined?
  }

  predicate PhaseRests(log: seq<Entry>, p: string, phase: Phase) {
    var n := |log|;
    match phase
    case Idle => true
    case Reaching(taken) => LastTook(log) == Some(taken)
    case Showing(taken, tasks) => LastTook(log) == Some(taken) && n >= 1 && log[n - 1] == Reached(p, tasks)
    case Ruling(taken, tasks, inbox) =>
      LastTook(log) == Some(taken) && n >= 2 && log[n - 2] == Reached(p, tasks) && log[n - 1] == Shown(p, inbox)
    case Hearing(_) => !AfterMember(log)
    case Telling(_, member) => n >= 1 && log[n - 1] == Hears(p, member)
    case HearingAgain(_) => n >= 2 && log[n - 2] == Hears(p, true) && log[n - 1] == Joined(p) && !OwedBy(log)
  }

  predicate LogTold(first: string, bound: Bound, aborted: bool, log: seq<Entry>) {
    && AllRest(first, log)
    && bound.personId == BoundBy(first, log)
    && bound.owed == OwedBy(log)
    && (!aborted ==> bound.seen == LastTold(log))
  }

  predicate Told(first: string, s: State) {
    LogTold(first, s.bound, s.aborted, s.log) && PhaseRests(s.log, s.bound.personId, s.phase)
  }

  lemma {:induction false} LogGrows(first: string, log: seq<Entry>, entry: Entry)
    ensures var more := log + [entry];
            && LastTold(more) == (if entry.Rebound? then None
                                  else if entry.Said? && entry.frame.Resync? then Some(entry.frame.digest)
                                  else LastTold(log))
            && OwedBy(more) == (entry.Rebound? || (!(entry.Digested? && entry.check) && OwedBy(log)))
            && BoundBy(first, more) == (if entry.Rebound? then entry.personId else BoundBy(first, log))
            && LastTook(more) == (if entry.Took? then Some(entry.taken) else LastTook(log))
            && AllRest(first, more) == (AllRest(first, log) && Rests(first, log, entry))
  {
    assert (log + [entry])[..|log|] == log;
  }

  lemma {:induction false} TakesTells(first: string, s: State)
    requires LogTold(first, s.bound, s.aborted, s.log) && !s.aborted && Wakes(s.pending)
    ensures Told(first, Continue(s))
  {
    var taken, t := TakenFrom(s.pending), Continue(s);
    LogGrows(first, s.log, Took(taken));
    assert t.log == s.log + [Took(taken)] && t.bound == s.bound && t.aborted == s.aborted;
  }

  lemma {:induction false} ContinueTells(first: string, s: State)
    requires LogTold(first, s.bound, s.aborted, s.log)
    ensures Told(first, Continue(s))
  {
    if !s.aborted && Wakes(s.pending) {
      TakesTells(first, s);
    }
  }

  lemma {:induction false} EndedTells(first: string, s: State)
    requires Told(first, s) && (s.phase.Ruling? || s.phase.Telling?)
    ensures Told(first, Ended(s))
  {
    if !s.aborted {
      LogGrows(first, s.log, Said(Closed));
      assert Rests(first, s.log, Said(Closed));
    }
  }

  lemma {:induction false} RebindTells(first: string, s: State, personId: string)
    requires LogTold(first, s.bound, s.aborted, s.log) && personId != s.bound.personId
    ensures var t := Rebind(s, personId); LogTold(first, t.bound, t.aborted, t.log)
  {
    LogGrows(first, s.log, Rebound(personId));
  }

  /** A digest of reads the join confirmed, entered in the log and then told. */
  lemma {:induction false} DigestRests(first: string, log: seq<Entry>, p: string, digest: Digest, taken: Taken)
    requires AllRest(first, log) && p == BoundBy(first, log) && LastTook(log) == Some(taken) && (taken.check || !OwedBy(log))
    requires |log| >= 2 && log[|log| - 2] == Reached(p, Some(digest.tasks)) && log[|log| - 1] == Shown(p, Some(digest.inbox))
    ensures var read := log + [Joined(p)] + [Digested(p, digest, taken.check)];
            && AllRest(first, read) && !OwedBy(read) && LastTold(read) == LastTold(log) && BoundBy(first, read) == p
            && Rests(first, read, Said(Resync(digest))) == (LastTold(log) != Some(digest))
  {
    LogGrows(first, log, Joined(p));
    var joined := log + [Joined(p)];
    assert DigestRead(joined, p, digest);
    LogGrows(first, joined, Digested(p, digest, taken.check));
  }

  lemma {:induction false} DigestTells(first: string, bound: Bound, aborted: bool, log: seq<Entry>, digest: Digest, taken: Taken)
    requires LogTold(first, bound, aborted, log) && LastTook(log) == Some(taken) && (taken.check || !bound.owed)
    requires |log| >= 2 && log[|log| - 2] == Reached(bound.personId, Some(digest.tasks))
    requires log[|log| - 1] == Shown(bound.personId, Some(digest.inbox))
    ensures var read := log + [Joined(bound.personId)] + [Digested(bound.personId, digest, taken.check)];
            && LogTold(first, Bound(bound.personId, bound.seen, false), aborted, read)
            && (bound.seen != Some(digest) ==>
                  && LogTold(first, Bound(bound.personId, Some(digest), false), true, read)
                  && (!aborted ==> LogTold(first, Bound(bound.personId, Some(digest), false), aborted, read + [Said(Resync(digest))])))
  {
    DigestRests(first, log, bound.personId, digest, taken);
    LogGrows(first, log + [Joined(bound.personId)] + [Digested(bound.personId, digest, taken.check)], Said(Resync(digest)));
  }

  lemma {:induction false} RuledTells(first: string, s: State)
    requires Told(first, s) && s.phase.Ruling?
    ensures var t := Ruled(Logged(s, Joined(s.bound.personId)), s.phase.taken.check, s.phase.tasks, s.phase.inbox);
            LogTold(first, t.bound, t.aborted, t.log)
  {
    if s.phase.tasks.Some? && s.phase.inbox.Some? && (s.phase.taken.check || !s.bound.owed) {
      DigestTells(first, s.bound, s.aborted, s.log, Digest(s.phase.tasks.value, s.phase.inbox.value), s.phase.taken);
    } else {
      LogGrows(first, s.log, Joined(s.bound.personId));
    }
  }

  lemma {:induction false} RuleSettledTells(first: string, s: State, personId: string)
    requires Told(first, s) && s.phase.Ruling?
    ensures var t := RuleSettled(s, personId); LogTold(first, t.bound, t.aborted, t.log) && !AfterMember(t.log)
  {
    if personId == s.bound.personId {
      RuledTells(first, s);
    } else {
      RebindTells(first, s, personId);
    }
  }

  lemma {:induction false} AfterRuleTells(first: string, s: State, chats: Chats)
    requires LogTold(first, s.bound, s.aborted, s.log) && !AfterMember(s.log)
    ensures Told(first, AfterRule(s, chats))
  {
    ContinueTells(first, s);
  }

  lemma {:induction false} RuleJoinedTells(first: string, s: State, join: Join)
    requires Told(first, s) && s.phase.Ruling?
    ensures Told(first, RuleJoined(s, join))
  {
    match join {
      case NoAnswer =>
      case Refused => EndedTells(first, s);
      case As(personId) =>
        RuleSettledTells(first, s, personId);
        AfterRuleTells(first, RuleSettled(s, personId), s.phase.taken.chats);
    }
  }

  lemma {:induction false} JoinedTells(first: string, s: State)
    requires Told(first, s) && s.phase.Telling?
    ensures var t := Logged(s, Joined(s.bound.personId));
            && LogTold(first, t.bound, t.aborted, t.log)
            && (s.phase.member && !s.bound.owed ==> Told(first, t.(phase := HearingAgain(s.phase.chats))))
  {
    LogGrows(first, s.log, Joined(s.bound.personId));
  }

  lemma {:induction false} ToldJoinedTells(first: string, s: State, join: Join)
    requires Told(first, s) && s.phase.Telling?
    ensures Told(first, ToldJoined(s, join))
  {
    match join {
      case NoAnswer =>
      case Refused => EndedTells(first, s);
      case As(personId) =>
        if personId == s.bound.personId {
          JoinedTells(first, s);
          ContinueTells(first, Logged(s, Joined(personId)));
        } else {
          RebindTells(first, s, personId);
          ContinueTells(first, Rebind(s, personId));
        }
    }
  }

  lemma {:induction false} HeardFirstTells(first: string, s: State, member: bool)
    requires Told(first, s) && s.phase.Hearing?
    ensures Told(first, HeardWhether(s, member))
  {
    LogGrows(first, s.log, Hears(s.bound.personId, member));
  }

  lemma {:induction false} MemberTells(first: string, s: State)
    requires Told(first, s) && s.phase.HearingAgain?
    ensures var t := Send(Logged(s, Hears(s.bound.personId, true)), ConversationFrame);
            LogTold(first, t.bound, t.aborted, t.log)
  {
    var t := Logged(s, Hears(s.bound.personId, true));
    LogGrows(first, s.log, Hears(s.bound.personId, true));
    LogGrows(first, t.log, Said(ConversationFrame));
  }

  lemma {:induction false} ReadTells(first: string, s: State, e: Event, entry: Entry)
    requires Told(first, s)
    requires (e.ReachIs? && entry == Reached(s.bound.personId, e.tasks)) || (e.ShownIs? && entry == Shown(s.bound.personId, e.inbox))
    ensures Told(first, Next(s, e))
  {
    LogGrows(first, s.log, entry);
  }

  lemma {:induction false} NextTells(first: string, s: State, e: Event)
    requires Told(first, s)
    ensures Told(first, Next(s, e))
  {
    match e {
      case Drain => ContinueTells(first, s.(queued := false));
      case ReachIs(tasks) => ReadTells(first, s, e, Reached(s.bound.personId, tasks));
      case ShownIs(inbox) => ReadTells(first, s, e, Shown(s.bound.personId, inbox));
      case JoinIs(join) =>
        if s.phase.Ruling? {
          RuleJoinedTells(first, s, join);
        } else if s.phase.Telling? {
          ToldJoinedTells(first, s, join);
        }
      case HearsIs(member) =>
        if s.phase.Hearing? {
          HeardFirstTells(first, s, member);
        } else if s.phase.HearingAgain? {
          var t := Logged(s, Hears(s.bound.personId, member));
          if member {
            MemberTells(first, s);
          } else {
            LogGrows(first, s.log, Hears(s.bound.personId, false));
          }
          ContinueTells(first, if member then Send(t, ConversationFrame) else t);
        }
      case _ =>
    }
  }

  lemma {:induction false} RunTells(first: string, s: State, events: seq<Event>)
    requires Told(first, s)
    ensures Told(first, Run(s, events))
    decreases |events|
  {
    if events != [] {
      NextTells(first, s, events[0]);
      RunTells(first, Next(s, events[0]), events[1..]);
    }
  }

  lemma {:induction false} RestsAt(first: string, log: seq<Entry>, i: nat)
    requires AllRest(first, log) && i < |log|
    ensures Rests(first, log[..i], log[i])
  {
    if i < |log| - 1 {
      RestsAt(first, log[..|log| - 1], i);
      assert log[..|log| - 1][..i] == log[..i];
    }
  }

  /** The digest a `resync` tells was read just before it, of the person bound then. */
  lemma {:induction false} ResyncRests(first: string, log: seq<Entry>, i: nat)
    requires AllRest(first, log) && i < |log| && log[i].Said? && log[i].frame.Resync? && Rests(first, log[..i], log[i])
    ensures i >= 4 && log[i - 1].Digested? && DigestRead(log[..i - 1], BoundBy(first, log[..i]), log[i].frame.digest)
  {
    RestsAt(first, log, i - 1);
    var to := log[..i];
    assert to[..i - 1] == log[..i - 1] && to[i - 1] == log[i - 1];
    assert to == log[..i - 1] + [log[i - 1]];
    LogGrows(first, log[..i - 1], log[i - 1]);
  }

  /**
   * Over every run, whatever the join answers: each `resync` tells a digest that
   * moved, of reads of the person the stream is bound to, whom the join answered
   * after them; and once rebound, nothing but `closed` is said until a run taken
   * with `check` has digested the new person.
   */
  lemma {:induction false} OnlyTheBoundPersonIsTold(first: string, events: seq<Event>, i: nat)
    ensures var log := Run(Start(first), events).log;
            i < |log| && log[i].Said? && log[i].frame != Closed ==>
              && !OwedBy(log[..i])
              && (log[i].frame.Resync? ==>
                    && i >= 4 && log[i - 1].Digested? && DigestRead(log[..i - 1], BoundBy(first, log[..i]), log[i].frame.digest)
                    && LastTold(log[..i]) != Some(log[i].frame.digest))
              && (log[i].frame.ConversationFrame? ==> MemberTwice(log[..i], BoundBy(first, log[..i])))
  {
    var log := Run(Start(first), events).log;
    RunTells(first, Start(first), events);
    if i < |log| && log[i].Said? && log[i].frame != Closed {
      RestsAt(first, log, i);
      if log[i].frame.Resync? {
        ResyncRests(first, log, i);
      }
    }
  }

  // ------------------------------------------------------------------ what must be said

  /** The step ends the stream: by itself, by a failed question, or by a join that is refused. */
  predicate Ends(s: State, e: Event) {
    match e
    case Abort => true
    case Failed => !s.phase.Idle?
    case JoinIs(join) => join.Refused? && (s.phase.Ruling? || s.phase.Telling?)
    case _ => false
  }

  lemma {:induction false} ContinueEndsNothing(s: State)
    ensures Continue(s).aborted == s.aborted
  {
  }

  /** From any state: the stream ends exactly by such a step, and a refused join says `closed` last if it was still open. */
  lemma {:induction false} EndsExactlyBy(s: State, e: Event)
    ensures var t := Next(s, e);
            && (t.aborted <==> s.aborted || Ends(s, e))
            && (e.JoinIs? && Ends(s, e) ==> t.phase.Idle? && t.log == s.log + if s.aborted then [] else [Said(Closed)])
  {
    if e.JoinIs? && e.join.As? && s.phase.Ruling? {
      ContinueEndsNothing(RuleSettled(s, e.join.personId));
    }
  }

  lemma {:induction false} DigestsReads(s: State, digest: Digest)
    requires s.phase.Ruling? && s.phase.tasks == Some(digest.tasks) && s.phase.inbox == Some(digest.inbox)
    requires s.phase.taken.check || !s.bound.owed
    ensures var log, p, n := RuleSettled(s, s.bound.personId).log, s.bound.personId, |s.log|;
            |log| >= n + 2 && log[n] == Joined(p) && log[n + 1] == Digested(p, digest, s.phase.taken.check)
  {
  }

  // ------------------------------------------------------------------ when a run begins, and that it is over

  /** What wakes an idle stream: a signal on the tab's topic, its own check, or a conversation's. */
  predicate SomethingHeard(p: Pending) {
    p.heard || p.check || exists id: string :: id in p.chats
  }

  /** From any state: an idle stream begins a run exactly when a signal queued it, it is open and something waits; every signal queues it, once. */
  lemma {:induction false} BeginsExactlyWhen(s: State, e: Event)
    ensures var t := Next(s, e);
            && (s.phase.Idle? ==> (!t.phase.Idle? <==> e.Drain? && s.queued && !s.aborted && SomethingHeard(s.pending)))
            && (t.queued <==> e.Hear? || (s.queued && !(e.Drain? && s.phase.Idle?)))
  {
    if s.pending.chats != {} {
      var id :| id in s.pending.chats;
    }
    if e.JoinIs? && e.join.As? && s.phase.Ruling? {
      SameQueued(RuleSettled(s, e.join.personId));
    }
  }

  lemma {:induction false} SameQueued(s: State)
    ensures Continue(s).queued == s.queued
  {
  }

  /** A run first reads exactly when it took a signal or a check; otherwise it asks only of its conversations. */
  lemma {:induction false} RunOpens(s: State)
    requires !s.aborted && SomethingHeard(s.pending)
    ensures var t := Continue(s);
            && t.log == s.log + [Took(TakenFrom(s.pending))] && t.pending == NOTHING
            && (if s.pending.heard || s.pending.check then t.phase == Reaching(TakenFrom(s.pending)) else t.phase == Hearing(TakenFrom(s.pending).chats))
  {
  }

  /** How many answers a run may still wait for. */
  function AnswersLeft(phase: Phase): nat {
    match phase
    case Idle => 0
    case Reaching(_) => 6
    case Showing(_, _) => 5
    case Ruling(_, _, _) => 4
    case Hearing(_) => 3
    case Telling(_, _) => 2
    case HearingAgain(_) => 1
  }

  /** The step is what the run waits for. */
  predicate Answers(s: State, e: Event) {
    match e
    case ReachIs(_) => s.phase.Reaching?
    case ShownIs(_) => s.phase.Showing?
    case JoinIs(_) => s.phase.Ruling? || s.phase.Telling?
    case HearsIs(_) => s.phase.Hearing? || s.phase.HearingAgain?
    case Failed => !s.phase.Idle?
    case _ => false
  }

  /** The step began a run. */
  predicate BeginsRun(s: State, t: State) {
    |t.log| > |s.log| && t.log[|t.log| - 1].Took?
  }

  lemma {:induction false} ContinueMovesOn(s: State)
    ensures var t := Continue(s); t.phase.Idle? || BeginsRun(s, t)
  {
  }

  lemma {:induction false} RuleMovesOn(s: State, join: Join)
    requires s.phase.Ruling?
    ensures var t := RuleJoined(s, join); AnswersLeft(t.phase) < 4 || BeginsRun(s, t)
  {
    if join.As? {
      SettledGrows(s, join.personId);
      ContinueMovesOn(RuleSettled(s, join.personId));
    }
  }

  lemma {:induction false} ToldMovesOn(s: State, join: Join)
    requires s.phase.Telling?
    ensures var t := ToldJoined(s, join); AnswersLeft(t.phase) < 2 || BeginsRun(s, t)
  {
    if join.As? {
      ContinueMovesOn(Rebind(s, join.personId));
      ContinueMovesOn(Logged(s, Joined(join.personId)));
    }
  }

  /** A run is over after six answers at most, or the next begins at once; and nothing but an answer moves it. */
  lemma {:induction false} RunMovesOn(s: State, e: Event)
    ensures var t := Next(s, e);
            if Answers(s, e) then AnswersLeft(t.phase) < AnswersLeft(s.phase) || BeginsRun(s, t)
            else t.phase == s.phase || (e.Drain? && s.phase.Idle? && BeginsRun(s, t))
  {
    match e {
      case Drain => ContinueMovesOn(s.(queued := false));
      case JoinIs(join) =>
        if s.phase.Ruling? {
          RuleMovesOn(s, join);
        } else if s.phase.Telling? {
          ToldMovesOn(s, join);
        }
      case HearsIs(member) =>
        var t := Logged(s, Hears(s.bound.personId, member));
        ContinueMovesOn(if member then Send(t, ConversationFrame) else t);
      case _ =>
    }
  }

  /** Both reads of the bound person answered, the join that answers them enters their digest; once rebound, only a check's. */
  lemma {:induction false} ReadsAreDigested(first: string, events: seq<Event>, digest: Digest)
    ensures var s := Run(Start(first), events);
            var n, p := |s.log|, BoundBy(first, s.log);
            s.phase.Ruling? && n >= 2 && s.log[n - 2] == Reached(p, Some(digest.tasks)) && s.log[n - 1] == Shown(p, Some(digest.inbox))
            && LastTook(s.log).Some? && (LastTook(s.log).value.check || !OwedBy(s.log)) ==>
              var t := Next(s, JoinIs(As(p)));
              |t.log| >= n + 2 && t.log[n] == Joined(p) && t.log[n + 1] == Digested(p, digest, LastTook(s.log).value.check)
  {
    var s := Run(Start(first), events);
    RunTells(first, Start(first), events);
    if s.phase.Ruling? && s.phase.tasks == Some(digest.tasks) && s.phase.inbox == Some(digest.inbox) && (s.phase.taken.check || !s.bound.owed) {
      DigestsReads(s, digest);
      AfterRuleGrows(RuleSettled(s, s.bound.personId), s.phase.taken.chats);
    }
  }

  lemma {:induction false} AfterRuleGrows(s: State, chats: Chats)
    ensures var t := AfterRule(s, chats);
            |t.log| >= |s.log| && (forall i :: 0 <= i < |s.log| ==> t.log[i] == s.log[i]) && forall i :: |s.log| <= i < |t.log| ==> t.log[i].Took?
  {
  }

  /** A member, not owed a rebind, whose join answers that very person is asked about again. */
  lemma {:induction false} MemberIsAskedAgain(first: string, events: seq<Event>)
    ensures var s := Run(Start(first), events);
            var n, p := |s.log|, BoundBy(first, s.log);
            s.phase.Telling? && n >= 1 && s.log[n - 1] == Hears(p, true) && !OwedBy(s.log) ==>
              Next(s, JoinIs(As(p))).phase.HearingAgain? && Next(s, JoinIs(As(p))).log == s.log + [Joined(p)]
  {
    RunTells(first, Start(first), events);
  }

  /** Whom a join answers is from then on the person bound. */
  lemma {:induction false} JoinBinds(first: string, events: seq<Event>, p: string)
    ensures var s := Run(Start(first), events);
            s.phase.Ruling? || s.phase.Telling? ==>
              BoundBy(first, Next(s, JoinIs(As(p))).log) == p && (p != BoundBy(first, s.log) ==> OwedBy(Next(s, JoinIs(As(p))).log))
  {
    var s := Run(Start(first), events);
    RunTells(first, Start(first), events);
    if s.phase.Ruling? || s.phase.Telling? {
      NextTells(first, s, JoinIs(As(p)));
      BindsTo(s, p);
    }
  }

  lemma {:induction false} ContinueBindsNothing(s: State)
    ensures Continue(s).bound == s.bound
  {
  }

  lemma {:induction false} BindsTo(s: State, p: string)
    requires s.phase.Ruling? || s.phase.Telling?
    ensures var t := Next(s, JoinIs(As(p))); t.bound.personId == p && (p != s.bound.personId ==> t.bound.owed)
  {
    if s.phase.Ruling? {
      ContinueBindsNothing(RuleSettled(s, p));
    } else {
      ContinueBindsNothing(Rebind(s, p));
      ContinueBindsNothing(Logged(s, Joined(p)));
    }
  }

  /** A digest entered on an open stream is told at once when it is not the one last told. */
  predicate DigestAnswered(log: seq<Entry>, i: nat)
    requires i < |log|
  {
    log[i].Digested? && LastTold(log[..i]) != Some(log[i].digest) ==> i + 1 < |log| && log[i + 1] == Said(Resync(log[i].digest))
  }

  /** A member before and after the join is told at once. */
  predicate MemberAnswered(first: string, log: seq<Entry>, i: nat)
    requires i < |log|
  {
    MemberTwice(log[..i + 1], BoundBy(first, log[..i + 1])) ==> i + 1 < |log| && log[i + 1] == Said(ConversationFrame)
  }

  lemma {:induction false} DigestNow(first: string, s: State, i: nat)
    requires Told(first, s) && s.phase.Ruling? && !s.aborted
    ensures var t := RuleSettled(s, s.bound.personId); |s.log| <= i < |t.log| ==> DigestAnswered(t.log, i)
  {
    var p := s.bound.personId;
    var t := RuleSettled(s, p);
    if i == |s.log| + 1 && i < |t.log| {
      assert t.log[..i] == s.log + [Joined(p)];
      LogGrows(first, s.log, Joined(p));
    }
  }

  lemma {:induction false} DigestAnsweredLater(log: seq<Entry>, more: seq<Entry>, i: nat)
    requires i < |log| <= |more| && (forall k :: 0 <= k < |log| ==> more[k] == log[k]) && DigestAnswered(log, i)
    ensures DigestAnswered(more, i)
  {
    assert more[..i] == log[..i];
  }

  lemma {:induction false} DigestStep(first: string, s: State, e: Event, i: nat)
    requires Told(first, s) && !s.aborted && |s.log| <= i < |Next(s, e).log|
    ensures DigestAnswered(Next(s, e).log, i)
  {
    if e.JoinIs? && e.join.As? && s.phase.Ruling? && e.join.personId == s.bound.personId {
      var settled := RuleSettled(s, s.bound.personId);
      AfterRuleGrows(settled, s.phase.taken.chats);
      if i < |settled.log| {
        DigestNow(first, s, i);
        DigestAnsweredLater(settled.log, Next(s, e).log, i);
      }
    } else {
      NextAdds(s, e, i);
    }
  }

  /** Only what is told of a join by the rule may enter a digest; only an answer about members, whether one hears. */
  predicate Ordinary(entry: Entry) {
    !entry.Digested? && !entry.Hears?
  }

  /** `more` is `log` with some entries behind it, ordinary ones but for the first. */
  predicate Grown(log: seq<Entry>, more: seq<Entry>) {
    |log| <= |more| && (forall k :: 0 <= k < |log| ==> more[k] == log[k]) && forall k :: |log| < k < |more| ==> Ordinary(more[k])
  }

  lemma {:induction false} ContinueGrows(s: State)
    ensures var t := Continue(s); Grown(s.log, t.log) && (|t.log| > |s.log| ==> t.log[|s.log|].Took?)
  {
  }

  lemma {:induction false} HeardGrows(s: State, member: bool)
    requires s.phase.Hearing? || s.phase.HearingAgain?
    ensures var t := HeardWhether(s, member); Grown(s.log, t.log) && |t.log| > |s.log| && t.log[|s.log|] == Hears(s.bound.personId, member)
  {
    var t := Logged(s, Hears(s.bound.personId, member));
    ContinueGrows(if member then Send(t, ConversationFrame) else t);
  }

  lemma {:induction false} ToldJoinedGrows(s: State, join: Join)
    requires s.phase.Telling?
    ensures var t := ToldJoined(s, join); Grown(s.log, t.log) && (|t.log| > |s.log| ==> Ordinary(t.log[|s.log|]))
  {
    if join.As? {
      ContinueGrows(Rebind(s, join.personId));
      ContinueGrows(Logged(s, Joined(join.personId)));
    }
  }

  lemma {:induction false} SettledGrows(s: State, personId: string)
    requires s.phase.Ruling?
    ensures var t := RuleSettled(s, personId);
            && |s.log| <= |t.log| && (forall k :: 0 <= k < |s.log| ==> t.log[k] == s.log[k])
            && (forall k :: |s.log| <= k < |t.log| ==> !t.log[k].Hears?)
            && (personId != s.bound.personId ==> forall k :: |s.log| <= k < |t.log| ==> Ordinary(t.log[k]))
  {
  }

  lemma {:induction false} RuleJoinedGrows(s: State, join: Join)
    requires s.phase.Ruling?
    ensures var t := RuleJoined(s, join);
            && |s.log| <= |t.log| && (forall k :: 0 <= k < |s.log| ==> t.log[k] == s.log[k])
            && (forall k :: |s.log| <= k < |t.log| ==> !t.log[k].Hears?)
            && (join != As(s.bound.personId) ==> forall k :: |s.log| <= k < |t.log| ==> Ordinary(t.log[k]))
  {
    if join.As? {
      SettledGrows(s, join.personId);
      var settled, t := RuleSettled(s, join.personId), RuleJoined(s, join);
      assert t == AfterRule(settled, s.phase.taken.chats);
      AfterRuleGrows(settled, s.phase.taken.chats);
    }
  }

  lemma {:induction false} NextGrows(s: State, e: Event)
    ensures var t := Next(s, e); |s.log| <= |t.log| && forall k :: 0 <= k < |s.log| ==> t.log[k] == s.log[k]
  {
    match e {
      case Drain => ContinueGrows(s.(queued := false));
      case JoinIs(join) =>
        if s.phase.Ruling? {
          RuleJoinedGrows(s, join);
        } else if s.phase.Telling? {
          ToldJoinedGrows(s, join);
        }
      case HearsIs(member) =>
        if s.phase.Hearing? || s.phase.HearingAgain? {
          HeardGrows(s, member);
        }
      case _ =>
    }
  }

  /** A digest is entered only by the rule's join for the person bound, and whether one hears only by that answer. */
  lemma {:induction false} NextAdds(s: State, e: Event, k: nat)
    requires |s.log| <= k < |Next(s, e).log|
    ensures Next(s, e).log[k].Digested? ==> s.phase.Ruling? && e == JoinIs(As(s.bound.personId))
    ensures Next(s, e).log[k].Hears? ==> e.HearsIs? && k == |s.log| && (s.phase.Hearing? || s.phase.HearingAgain?)
  {
    match e {
      case Drain => ContinueGrows(s.(queued := false));
      case JoinIs(join) =>
        if s.phase.Ruling? {
          RuleJoinedGrows(s, join);
        } else if s.phase.Telling? {
          ToldJoinedGrows(s, join);
        }
      case HearsIs(member) =>
        if s.phase.Hearing? || s.phase.HearingAgain? {
          HeardGrows(s, member);
        }
      case _ =>
    }
  }

  lemma {:induction false} LogOnlyGrows(s: State, events: seq<Event>, n: nat)
    requires n <= |events|
    ensures var log, more := Run(s, events[..n]).log, Run(s, events).log;
            |log| <= |more| && forall k :: 0 <= k < |log| ==> more[k] == log[k]
    decreases |events| - n
  {
    if n == |events| {
      assert events[..n] == events;
    } else {
      RunLast(s, events[..n + 1]);
      assert events[..n + 1][..n] == events[..n];
      NextGrows(Run(s, events[..n]), events[n]);
      LogOnlyGrows(s, events, n + 1);
    }
  }

  lemma {:induction false} RunLast(s: State, events: seq<Event>)
    requires events != []
    ensures Run(s, events) == Next(Run(s, events[..|events| - 1]), events[|events| - 1])
    decreases |events|
  {
    var k := |events| - 1;
    if k == 0 {
      assert events[1..] == [] && events[..0] == [];
    } else {
      assert events[1..][..k - 1] == events[..k][1..];
      RunLast(Next(s, events[0]), events[1..]);
    }
  }

  /** Entry `i` of the log was made by step `n`, on a stream then open. */
  ghost predicate MadeOpenAt(first: string, events: seq<Event>, n: nat, i: nat) {
    && n < |events| && !Run(Start(first), events[..n]).aborted
    && |Run(Start(first), events[..n]).log| <= i < |Run(Start(first), events[..n + 1]).log|
  }

  /**
   * Over every run, ended since or not: a digest entered while the stream is open
   * is followed at once by its `resync` when it is not the one last told; and one
   * that is, whenever entered, by no frame.
   */
  lemma {:induction false} EveryMoveIsTold(first: string, events: seq<Event>, n: nat, i: nat)
    ensures var log := Run(Start(first), events).log;
            i < |log| && log[i].Digested? ==>
              && (LastTold(log[..i]) == Some(log[i].digest) && i + 1 < |log| ==> !log[i + 1].Said?)
              && (LastTold(log[..i]) != Some(log[i].digest) && MadeOpenAt(first, events, n, i) ==>
                    i + 1 < |log| && log[i + 1] == Said(Resync(log[i].digest)))
  {
    var log := Run(Start(first), events).log;
    if i < |log| && log[i].Digested? {
      if MadeOpenAt(first, events, n, i) {
        StepMade(first, events, n);
        LogOnlyGrows(Start(first), events, n + 1);
        var made := Run(Start(first), events[..n + 1]).log;
        DigestStep(first, Run(Start(first), events[..n]), events[n], i);
        DigestAnsweredLater(made, log, i);
      }
      if i + 1 < |log| && log[i + 1].Said? {
        SaidAfterDigest(first, events, i);
      }
    }
  }

  lemma {:induction false} StepMade(first: string, events: seq<Event>, n: nat)
    requires n < |events|
    ensures Told(first, Run(Start(first), events[..n])) && Run(Start(first), events[..n + 1]) == Next(Run(Start(first), events[..n]), events[n])
  {
    RunTells(first, Start(first), events[..n]);
    RunLast(Start(first), events[..n + 1]);
    assert events[..n + 1][..n] == events[..n];
  }

  lemma {:induction false} SaidAfterDigest(first: string, events: seq<Event>, i: nat)
    requires var log := Run(Start(first), events).log; i + 1 < |log| && log[i].Digested? && log[i + 1].Said?
    ensures var log := Run(Start(first), events).log; LastTold(log[..i]) != Some(log[i].digest)
  {
    var log := Run(Start(first), events).log;
    RunTells(first, Start(first), events);
    RestsAt(first, log, i + 1);
    assert log[..i + 1][i] == log[i] && log[..i + 1][..i] == log[..i];
  }

  /** Over every run: a member before and after the join is told so at once, on a stream still open. */
  lemma {:induction false} EveryMemberIsTold(first: string, events: seq<Event>, n: nat, i: nat)
    requires MadeOpenAt(first, events, n, i)
    ensures var log := Run(Start(first), events).log; i < |log| && MemberAnswered(first, log, i)
  {
    StepMade(first, events, n);
    LogOnlyGrows(Start(first), events, n + 1);
    var made, log := Run(Start(first), events[..n + 1]).log, Run(Start(first), events).log;
    assert log[..i + 1] == made[..i + 1];
    if MemberTwice(made[..i + 1], BoundBy(first, made[..i + 1])) {
      MemberStep(first, Run(Start(first), events[..n]), events[n], i, BoundBy(first, made[..i + 1]));
    }
  }

  lemma {:induction false} TwiceEntries(log: seq<Entry>, i: nat, p: string)
    requires i < |log| && MemberTwice(log[..i + 1], p)
    ensures i >= 2 && log[i] == Hears(p, true) && log[i - 1] == Joined(p) && log[i - 2] == Hears(p, true)
  {
    var to := log[..i + 1];
    assert to[i] == log[i] && to[i - 1] == log[i - 1] && to[i - 2] == log[i - 2];
  }

  lemma {:induction false} MemberStep(first: string, s: State, e: Event, i: nat, p: string)
    requires Told(first, s) && !s.aborted && |s.log| <= i < |Next(s, e).log|
    requires MemberTwice(Next(s, e).log[..i + 1], p)
    ensures i + 1 < |Next(s, e).log| && Next(s, e).log[i + 1] == Said(ConversationFrame)
  {
    TwiceEntries(Next(s, e).log, i, p);
    NextGrows(s, e);
    NextAdds(s, e, i);
    assert e.HearsIs? && i == |s.log| && AfterMember(s.log);
    HeardGrows(s, e.member);
    TwiceIsTold(s, e.member);
  }

  lemma {:induction false} TwiceIsTold(s: State, member: bool)
    requires !s.aborted && s.phase.HearingAgain?
    ensures member ==> var t := HeardWhether(s, member); |t.log| > |s.log| + 1 && t.log[|s.log| + 1] == Said(ConversationFrame)
  {
    ContinueGrows(Send(Logged(s, Hears(s.bound.personId, member)), ConversationFrame));
  }

  /** Between a rebind and what is said next to the new person stands a digest of theirs, by a run taken with `check`. */
  lemma {:induction false} CheckedAfterRebind(first: string, events: seq<Event>, j: nat, i: nat) returns (k: nat)
    ensures var log := Run(Start(first), events).log;
            j < i < |log| && log[j].Rebound? && log[i].Said? && log[i].frame != Closed ==>
              && j < k < i && log[k].Digested? && log[k].check
              && log[k].personId == BoundBy(first, log[..k])
              && LastTook(log[..k]).Some? && LastTook(log[..k]).value.check
  {
    k := 0;
    var log := Run(Start(first), events).log;
    if j < i < |log| && log[j].Rebound? && log[i].Said? && log[i].frame != Closed {
      OnlyTheBoundPersonIsTold(first, events, i);
      k := CheckedBetween(log[..i], j);
      assert log[..i][k] == log[k];
      RunTells(first, Start(first), events);
      RestsAt(first, log, k);
    }
  }

  lemma {:induction false} CheckedBetween(log: seq<Entry>, j: nat) returns (k: nat)
    requires j < |log| && log[j].Rebound? && !OwedBy(log)
    ensures j < k < |log| && log[k].Digested? && log[k].check
    decreases |log|
  {
    var n := |log| - 1;
    if log[n].Digested? && log[n].check {
      k := n;
    } else {
      k := CheckedBetween(log[..n], j);
    }
  }

  // ------------------------------------------------------------------ nothing heard is forgotten

  /** One thing a signal asks for. */
  datatype Duty = Digesting | Checking | Chat(id: string) | EveryChat

  predicate InChats(chats: Chats, duty: Duty) {
    match duty
    case Chat(id) => chats.Every? || id in chats.ids
    case EveryChat => chats.Every?
    case _ => false
  }

  predicate Waits(p: Pending, duty: Duty) {
    match duty
    case Digesting => p.heard || p.check
    case Checking => p.check
    case Chat(id) => p.any || id in p.chats
    case EveryChat => p.any
  }

  predicate Has(taken: Taken, duty: Duty) {
    match duty
    case Digesting => taken.heard || taken.check
    case Checking => taken.check
    case _ => InChats(taken.chats, duty)
  }

  /** The run under way is to answer it. */
  predicate Carries(phase: Phase, duty: Duty) {
    match phase
    case Idle => false
    case Reaching(taken) => Has(taken, duty)
    case Showing(taken, _) => Has(taken, duty)
    case Ruling(taken, _, _) => Has(taken, duty)
    case Hearing(chats) => InChats(chats, duty)
    case Telling(chats, _) => InChats(chats, duty)
    case HearingAgain(_) => false
  }

  /** Where one thing asked for has come to: in the box, with the run that took it, done, or dropped by that run. */
  datatype Place = Waiting | InRun | Answered | Lost

  /** The rule's join answered the person digested, both reads were answered, and no rebind is owed to a check. */
  predicate Digests(s: State, personId: string)
    requires s.phase.Ruling?
  {
    && personId == s.bound.personId && s.phase.tasks.Some? && s.phase.inbox.Some?
    && (s.phase.taken.check || !s.bound.owed)
  }

  /** What a run's join leaves of a thing the run was to answer. */
  function Settled(s: State, join: Join, duty: Duty): Place
    requires s.phase.Ruling? || s.phase.Telling?
  {
    match join
    case NoAnswer => Waiting
    case Refused => InRun
    case As(personId) =>
      if s.phase.Ruling? && (duty.Digesting? || duty.Checking?) then
        if Digests(s, personId) then Answered
        else if personId != s.bound.personId && s.phase.taken.check then Waiting
        else Lost
      else if s.phase.Ruling? then InRun
      else if personId == s.bound.personId && !s.bound.owed then Answered
      else Lost
  }

  /** The step began a run that took it. */
  predicate TookIt(s: State, t: State, duty: Duty) {
    |t.log| > |s.log| && t.log[|t.log| - 1].Took? && Has(t.log[|t.log| - 1].taken, duty)
  }

  function Track(place: Place, s: State, e: Event, duty: Duty): Place {
    match place
    case Waiting => if TookIt(s, Next(s, e), duty) then InRun else Waiting
    case InRun =>
      if !e.JoinIs? || !Carries(s.phase, duty) || !(s.phase.Ruling? || s.phase.Telling?) then InRun
      else
        var settled := Settled(s, e.join, duty);
        if settled == Waiting && TookIt(s, Next(s, e), duty) then InRun else settled
    case _ => place
  }

  predicate Placed(place: Place, s: State, duty: Duty) {
    match place
    case Waiting => s.aborted || Waits(s.pending, duty)
    case InRun => s.aborted || Carries(s.phase, duty)
    case _ => true
  }

  /** What waits has a run coming, unless the provider could not answer the last one and nothing was heard since. */
  predicate Awake(s: State) {
    && (s.phase.Idle? && !s.aborted && !s.stalled && s.pending != NOTHING ==> s.queued)
    && (s.pending.any && !s.stalled ==> Wakes(s.pending))
  }

  lemma {:induction false} ContinueAwake(s: State)
    requires s.pending.any && !s.stalled ==> Wakes(s.pending)
    ensures Awake(Continue(s))
  {
  }

  lemma {:induction false} JoinKeepsAwake(s: State, join: Join)
    requires Awake(s) && (s.phase.Ruling? || s.phase.Telling?)
    ensures Awake(Next(s, JoinIs(join)))
  {
    if join.As? {
      var t := Rebind(s, join.personId);
      ContinueAwake(t);
      ContinueAwake(Logged(s, Joined(join.personId)));
      if s.phase.Ruling? {
        ContinueAwake(RuleSettled(s, join.personId));
      }
    }
  }

  lemma {:induction false} NextKeepsAwake(s: State, e: Event)
    requires Awake(s)
    ensures Awake(Next(s, e))
  {
    match e {
      case Drain => ContinueAwake(s.(queued := false));
      case JoinIs(join) =>
        if s.phase.Ruling? || s.phase.Telling? {
          JoinKeepsAwake(s, join);
        }
      case HearsIs(member) =>
        var t := Logged(s, Hears(s.bound.personId, member));
        ContinueAwake(if member then Send(t, ConversationFrame) else t);
      case _ =>
    }
  }

  lemma {:induction false} ContinueKeeps(s: State, duty: Duty)
    requires s.aborted || Waits(s.pending, duty)
    ensures var t := Continue(s);
            t.aborted || (if Wakes(s.pending) then Carries(t.phase, duty) && Has(TakenFrom(s.pending), duty) else Waits(t.pending, duty))
  {
  }

  predicate Kept(place: Place, s: State, e: Event, duty: Duty) {
    Placed(Track(place, s, e, duty), Next(s, e), duty)
  }

  predicate Rechecks(duty: Duty) {
    duty.Checking? || duty.Digesting?
  }

  lemma {:induction false} SettledWaits(s: State, personId: string, duty: Duty)
    requires s.phase.Ruling?
    ensures var t := RuleSettled(s, personId);
            && t.aborted == s.aborted
            && (Waits(t.pending, duty) <==> Waits(s.pending, duty) || (Rechecks(duty) && s.phase.taken.check && personId != s.bound.personId))
            && |t.log| > |s.log| && !t.log[|t.log| - 1].Took?
  {
  }

  /** Past the rule, the run goes on to its conversations or to the next run. */
  lemma {:induction false} AfterRuleKeeps(s: State, chats: Chats, duty: Duty)
    ensures var t := AfterRule(s, chats);
            && (s.aborted ==> t.aborted)
            && (Waits(s.pending, duty) && !s.aborted ==>
                  if |t.log| > |s.log| && Has(TakenFrom(s.pending), duty) then t.log[|t.log| - 1] == Took(TakenFrom(s.pending)) && Carries(t.phase, duty)
                  else Waits(t.pending, duty))
            && (InChats(chats, duty) ==> Carries(t.phase, duty) && |t.log| == |s.log|)
            && (|t.log| > |s.log| ==> t.log == s.log + [Took(TakenFrom(s.pending))])
  {
  }

  lemma {:induction false} SettledKeeps(s: State, personId: string, duty: Duty, place: Place)
    requires s.phase.Ruling? && Placed(place, s, duty)
    ensures Kept(place, s, JoinIs(As(personId)), duty)
  {
    if place.Waiting? {
      SettledKeepsWaiting(s, personId, duty);
    } else if place.InRun? {
      SettledWaits(s, personId, duty);
      AfterRuleKeeps(RuleSettled(s, personId), s.phase.taken.chats, duty);
    }
  }

  lemma {:induction false} SettledKeepsWaiting(s: State, personId: string, duty: Duty)
    requires s.phase.Ruling? && Placed(Waiting, s, duty)
    ensures Kept(Waiting, s, JoinIs(As(personId)), duty)
  {
    SettledWaits(s, personId, duty);
    AfterRuleKeeps(RuleSettled(s, personId), s.phase.taken.chats, duty);
  }

  lemma {:induction false} RuleKeeps(s: State, join: Join, duty: Duty, place: Place)
    requires s.phase.Ruling? && Placed(place, s, duty)
    ensures Kept(place, s, JoinIs(join), duty)
  {
    if join.As? {
      SettledKeeps(s, join.personId, duty, place);
    }
  }

  lemma {:induction false} TellKeeps(s: State, join: Join, duty: Duty, place: Place)
    requires s.phase.Telling? && Placed(place, s, duty)
    ensures Kept(place, s, JoinIs(join), duty)
  {
    if join.As? && (s.aborted || Waits(s.pending, duty)) {
      ContinueKeeps(Rebind(s, join.personId), duty);
      ContinueKeeps(Logged(s, Joined(join.personId)), duty);
    }
  }

  lemma {:induction false} HearsKeeps(s: State, member: bool, duty: Duty, place: Place)
    requires (s.phase.Hearing? || s.phase.HearingAgain?) && Placed(place, s, duty)
    ensures Kept(place, s, HearsIs(member), duty)
  {
    if s.phase.HearingAgain? && (s.aborted || Waits(s.pending, duty)) {
      var t := Logged(s, Hears(s.bound.personId, member));
      ContinueKeeps(if member then Send(t, ConversationFrame) else t, duty);
    }
  }

  /** Each thing a signal asks for waits or is the run's to answer, until its join answers or drops it, or the stream ends. */
  lemma {:induction false} NextKeepsDuty(s: State, e: Event, duty: Duty, place: Place)
    requires Placed(place, s, duty)
    ensures Kept(place, s, e, duty)
  {
    match e {
      case Drain =>
        if s.aborted || Waits(s.pending, duty) {
          ContinueKeeps(s.(queued := false), duty);
        }
      case JoinIs(join) =>
        if s.phase.Ruling? {
          RuleKeeps(s, join, duty, place);
        } else if s.phase.Telling? {
          TellKeeps(s, join, duty, place);
        }
      case HearsIs(member) =>
        if s.phase.Hearing? || s.phase.HearingAgain? {
          HearsKeeps(s, member, duty, place);
        }
      case _ =>
    }
  }

  function Tracked(place: Place, s: State, events: seq<Event>, duty: Duty): Place
    decreases |events|
  {
    if events == [] then place else Tracked(Track(place, s, events[0], duty), Next(s, events[0]), events[1..], duty)
  }

  predicate Asks(signal: Signal, duty: Duty) {
    match signal
    case OwnCheck => duty == Checking
    case Conversation(id) => duty == Chat(id)
    case Topic(resync) => duty == Digesting || (resync && (duty == EveryChat || duty.Chat?))
  }

  lemma {:induction false} RunKeepsDuty(place: Place, s: State, events: seq<Event>, duty: Duty)
    requires Placed(place, s, duty) && Awake(s)
    ensures Placed(Tracked(place, s, events, duty), Run(s, events), duty) && Awake(Run(s, events))
    decreases |events|
  {
    if events != [] {
      NextKeepsDuty(s, events[0], duty, place);
      NextKeepsAwake(s, events[0]);
      RunKeepsDuty(Track(place, s, events[0], duty), Next(s, events[0]), events[1..], duty);
    }
  }

  /** The run's join drops it: nothing is put back, and nothing was digested or may be told. */
  predicate Drops(s: State, join: Join, duty: Duty) {
    && Carries(s.phase, duty) && join.As?
    && if duty.Digesting? || duty.Checking? then
         && s.phase.Ruling?
         && (if join.personId == s.bound.personId
             then s.phase.tasks.None? || s.phase.inbox.None? || (s.bound.owed && !s.phase.taken.check)
             else !s.phase.taken.check)
       else s.phase.Telling? && (join.personId != s.bound.personId || s.bound.owed)
  }

  lemma {:induction false} SettledLog(s: State, personId: string)
    requires s.phase.Ruling?
    ensures var t := RuleSettled(s, personId);
            && |t.log| > |s.log|
            && (t.log[|s.log|] == if personId == s.bound.personId then Joined(personId) else Rebound(personId))
            && (forall i :: |s.log| + 1 < i < |t.log| ==> !t.log[i].Digested?)
            && (Digests(s, personId) <==> |t.log| > |s.log| + 1 && t.log[|s.log| + 1].Digested?)
  {
  }

  lemma {:induction false} AfterRuleLog(s: State, chats: Chats)
    ensures var t := AfterRule(s, chats);
            |t.log| >= |s.log| && t.log[..|s.log|] == s.log && forall i :: |s.log| <= i < |t.log| ==> t.log[i].Took?
  {
  }

  ghost predicate EntersDigest(s: State, t: State) {
    exists i :: |s.log| <= i < |t.log| && t.log[i].Digested?
  }

  lemma {:induction false} EntersExactlyWhen(s: State, personId: string)
    requires s.phase.Ruling?
    ensures EntersDigest(s, Next(s, JoinIs(As(personId)))) <==> Digests(s, personId)
  {
    var settled, t := RuleSettled(s, personId), Next(s, JoinIs(As(personId)));
    SettledLog(s, personId);
    AfterRuleLog(settled, s.phase.taken.chats);
    assert forall i :: 0 <= i < |settled.log| ==> t.log[i] == t.log[..|settled.log|][i];
    if Digests(s, personId) {
      assert t.log[|s.log| + 1].Digested?;
    }
  }

  /** As the log has it: a digest or a check is done exactly when its run's join enters a digest, and lost exactly when dropped. */
  lemma {:induction false} DoneExactlyWhenDigested(s: State, join: Join, duty: Duty)
    requires s.phase.Ruling? && Carries(s.phase, duty) && (duty.Digesting? || duty.Checking?)
    ensures Track(InRun, s, JoinIs(join), duty) == Answered <==> EntersDigest(s, Next(s, JoinIs(join)))
    ensures Track(InRun, s, JoinIs(join), duty) == Lost <==> Drops(s, join, duty)
  {
    if join.As? {
      EntersExactlyWhen(s, join.personId);
    }
  }

  /** The step of a run at which the thing tracked is dropped. */
  ghost predicate DroppedAt(place: Place, s: State, events: seq<Event>, duty: Duty, n: nat) {
    && n < |events| && events[n].JoinIs?
    && Tracked(place, s, events[..n], duty) == InRun && Drops(Run(s, events[..n]), events[n].join, duty)
  }

  lemma {:induction false} StaysSo(place: Place, s: State, events: seq<Event>, duty: Duty)
    requires place == Lost || place == Answered
    ensures Tracked(place, s, events, duty) == place
    decreases |events|
  {
    if events != [] {
      StaysSo(place, Next(s, events[0]), events[1..], duty);
    }
  }

  lemma {:induction false} DroppedLater(place: Place, s: State, events: seq<Event>, duty: Duty, n: nat)
    requires events != [] && n > 0
    ensures DroppedAt(place, s, events, duty, n) <==>
              DroppedAt(Track(place, s, events[0], duty), Next(s, events[0]), events[1..], duty, n - 1)
  {
    if n < |events| {
      assert events[..n][0] == events[0] && events[..n][1..] == events[1..][..n - 1];
    }
  }

  lemma {:induction false} LostNow(place: Place, s: State, e: Event, duty: Duty)
    requires place != Lost
    ensures Track(place, s, e, duty) == Lost <==> place == InRun && e.JoinIs? && Drops(s, e.join, duty)
  {
  }

  /** Over a run, what a signal asked for is lost exactly when some run's join drops it. */
  lemma {:induction false} LostExactlyWhenDropped(place: Place, s: State, events: seq<Event>, duty: Duty)
    requires place != Lost
    ensures Tracked(place, s, events, duty) == Lost <==> exists n: nat :: DroppedAt(place, s, events, duty, n)
    decreases |events|
  {
    if events != [] {
      var next, t := Track(place, s, events[0], duty), Next(s, events[0]);
      LostNow(place, s, events[0], duty);
      assert events[..0] == [] && Tracked(place, s, [], duty) == place;
      assert DroppedAt(place, s, events, duty, 0) <==> next == Lost;
      if next == Lost {
        StaysSo(Lost, t, events[1..], duty);
      } else {
        LostExactlyWhenDropped(next, t, events[1..], duty);
        forall n: nat | n > 0 ensures DroppedAt(place, s, events, duty, n) <==> DroppedAt(next, t, events[1..], duty, n - 1) {
          DroppedLater(place, s, events, duty, n);
        }
        if Tracked(next, t, events[1..], duty) == Lost {
          var n: nat :| DroppedAt(next, t, events[1..], duty, n);
          assert DroppedAt(next, t, events[1..], duty, (n + 1) - 1);
          assert DroppedAt(place, s, events, duty, n + 1);
        }
      }
    }
  }

  /**
   * Whatever runs before and after: what a signal asks for is, from then on,
   * waiting in the box, in the run under way, answered or lost, or the stream has
   * ended. It is lost exactly when the join of the run that took it answers
   * another person without a check, or the same one with a read refused or a
   * rebind still owed to a check. An idle stream with anything in its box has a
   * run coming, unless the provider could not answer the last one and nothing was
   * heard since.
   */
  lemma {:induction false} HeardIsKeptOrDropped(first: string, before: seq<Event>, signal: Signal, after: seq<Event>, duty: Duty)
    requires Asks(signal, duty)
    ensures var s := Next(Run(Start(first), before), Hear(signal));
            && Placed(Tracked(Waiting, s, after, duty), Run(s, after), duty)
            && (Tracked(Waiting, s, after, duty) == Lost <==> exists n: nat :: DroppedAt(Waiting, s, after, duty, n))
            && Awake(Run(s, after))
  {
    var s := Run(Start(first), before);
    RunKeepsDuty(Answered, Start(first), before, duty);
    NextKeepsAwake(s, Hear(signal));
    RunKeepsDuty(Waiting, Next(s, Hear(signal)), after, duty);
    LostExactlyWhenDropped(Waiting, Next(s, Hear(signal)), after, duty);
  }

  /** A read refused while the same person stays: the signal is lost, and an idle stream has nothing left to ask again. */
  lemma {:induction false} RefusedReadLosesTheSignal(p: string, inbox: string)
    ensures var heard := Next(Start(p), Hear(Topic(false)));
            var events := [Drain, ReachIs(None), ShownIs(Some(inbox)), JoinIs(As(p))];
            var t := Run(heard, events);
            && t.phase.Idle? && t.pending == NOTHING && !t.queued && !t.stalled && !t.aborted
            && (forall i :: 0 <= i < |t.log| ==> !t.log[i].Digested? && !t.log[i].Said?)
            && Tracked(Waiting, heard, events, Digesting) == Lost
  {
    var taken := Taken(true, false, These({}));
    var s0 := Start(p).(pending := Pending(true, false, false, {}), queued := true);
    assert Next(Start(p), Hear(Topic(false))) == s0;
    var s1 := Start(p).(phase := Reaching(taken), log := [Took(taken)]);
    assert Next(s0, Drain) == s1;
    var s2 := s1.(phase := Showing(taken, None), log := s1.log + [Reached(p, None)]);
    assert Next(s1, ReachIs(None)) == s2;
    var s3 := s2.(phase := Ruling(taken, None, Some(inbox)), log := s2.log + [Shown(p, Some(inbox))]);
    assert Next(s2, ShownIs(Some(inbox))) == s3;
    var s4 := s3.(phase := Idle, log := s3.log + [Joined(p)]);
    assert Next(s3, JoinIs(As(p))) == s4;
    FourSteps(s0, Drain, ReachIs(None), ShownIs(Some(inbox)), JoinIs(As(p)), Waiting, Digesting);
  }

  lemma {:induction false} FourSteps(s: State, a: Event, b: Event, c: Event, d: Event, place: Place, duty: Duty)
    ensures var s1 := Next(s, a);
            var s2 := Next(s1, b);
            var s3 := Next(s2, c);
            && Run(s, [a, b, c, d]) == Next(s3, d)
            && Tracked(place, s, [a, b, c, d], duty)
               == Track(Track(Track(Track(place, s, a, duty), s1, b, duty), s2, c, duty), s3, d, duty)
  {
    StepOn(s, a, [b, c, d], place, duty);
    StepOn(Next(s, a), b, [c, d], Track(place, s, a, duty), duty);
    var s2, p2 := Next(Next(s, a), b), Track(Track(place, s, a, duty), Next(s, a), b, duty);
    StepOn(s2, c, [d], p2, duty);
    StepOn(Next(s2, c), d, [], Track(p2, s2, c, duty), duty);
    assert [a] + [b, c, d] == [a, b, c, d] && [b] + [c, d] == [b, c, d] && [c] + [d] == [c, d] && [d] + [] == [d];
  }

  lemma {:induction false} StepOn(s: State, e: Event, rest: seq<Event>, place: Place, duty: Duty)
    ensures Run(s, [e] + rest) == Run(Next(s, e), rest)
    ensures Tracked(place, s, [e] + rest, duty) == Tracked(Track(place, s, e, duty), Next(s, e), rest, duty)
  {
    assert ([e] + rest)[1..] == rest;
  }

  // ------------------------------------------------------------------ the stream's own code

  /** One board stream, its rule cut at each question it waits for. */
  class Stream {
    var heard: bool
    var check: bool
    var any: bool
    var chats: set<string>
    var personId: string
    var seen: Option<Digest>
    var owed: bool
    var phase: Phase
    var queued: bool
    var stalled: bool
    var aborted: bool
    var log: seq<Entry>

    function View(): State
      reads this
    {
      State(Pending(heard, check, any, chats), Bound(personId, seen, owed), phase, queued, stalled, aborted, log)
    }

    constructor (first: string)
      ensures View() == Start(first)
    {
      heard, check, any, chats := false, false, false, {};
      personId, seen, owed := first, None, false;
      phase, queued, stalled, aborted, log := Idle, false, false, false, [];
    }

    method Hear(signal: Signal)
      modifies this
      ensures View() == Next(old(View()), Event.Hear(signal))
    {
      match signal {
        case OwnCheck => check := true;
        case Conversation(id) => chats := chats + {id};
        case Topic(resync) =>
          heard := true;
          any := any || resync;
      }
      queued, stalled := true, false;
    }

    /** What a run answers, taken from the box and cleared there. */
    method Take() returns (taken: Taken)
      modifies this`heard, this`check, this`any, this`chats
      ensures taken == TakenFrom(old(View()).pending) && View().pending == NOTHING
    {
      taken := Taken(heard, check, if any then Every else These(chats));
      heard, check, any, chats := false, false, false, {};
    }

    method Owe(owedHeard: bool, owedCheck: bool, owedChats: Chats)
      modifies this`heard, this`check, this`any, this`chats, this`phase, this`stalled
      ensures View() == Unanswered(old(View()), owedHeard, owedCheck, owedChats)
    {
      heard, check := heard || owedHeard, check || owedCheck;
      match owedChats {
        case Every => any := true;
        case These(ids) => chats := chats + ids;
      }
      phase, stalled := Idle, true;
    }

    method Say(frame: Frame)
      modifies this`log
      ensures View() == Send(old(View()), frame)
    {
      if !aborted {
        log := log + [Said(frame)];
      }
    }

    method GoOn()
      modifies this
      ensures View() == Continue(old(View()))
    {
      if aborted || !(heard || check || chats != {}) {
        phase := Idle;
        return;
      }
      var taken := Take();
      stalled := false;
      phase := if taken.heard || taken.check then Reaching(taken) else Hearing(taken.chats);
      log := log + [Took(taken)];
    }

    method Drain()
      requires phase.Idle? && queued
      modifies this
      ensures View() == Next(old(View()), Event.Drain)
    {
      queued := false;
      GoOn();
    }

    method Bind(person: string)
      modifies this
      ensures View() == Rebind(old(View()), person)
    {
      personId, seen, owed := person, None, true;
      log := log + [Rebound(person)];
    }

    method Close()
      modifies this
      ensures View() == Ended(old(View()))
    {
      Say(Closed);
      aborted, phase := true, Idle;
    }

    /** The rule, once its join was asked again. */
    method Rule(join: Join)
      requires phase.Ruling?
      modifies this
      ensures View() == Next(old(View()), JoinIs(join))
    {
      var taken, tasks, inbox := phase.taken, phase.tasks, phase.inbox;
      match join {
        case NoAnswer => Owe(taken.heard, taken.check, taken.chats);
        case Refused => Close();
        case As(person) =>
          if person != personId {
            Bind(person);
            check := check || taken.check;
          } else {
            log := log + [Joined(person)];
            DigestReads(taken.check, tasks, inbox);
          }
          assert View() == RuleSettled(old(View()), person);
          if ToTell(taken.chats) {
            phase := Hearing(taken.chats);
          } else {
            GoOn();
          }
      }
    }

    method DigestReads(byCheck: bool, tasks: Option<string>, inbox: Option<string>)
      modifies this
      ensures View() == Ruled(old(View()), byCheck, tasks, inbox)
    {
      if tasks.None? || inbox.None? || (owed && !byCheck) {
        return;
      }
      owed := false;
      var digest := Digest(tasks.value, inbox.value);
      log := log + [Digested(personId, digest, byCheck)];
      if seen == Some(digest) {
        return;
      }
      seen := Some(digest);
      Say(Resync(digest));
    }

    /** The telling of conversations, once its join was asked again. */
    method Tell(join: Join)
      requires phase.Telling?
      modifies this
      ensures View() == Next(old(View()), JoinIs(join))
    {
      var toTell, member := phase.chats, phase.member;
      match join {
        case NoAnswer => Owe(false, false, toTell);
        case Refused => Close();
        case As(person) =>
          if person != personId {
            Bind(person);
            GoOn();
          } else {
            log := log + [Joined(person)];
            if member && !owed {
              phase := HearingAgain(toTell);
            } else {
              GoOn();
            }
          }
      }
    }

    method Heard(member: bool)
      requires phase.Hearing? || phase.HearingAgain?
      modifies this
      ensures View() == Next(old(View()), HearsIs(member))
    {
      log := log + [Hears(personId, member)];
      if phase.Hearing? {
        phase := Telling(phase.chats, member);
        return;
      }
      if member {
        Say(ConversationFrame);
      }
      GoOn();
    }
  }
}
