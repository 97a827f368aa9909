/**
 * apps/model-agent/carrier.ts: each call offered is accepted once, run once, and
 * has one last word. Requests, repeats, timers, custody's outcome and the
 * agent's stop come in any order.
 */
module Carrier {
  import opened Lists

  const SEND_WINDOW_MS: int := 3_000
  const ANSWER_RESENDS: nat := 3
  const BUSY_LOAD: nat := 45

  function DeadlineOf(acceptedAt: int): int {
    acceptedAt + SEND_WINDOW_MS
  }

  predicate Sendable(deadlineAt: int, now: int) {
    now <= deadlineAt
  }

  datatype State = Offered | Accepted | Running | Done

  function Rank(state: State): nat {
    match state
    case Offered => 0
    case Accepted => 1
    case Running => 2
    case Done => 3
  }

  datatype Refusal = RequestRefused | SendLapsed | MachineBusy | ByCustody(code: string)

  datatype Word = Answer(text: string) | Refused(why: Refusal)

  /** What was said or asked for one call, in order. */
  datatype Act =
    | Accept(acceptedAt: int, joinedAt: int)
    | Started
    | AskCustody(deadlineAt: int, now: int)
    | SayWritten
    | LastWord(word: Word)
    | Repeated(word: Word)
    | Resent(word: Word)

  /** `kept` and `resend` are the call's timers; `held` while it is among the agent's calls. */
  datatype Call = Call(state: State, listening: bool, acceptedAt: Option<int>, final: Option<Word>, settled: bool,
                       resend: Option<nat>, kept: bool, held: bool, log: seq<Act>)

  const OFFERED := Call(Offered, false, None, None, false, None, true, true, [])

  /** A request that opens for this call and runner, as its body reads. */
  datatype Body = Body(deadlineAt: Option<int>, chat: bool, exactKeys: bool)

  datatype Outcome = Lost | RefusedBy(code: string) | AnsweredBy(text: string)

  datatype Event =
    | Resumed(joined: bool, prepared: bool, stopped: bool, joinedAt: int, now: int)
    | Request(body: Option<Body>, now: int, load: nat)
    | Settled(opens: bool)
    | Written
    | Outcome_(outcome: Outcome)
    | ResendFires
    | KeptFires
    | Dropped

  function Logged(c: Call, act: Act): Call {
    c.(log := c.log + [act])
  }

  function Finish(c: Call, word: Word): Call {
    Logged(c, LastWord(word)).(state := Done, final := Some(word), resend := Some(ANSWER_RESENDS))
  }

  function Requested(c: Call, body: Option<Body>, now: int, load: nat): Call {
    if body.None? then c
    else if c.state.Done? && c.final.Some? then Logged(c, Repeated(c.final.value))
    else if !c.state.Accepted? || c.acceptedAt.None? then c
    else
      var deadlineAt := DeadlineOf(c.acceptedAt.value);
      if !body.value.chat || body.value.deadlineAt != Some(deadlineAt) || !body.value.exactKeys then Finish(c, Refused(RequestRefused))
      else if !Sendable(deadlineAt, now) then Finish(c, Refused(SendLapsed))
      else if load > BUSY_LOAD then Finish(c, Refused(MachineBusy))
      else Logged(Logged(c, Started), AskCustody(deadlineAt, now)).(state := Running)
  }

  function Ended(c: Call, outcome: Outcome): Call {
    match outcome
    case Lost => c.(state := Done)
    case RefusedBy(code) => Finish(c, Refused(ByCustody(code)))
    case AnsweredBy(text) => Finish(c, Answer(text))
  }

  function Next(c: Call, e: Event): Call {
    match e
    case Resumed(joined, prepared, stopped, joinedAt, now) =>
      if !c.state.Offered? then c
      else if !joined || !prepared || stopped then c.(state := Done)
      else Logged(c, Accept(now, joinedAt)).(state := Accepted, listening := true, acceptedAt := Some(now))
    case Request(body, now, load) => if c.listening then Requested(c, body, now, load) else c
    case Settled(opens) => if c.listening && opens then c.(settled := true, listening := false) else c
    case Written => if c.state.Running? then Logged(c, SayWritten) else c
    case Outcome_(outcome) => if c.state.Running? then Ended(c, outcome) else c
    case ResendFires =>
      if c.resend.None? then c
      else if c.settled || c.resend.value == 0 || c.final.None? then c.(resend := None)
      else Logged(c, Resent(c.final.value)).(resend := Some(c.resend.value - 1))
    case KeptFires => if c.kept then c.(kept := false, held := false, resend := None, listening := false) else c
    case Dropped => c.(kept := false, held := false, resend := None, listening := false)
  }

  function Run(c: Call, events: seq<Event>): Call
    decreases |events|
  {
    if events == [] then c else Run(Next(c, events[0]), events[1..])
  }

  // ------------------------------------------------------------------ what every run keeps

  function Count(p: Act -> bool, log: seq<Act>): nat {
    if log == [] then 0 else Count(p, log[..|log| - 1]) + if p(log[|log| - 1]) then 1 else 0
  }

  predicate IsAsk(act: Act) { act.AskCustody? }
  predicate IsAccept(act: Act) { act.Accept? }
  predicate IsLast(act: Act) { act.LastWord? }
  predicate IsResent(act: Act) { act.Resent? }

  lemma {:induction false} CountMore(p: Act -> bool, log: seq<Act>, act: Act)
    ensures Count(p, log + [act]) == Count(p, log) + if p(act) then 1 else 0
  {
    assert (log + [act])[..|log|] == log;
  }

  /** Asked with exactly the deadline fixed at accept, and in time; every last word the one kept. */
  ghost predicate LogHolds(c: Call) {
    forall i :: 0 <= i < |c.log| ==>
      match c.log[i]
      case Accept(at, _) => c.acceptedAt == Some(at)
      case AskCustody(deadlineAt, now) => c.acceptedAt.Some? && deadlineAt == DeadlineOf(c.acceptedAt.value) && now <= deadlineAt
      case LastWord(word) => c.final == Some(word)
      case Repeated(word) => c.final == Some(word)
      case Resent(word) => c.final == Some(word)
      case _ => true
  }

  ghost predicate Counts(c: Call) {
    && Count(IsAccept, c.log) == (if c.acceptedAt.Some? then 1 else 0)
    && Count(IsAsk, c.log) <= 1 && (c.state.Offered? || c.state.Accepted? ==> Count(IsAsk, c.log) == 0)
    && (c.state.Running? ==> Count(IsAsk, c.log) == 1)
    && Count(IsLast, c.log) == (if c.final.Some? then 1 else 0)
    && Count(IsResent, c.log) + c.resend.GetOr(0) <= ANSWER_RESENDS
    && (c.final.None? ==> Count(IsResent, c.log) == 0 && c.resend.None?)
    && (c.final.Some? ==> c.state.Done?)
    && (c.state.Offered? ==> c.acceptedAt.None?) && (c.state.Accepted? ==> c.acceptedAt.Some?)
  }

  ghost predicate Inv(c: Call) {
    LogHolds(c) && Counts(c)
  }

  lemma {:induction false} CountAll(log: seq<Act>, act: Act)
    ensures Count(IsAccept, log + [act]) == Count(IsAccept, log) + if act.Accept? then 1 else 0
    ensures Count(IsAsk, log + [act]) == Count(IsAsk, log) + if act.AskCustody? then 1 else 0
    ensures Count(IsLast, log + [act]) == Count(IsLast, log) + if act.LastWord? then 1 else 0
    ensures Count(IsResent, log + [act]) == Count(IsResent, log) + if act.Resent? then 1 else 0
  {
    CountMore(IsAccept, log, act);
    CountMore(IsAsk, log, act);
    CountMore(IsLast, log, act);
    CountMore(IsResent, log, act);
  }

  lemma {:induction false} FinishKeeps(c: Call, word: Word)
    requires Inv(c) && c.final.None?
    ensures Inv(Finish(c, word))
  {
    CountAll(c.log, LastWord(word));
    NoWordYet(c);
  }

  /** Before its last word, a call has said none. */
  lemma {:induction false} NoWordYet(c: Call)
    requires Inv(c) && c.final.None?
    ensures forall i :: 0 <= i < |c.log| ==> !c.log[i].LastWord? && !c.log[i].Repeated? && !c.log[i].Resent?
  {
  }

  lemma {:induction false} NotYetAccepted(c: Call)
    requires Inv(c) && c.acceptedAt.None?
    ensures forall i :: 0 <= i < |c.log| ==> !c.log[i].Accept? && !c.log[i].AskCustody?
  {
  }

  /** A request that passes every check. */
  predicate Runs(c: Call, body: Body, now: int, load: nat)
    requires c.acceptedAt.Some?
  {
    var deadlineAt := DeadlineOf(c.acceptedAt.value);
    body.chat && body.deadlineAt == Some(deadlineAt) && body.exactKeys && Sendable(deadlineAt, now) && load <= BUSY_LOAD
  }

  lemma {:induction false} AskKeeps(c: Call, now: int)
    requires Inv(c) && c.state.Accepted? && Sendable(DeadlineOf(c.acceptedAt.value), now)
    ensures Inv(Logged(Logged(c, Started), AskCustody(DeadlineOf(c.acceptedAt.value), now)).(state := Running))
  {
    CountAll(c.log, Started);
    CountAll(c.log + [Started], AskCustody(DeadlineOf(c.acceptedAt.value), now));
  }

  /** What an accepted call does with a request that is its own. */
  lemma {:induction false} RequestedDoes(c: Call, body: Body, now: int, load: nat) returns (word: Word)
    requires c.state.Accepted? && c.acceptedAt.Some?
    ensures Requested(c, Some(body), now, load)
         == if Runs(c, body, now, load) then Logged(Logged(c, Started), AskCustody(DeadlineOf(c.acceptedAt.value), now)).(state := Running)
            else Finish(c, word)
  {
    word := if !body.chat || body.deadlineAt != Some(DeadlineOf(c.acceptedAt.value)) || !body.exactKeys then Refused(RequestRefused)
            else if !Sendable(DeadlineOf(c.acceptedAt.value), now) then Refused(SendLapsed)
            else Refused(MachineBusy);
  }

  lemma {:induction false} RequestedKeeps(c: Call, body: Option<Body>, now: int, load: nat)
    requires Inv(c)
    ensures Inv(Requested(c, body, now, load))
  {
    if c.final.Some? {
      CountAll(c.log, Repeated(c.final.value));
    } else if c.state.Accepted? && body.Some? {
      var word := RequestedDoes(c, body.value, now, load);
      if Runs(c, body.value, now, load) {
        AskKeeps(c, now);
      } else {
        FinishKeeps(c, word);
      }
    }
  }

  lemma {:induction false} AcceptKeeps(c: Call, joinedAt: int, now: int)
    requires Inv(c) && c.state.Offered?
    ensures Inv(Logged(c, Accept(now, joinedAt)).(state := Accepted, listening := true, acceptedAt := Some(now)))
  {
    var t := Logged(c, Accept(now, joinedAt)).(state := Accepted, listening := true, acceptedAt := Some(now));
    assert LogHolds(t) by {
      NotYetAccepted(c);
    }
    assert Counts(t) by {
      CountAll(c.log, Accept(now, joinedAt));
    }
  }

  lemma {:induction false} ResumedKeeps(c: Call, e: Event)
    requires Inv(c) && e.Resumed?
    ensures Inv(Next(c, e))
  {
    if c.state.Offered? && e.joined && e.prepared && !e.stopped {
      AcceptKeeps(c, e.joinedAt, e.now);
    }
  }

  lemma {:induction false} ResentKeeps(c: Call, word: Word, left: nat)
    requires Inv(c) && c.final == Some(word) && c.resend == Some(left + 1)
    ensures Inv(Logged(c, Resent(word)).(resend := Some(left)))
  {
    CountAll(c.log, Resent(word));
  }

  lemma {:induction false} ResendKeeps(c: Call)
    requires Inv(c)
    ensures Inv(Next(c, ResendFires))
  {
    if c.resend.Some? && !c.settled && c.resend.value > 0 && c.final.Some? {
      ResentKeeps(c, c.final.value, c.resend.value - 1);
    }
  }

  lemma {:induction false} OutcomeKeeps(c: Call, outcome: Outcome)
    requires Inv(c)
    ensures Inv(Next(c, Outcome_(outcome)))
  {
    if c.state.Running? {
      match outcome {
        case Lost =>
        case RefusedBy(code) => FinishKeeps(c, Refused(ByCustody(code)));
        case AnsweredBy(text) => FinishKeeps(c, Answer(text));
      }
    }
  }

  lemma {:induction false} NextKeeps(c: Call, e: Event)
    requires Inv(c)
    ensures Inv(Next(c, e))
  {
    match e {
      case Resumed(_, _, _, _, _) => ResumedKeeps(c, e);
      case Request(body, now, load) => RequestedKeeps(c, body, now, load);
      case Written => CountAll(c.log, SayWritten);
      case Outcome_(outcome) => OutcomeKeeps(c, outcome);
      case ResendFires => ResendKeeps(c);
      case _ =>
    }
  }

  predicate Onward(c: Call, t: Call) {
    && Rank(c.state) <= Rank(t.state)
    && (c.acceptedAt.Some? ==> t.acceptedAt == c.acceptedAt)
    && (c.final.Some? ==> t.final == c.final)
    && (c.settled ==> t.settled)
    && |c.log| <= |t.log| && t.log[..|c.log|] == c.log
  }

  lemma {:induction false} FinishOnward(c: Call, word: Word)
    requires c.final.None?
    ensures Onward(c, Finish(c, word))
  {
  }

  lemma {:induction false} RequestedOnward(c: Call, body: Option<Body>, now: int, load: nat)
    requires Inv(c)
    ensures Onward(c, Requested(c, body, now, load))
  {
    if c.state.Accepted? && body.Some? {
      var word := RequestedDoes(c, body.value, now, load);
      FinishOnward(c, word);
    }
  }

  lemma {:induction false} OutcomeOnward(c: Call, outcome: Outcome)
    requires Inv(c)
    ensures Onward(c, Next(c, Outcome_(outcome)))
  {
    if c.state.Running? {
      match outcome {
        case Lost =>
        case RefusedBy(code) => FinishOnward(c, Refused(ByCustody(code)));
        case AnsweredBy(text) => FinishOnward(c, Answer(text));
      }
    }
  }

  lemma {:induction false} TimerOnward(c: Call, e: Event)
    requires e.ResendFires? || e.KeptFires? || e.Dropped? || e.Settled? || e.Written?
    ensures Onward(c, Next(c, e))
  {
  }

  /** The state never goes back, and what is fixed at accept, and the last word, stay as they are. */
  lemma {:induction false} NeverBack(c: Call, e: Event)
    requires Inv(c)
    ensures Onward(c, Next(c, e))
  {
    match e {
      case Resumed(_, _, _, _, _) =>
      case Request(body, now, load) => RequestedOnward(c, body, now, load);
      case Outcome_(outcome) => OutcomeOnward(c, outcome);
      case _ => TimerOnward(c, e);
    }
  }

  lemma {:induction false} RunKeeps(c: Call, events: seq<Event>)
    requires Inv(c)
    ensures Inv(Run(c, events)) && Rank(c.state) <= Rank(Run(c, events).state)
    ensures c.acceptedAt.Some? ==> Run(c, events).acceptedAt == c.acceptedAt
    ensures c.final.Some? ==> Run(c, events).final == c.final
    decreases |events|
  {
    if events != [] {
      NextKeeps(c, events[0]);
      NeverBack(c, events[0]);
      RunKeeps(Next(c, events[0]), events[1..]);
    }
  }

  /**
   * From an offer on, over every order of events: accepted at most once; custody
   * asked at most once, with the deadline fixed at accept and before it passes;
   * one last word, the only one ever repeated, and resent unasked three times at
   * most.
   */
  lemma {:induction false} OneCallOneWord(events: seq<Event>)
    ensures var c := Run(OFFERED, events);
            && LogHolds(c) && Count(IsAccept, c.log) <= 1 && Count(IsAsk, c.log) <= 1 && Count(IsLast, c.log) <= 1
            && Count(IsResent, c.log) <= ANSWER_RESENDS
  {
    RunKeeps(OFFERED, events);
  }

  // ------------------------------------------------------------------ what the last word is

  /** A request of the call's own, heard while it is accepted. */
  predicate Draws(c: Call, e: Event) {
    e.Request? && c.listening && c.state.Accepted? && c.acceptedAt.Some? && e.body.Some?
  }

  /** A chat alone with the deadline fixed at accept. */
  predicate Whole(c: Call, body: Body)
    requires c.acceptedAt.Some?
  {
    body.chat && body.exactKeys && body.deadlineAt == Some(c.acceptedAt.value + 3_000)
  }

  /** The step gives the call this last word. */
  predicate Gives(c: Call, e: Event, word: Word) {
    match word
    case Answer(text) => c.state.Running? && e == Outcome_(AnsweredBy(text))
    case Refused(ByCustody(code)) => c.state.Running? && e == Outcome_(RefusedBy(code))
    case Refused(RequestRefused) => Draws(c, e) && !Whole(c, e.body.value)
    case Refused(SendLapsed) => Draws(c, e) && Whole(c, e.body.value) && e.now > c.acceptedAt.value + 3_000
    case Refused(MachineBusy) => Draws(c, e) && Whole(c, e.body.value) && e.now <= c.acceptedAt.value + 3_000 && e.load > 45
  }

  lemma {:induction false} RequestGives(c: Call, e: Event, word: Word)
    requires Inv(c) && c.final.None? && e.Request?
    ensures Next(c, e).final == Some(word) <==> Gives(c, e, word)
  {
  }

  /** Before any, a step's last word is the one it gives. */
  lemma {:induction false} WordExactlyBy(c: Call, e: Event, word: Word)
    requires Inv(c) && c.final.None?
    ensures Next(c, e).final == Some(word) <==> Gives(c, e, word)
  {
    if e.Request? {
      RequestGives(c, e, word);
    }
  }

  /** Step `n` of a run from the offer gave the call this last word, its first. */
  ghost predicate GivenAt(events: seq<Event>, n: nat, word: Word) {
    n < |events| && Run(OFFERED, events[..n]).final.None? && Gives(Run(OFFERED, events[..n]), events[n], word)
  }

  lemma {:induction false} RunLast(c: Call, events: seq<Event>)
    requires events != []
    ensures Run(c, events) == Next(Run(c, events[..|events| - 1]), events[|events| - 1])
    decreases |events|
  {
    var k := |events| - 1;
    if k == 0 {
      assert events[1..] == [] && events[..0] == [];
    } else {
      assert events[1..][..k - 1] == events[..k][1..];
      RunLast(Next(c, events[0]), events[1..]);
    }
  }

  lemma {:induction false} GivenAtMore(events: seq<Event>, n: nat, word: Word)
    requires events != []
    ensures var k := |events| - 1;
            GivenAt(events, n, word) <==>
              GivenAt(events[..k], n, word) || (n == k && Run(OFFERED, events[..k]).final.None? && Gives(Run(OFFERED, events[..k]), events[k], word))
  {
    if n < |events| - 1 {
      assert events[..n] == events[..|events| - 1][..n];
    }
  }

  /**
   * Over every run from the offer: the last word is an answer exactly when custody
   * answered so on the running call, a custody refusal exactly when it refused so,
   * and one of the agent's own exactly by its guard on a request heard while accepted.
   */
  lemma {:induction false} FinalWordExactlyWhen(events: seq<Event>, word: Word)
    ensures Run(OFFERED, events).final == Some(word) <==> exists n: nat :: GivenAt(events, n, word)
    decreases |events|
  {
    if events != [] {
      var k := |events| - 1;
      var before := Run(OFFERED, events[..k]);
      RunLast(OFFERED, events);
      RunKeeps(OFFERED, events[..k]);
      FinalWordExactlyWhen(events[..k], word);
      NeverBack(before, events[k]);
      forall n: nat ensures GivenAt(events, n, word) <==>
        GivenAt(events[..k], n, word) || (n == k && before.final.None? && Gives(before, events[k], word))
      {
        GivenAtMore(events, n, word);
      }
      if before.final.None? {
        WordExactlyBy(before, events[k], word);
        assert Gives(before, events[k], word) ==> GivenAt(events, k, word);
      }
    }
  }

  /** A call custody lost is done, and has no last word however long it is asked. */
  lemma {:induction false} LostHasNoWord(c: Call, events: seq<Event>)
    requires Inv(c) && c.state.Running?
    ensures var t := Run(Next(c, Outcome_(Lost)), events);
            t.final.None? && t.state.Done? && forall i :: 0 <= i < |t.log| ==> !t.log[i].LastWord? && !t.log[i].Repeated? && !t.log[i].Resent?
  {
    var lost := Next(c, Outcome_(Lost));
    NextKeeps(c, Outcome_(Lost));
    DoneStaysWordless(lost, events);
    RunKeeps(lost, events);
    NoWordYet(Run(lost, events));
  }

  lemma {:induction false} DoneStaysWordless(c: Call, events: seq<Event>)
    requires Inv(c) && c.state.Done? && c.final.None?
    ensures Run(c, events).final.None? && Run(c, events).state.Done?
    decreases |events|
  {
    if events != [] {
      NextKeeps(c, events[0]);
      DoneStaysWordless(Next(c, events[0]), events[1..]);
    }
  }

  predicate IsRepeated(act: Act) { act.Repeated? }
  predicate IsWritten(act: Act) { act.SayWritten? }

  /** The step draws the last word once more: a request heard after it. */
  predicate Repeats(c: Call, e: Event) {
    e.Request? && c.listening && e.body.Some? && c.final.Some?
  }

  /** The step resends it: its timer, on a call not settled, with a resend left. */
  predicate Resends(c: Call, e: Event) {
    e.ResendFires? && c.resend.Some? && c.resend.value > 0 && !c.settled
  }

  /** Joined, custody made ready in time, and the agent not stopped. */
  predicate Accepts(c: Call, e: Event) {
    e.Resumed? && c.state.Offered? && e.joined && e.prepared && !e.stopped
  }

  /** How many acts of one kind a step adds, the words and asking of a request apart. */
  function Adds(c: Call, e: Event, p: Act -> bool): nat {
    if Repeats(c, e) then if p(Repeated(c.final.value)) then 1 else 0
    else if Resends(c, e) && c.final.Some? then if p(Resent(c.final.value)) then 1 else 0
    else if Accepts(c, e) then if p(Accept(e.now, e.joinedAt)) then 1 else 0
    else if e.Written? && c.state.Running? && p(SayWritten) then 1 else 0
  }

  lemma {:induction false} TimedAdds(c: Call, e: Event, p: Act -> bool)
    requires Inv(c) && !e.Request? && !e.Outcome_?
    ensures Count(p, Next(c, e).log) == Count(p, c.log) + Adds(c, e, p)
  {
    if Accepts(c, e) {
      CountMore(p, c.log, Accept(e.now, e.joinedAt));
    } else if e.Written? {
      CountMore(p, c.log, SayWritten);
    } else if Resends(c, e) {
      CountMore(p, c.log, Resent(c.final.value));
    }
  }

  lemma {:induction false} AddsExactly(c: Call, e: Event, p: Act -> bool)
    requires Inv(c) && !p(Started)
    requires (forall word :: !p(LastWord(word))) && forall deadlineAt, now :: !p(AskCustody(deadlineAt, now))
    ensures Count(p, Next(c, e).log) == Count(p, c.log) + Adds(c, e, p)
  {
    if e.Outcome_? {
      OutcomeAdds(c, e.outcome, p);
    } else if !e.Request? {
      TimedAdds(c, e, p);
    } else if Repeats(c, e) {
      CountMore(p, c.log, Repeated(c.final.value));
    } else if Draws(c, e) {
      RequestAdds(c, e.body.value, e.now, e.load, p);
    }
  }

  lemma {:induction false} RequestAdds(c: Call, body: Body, now: int, load: nat, p: Act -> bool)
    requires Inv(c) && c.state.Accepted? && c.acceptedAt.Some? && !p(Started)
    requires (forall word :: !p(LastWord(word))) && forall deadlineAt, now :: !p(AskCustody(deadlineAt, now))
    ensures Count(p, Requested(c, Some(body), now, load).log) == Count(p, c.log)
  {
    var word := RequestedDoes(c, body, now, load);
    CountMore(p, c.log, LastWord(word));
    CountMore(p, c.log, Started);
    CountMore(p, c.log + [Started], AskCustody(DeadlineOf(c.acceptedAt.value), now));
  }

  lemma {:induction false} OutcomeAdds(c: Call, outcome: Outcome, p: Act -> bool)
    requires forall word :: !p(LastWord(word))
    ensures Count(p, Next(c, Outcome_(outcome)).log) == Count(p, c.log)
  {
    match outcome {
      case Lost =>
      case RefusedBy(code) => CountMore(p, c.log, LastWord(Refused(ByCustody(code))));
      case AnsweredBy(text) => CountMore(p, c.log, LastWord(Answer(text)));
    }
  }

  /** Its last word repeated and resent, each exactly by its own step. */
  lemma {:induction false} SaidAgainExactlyBy(c: Call, e: Event)
    requires Inv(c)
    ensures Count(IsRepeated, Next(c, e).log) == Count(IsRepeated, c.log) + if Repeats(c, e) then 1 else 0
    ensures Count(IsResent, Next(c, e).log) == Count(IsResent, c.log) + if Resends(c, e) then 1 else 0
  {
    AddsExactly(c, e, IsRepeated);
    AddsExactly(c, e, IsResent);
  }

  /** Accepted, and told that the request was written, each exactly by its own step. */
  lemma {:induction false} SaidExactlyBy(c: Call, e: Event)
    requires Inv(c)
    ensures Count(IsAccept, Next(c, e).log) == Count(IsAccept, c.log) + if Accepts(c, e) then 1 else 0
    ensures Count(IsWritten, Next(c, e).log) == Count(IsWritten, c.log) + if e.Written? && c.state.Running? then 1 else 0
  {
    AddsExactly(c, e, IsAccept);
    AddsExactly(c, e, IsWritten);
  }

  /** The step lets the call go. */
  predicate LetsGo(c: Call, e: Event) {
    e.Dropped? || (e.KeptFires? && c.kept)
  }

  /** The broker's word that it has the last one. */
  predicate Settles(c: Call, e: Event) {
    e.Settled? && e.opens && c.listening
  }

  /** A call is listened to from its accept until settled or let go, and settled exactly by the broker's word. */
  lemma {:induction false} ListensExactlyWhile(c: Call, e: Event)
    requires Inv(c)
    ensures var t := Next(c, e);
            && (t.listening <==> Accepts(c, e) || (c.listening && !Settles(c, e) && !LetsGo(c, e)))
            && (t.settled <==> c.settled || Settles(c, e))
  {
    if Draws(c, e) {
      var word := RequestedDoes(c, e.body.value, e.now, e.load);
    }
  }

  /** It is held, its keeping timer running, until let go; accepted when the agent says. */
  lemma {:induction false} HeldExactlyUntil(c: Call, e: Event)
    requires Inv(c)
    ensures var t := Next(c, e);
            && (t.held <==> c.held && !LetsGo(c, e)) && (t.kept <==> c.kept && !LetsGo(c, e))
            && (Accepts(c, e) ==> t.acceptedAt == Some(e.now))
  {
    if Draws(c, e) {
      var word := RequestedDoes(c, e.body.value, e.now, e.load);
    }
  }

  /** It runs from the request that asks custody until custody's outcome; done, from an outcome, a refusal or an accept that failed. */
  lemma {:induction false} RunsExactlyWhile(c: Call, e: Event)
    requires Inv(c)
    ensures var t := Next(c, e);
            && (t.state.Offered? <==> c.state.Offered? && !e.Resumed?)
            && (t.state.Accepted? <==> Accepts(c, e) || (c.state.Accepted? && !Draws(c, e)))
            && (t.state.Running? <==> (Draws(c, e) && Runs(c, e.body.value, e.now, e.load)) || (c.state.Running? && !e.Outcome_?))
  {
    if e.Request? && Draws(c, e) {
      var word := RequestedDoes(c, e.body.value, e.now, e.load);
    }
  }

  /** While its timer runs, the last word was resent as often as the timer says: three times, and none left. */
  ghost predicate TimerHolds(c: Call) {
    c.resend.Some? ==> c.final.Some? && Count(IsResent, c.log) + c.resend.value == 3
  }

  /** The resend timer runs from the last word on, until let go, settled or spent. */
  lemma {:induction false} TimerExactlyBy(c: Call, e: Event)
    requires Inv(c) && TimerHolds(c)
    ensures var t := Next(c, e);
            && TimerHolds(t)
            && (t.resend.Some? <==>
                  || (c.final.None? && t.final.Some?)
                  || (c.resend.Some? && !e.Dropped? && !(e.KeptFires? && c.kept) && !(e.ResendFires? && (c.settled || c.resend.value == 0))))
  {
    SaidAgainExactlyBy(c, e);
    if c.final.None? {
      NoneResent(c);
    }
    NextKeeps(c, e);
  }

  lemma {:induction false} NoneResent(c: Call)
    requires Inv(c) && c.final.None?
    ensures Count(IsResent, c.log) == 0 && c.resend.None?
  {
  }

  lemma {:induction false} TimerAlwaysHolds(events: seq<Event>)
    ensures Inv(Run(OFFERED, events)) && TimerHolds(Run(OFFERED, events))
  {
    if events != [] {
      var k := |events| - 1;
      TimerAlwaysHolds(events[..k]);
      RunLast(OFFERED, events);
      NextKeeps(Run(OFFERED, events[..k]), events[k]);
      TimerExactlyBy(Run(OFFERED, events[..k]), events[k]);
    }
  }

  lemma {:induction false} FinishAsksNothing(c: Call, word: Word)
    ensures Count(IsAsk, Finish(c, word).log) == Count(IsAsk, c.log)
  {
    CountMore(IsAsk, c.log, LastWord(word));
  }

  lemma {:induction false} RequestedAsks(c: Call, body: Option<Body>, now: int, load: nat)
    requires Inv(c)
    ensures Count(IsAsk, Requested(c, body, now, load).log)
         == Count(IsAsk, c.log) + if c.state.Accepted? && body.Some? && Runs(c, body.value, now, load) then 1 else 0
  {
    if c.state.Accepted? && body.Some? {
      var word := RequestedDoes(c, body.value, now, load);
      if Runs(c, body.value, now, load) {
        CountMore(IsAsk, c.log, Started);
        CountMore(IsAsk, c.log + [Started], AskCustody(DeadlineOf(c.acceptedAt.value), now));
      } else {
        FinishAsksNothing(c, word);
      }
    } else if c.final.Some? {
      CountMore(IsAsk, c.log, Repeated(c.final.value));
    }
  }

  /** Custody is asked exactly by a request heard on an accepted call, whole and in time, on a machine not too busy. */
  lemma {:induction false} AskedExactlyWhen(c: Call, e: Event)
    requires Inv(c)
    ensures Count(IsAsk, Next(c, e).log)
         == Count(IsAsk, c.log) + if e.Request? && c.listening && c.state.Accepted? && e.body.Some? && Runs(c, e.body.value, e.now, e.load)
                                  then 1 else 0
  {
    match e {
      case Request(body, now, load) => RequestedAsks(c, body, now, load);
      case Resumed(_, _, _, joinedAt, now) => CountMore(IsAsk, c.log, Accept(now, joinedAt));
      case Written => CountMore(IsAsk, c.log, SayWritten);
      case Outcome_(RefusedBy(code)) => FinishAsksNothing(c, Refused(ByCustody(code)));
      case Outcome_(AnsweredBy(text)) => FinishAsksNothing(c, Answer(text));
      case ResendFires =>
        if c.final.Some? {
          CountMore(IsAsk, c.log, Resent(c.final.value));
        }
      case _ =>
    }
  }

  /** A call settled once done says no more, whatever comes. */
  lemma {:induction false} SettledSaysNoMore(c: Call, e: Event)
    requires c.settled && !c.listening && c.state.Done?
    ensures var t := Next(c, e); t.log == c.log && t.settled && !t.listening && t.state.Done?
  {
  }

  // ------------------------------------------------------------------ all the calls of one agent

  /** Every call so far, each with its id, and the one each id held now stands for. */
  datatype Calls = Calls(all: seq<Call>, ids: seq<string>, held: map<string, nat>, stopped: bool)

  const NO_CALLS := Calls([], [], map[], false)

  datatype Move =
    | Offer(k: string, topic: bool)      // `topic`: the id makes one
    | ToCall(i: nat, e: Event)           // what one call hears, its timers and its custody
    | Keep(k: string)                    // the id's ten minutes are over
    | Stop

  /** An offer makes a call only for an id that makes a topic and is not held, by an agent that runs. */
  predicate Takes(c: Calls, k: string, topic: bool) {
    topic && k !in c.held && !c.stopped
  }

  function LetGo(call: Call): Call {
    Next(call, Dropped)
  }

  function AgentNext(c: Calls, m: Move): Calls {
    match m
    case Offer(k, topic) =>
      if Takes(c, k, topic) then c.(all := c.all + [OFFERED], ids := c.ids + [k], held := c.held[k := |c.all|]) else c
    case ToCall(i, e) => if i < |c.all| && !e.KeptFires? && !e.Dropped? then c.(all := c.all[i := Next(c.all[i], e)]) else c
    case Keep(k) =>
      if k in c.held && c.held[k] < |c.all| then c.(all := c.all[c.held[k] := LetGo(c.all[c.held[k]])], held := c.held - {k}) else c
    case Stop => Calls(seq(|c.all|, i requires 0 <= i < |c.all| => if c.all[i].held then LetGo(c.all[i]) else c.all[i]), c.ids, map[], true)
  }

  function AgentRun(c: Calls, moves: seq<Move>): Calls
    decreases |moves|
  {
    if moves == [] then c else AgentRun(AgentNext(c, moves[0]), moves[1..])
  }

  /** Each call keeps what one call does; an id held stands for one call of that id, and every other call of it was let go. */
  ghost predicate AgentInv(c: Calls) {
    && |c.ids| == |c.all| && (forall i :: 0 <= i < |c.all| ==> Inv(c.all[i]))
    && (forall i :: 0 <= i < |c.all| ==> (c.all[i].held <==> c.ids[i] in c.held && c.held[c.ids[i]] == i))
    && (forall k :: k in c.held ==> c.held[k] < |c.all| && c.ids[c.held[k]] == k)
    && (c.stopped ==> c.held == map[])
  }

  lemma {:induction false} HeldStays(c: Call, e: Event)
    requires !e.KeptFires? && !e.Dropped?
    ensures Next(c, e).held == c.held
  {
  }

  lemma {:induction false} OfferKeeps(c: Calls, k: string, topic: bool)
    requires AgentInv(c)
    ensures AgentInv(AgentNext(c, Offer(k, topic)))
  {
  }

  lemma {:induction false} ToCallKeeps(c: Calls, i: nat, e: Event)
    requires AgentInv(c)
    ensures AgentInv(AgentNext(c, ToCall(i, e)))
  {
    if i < |c.all| && !e.KeptFires? && !e.Dropped? {
      NextKeeps(c.all[i], e);
      HeldStays(c.all[i], e);
    }
  }

  lemma {:induction false} LetGoKeeps(call: Call)
    requires Inv(call)
    ensures Inv(LetGo(call)) && !LetGo(call).held
  {
    NextKeeps(call, Dropped);
  }

  lemma {:induction false} KeepKeeps(c: Calls, k: string)
    requires AgentInv(c)
    ensures AgentInv(AgentNext(c, Keep(k)))
  {
    if k in c.held {
      LetGoKeeps(c.all[c.held[k]]);
    }
  }

  lemma {:induction false} StopKeeps(c: Calls)
    requires AgentInv(c)
    ensures AgentInv(AgentNext(c, Stop))
  {
    forall i | 0 <= i < |c.all| ensures Inv(LetGo(c.all[i])) && !LetGo(c.all[i]).held {
      LetGoKeeps(c.all[i]);
    }
  }

  lemma {:induction false} AgentKeeps(c: Calls, m: Move)
    requires AgentInv(c)
    ensures AgentInv(AgentNext(c, m))
  {
    match m {
      case Offer(k, topic) => OfferKeeps(c, k, topic);
      case ToCall(i, e) => ToCallKeeps(c, i, e);
      case Keep(k) => KeepKeeps(c, k);
      case Stop => StopKeeps(c);
    }
  }

  lemma {:induction false} AgentRunKeeps(c: Calls, moves: seq<Move>)
    requires AgentInv(c)
    ensures AgentInv(AgentRun(c, moves))
    decreases |moves|
  {
    if moves != [] {
      AgentKeeps(c, moves[0]);
      AgentRunKeeps(AgentNext(c, moves[0]), moves[1..]);
    }
  }

  /**
   * Over every order of offers, of what their calls hear, of their timers and of
   * the agent's stop: of each id at most one call is held, and each call, held or
   * let go, asks custody at most once, in time, and has at most one last word.
   */
  lemma {:induction false} EveryCallOneWord(moves: seq<Move>)
    ensures var c := AgentRun(NO_CALLS, moves);
            && |c.ids| == |c.all|
            && (forall i, j :: 0 <= i < |c.all| && 0 <= j < |c.all| && c.ids[i] == c.ids[j] && c.all[i].held && c.all[j].held ==> i == j)
            && (forall i :: 0 <= i < |c.all| ==>
                  && LogHolds(c.all[i]) && Count(IsAccept, c.all[i].log) <= 1 && Count(IsAsk, c.all[i].log) <= 1
                  && Count(IsLast, c.all[i].log) <= 1 && Count(IsResent, c.all[i].log) <= ANSWER_RESENDS)
  {
    AgentRunKeeps(NO_CALLS, moves);
  }

  /** What a move of the agent's is to call `i`: its own event, or its letting go. */
  function EventTo(c: Calls, m: Move, i: nat): Option<Event>
    requires i < |c.all|
  {
    match m
    case Offer(_, _) => None
    case ToCall(j, e) => if j == i && !e.KeptFires? && !e.Dropped? then Some(e) else None
    case Keep(k) => if k in c.held && c.held[k] == i then Some(Dropped) else None
    case Stop => if c.all[i].held then Some(Dropped) else None
  }

  /** A move makes a call exactly for an offer taken, and is to every other call its own event or nothing. */
  lemma {:induction false} MoveIsEachCallsStep(c: Calls, m: Move)
    requires AgentInv(c)
    ensures var t, takes := AgentNext(c, m), m.Offer? && m.topic && m.k !in c.held && !c.stopped;
            && |t.all| == |c.all| + (if takes then 1 else 0) && |t.ids| == |t.all|
            && (takes ==> t.all[|c.all|] == OFFERED && t.ids[|c.all|] == m.k && t.held == c.held[m.k := |c.all|])
            && (t.stopped <==> c.stopped || m.Stop?)
            && (forall i :: 0 <= i < |c.all| ==>
                  && t.ids[i] == c.ids[i]
                  && t.all[i] == match EventTo(c, m, i) case None => c.all[i] case Some(e) => Next(c.all[i], e))
  {
  }

  ghost function EventsTo(c: Calls, moves: seq<Move>, i: nat): seq<Event>
    requires AgentInv(c) && i < |c.all|
    decreases |moves|
  {
    if moves == [] then []
    else
      AgentKeeps(c, moves[0]);
      MoveIsEachCallsStep(c, moves[0]);
      var rest := EventsTo(AgentNext(c, moves[0]), moves[1..], i);
      match EventTo(c, moves[0], i) case None => rest case Some(e) => [e] + rest
  }

  lemma {:induction false} EachCallRuns(c: Calls, moves: seq<Move>, i: nat)
    requires AgentInv(c) && i < |c.all|
    ensures var t := AgentRun(c, moves); i < |t.all| && i < |t.ids| && t.ids[i] == c.ids[i] && t.all[i] == Run(c.all[i], EventsTo(c, moves, i))
    decreases |moves|
  {
    if moves != [] {
      AgentKeeps(c, moves[0]);
      MoveIsEachCallsStep(c, moves[0]);
      EachCallRuns(AgentNext(c, moves[0]), moves[1..], i);
      match EventTo(c, moves[0], i) {
        case None =>
        case Some(e) => assert ([e] + EventsTo(AgentNext(c, moves[0]), moves[1..], i))[1..] == EventsTo(AgentNext(c, moves[0]), moves[1..], i);
      }
    }
  }

  lemma {:induction false} AgentRunOn(c: Calls, moves: seq<Move>, n: nat)
    requires n <= |moves|
    ensures AgentRun(c, moves) == AgentRun(AgentRun(c, moves[..n]), moves[n..])
    decreases n
  {
    if n == 0 {
      assert moves[..0] == [] && moves[0..] == moves;
    } else {
      assert moves[..n][1..] == moves[1..][..n - 1] && moves[1..][n - 1..] == moves[n..];
      AgentRunOn(AgentNext(c, moves[0]), moves[1..], n - 1);
    }
  }

  /**
   * Over every order of moves: an offer taken makes a call, and that call is then
   * one call's run from the offer, over just what was its own.
   */
  lemma {:induction false} EveryOfferTakenIsOneRun(moves: seq<Move>, n: nat)
    requires n < |moves| && moves[n].Offer?
    ensures var c, k := AgentRun(NO_CALLS, moves[..n]), moves[n].k;
            moves[n].topic && k !in c.held && !c.stopped ==>
              var i, made, t := |c.all|, AgentNext(c, moves[n]), AgentRun(NO_CALLS, moves);
              && AgentInv(made) && i < |made.all|
              && i < |t.all| && i < |t.ids| && t.ids[i] == k && t.all[i] == Run(OFFERED, EventsTo(made, moves[n + 1..], i))
  {
    var c := AgentRun(NO_CALLS, moves[..n]);
    AgentRunKeeps(NO_CALLS, moves[..n]);
    MoveIsEachCallsStep(c, moves[n]);
    AgentKeeps(c, moves[n]);
    AgentRunOn(NO_CALLS, moves, n);
    assert moves[n..][0] == moves[n] && moves[n..][1..] == moves[n + 1..];
    if moves[n].topic && moves[n].k !in c.held && !c.stopped {
      EachCallRuns(AgentNext(c, moves[n]), moves[n + 1..], |c.all|);
    }
  }

  // ------------------------------------------------------------------ the agent's own code

  /** One call, its fields changed by what it hears and by its timers. */
  class CarriedCall {
    var state: State
    var listening: bool
    var acceptedAt: Option<int>
    var final: Option<Word>
    var settled: bool
    var resend: Option<nat>
    var kept: bool
    var held: bool
    var log: seq<Act>

    function View(): Call
      reads this
    {
      Call(state, listening, acceptedAt, final, settled, resend, kept, held, log)
    }

    constructor ()
      ensures View() == OFFERED
    {
      state, listening, acceptedAt, final, settled := Offered, false, None, None, false;
      resend, kept, held, log := None, true, true, [];
    }

    /** The one last word: from here on it is what a repeat is told, and what the timer resends. */
    method Conclude(word: Word)
      modifies this
      ensures View() == Finish(old(View()), word)
    {
      state := Done;
      log := log + [LastWord(word)];
      final, resend := Some(word), Some(ANSWER_RESENDS);
    }

    /** The line joined, and custody made ready: accept, or nothing more. */
    method Resume(joined: bool, prepared: bool, stopped: bool, joinedAt: int, now: int)
      requires state.Offered?
      modifies this
      ensures View() == Next(old(View()), Resumed(joined, prepared, stopped, joinedAt, now))
    {
      if !(joined && prepared) || stopped {
        state := Done;
        return;
      }
      listening := true;
      acceptedAt := Some(now);
      state := Accepted;
      log := log + [Accept(now, joinedAt)];
    }

    /** A request heard on the call's line: it starts the call's one run, draws a refusal, or draws the last word once more. */
    method Hear(body: Option<Body>, now: int, load: nat) returns (runs: bool)
      requires listening
      modifies this
      ensures View() == Next(old(View()), Request(body, now, load))
      ensures runs <==> old(state).Accepted? && state.Running?
    {
      runs := false;
      if body.None? {
        return;
      }
      if state.Done? && final.Some? {
        log := log + [Repeated(final.value)];
        return;
      }
      if !state.Accepted? || acceptedAt.None? {
        return;
      }
      var deadlineAt := DeadlineOf(acceptedAt.value);
      if !body.value.chat || body.value.deadlineAt != Some(deadlineAt) || !body.value.exactKeys {
        Conclude(Refused(RequestRefused));
      } else if !Sendable(deadlineAt, now) {
        Conclude(Refused(SendLapsed));
      } else if load > BUSY_LOAD {
        Conclude(Refused(MachineBusy));
      } else {
        state := Running;
        log := log + [Started];
        log := log + [AskCustody(deadlineAt, now)];
        runs := true;
      }
    }

    method HearSettled(opens: bool)
      requires listening
      modifies this
      ensures View() == Next(old(View()), Settled(opens))
    {
      if opens {
        settled, listening := true, false;
      }
    }

    method OutcomeCame(outcome: Outcome)
      requires state.Running?
      modifies this
      ensures View() == Next(old(View()), Outcome_(outcome))
    {
      match outcome {
        case Lost => state := Done;
        case RefusedBy(code) => Conclude(Refused(ByCustody(code)));
        case AnsweredBy(text) => Conclude(Answer(text));
      }
    }

    method Again()
      requires resend.Some?
      modifies this
      ensures View() == Next(old(View()), ResendFires)
    {
      if settled || resend.value == 0 || final.None? {
        resend := None;
        return;
      }
      log := log + [Resent(final.value)];
      resend := Some(resend.value - 1);
    }

    /** Kept long enough, or the agent stops: no timer, no line, no longer among the calls. */
    method LetGo()
      modifies this
      ensures View() == Next(old(View()), Dropped)
    {
      kept, held, resend, listening := false, false, None, false;
    }
  }

  /** The calls held, one for each id from its offer until it is let go. */
  class Agent {
    var calls: map<string, CarriedCall>
    var stopped: bool

    constructor ()
      ensures calls == map[] && !stopped
    {
      calls, stopped := map[], false;
    }

    /** An offer rung: a new call, once per id while it is held; none for an id that makes no topic. */
    method OnOffer(k: string, topic: bool) returns (call: Option<CarriedCall>)
      modifies this`calls
      ensures call.Some? <==> topic && k !in old(calls) && !stopped
      ensures call.Some? ==> fresh(call.value) && call.value.View() == OFFERED && calls == old(calls)[k := call.value]
      ensures call.None? ==> calls == old(calls)
    {
      if k in calls || stopped || !topic {
        return None;
      }
      var c := new CarriedCall();
      calls := calls[k := c];
      call := Some(c);
    }

    /** Ten minutes on, the call of that id is let go. */
    method KeptOver(k: string)
      requires k in calls
      modifies this`calls, calls[k]
      ensures calls == old(calls) - {k}
      ensures old(calls)[k].View() == Next(old(calls[k].View()), Dropped)
    {
      calls[k].LetGo();
      calls := calls - {k};
    }

    /** Stopped: no offer is taken any more, and every call is let go as it stands. */
    method Stop()
      modifies this, calls.Values
      ensures stopped && calls == map[]
      ensures forall k :: k in old(calls) ==> !old(calls)[k].held && !old(calls)[k].listening && old(calls)[k].resend.None?
                                              && old(calls)[k].state == old(calls[k].state) && old(calls)[k].log == old(calls[k].log)
    {
      stopped := true;
      var left := calls.Keys;
      while left != {}
        invariant calls == old(calls) && stopped && left <= calls.Keys
        invariant forall k :: k in calls ==> calls[k].state == old(calls[k].state) && calls[k].log == old(calls[k].log)
        invariant forall k :: k in calls && k !in left ==> !calls[k].held && !calls[k].listening && calls[k].resend.None?
        decreases |left|
      {
        var k :| k in left;
        calls[k].LetGo();
        left := left - {k};
      }
      calls := map[];
    }
  }
}
