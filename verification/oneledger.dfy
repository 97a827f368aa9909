/**
 * apps/local-agent/runner.ts:240-282 over home-lock.ts: any number of runners
 * come and go on one home, each with memory of its own and all with one ledger.
 * A runner starts once it holds the home (runner.ts:244) and lets go once it is
 * closing with no call in flight (runner.ts:263-274); its steps, the lock's and
 * the deaths interleave in any order.
 */
module OneLedger {
  import opened Lists
  import opened Ledger
  import HomeLock
  import Gate
  import Runner

  predicate Begun(pc: HomeLock.Pc) {
    pc.Held? || pc.ReadOwn? || pc.RemoveLock? || pc.Released?
  }

  /** What one runner keeps in memory. */
  datatype Own = Own(broken: bool, closing: bool, queue: seq<Runner.Request>, running: Option<Runner.Running>, waiting: nat)

  const NEW := Own(false, false, [], None, 0)

  datatype State = State(home: HomeLock.State, file: File, calls: map<string, Runner.Charge>, owns: map<HomeLock.Runner, Own>) {
    function OwnOf(r: HomeLock.Runner): Own {
      if r in owns then owns[r] else NEW
    }

    /** The runner's state as `r` sees it: the shared ledger beside its own memory. */
    function Sees(r: HomeLock.Runner): Runner.State {
      var own := OwnOf(r);
      Runner.State(file, own.broken, own.closing, own.queue, own.running, own.waiting, calls)
    }

    /** It held the home once: its runner was made. */
    predicate Started(r: HomeLock.Runner) {
      Begun(home.Pc(r))
    }

    /** Nothing it does now writes. */
    predicate Closed(r: HomeLock.Runner) {
      OwnOf(r).closing && OwnOf(r).running.None?
    }
  }

  datatype Event = OnLock(step: HomeLock.Event) | OnLedger(r: HomeLock.Runner, call: Runner.Event)

  predicate Dies(e: Runner.Event) {
    e.Die? || ((e.Turn? || e.Finish?) && e.write.fate.Died?)
  }

  ghost function Works(config: Runner.Config, s: State, r: HomeLock.Runner, e: Runner.Event): State {
    var t := Runner.Next(config, s.Sees(r), e);
    State(if Dies(e) then HomeLock.Next(s.home, HomeLock.Die(r.process)) else s.home,
          t.file, t.calls, s.owns[r := Own(t.broken, t.closing, t.queue, t.running, t.waiting)])
  }

  ghost function Next(config: Runner.Config, s: State, e: Event): State {
    match e
    case OnLock(step) =>
      if step.LetGo? && !s.Closed(step.r) then s else s.(home := HomeLock.Next(s.home, step))
    case OnLedger(r, call) =>
      if s.home.Live(r) && s.Started(r) then Works(config, s, r, call) else s
  }

  ghost function Run(config: Runner.Config, s: State, events: seq<Event>): State
    decreases |events|
  {
    if events == [] then s else Run(config, Next(config, s, events[0]), events[1..])
  }

  /** A free home beside any ledger. */
  function Start(file: File): State {
    State(HomeLock.FREE, file, map[], map[])
  }

  /** A runner dies only with its own process, and lets go exactly once it is closed, and so told. */
  lemma {:induction false} DiesAndLetsGoExactly(config: Runner.Config, s: State, e: Event, q: HomeLock.Runner)
    ensures var t := Next(config, s, e);
            t.home.Live(q) <==>
              && s.home.Live(q)
              && !(e.OnLock? && e.step == HomeLock.Die(q.process))
              && !(e.OnLedger? && e.r.process == q.process && s.home.Live(e.r) && s.Started(e.r) && Dies(e.call))
    ensures e == OnLock(HomeLock.LetGo(q)) && s.home.Live(q) && s.home.Pc(q).Held? ==>
              (Next(config, s, e).home.Pc(q) == HomeLock.ReadOwn <==> s.Closed(q))
  {
  }

  // ------------------------------------------------------------------ what every run keeps

  /** Only a runner that held the home has done anything, and one past holding it is closed. */
  ghost predicate Placed(s: State, r: HomeLock.Runner) {
    && (r in s.owns ==> s.Started(r))
    && (s.home.Live(r) && s.Started(r) && !s.home.Pc(r).Held? ==> s.Closed(r))
  }

  /** The ledger is as one runner's run leaves it, and who holds the home is that runner. */
  ghost predicate IsOne(s: State, c: Runner.State) {
    && c.file == s.file && c.calls == s.calls
    && forall r :: s.home.Live(r) && s.home.Pc(r).Held? ==> s.Sees(r) == c
  }

  ghost predicate Inv(s: State) {
    HomeLock.Inv(s.home) && forall r :: Placed(s, r)
  }

  lemma {:induction false} RunMore(config: Runner.Config, c: Runner.State, events: seq<Runner.Event>, e: Runner.Event)
    ensures Runner.Run(config, c, events + [e]) == Runner.Next(config, Runner.Run(config, c, events), e)
    decreases |events|
  {
    if events == [] {
      assert ([e])[1..] == [];
    } else {
      assert (events + [e])[1..] == events[1..] + [e];
      RunMore(config, Runner.Next(config, c, events[0]), events[1..], e);
    }
  }

  lemma {:induction false} ClosedWritesNothing(config: Runner.Config, c: Runner.State, e: Runner.Event)
    requires c.closing && c.running.None?
    ensures var t := Runner.Next(config, c, e);
            t.file == c.file && t.calls == c.calls && (!Dies(e) ==> t.closing && t.running.None?)
  {
  }

  lemma {:induction false} LockKeepsPlaces(s: State, step: HomeLock.Event, r: HomeLock.Runner)
    requires Inv(s) && (step.LetGo? ==> s.Closed(step.r))
    ensures Placed(s.(home := HomeLock.Next(s.home, step)), r)
  {
    assert Placed(s, r);
    if step.Act? && s.home.Live(step.r) {
      assert HomeLock.Sound(s.home, step.r);
      HomeLock.StepChanges(s.home, step.r, step.found);
      StepBegins(s.home, step.r, step.found);
    } else {
      assert step.LetGo? && step.r == r ==> s.Closed(r);
    }
  }

  /** Its own steps never take it back to before it held the home, nor past holding it. */
  lemma {:induction false} StepBegins(s: HomeLock.State, r: HomeLock.Runner, found: bool)
    ensures var was, now := s.Pc(r), HomeLock.Step(s, r, found).Pc(r);
            (Begun(was) ==> Begun(now)) && (Begun(now) && !now.Held? ==> Begun(was) && !was.Held?)
  {
  }

  lemma {:induction false} WorkKeepsPlaces(config: Runner.Config, s: State, r: HomeLock.Runner, e: Runner.Event, other: HomeLock.Runner)
    requires Inv(s) && s.home.Live(r) && s.Started(r)
    ensures Placed(Works(config, s, r, e), other)
  {
    assert Placed(s, other);
    if other == r && !s.home.Pc(r).Held? {
      ClosedWritesNothing(config, s.Sees(r), e);
    }
  }

  lemma {:induction false} NextKeeps(config: Runner.Config, s: State, e: Event)
    requires Inv(s)
    ensures Inv(Next(config, s, e))
  {
    match e {
      case OnLock(step) =>
        if step.LetGo? ==> s.Closed(step.r) {
          HomeLock.NextKeeps(s.home, step);
          forall r ensures Placed(Next(config, s, e), r) { LockKeepsPlaces(s, step, r); }
        }
      case OnLedger(r, call) =>
        if s.home.Live(r) && s.Started(r) {
          HomeLock.NextKeeps(s.home, HomeLock.Die(r.process));
          forall other ensures Placed(Next(config, s, e), other) { WorkKeepsPlaces(config, s, r, call, other); }
        }
    }
  }

  /** A runner that comes to hold the home is the last one started anew. */
  lemma {:induction false} HeldStartsAnew(config: Runner.Config, s: State, c: Runner.State, r: HomeLock.Runner, found: bool)
    requires Inv(s) && IsOne(s, c) && s.home.Live(r) && !s.home.Pc(r).Held? && HomeLock.Step(s.home, r, found).Pc(r).Held?
    ensures IsOne(s.(home := HomeLock.Step(s.home, r, found)), Runner.Next(config, c, Runner.Die))
  {
    var t := s.(home := HomeLock.Step(s.home, r, found));
    assert HomeLock.Sound(s.home, r) && Placed(s, r);
    HomeLock.StepChanges(s.home, r, found);
    forall q | t.home.Live(q) && t.home.Pc(q).Held? ensures q == r {
      assert HomeLock.Sound(s.home, q);
    }
  }

  lemma {:induction false} LockIsOne(s: State, c: Runner.State, step: HomeLock.Event)
    requires Inv(s) && IsOne(s, c)
    requires step.Act? && s.home.Live(step.r) && !s.home.Pc(step.r).Held? ==> !HomeLock.Step(s.home, step.r, step.found).Pc(step.r).Held?
    ensures IsOne(s.(home := HomeLock.Next(s.home, step)), c)
  {
    var t := s.(home := HomeLock.Next(s.home, step));
    if step.Act? && s.home.Live(step.r) {
      assert HomeLock.Sound(s.home, step.r);
      HomeLock.StepChanges(s.home, step.r, step.found);
    }
    forall q | t.home.Live(q) && t.home.Pc(q).Held? ensures t.Sees(q) == c {
      assert s.home.Live(q) && s.home.Pc(q).Held?;
      assert t.Sees(q) == s.Sees(q);
    }
  }

  lemma {:induction false} WorkIsOne(config: Runner.Config, s: State, c: Runner.State, r: HomeLock.Runner, e: Runner.Event)
    requires Inv(s) && IsOne(s, c) && s.home.Live(r) && s.Started(r)
    ensures IsOne(Works(config, s, r, e), if s.home.Pc(r).Held? then Runner.Next(config, c, e) else c)
  {
    var t := Works(config, s, r, e);
    assert Placed(s, r) && HomeLock.Sound(s.home, r);
    if s.home.Pc(r).Held? {
      assert s.Sees(r) == c;
      forall q | t.home.Live(q) && t.home.Pc(q).Held? ensures q == r {
        assert HomeLock.Sound(s.home, q);
      }
    } else {
      ClosedWritesNothing(config, s.Sees(r), e);
      forall q | t.home.Live(q) && t.home.Pc(q).Held? ensures t.Sees(q) == c {
        assert s.Sees(q) == c;
        assert t.OwnOf(q) == s.OwnOf(q);
      }
    }
  }

  /** One step of the runners is none, or one, of the single runner. */
  lemma {:induction false} NextIsOne(config: Runner.Config, s: State, c: Runner.State, e: Event) returns (one: seq<Runner.Event>)
    requires Inv(s) && IsOne(s, c)
    ensures IsOne(Next(config, s, e), Runner.Run(config, c, one))
    ensures |one| <= 1
  {
    one := [];
    match e {
      case OnLock(step) =>
        if step.LetGo? ==> s.Closed(step.r) {
          if step.Act? && s.home.Live(step.r) && !s.home.Pc(step.r).Held? && HomeLock.Step(s.home, step.r, step.found).Pc(step.r).Held? {
            HeldStartsAnew(config, s, c, step.r, step.found);
            one := [Runner.Die];
            RunMore(config, c, [], Runner.Die);
          } else {
            LockIsOne(s, c, step);
          }
        }
      case OnLedger(r, call) =>
        if s.home.Live(r) && s.Started(r) {
          WorkIsOne(config, s, c, r, call);
          if s.home.Pc(r).Held? {
            one := [call];
            RunMore(config, c, [], call);
          }
        }
    }
  }

  lemma {:induction false} RunAppend(config: Runner.Config, c: Runner.State, events: seq<Runner.Event>, more: seq<Runner.Event>)
    ensures Runner.Run(config, c, events + more) == Runner.Run(config, Runner.Run(config, c, events), more)
    decreases |more|
  {
    if more == [] {
      assert events + more == events;
    } else {
      assert events + more == (events + [more[0]]) + more[1..];
      RunMore(config, c, events, more[0]);
      RunAppend(config, c, events + [more[0]], more[1..]);
    }
  }

  lemma {:induction false} RunIsOne(config: Runner.Config, s: State, c: Runner.State, events: seq<Event>) returns (one: seq<Runner.Event>)
    requires Inv(s) && IsOne(s, c)
    ensures Inv(Run(config, s, events)) && IsOne(Run(config, s, events), Runner.Run(config, c, one))
    decreases |events|
  {
    one := [];
    if events != [] {
      var first := NextIsOne(config, s, c, events[0]);
      NextKeeps(config, s, events[0]);
      var rest := RunIsOne(config, Next(config, s, events[0]), Runner.Run(config, c, first), events[1..]);
      one := first + rest;
      RunAppend(config, c, first, rest);
    }
  }

  /**
   * However the runners' calls, their lock steps and their deaths interleave, the
   * ledger and what each call came to are those of one runner, now and then
   * started anew, and whoever holds the home is in that runner's state.
   */
  lemma {:induction false} ManyRunnersAreOne(config: Runner.Config, file: File, events: seq<Event>) returns (one: seq<Runner.Event>)
    ensures Inv(Run(config, Start(file), events))
    ensures IsOne(Run(config, Start(file), events), Runner.Run(config, Runner.Start(file), one))
  {
    assert HomeLock.Inv(HomeLock.FREE);
    one := RunIsOne(config, Start(file), Runner.Start(file), events);
  }

  /** So over all of them together each started call stays charged. */
  lemma {:induction false} EveryRunnersCallsAreCharged(config: Runner.Config, file: File, events: seq<Event>, id: string)
    ensures var s := Run(config, Start(file), events);
            id in s.calls && Readable(s.file.All()) ==>
              id in Calls(s.file.All()) && Runner.Fits(s.calls[id], Calls(s.file.All())[id])
  {
    var one := ManyRunnersAreOne(config, file, events);
    Runner.StartedCallsAreCharged(config, file, one, id);
  }

  /** Only the runner holding the home writes; what it writes before a call stays in the cap, whoever charged the rest. */
  lemma {:induction false} OnlyTheHolderWrites(config: Runner.Config, file: File, events: seq<Event>, e: Event)
    ensures var s := Run(config, Start(file), events);
            var t := Next(config, s, e);
            t.file != s.file ==>
              && e.OnLedger? && s.home.lock == Some(HomeLock.Naming(e.r)) && HomeLock.Holds(s.home, e.r)
              && (e.call.Turn? ==> Total(t.file.All(), Gate.CapInForce(config.settings, e.call.approved))
                                   <= Gate.CapInForce(config.settings, e.call.approved))
  {
    var s := Run(config, Start(file), events);
    var one := ManyRunnersAreOne(config, file, events);
    if e.OnLedger? && s.home.Live(e.r) && s.Started(e.r) {
      assert Placed(s, e.r) && HomeLock.Sound(s.home, e.r);
      if s.home.Pc(e.r).Held? {
        if e.call.Turn? {
          Runner.ProvisionalChargeWithinCap(config, file, one, e.call);
        }
      } else {
        ClosedWritesNothing(config, s.Sees(e.r), e.call);
      }
    }
  }
}
