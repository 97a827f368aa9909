/**
 * apps/local-agent/home-lock.ts: the local runner's hold on its home, as
 * interleaved file-system steps of any number of runners. A process may die
 * between any two steps; its files stay as they are.
 *
 * Assumed: hold ids are unique (a `Runner` is one attempt), a lock's text goes
 * from empty to whole in one step, and a live process is always found alive. A
 * gone one may be found alive too, as when its pid is taken again.
 */
module HomeLock {
  import opened Lists

  /** One attempt to hold the home: the process, and the hold's own id. */
  datatype Runner = Runner(process: nat, hold: nat)

  /** What a lock file holds: nothing yet, from the runner that made it, or a runner's name. */
  datatype Text = Empty(maker: Runner) | Naming(runner: Runner)

  /** Where an attempt is: the step it takes next. */
  datatype Pc =
    | Starting
    | WriteLock                      // made the lock; its text not yet written
    | ReadLock                       // found one there
    | Judge(seen: Option<Text>)
    | MakeTakeover(gone: Runner)     // found the holder gone
    | ReadAgain(gone: Runner)        // holds the takeover lock from here...
    | MakeFresh(gone: Runner)
    | WriteFresh(gone: Runner)
    | Rename(gone: Runner)
    | RemoveFresh(took: bool)
    | RemoveTakeover(took: bool)     // ...to here
    | Held
    | ReadOwn                        // letting go
    | RemoveLock
    | Released
    | Refused

  datatype State = State(lock: Option<Text>, takeover: Option<Runner>, drafts: map<Runner, Text>,
                         pcs: map<Runner, Pc>, dead: set<nat>) {
    function Pc(r: Runner): Pc {
      if r in pcs then pcs[r] else Starting
    }

    function At(r: Runner, pc: Pc): State {
      this.(pcs := pcs[r := pc])
    }

    predicate Live(r: Runner) {
      r.process !in dead
    }
  }

  /** The next step of attempt `r`; `found` is what asking after a gone process's pid answers. */
  function Step(s: State, r: Runner, found: bool): State {
    match s.Pc(r)
    case Starting =>
      if s.lock.None? then s.(lock := Some(Empty(r))).At(r, WriteLock) else s.At(r, ReadLock)
    case WriteLock =>
      s.(lock := if s.lock == Some(Empty(r)) then Some(Naming(r)) else s.lock).At(r, Held)
    case ReadLock => s.At(r, Judge(s.lock))
    case Judge(None) =>
      if s.lock.None? then s.(lock := Some(Empty(r))).At(r, WriteLock) else s.At(r, Refused)
    case Judge(Some(Empty(_))) => s.At(r, Refused)
    case Judge(Some(Naming(holder))) =>
      if s.Live(holder) || found then s.At(r, Refused) else s.At(r, MakeTakeover(holder))
    case MakeTakeover(gone) =>
      if s.takeover.None? then s.(takeover := Some(r)).At(r, ReadAgain(gone)) else s.At(r, Refused)
    case ReadAgain(gone) =>
      if s.lock == Some(Naming(gone)) then s.At(r, MakeFresh(gone)) else s.At(r, RemoveFresh(false))
    case MakeFresh(gone) => s.(drafts := s.drafts[r := Empty(r)]).At(r, WriteFresh(gone))
    case WriteFresh(gone) => s.(drafts := s.drafts[r := Naming(r)]).At(r, Rename(gone))
    case Rename(gone) =>
      if r in s.drafts then s.(lock := Some(s.drafts[r]), drafts := s.drafts - {r}).At(r, RemoveFresh(true))
      else s.At(r, RemoveFresh(false))
    case RemoveFresh(took) => s.(drafts := s.drafts - {r}).At(r, RemoveTakeover(took))
    case RemoveTakeover(took) => s.(takeover := None).At(r, if took then Held else Refused)
    case Held => s
    case ReadOwn => s.At(r, if s.lock == Some(Naming(r)) then RemoveLock else Released)
    case RemoveLock => s.(lock := None).At(r, Released)
    case Released => s
    case Refused => s
  }

  datatype Event = Act(r: Runner, found: bool) | LetGo(r: Runner) | Die(process: nat)

  function Next(s: State, e: Event): State {
    match e
    case Act(r, found) => if s.Live(r) then Step(s, r, found) else s
    case LetGo(r) => if s.Live(r) && s.Pc(r) == Held then s.At(r, ReadOwn) else s
    case Die(process) => s.(dead := s.dead + {process})
  }

  function Run(s: State, events: seq<Event>): State
    decreases |events|
  {
    if events == [] then s else Run(Next(s, events[0]), events[1..])
  }

  /** A home no runner has held. */
  const FREE := State(None, None, map[], map[], {})

  /** `r` has the home: from making or renaming its lock to removing it. */
  predicate Holds(s: State, r: Runner) {
    s.Live(r)
    && match s.Pc(r)
       case WriteLock => true
       case RemoveFresh(took) => took
       case RemoveTakeover(took) => took
       case Held => true
       case ReadOwn => true
       case RemoveLock => true
       case _ => false
  }

  predicate TakingOver(pc: Pc) {
    pc.ReadAgain? || pc.MakeFresh? || pc.WriteFresh? || pc.Rename? || pc.RemoveFresh? || pc.RemoveTakeover?
  }

  predicate Replacing(pc: Pc) {
    pc.MakeFresh? || pc.WriteFresh? || pc.Rename?
  }

  /** What holds of attempt `r` in every reachable state. */
  ghost predicate Sound(s: State, r: Runner) {
    var pc := s.Pc(r);
    && (Holds(s, r) ==> s.lock == Some(if pc == WriteLock then Empty(r) else Naming(r)))
    && (TakingOver(pc) <==> s.takeover == Some(r))
    && (pc.MakeTakeover? || pc.ReadAgain? || Replacing(pc) ==> !s.Live(pc.gone))
    && (Replacing(pc) ==> s.lock == Some(Naming(pc.gone)))
    && (pc.Rename? ==> r in s.drafts && s.drafts[r] == Naming(r))
  }

  ghost predicate Inv(s: State) {
    forall r :: Sound(s, r)
  }

  /** How a step may change the lock: it makes one where none is, names its own, replaces a gone runner's, or removes its own. */
  ghost predicate MayChange(s: State, r: Runner, t: State) {
    || t.lock == s.lock
    || (s.lock.None? && t.lock == Some(Empty(r)) && t.Pc(r) == WriteLock)
    || (s.lock == Some(Empty(r)) && t.lock == Some(Naming(r)) && s.Pc(r) == WriteLock)
    || (s.lock.Some? && s.lock.value.Naming? && !s.Live(s.lock.value.runner) && s.takeover == Some(r) && t.lock == Some(Naming(r)))
    || (s.lock == Some(Naming(r)) && t.lock.None? && Holds(s, r))
  }

  ghost predicate MayTake(s: State, r: Runner, t: State) {
    || t.takeover == s.takeover
    || (s.takeover.None? && t.takeover == Some(r) && t.Pc(r).ReadAgain?)
    || (s.takeover == Some(r) && t.takeover.None?)
  }

  lemma {:induction false} StepChanges(s: State, r: Runner, found: bool)
    requires Sound(s, r) && s.Live(r)
    ensures var t := Step(s, r, found);
            && MayChange(s, r, t) && MayTake(s, r, t) && t.dead == s.dead
            && forall q :: q != r ==> t.Pc(q) == s.Pc(q) && (q in t.drafts <==> q in s.drafts)
                                      && (q in s.drafts ==> t.drafts[q] == s.drafts[q])
  {
  }

  lemma {:induction false} StepKeepsOwn(s: State, r: Runner, found: bool)
    requires Sound(s, r) && s.Live(r)
    ensures Sound(Step(s, r, found), r)
  {
  }

  lemma {:induction false} StepKeeps(s: State, r: Runner, found: bool, other: Runner)
    requires Sound(s, r) && Sound(s, other) && s.Live(r)
    ensures Sound(Step(s, r, found), other)
  {
    if other == r {
      StepKeepsOwn(s, r, found);
    } else {
      StepChanges(s, r, found);
    }
  }

  lemma {:induction false} NextKeeps(s: State, e: Event)
    requires Inv(s)
    ensures Inv(Next(s, e))
  {
    forall other ensures Sound(Next(s, e), other) {
      assert Sound(s, other);
      if e.Act? && s.Live(e.r) {
        assert Sound(s, e.r);
        StepKeeps(s, e.r, e.found, other);
      }
    }
  }

  lemma {:induction false} RunKeeps(s: State, events: seq<Event>)
    requires Inv(s)
    ensures Inv(Run(s, events))
    decreases |events|
  {
    if events != [] {
      NextKeeps(s, events[0]);
      RunKeeps(Next(s, events[0]), events[1..]);
    }
  }

  lemma {:induction false} ReachableIsSound(events: seq<Event>)
    ensures Inv(Run(FREE, events))
  {
    assert Inv(FREE);
    RunKeeps(FREE, events);
  }

  /** However the runners' steps and deaths interleave, at most one live runner holds the home. */
  lemma {:induction false} AtMostOneHolds(events: seq<Event>, a: Runner, b: Runner)
    ensures var s := Run(FREE, events); Holds(s, a) && Holds(s, b) ==> a == b
  {
    ReachableIsSound(events);
    var s := Run(FREE, events);
    assert Sound(s, a) && Sound(s, b);
  }

  /**
   * While a live runner holds the home its lock names it alone, and no step of
   * another, release or takeover included, changes or removes it.
   */
  lemma {:induction false} OnlyItsHolderChangesALock(events: seq<Event>, r: Runner, e: Event)
    ensures var s := Run(FREE, events);
            Holds(s, r) ==>
              && s.lock == Some(if s.Pc(r) == WriteLock then Empty(r) else Naming(r))
              && ((e.Act? ==> e.r != r) ==> Next(s, e).lock == s.lock)
  {
    ReachableIsSound(events);
    var s := Run(FREE, events);
    assert Sound(s, r);
    if e.Act? {
      assert Sound(s, e.r);
    }
  }

  // ------------------------------------------------------------------ when an attempt starts, takes over and lets go

  /** An attempt that finds no lock makes its own, at once or after the one it found has gone; else it reads, or is refused. */
  lemma {:induction false} MakesAFreeHomesLock(s: State, r: Runner, found: bool)
    requires s.Pc(r) == Starting || s.Pc(r) == Judge(None)
    ensures var t := Step(s, r, found);
            if s.lock.None? then t.lock == Some(Empty(r)) && t.Pc(r) == WriteLock
            else t.lock == s.lock && t.Pc(r) == if s.Pc(r) == Starting then ReadLock else Refused
  {
  }

  /** It starts a takeover exactly when the lock it read names a gone runner whose pid answers for no one, and goes on with it exactly when no other is under way. */
  lemma {:induction false} TakesOverExactly(s: State, r: Runner, found: bool)
    ensures forall gone :: s.Pc(r).Judge? ==>
              (Step(s, r, found).Pc(r) == MakeTakeover(gone) <==> s.Pc(r).seen == Some(Naming(gone)) && !s.Live(gone) && !found)
    ensures s.Pc(r).MakeTakeover? ==>
              (Step(s, r, found).Pc(r) == ReadAgain(s.Pc(r).gone) <==> s.takeover.None?)
              && (Step(s, r, found).Pc(r) == Refused <==> s.takeover.Some?)
    ensures s.Pc(r).ReadAgain? ==>
              (Step(s, r, found).Pc(r) == MakeFresh(s.Pc(r).gone) <==> s.lock == Some(Naming(s.Pc(r).gone)))
  {
  }

  /** Letting go, it removes the lock exactly when that is still its own; another's, or none, it leaves. */
  lemma {:induction false} RemovesOnlyItsOwn(s: State, r: Runner, found: bool)
    requires s.Pc(r) == ReadOwn
    ensures var t := Step(s, r, found);
            t.lock == s.lock && t.Pc(r) == if s.lock == Some(Naming(r)) then RemoveLock else Released
  {
  }

  /** A draft stands from its making to its renaming or removal by its own runner, first empty, then naming it. */
  lemma {:induction false} DraftsExactly(s: State, e: Event, q: Runner)
    ensures var t, acts := Next(s, e), e.Act? && e.r == q && s.Live(q);
            && (q in t.drafts <==>
                  || (acts && (s.Pc(q).MakeFresh? || s.Pc(q).WriteFresh?))
                  || (q in s.drafts && !(acts && (s.Pc(q).Rename? || s.Pc(q).RemoveFresh?))))
            && (acts && s.Pc(q).MakeFresh? ==> t.drafts[q] == Empty(q))
            && (acts && s.Pc(q).WriteFresh? ==> t.drafts[q] == Naming(q))
  {
  }

  /** A process that is gone takes no step and stays gone; its files stay as they are. */
  lemma {:induction false} OnlyTheLivingAct(s: State, e: Event)
    ensures (e.Act? || e.LetGo?) && !s.Live(e.r) ==> Next(s, e) == s
    ensures forall r: Runner :: Next(s, e).Live(r) <==> s.Live(r) && e != Die(r.process)
    ensures e.Die? ==> Next(s, e).lock == s.lock && Next(s, e).takeover == s.takeover && Next(s, e).drafts == s.drafts
  {
  }

  /** It lets go exactly when told, in two steps more: its lock is removed by the second, and it holds until then, unless it dies. */
  lemma {:induction false} LetsGoExactly(s: State, e: Event, r: Runner)
    requires Inv(s) && Holds(s, r)
    ensures var t, acts := Next(s, e), e.Act? && e.r == r;
            && (s.Pc(r) == Held ==> (t.Pc(r) == ReadOwn <==> e == LetGo(r)) && (t.Pc(r) == Held <==> e != LetGo(r)))
            && (s.Pc(r) == ReadOwn ==> t.Pc(r) == if acts then RemoveLock else ReadOwn)
            && (s.Pc(r) == RemoveLock ==> t.Pc(r) == if acts then Released else RemoveLock)
            && (Holds(t, r) <==> e != Die(r.process) && !(acts && s.Pc(r) == RemoveLock))
            && (acts && s.Pc(r) == RemoveLock ==> t.lock.None?)
  {
    assert Sound(s, r);
    if e.Act? && e.r != r && s.Live(e.r) {
      assert Sound(s, e.r);
      StepChanges(s, e.r, e.found);
    }
  }

  // ------------------------------------------------------------------ a crash inside a takeover

  /** A takeover file whose maker is gone. */
  predicate Stuck(s: State) {
    s.takeover.Some? && !s.Live(s.takeover.value)
  }

  /** A lock left by a runner that died: what it holds is of a gone process. */
  predicate Abandoned(s: State) {
    match s.lock
    case Some(Naming(r)) => !s.Live(r)
    case Some(Empty(r)) => !s.Live(r)
    case None => false
  }

  lemma {:induction false} StuckStays(s: State, e: Event)
    requires Inv(s) && Stuck(s)
    ensures Stuck(Next(s, e)) && Next(s, e).takeover == s.takeover
    ensures Abandoned(s) ==> Next(s, e).lock == s.lock && Abandoned(Next(s, e))
    ensures forall r :: !TakingOver(s.Pc(r)) ==> !TakingOver(Next(s, e).Pc(r))
  {
    if e.Act? {
      assert Sound(s, e.r);
    }
  }

  /**
   * A takeover left by a crash is never finished nor taken by another: from then
   * on no runner starts one, and a lock left too stays, so no later runner holds
   * the home. It only ever refuses.
   */
  lemma {:induction false} CrashedTakeoverOnlyRefuses(s: State, events: seq<Event>)
    requires Inv(s) && Stuck(s)
    ensures var t := Run(s, events);
            && t.takeover == s.takeover
            && (forall r :: !TakingOver(s.Pc(r)) ==> !TakingOver(t.Pc(r)))
            && (Abandoned(s) ==> t.lock == s.lock && forall r :: !Holds(t, r))
    decreases |events|
  {
    if events == [] {
      forall r ensures Abandoned(s) ==> !Holds(s, r) {
        assert Sound(s, r);
      }
    } else {
      StuckStays(s, events[0]);
      NextKeeps(s, events[0]);
      CrashedTakeoverOnlyRefuses(Next(s, events[0]), events[1..]);
    }
  }

  // ------------------------------------------------------------------ an attempt left alone

  /** Whether an attempt no other interferes with is let in. */
  predicate LetIn(s: State) {
    match s.lock
    case None => true
    case Some(Empty(_)) => false
    case Some(Naming(holder)) => !s.Live(holder) && s.takeover.None?
  }

  function Alone(s: State, r: Runner, steps: nat): State
    decreases steps
  {
    if steps == 0 then s else Alone(Step(s, r, false), r, steps - 1)
  }

  function Acts(r: Runner, steps: nat): seq<Event>
    decreases steps
  {
    if steps == 0 then [] else [Act(r, false)] + Acts(r, steps - 1)
  }

  /** They are a run of the machine, of one attempt that lives. */
  lemma {:induction false} AloneIsARun(s: State, r: Runner, steps: nat)
    requires s.Live(r)
    ensures Alone(s, r, steps) == Run(s, Acts(r, steps))
    decreases steps
  {
    if steps > 0 {
      assert Acts(r, steps)[1..] == Acts(r, steps - 1);
      AloneIsARun(Step(s, r, false), r, steps - 1);
    }
  }

  /**
   * Left alone, an attempt holds a free home, or one whose holder has gone with no
   * takeover left, and is refused any other; it leaves no file but its own lock.
   */
  lemma {:induction false} AloneHolds(s: State, r: Runner)
    requires s.Live(r) && s.Pc(r) == Starting && r !in s.drafts
    ensures var t := Alone(s, r, 10);
            && t.Pc(r) == (if LetIn(s) then Held else Refused)
            && t.lock == (if LetIn(s) then Some(Naming(r)) else s.lock)
            && t.takeover == s.takeover && t.drafts == s.drafts
  {
    AloneFirst(s, r);
    AloneThen(s, r, 5, 5);
    AloneLast(Alone(s, r, 5), r);
  }

  lemma {:induction false} AloneThen(s: State, r: Runner, n: nat, m: nat)
    ensures Alone(s, r, n + m) == Alone(Alone(s, r, n), r, m)
    decreases n
  {
    if n > 0 {
      AloneThen(Step(s, r, false), r, n - 1, m);
    }
  }

  lemma {:induction false} AloneFirst(s: State, r: Runner)
    requires s.Live(r) && s.Pc(r) == Starting
    ensures var t := Alone(s, r, 5);
            && t.dead == s.dead && t.drafts == s.drafts
            && (s.lock.None? ==> t.Pc(r) == Held && t.lock == Some(Naming(r)) && t.takeover == s.takeover)
            && (s.lock.Some? && !LetIn(s) ==> t.Pc(r) == Refused && t.lock == s.lock && t.takeover == s.takeover)
            && (s.lock.Some? && LetIn(s) ==> t.Pc(r).MakeFresh? && t.lock == s.lock && t.takeover == Some(r) && s.takeover.None?)
  {
    AloneThen(s, r, 3, 2);
    AloneLooks(s, r);
    AloneTwo(Alone(s, r, 3), r);
  }

  lemma {:induction false} AloneTwo(s: State, r: Runner)
    ensures Alone(s, r, 2) == Step(Step(s, r, false), r, false)
  {
    assert Alone(Step(s, r, false), r, 1) == Step(Step(s, r, false), r, false);
  }

  lemma {:induction false} AloneLooks(s: State, r: Runner)
    requires s.Live(r) && s.Pc(r) == Starting
    ensures var t := Alone(s, r, 3);
            && t.dead == s.dead && t.drafts == s.drafts && t.takeover == s.takeover
            && match s.lock
               case None => t.Pc(r) == Held && t.lock == Some(Naming(r))
               case Some(Empty(_)) => t.Pc(r) == Refused && t.lock == s.lock
               case Some(Naming(holder)) => t.Pc(r) == (if s.Live(holder) then Refused else MakeTakeover(holder)) && t.lock == s.lock
  {
    AloneTwo(Step(s, r, false), r);
  }

  lemma {:induction false} AloneLast(s: State, r: Runner)
    ensures s.Pc(r) == Held || s.Pc(r) == Refused ==> Alone(s, r, 5) == s
    ensures s.Pc(r).MakeFresh? && r !in s.drafts && s.takeover == Some(r) ==>
              var t := Alone(s, r, 5);
              t.Pc(r) == Held && t.lock == Some(Naming(r)) && t.takeover == None && t.drafts == s.drafts
  {
    if s.Pc(r) == Held || s.Pc(r) == Refused {
      AloneRests(s, r, 5);
    } else {
      AloneThen(s, r, 3, 2);
      if s.Pc(r).MakeFresh? {
        AloneRenames(s, r);
      }
      AloneTwo(Alone(s, r, 3), r);
    }
  }

  lemma {:induction false} AloneRests(s: State, r: Runner, n: nat)
    requires s.Pc(r) == Held || s.Pc(r) == Refused
    ensures Alone(s, r, n) == s
    decreases n
  {
    if n > 0 {
      AloneRests(s, r, n - 1);
    }
  }

  lemma {:induction false} AloneRenames(s: State, r: Runner)
    requires s.Pc(r).MakeFresh?
    ensures var t := Alone(s, r, 3);
            t.Pc(r) == RemoveFresh(true) && t.lock == Some(Naming(r)) && t.drafts == s.drafts - {r}
  {
    AloneThree(s, r);
  }

  lemma {:induction false} AloneThree(s: State, r: Runner)
    ensures Alone(s, r, 3) == Step(Step(Step(s, r, false), r, false), r, false)
  {
    AloneTwo(Step(s, r, false), r);
  }

  // ------------------------------------------------------------------ the steps in order

  /** The home's files, and which processes have gone, as one runner alone finds and changes them. */
  class Home {
    var lock: Option<Text>
    var takeover: Option<Runner>
    var drafts: map<Runner, Text>
    const dead: set<nat>

    constructor (dead: set<nat>)
      ensures lock.None? && takeover.None? && drafts == map[] && this.dead == dead
    {
      lock, takeover, drafts := None, None, map[];
      this.dead := dead;
    }

    function View(): State
      reads this
    {
      State(lock, takeover, drafts, map[], dead)
    }

    /** Makes the lock with this runner's text, where there is none. */
    method Created(r: Runner) returns (ok: bool)
      modifies this`lock
      ensures ok == old(lock).None?
      ensures lock == if ok then Some(Naming(r)) else old(lock)
    {
      if lock.Some? {
        return false;
      }
      lock := Some(Empty(r));
      lock := Some(Naming(r));
      return true;
    }

    /** Takes over a gone runner's lock; what it makes on the way is gone again whatever happens. */
    method TakeOver(r: Runner) returns (held: bool)
      requires r !in drafts && lock.Some?
      modifies this
      ensures held == LetIn(old(View()))
      ensures lock == if held then Some(Naming(r)) else old(lock)
      ensures takeover == old(takeover) && drafts == old(drafts)
    {
      var seen := lock.value;
      if seen.Empty? || seen.runner.process !in dead {
        return false;
      }
      if takeover.Some? {
        return false;
      }
      takeover := Some(r);
      if lock == Some(seen) {
        drafts := drafts[r := Naming(r)];
        lock := Some(drafts[r]);
        held := true;
      } else {
        held := false;
      }
      drafts := drafts - {r};
      takeover := None;
    }

    /** `holdHome`, run by itself, ends where the interleaved steps of one attempt left alone do. */
    method HoldHome(r: Runner) returns (held: bool)
      requires r !in drafts && r.process !in dead
      modifies this
      ensures var t := Alone(old(View()), r, 10);
              && held == (t.Pc(r) == Held)
              && View() == t.(pcs := map[])
    {
      AloneHolds(View(), r);
      AloneDead(View(), r, 10);
      held := Created(r);
      if !held {
        held := TakeOver(r);
      }
    }

    /** Letting go, by itself: the two steps of a held attempt that reads its lock and removes it. */
    method Release(r: Runner)
      modifies this`lock
      ensures View() == Alone(old(View()).At(r, ReadOwn), r, 2).(pcs := map[])
    {
      AloneTwo(View().At(r, ReadOwn), r);
      if lock == Some(Naming(r)) {
        lock := None;
      }
    }
  }

  lemma {:induction false} AloneDead(s: State, r: Runner, n: nat)
    ensures Alone(s, r, n).dead == s.dead
    decreases n
  {
    if n > 0 {
      AloneDead(Step(s, r, false), r, n - 1);
    }
  }
}
