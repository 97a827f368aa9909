/**
 * apps/cli/credentials.ts: one set of credential files, shared by any number
 * of `ops-astro` processes, as interleaved steps. A lock directory is made and
 * removed around local file work; a process may die between any two steps, and
 * a lock it leaves is removed by hand only once it has gone.
 *
 * Assumed: a sign-out's new epoch was never used before, and reading the epoch
 * file finds what was last put there.
 */
module Credentials {
  import opened Lists

  type Epoch = nat
  type Agent = nat

  datatype Job =
    | Save(file: string, value: string)
    | SignOut(files: seq<string>)
    | Remove(file: string, value: string)

  /** A saved value, and when its save began: the epoch it read, after how many sign-outs. */
  datatype Saved = Saved(value: string, began: Option<Epoch>, after: nat)

  /** Where one command is: the step it takes next. `after` is how many sign-outs had changed the epoch it read. */
  datatype Pc =
    | Idle
    | WaitToBegin(job: Job)
    | ReadEpoch(job: Job)
    | UnlockBegun(job: Job, epoch: Option<Epoch>, after: nat)
    | Requesting(job: Job, epoch: Option<Epoch>, after: nat)
    | WaitToSave(job: Job, epoch: Option<Epoch>, after: nat)
    | CheckEpoch(job: Job, epoch: Option<Epoch>, after: nat)
    | Publish(job: Job, epoch: Option<Epoch>, after: nat)
    | WaitToSignOut(files: seq<string>)
    | NewEpoch(files: seq<string>)
    | Removing(rest: seq<string>)
    | WaitToRemove(file: string, value: string)
    | Compare(file: string, value: string)
    | RemoveIt(file: string)
    | Unlock
    | Done

  datatype State = State(lock: Option<Agent>, epoch: Option<Epoch>, files: map<string, Saved>,
                         pcs: map<Agent, Pc>, dead: set<Agent>,
                         used: set<Epoch>, signOuts: nat, left: set<string>) {
    function Pc(a: Agent): Pc {
      if a in pcs then pcs[a] else Idle
    }

    function At(a: Agent, pc: Pc): State {
      this.(pcs := pcs[a := pc])
    }

    function Locked(a: Agent, pc: Pc): State {
      if lock.None? then this.(lock := Some(a)).At(a, pc) else this
    }
  }

  /** What the world answers a step: an epoch never used, and whether a removal succeeds. */
  datatype Answer = Answer(epoch: Epoch, removed: bool)

  function Step(s: State, a: Agent, answer: Answer): State {
    match s.Pc(a)
    case Idle => s
    case WaitToBegin(job) => s.Locked(a, ReadEpoch(job))
    case ReadEpoch(job) => s.At(a, UnlockBegun(job, s.epoch, s.signOuts))
    case UnlockBegun(job, epoch, after) => s.(lock := None).At(a, Requesting(job, epoch, after))
    case Requesting(job, epoch, after) => s.At(a, WaitToSave(job, epoch, after))
    case WaitToSave(job, epoch, after) => s.Locked(a, CheckEpoch(job, epoch, after))
    case CheckEpoch(job, epoch, after) => s.At(a, if s.epoch == epoch then Publish(job, epoch, after) else Unlock)
    case Publish(job, epoch, after) =>
      if job.Save? then
        s.(files := s.files[job.file := Saved(job.value, epoch, after)], left := s.left - {job.file}).At(a, Unlock)
      else s.At(a, Unlock)
    case WaitToSignOut(files) => s.Locked(a, NewEpoch(files))
    case NewEpoch(files) =>
      if answer.epoch in s.used then s
      else s.(epoch := Some(answer.epoch), used := s.used + {answer.epoch}, signOuts := s.signOuts + 1,
              left := s.left + s.files.Keys).At(a, Removing(files))
    case Removing(rest) =>
      if rest == [] then s.At(a, Unlock)
      else if answer.removed then s.(files := s.files - {rest[0]}, left := s.left - {rest[0]}).At(a, Removing(rest[1..]))
      else s.At(a, Removing(rest[1..]))
    case WaitToRemove(file, value) => s.Locked(a, Compare(file, value))
    case Compare(file, value) =>
      s.At(a, if file in s.files && s.files[file].value == value then RemoveIt(file) else Unlock)
    case RemoveIt(file) => s.(files := s.files - {file}, left := s.left - {file}).At(a, Unlock)
    case Unlock => s.(lock := None).At(a, Done)
    case Done => s
  }

  function Began(job: Job): Pc {
    match job
    case Save(_, _) => WaitToBegin(job)
    case SignOut(files) => WaitToSignOut(files)
    case Remove(file, value) => WaitToRemove(file, value)
  }

  datatype Event =
    | Begin(a: Agent, job: Job)
    | Act(a: Agent, answer: Answer)
    | GiveUp(a: Agent)          // waited too long for the lock
    | Die(a: Agent)
    | ClearByHand               // a lock whose holder has gone, removed as its message says

  function Next(s: State, e: Event): State {
    match e
    case Begin(a, job) => if a !in s.dead && s.Pc(a) == Idle then s.At(a, Began(job)) else s
    case Act(a, answer) => if a !in s.dead then Step(s, a, answer) else s
    case GiveUp(a) => if a !in s.dead && Waits(s.Pc(a)) then s.At(a, Done) else s
    case Die(a) => s.(dead := s.dead + {a})
    case ClearByHand => if s.lock.Some? && s.lock.value in s.dead then s.(lock := None) else s
  }

  function Run(s: State, events: seq<Event>): State
    decreases |events|
  {
    if events == [] then s else Run(Next(s, events[0]), events[1..])
  }

  const FRESH := State(None, None, map[], map[], {}, {}, 0, {})

  predicate Waits(pc: Pc) {
    pc.WaitToBegin? || pc.WaitToSave? || pc.WaitToSignOut? || pc.WaitToRemove?
  }

  /** Between making the lock and removing it. */
  predicate Inside(pc: Pc) {
    pc.ReadEpoch? || pc.UnlockBegun? || pc.CheckEpoch? || pc.Publish? || pc.NewEpoch? || pc.Removing?
    || pc.Compare? || pc.RemoveIt? || pc.Unlock?
  }

  predicate Recorded(pc: Pc) {
    pc.UnlockBegun? || pc.Requesting? || pc.WaitToSave? || pc.CheckEpoch? || pc.Publish?
  }

  /** A command that died takes no step, and the dead stay so; one that waits too long ends without having touched the set. */
  lemma {:induction false} OnlyTheLivingAct(s: State, e: Event)
    ensures (e.Begin? || e.Act? || e.GiveUp?) && e.a in s.dead ==> Next(s, e) == s
    ensures forall a :: a in Next(s, e).dead <==> a in s.dead || e == Die(a)
    ensures e.GiveUp? && e.a !in s.dead && Waits(s.Pc(e.a)) ==> Next(s, e) == s.At(e.a, Done)
  {
  }

  /** An epoch read after `after` sign-outs is still the set's exactly when there has been none since. */
  ghost predicate Reads(s: State, epoch: Option<Epoch>, after: nat) {
    && (epoch.Some? ==> epoch.value in s.used)
    && after <= s.signOuts
    && (epoch == s.epoch <==> after == s.signOuts)
  }

  ghost predicate SoundAgent(s: State, a: Agent) {
    var pc := s.Pc(a);
    && (Inside(pc) && a !in s.dead ==> s.lock == Some(a))
    && (Recorded(pc) ==> Reads(s, pc.epoch, pc.after))
    && (pc.Publish? && a !in s.dead ==> pc.after == s.signOuts)
  }

  ghost predicate SoundFile(s: State, file: string) {
    && (file !in s.files ==> file !in s.left)
    && (file in s.files ==>
          && Reads(s, s.files[file].began, s.files[file].after)
          && (s.files[file].after == s.signOuts <==> file !in s.left))
  }

  ghost predicate Inv(s: State) {
    && (s.epoch.Some? ==> s.epoch.value in s.used)
    && (forall a :: SoundAgent(s, a))
    && (forall file :: SoundFile(s, file))
  }

  lemma {:induction false} StepKeepsFiles(s: State, a: Agent, answer: Answer, file: string)
    requires Inv(s) && a !in s.dead
    ensures SoundFile(Step(s, a, answer), file)
  {
    assert SoundAgent(s, a) && SoundFile(s, file);
  }

  lemma {:induction false} StepKeepsOwn(s: State, a: Agent, answer: Answer)
    requires (s.epoch.Some? ==> s.epoch.value in s.used) && SoundAgent(s, a) && a !in s.dead
    ensures SoundAgent(Step(s, a, answer), a)
  {
  }

  /** How a step may change the lock and the epoch: it takes a free lock, frees its own, and changes the epoch inside it. */
  lemma {:induction false} StepChanges(s: State, a: Agent, answer: Answer)
    requires SoundAgent(s, a) && a !in s.dead
    ensures var t := Step(s, a, answer);
            && t.dead == s.dead && (forall b :: b != a ==> t.Pc(b) == s.Pc(b))
            && (t.lock == s.lock || (s.lock.None? && t.lock == Some(a)) || (s.lock == Some(a) && t.lock.None?))
            && ((t.epoch == s.epoch && t.used == s.used && t.signOuts == s.signOuts)
                || (s.lock == Some(a) && t.epoch.Some? && t.epoch.value !in s.used && t.used == s.used + {t.epoch.value}
                    && t.signOuts == s.signOuts + 1))
  {
  }

  lemma {:induction false} StepKeepsAgents(s: State, a: Agent, answer: Answer, other: Agent)
    requires Inv(s) && a !in s.dead
    ensures SoundAgent(Step(s, a, answer), other)
  {
    assert SoundAgent(s, a) && SoundAgent(s, other);
    if other == a {
      StepKeepsOwn(s, a, answer);
    } else {
      StepChanges(s, a, answer);
    }
  }

  lemma {:induction false} NextKeeps(s: State, e: Event)
    requires Inv(s)
    ensures Inv(Next(s, e))
  {
    var t := Next(s, e);
    forall other ensures SoundAgent(t, other) {
      assert SoundAgent(s, other);
      if e.Act? && e.a !in s.dead {
        StepKeepsAgents(s, e.a, e.answer, other);
      }
    }
    forall file ensures SoundFile(t, file) {
      assert SoundFile(s, file);
      if e.Act? && e.a !in s.dead {
        StepKeepsFiles(s, e.a, e.answer, file);
      }
    }
  }

  lemma {:induction false} RunKeeps(s: State, events: seq<Event>)
    requires Inv(s)
    ensures Inv(Run(s, events))
    decreases |events|
  {
    if events != [] {
      NextKeeps(s, events[0]);
      RunKeeps(Next(s, events[0]), events[1..]);
    }
  }

  lemma {:induction false} ReachableIsSound(events: seq<Event>)
    ensures Inv(Run(FRESH, events))
  {
    assert Inv(FRESH);
    RunKeeps(FRESH, events);
  }

  /** Two commands that are running are never both inside the lock. */
  lemma {:induction false} OneInside(events: seq<Event>, a: Agent, b: Agent)
    ensures var s := Run(FRESH, events);
            Inside(s.Pc(a)) && a !in s.dead && Inside(s.Pc(b)) && b !in s.dead ==> a == b
  {
    ReachableIsSound(events);
    var s := Run(FRESH, events);
    assert SoundAgent(s, a) && SoundAgent(s, b);
  }

  /**
   * A sign-out wins: whatever is interleaved, a save puts its value in its file
   * only when no sign-out changed the epoch since that save began.
   */
  lemma {:induction false} SignOutWins(events: seq<Event>, a: Agent, answer: Answer)
    ensures var s := Run(FRESH, events);
            var t := Next(s, Act(a, answer));
            forall file :: file in t.files && (file !in s.files || t.files[file] != s.files[file]) ==>
              && s.Pc(a).Publish? && s.Pc(a).job == Save(file, t.files[file].value)
              && t.files[file].after == s.Pc(a).after == s.signOuts == t.signOuts
              && t.files[file].began == s.epoch == t.epoch
  {
    ReachableIsSound(events);
    assert SoundAgent(Run(FRESH, events), a);
  }

  /** Whether a file's value was begun under an epoch a sign-out has since changed. */
  predicate Stale(s: State, file: string) {
    file in s.files && s.files[file].began != s.epoch
  }

  /** A value is stale exactly when it is in a file left by a sign-out. */
  lemma {:induction false} StaleIsLeft(events: seq<Event>, file: string)
    ensures var s := Run(FRESH, events); Stale(s, file) <==> file in s.left
  {
    ReachableIsSound(events);
    assert SoundFile(Run(FRESH, events), file);
  }

  // ------------------------------------------------------------------ which values are stale, from the events

  /** A sign-out's new epoch, put there. */
  predicate ChangesEpoch(s: State, e: Event) {
    e.Act? && e.a !in s.dead && s.Pc(e.a).NewEpoch? && e.answer.epoch !in s.used
  }

  /** A save or a removal of the file, done. */
  predicate Touches(s: State, e: Event, file: string) {
    && e.Act? && e.a !in s.dead
    && match s.Pc(e.a)
       case Publish(job, _, _) => job.Save? && job.file == file
       case Removing(rest) => rest != [] && rest[0] == file && e.answer.removed
       case RemoveIt(name) => name == file
       case _ => false
  }

  function StateAt(events: seq<Event>, n: nat): State
    requires n <= |events|
  {
    Run(FRESH, events[..n])
  }

  /** The epoch changed at `n` with the file there, and nothing saved or removed it since. */
  ghost predicate LeftBy(events: seq<Event>, n: nat, file: string) {
    && n < |events| && ChangesEpoch(StateAt(events, n), events[n]) && file in StateAt(events, n).files
    && forall m :: n < m < |events| ==> !Touches(StateAt(events, m), events[m], file)
  }

  lemma {:induction false} StateNext(events: seq<Event>, n: nat)
    requires n < |events|
    ensures StateAt(events, n + 1) == Next(StateAt(events, n), events[n])
  {
    assert events[..n + 1] == events[..n] + [events[n]];
    RunsOn(FRESH, events[..n], [events[n]]);
    assert Run(StateAt(events, n), [events[n]]) == Run(Next(StateAt(events, n), events[n]), []);
  }

  lemma {:induction false} StateSound(events: seq<Event>, n: nat)
    requires n <= |events|
    ensures Inv(StateAt(events, n))
  {
    ReachableIsSound(events[..n]);
  }

  lemma {:induction false} LeftNext(s: State, e: Event, file: string)
    ensures file in Next(s, e).left <==>
              (ChangesEpoch(s, e) && file in s.files) || (file in s.left && !Touches(s, e, file))
  {
  }

  /** Up to `k`, a file is left exactly when some change of the epoch left it. */
  lemma {:induction false} LeftUpTo(events: seq<Event>, k: nat, file: string)
    requires k <= |events|
    ensures file in StateAt(events, k).left <==> exists n: nat :: LeftBy(events[..k], n, file)
    decreases k
  {
    if k > 0 {
      LeftUpTo(events, k - 1, file);
      StateNext(events, k - 1);
      LeftNext(StateAt(events, k - 1), events[k - 1], file);
      forall n: nat ensures LeftBy(events[..k], n, file) <==>
        (n == k - 1 && ChangesEpoch(StateAt(events, n), events[n]) && file in StateAt(events, n).files)
        || (LeftBy(events[..k - 1], n, file) && !Touches(StateAt(events, k - 1), events[k - 1], file))
      {
        LeftByMore(events, k, n, file);
      }
    }
  }

  lemma {:induction false} LeftByMore(events: seq<Event>, k: nat, n: nat, file: string)
    requires 0 < k <= |events|
    ensures LeftBy(events[..k], n, file) <==>
              (n == k - 1 && ChangesEpoch(StateAt(events, n), events[n]) && file in StateAt(events, n).files)
              || (LeftBy(events[..k - 1], n, file) && !Touches(StateAt(events, k - 1), events[k - 1], file))
  {
    assert forall m :: 0 <= m < k ==> events[..k][..m] == events[..m];
    assert forall m :: 0 <= m < k - 1 ==> events[..k - 1][..m] == events[..m];
  }

  /** A file's value is stale exactly when an epoch changed while it was there and nothing saved or removed it since. */
  lemma {:induction false} StaleExactlyWhen(events: seq<Event>, file: string)
    ensures Stale(Run(FRESH, events), file) <==> exists n: nat :: LeftBy(events, n, file)
  {
    StaleIsLeft(events, file);
    LeftUpTo(events, |events|, file);
    assert events[..|events|] == events;
  }

  /** The sign-out that changed the epoch at `n`: who ran it, and what it was to remove. */
  function Signer(events: seq<Event>, n: nat): Agent
    requires n < |events| && ChangesEpoch(StateAt(events, n), events[n])
  {
    events[n].a
  }

  function Named(events: seq<Event>, n: nat): seq<string>
    requires n < |events| && ChangesEpoch(StateAt(events, n), events[n])
  {
    StateAt(events, n).Pc(events[n].a).files
  }

  /** Its removal of the file fails. */
  predicate FailsToRemove(s: State, e: Event, a: Agent, file: string) {
    && e.Act? && e.a == a && a !in s.dead && s.Pc(a).Removing?
    && s.Pc(a).rest != [] && s.Pc(a).rest[0] == file && !e.answer.removed
  }

  /** It dies with the file still to remove. */
  predicate DiesBefore(s: State, e: Event, a: Agent, file: string) {
    e == Die(a) && a !in s.dead && s.Pc(a).Removing? && file in s.Pc(a).rest
  }

  ghost predicate Stopped(events: seq<Event>, n: nat, k: nat, a: Agent, file: string)
    requires k <= |events|
  {
    exists m :: n < m < k && (FailsToRemove(StateAt(events, m), events[m], a, file) || DiesBefore(StateAt(events, m), events[m], a, file))
  }

  /** The sign-out that changed the epoch at `n` did not name the file, could not remove it, or died before it came to it. */
  ghost predicate SparedBy(events: seq<Event>, n: nat, file: string)
    requires n < |events| && ChangesEpoch(StateAt(events, n), events[n])
  {
    file !in Named(events, n) || Stopped(events, n, |events|, Signer(events, n), file)
  }

  /** Until it is stopped, or removes the file, it is still to. */
  predicate ToRemove(s: State, a: Agent, file: string) {
    a !in s.dead && s.Pc(a).Removing? && file in s.Pc(a).rest
  }

  lemma {:induction false} RemoverNext(s: State, e: Event, a: Agent, file: string)
    requires ToRemove(s, a, file) && !Touches(s, e, file)
    ensures ToRemove(Next(s, e), a, file) || FailsToRemove(s, e, a, file) || DiesBefore(s, e, a, file)
  {
  }

  lemma {:induction false} StillToRemove(events: seq<Event>, n: nat, k: nat, file: string)
    requires LeftBy(events, n, file) && n < k <= |events| && file in Named(events, n)
    ensures Stopped(events, n, k, Signer(events, n), file) || ToRemove(StateAt(events, k), Signer(events, n), file)
    decreases k
  {
    var a := Signer(events, n);
    StateNext(events, k - 1);
    if k > n + 1 {
      StillToRemove(events, n, k - 1, file);
      if ToRemove(StateAt(events, k - 1), a, file) {
        RemoverNext(StateAt(events, k - 1), events[k - 1], a, file);
      }
    }
  }

  /**
   * Whenever no one holds the lock, a file's value is stale exactly when some
   * sign-out changed the epoch while it was there and spared it, and nothing saved
   * or removed it since.
   */
  lemma {:induction false} StaleWhenUnlocked(events: seq<Event>, file: string)
    requires Run(FRESH, events).lock.None?
    ensures Stale(Run(FRESH, events), file) <==> exists n: nat :: LeftBy(events, n, file) && SparedBy(events, n, file)
  {
    StaleExactlyWhen(events, file);
    assert events[..|events|] == events;
    forall n: nat | LeftBy(events, n, file) ensures SparedBy(events, n, file) {
      if file in Named(events, n) {
        StillToRemove(events, n, |events|, file);
        StateSound(events, |events|);
        assert SoundAgent(StateAt(events, |events|), Signer(events, n));
      }
    }
  }

  // ------------------------------------------------------------------ a file the sign-outs name

  /** Every sign-out names the file. */
  predicate AllName(events: seq<Event>, file: string) {
    forall i :: 0 <= i < |events| && events[i].Begin? && events[i].job.SignOut? ==> file in events[i].job.files
  }

  ghost predicate AgentsName(s: State, file: string) {
    forall a :: s.Pc(a).WaitToSignOut? || s.Pc(a).NewEpoch? ==> file in s.Pc(a).files
  }

  lemma {:induction false} NextNames(s: State, e: Event, file: string)
    requires AgentsName(s, file) && (e.Begin? && e.job.SignOut? ==> file in e.job.files)
    ensures AgentsName(Next(s, e), file)
  {
    var t := Next(s, e);
    forall a | t.Pc(a).WaitToSignOut? || t.Pc(a).NewEpoch? ensures file in t.Pc(a).files {
      assert s.Pc(a).WaitToSignOut? || s.Pc(a).NewEpoch? ==> file in s.Pc(a).files;
    }
  }

  lemma {:induction false} NamedBy(events: seq<Event>, n: nat, file: string)
    requires AllName(events, file) && n <= |events|
    ensures AgentsName(StateAt(events, n), file)
    decreases n
  {
    if n > 0 {
      NamedBy(events, n - 1, file);
      StateNext(events, n - 1);
      NextNames(StateAt(events, n - 1), events[n - 1], file);
    }
  }

  /** The sign-out that left the file at `n` could not remove it, or died before it came to it. */
  ghost predicate LeftAndStopped(events: seq<Event>, n: nat, file: string) {
    LeftBy(events, n, file) && Stopped(events, n, |events|, Signer(events, n), file)
  }

  /**
   * Whenever no one holds the lock, a file every sign-out names holds only a value
   * whose save began under the current epoch, unless a sign-out that found it
   * there could not remove it or died first, and nothing saved or removed it since;
   * then, and only then, its value is an earlier epoch's.
   */
  lemma {:induction false} NamedFileIsStaleExactlyWhen(events: seq<Event>, file: string)
    requires Run(FRESH, events).lock.None? && AllName(events, file)
    ensures Stale(Run(FRESH, events), file) <==> exists n: nat :: LeftAndStopped(events, n, file)
  {
    StaleWhenUnlocked(events, file);
    forall n: nat | LeftBy(events, n, file) ensures SparedBy(events, n, file) <==> LeftAndStopped(events, n, file) {
      NamedBy(events, n, file);
    }
  }

  /** No removal of the file fails, and no sign-out dies with it still to remove. */
  ghost predicate Finishes(events: seq<Event>, file: string) {
    forall m, a :: 0 <= m < |events| ==>
      !FailsToRemove(StateAt(events, m), events[m], a, file) && !DiesBefore(StateAt(events, m), events[m], a, file)
  }

  /** So when the sign-outs finish, a file they name holds only current values. */
  lemma {:induction false} FilesHoldCurrentValues(events: seq<Event>, file: string)
    requires AllName(events, file) && Finishes(events, file)
    ensures var s := Run(FRESH, events); s.lock.None? ==> !Stale(s, file)
  {
    if Run(FRESH, events).lock.None? {
      NamedFileIsStaleExactlyWhen(events, file);
    }
  }

  function Begins(file: string, value: string, go: Answer): seq<Event> {
    [Begin(0, Save(file, value)), Act(0, go), Act(0, go), Act(0, go)]
  }

  function Publishes(go: Answer): seq<Event> {
    [Act(0, go), Act(0, go), Act(0, go), Act(0, go)]
  }

  /** The save lets the lock go; then a sign-out changes the epoch. */
  function SignsOut(file: string, go: Answer): seq<Event> {
    [Act(0, go), Begin(1, SignOut([file])), Act(1, go), Act(1, go)]
  }

  /** A sign-out that dies before its removals, and its lock removed by hand. */
  function DeadSignOut(file: string, value: string, go: Answer): seq<Event> {
    (Begins(file, value, go) + Publishes(go)) + (SignsOut(file, go) + [Die(1), ClearByHand])
  }

  function Published(file: string, value: string): State {
    FRESH.(lock := Some(0), files := map[file := Saved(value, None, 0)], pcs := map[0 := Unlock])
  }

  function HalfOut(file: string, value: string): State {
    Published(file, value).(lock := Some(1), epoch := Some(1), used := {1}, signOuts := 1, left := {file},
                            pcs := map[0 := Done, 1 := Removing([file])])
  }

  lemma {:induction false} SavedAlone(file: string, value: string, go: Answer)
    ensures Run(FRESH, Begins(file, value, go) + Publishes(go)) == Published(file, value)
  {
    var begun := FRESH.At(0, Requesting(Save(file, value), None, 0));
    RunFour(FRESH, Begins(file, value, go));
    assert Run(FRESH, Begins(file, value, go)) == begun;
    RunFour(begun, Publishes(go));
    RunsOn(FRESH, Begins(file, value, go), Publishes(go));
  }

  lemma {:induction false} SignedHalfOut(file: string, value: string)
    ensures Run(Published(file, value), SignsOut(file, Answer(1, true))) == HalfOut(file, value)
  {
    RunFour(Published(file, value), SignsOut(file, Answer(1, true)));
  }

  /** Such a run leaves the old value in the file under the new epoch. */
  lemma {:induction false} DeadSignOutLeavesItsFile(file: string, value: string)
    ensures var s := Run(FRESH, DeadSignOut(file, value, Answer(1, true))); s.lock.None? && Stale(s, file)
    ensures !Finishes(DeadSignOut(file, value, Answer(1, true)), file)
  {
    var go := Answer(1, true);
    var half := HalfOut(file, value);
    SavedAlone(file, value, go);
    SignedHalfOut(file, value);
    RunTwo(half, Die(1), ClearByHand);
    RunsOn(FRESH, Begins(file, value, go) + Publishes(go), SignsOut(file, go) + [Die(1), ClearByHand]);
    RunsOn(Published(file, value), SignsOut(file, go), [Die(1), ClearByHand]);
    assert AllName(DeadSignOut(file, value, go), file);
    if Finishes(DeadSignOut(file, value, go), file) {
      FilesHoldCurrentValues(DeadSignOut(file, value, go), file);
    }
  }

  lemma {:induction false} RunTwo(s: State, one: Event, two: Event)
    ensures Run(s, [one, two]) == Next(Next(s, one), two)
  {
    assert [one, two][1..] == [two] && [two][1..] == [];
    assert Run(Next(s, one), [two]) == Run(Next(Next(s, one), two), []);
  }

  lemma {:induction false} RunFour(s: State, events: seq<Event>)
    requires |events| == 4
    ensures Run(s, events) == Next(Next(Next(Next(s, events[0]), events[1]), events[2]), events[3])
  {
    assert events == [events[0], events[1]] + [events[2], events[3]];
    RunsOn(s, [events[0], events[1]], [events[2], events[3]]);
    RunTwo(s, events[0], events[1]);
    RunTwo(Next(Next(s, events[0]), events[1]), events[2], events[3]);
  }

  lemma {:induction false} RunsOn(s: State, first: seq<Event>, rest: seq<Event>)
    ensures Run(s, first + rest) == Run(Run(s, first), rest)
    decreases |first|
  {
    if first == [] {
      assert first + rest == rest;
    } else {
      assert (first + rest)[1..] == first[1..] + rest;
      RunsOn(Next(s, first[0]), first[1..], rest);
    }
  }

  // ------------------------------------------------------------------ each change, under the lock

  /** The files once each named one that goes is removed. */
  function RemoveAll(files: map<string, Saved>, names: seq<string>, goes: string -> bool): map<string, Saved> {
    if names == [] then files
    else RemoveAll(if goes(names[0]) then files - {names[0]} else files, names[1..], goes)
  }

  lemma {:induction false} RemoveAllRemoves(files: map<string, Saved>, names: seq<string>, goes: string -> bool, file: string)
    ensures var left := RemoveAll(files, names, goes);
            && (file in left <==> file in files && !(file in names && goes(file)))
            && (file in left ==> left[file] == files[file])
    decreases |names|
  {
    if names != [] {
      RemoveAllRemoves(if goes(names[0]) then files - {names[0]} else files, names[1..], goes, file);
    }
  }

  /** The steps of one command that no other interferes with, as the world answers them. */
  function Alone(s: State, a: Agent, answers: seq<Answer>): State
    decreases |answers|
  {
    if answers == [] then s else Alone(Step(s, a, answers[0]), a, answers[1..])
  }

  function Acts(a: Agent, answers: seq<Answer>): seq<Event> {
    if answers == [] then [] else [Act(a, answers[0])] + Acts(a, answers[1..])
  }

  /** They are a run of the machine, of one command that lives. */
  lemma {:induction false} AloneIsARun(s: State, a: Agent, answers: seq<Answer>)
    requires a !in s.dead
    ensures Alone(s, a, answers) == Run(s, Acts(a, answers))
    decreases |answers|
  {
    if answers != [] {
      assert Acts(a, answers)[1..] == Acts(a, answers[1..]);
      AloneIsARun(Step(s, a, answers[0]), a, answers[1..]);
    }
  }

  lemma {:induction false} AloneOne(s: State, a: Agent, answer: Answer, rest: seq<Answer>)
    ensures Alone(s, a, [answer] + rest) == Alone(Step(s, a, answer), a, rest)
  {
    assert ([answer] + rest)[1..] == rest;
  }

  lemma {:induction false} AloneThree(s: State, a: Agent)
    ensures Alone(s, a, [GO, GO, GO]) == Step(Step(Step(s, a, GO), a, GO), a, GO)
  {
    var one, two := Step(s, a, GO), Step(Step(s, a, GO), a, GO);
    AloneOne(s, a, GO, [GO, GO]);
    AloneOne(one, a, GO, [GO]);
    AloneOne(two, a, GO, []);
    assert [GO] + [GO, GO] == [GO, GO, GO] && [GO] + [GO] == [GO, GO] && [GO] + [] == [GO];
  }

  lemma {:induction false} AloneFour(s: State, a: Agent)
    ensures Alone(s, a, [GO, GO, GO, GO]) == Step(Step(Step(Step(s, a, GO), a, GO), a, GO), a, GO)
  {
    AloneOne(s, a, GO, [GO, GO, GO]);
    assert [GO] + [GO, GO, GO] == [GO, GO, GO, GO];
    AloneThree(Step(s, a, GO), a);
  }

  lemma {:induction false} AtTwice(s: State, a: Agent, one: Pc, two: Pc)
    ensures s.At(a, one).At(a, two) == s.At(a, two)
  {
    assert s.pcs[a := one][a := two] == s.pcs[a := two];
  }

  /** A save's own steps, by itself, from where its request is answered. */
  lemma {:induction false} SaveAlone(s: State, a: Agent, began: Option<Epoch>, after: nat, file: string, value: string)
    requires s.Pc(a) == WaitToSave(Save(file, value), began, after) && s.lock.None?
    ensures Alone(s, a, [GO, GO, GO, GO])
         == (if s.epoch == began then s.(files := s.files[file := Saved(value, began, after)], left := s.left - {file}) else s).At(a, Done)
  {
    var job := Save(file, value);
    var one := s.(lock := Some(a)).At(a, CheckEpoch(job, began, after));
    assert Step(s, a, GO) == one;
    AloneFour(s, a);
    if s.epoch == began {
      AtTwice(s.(lock := Some(a)), a, CheckEpoch(job, began, after), Publish(job, began, after));
      var kept := s.(lock := Some(a), files := s.files[file := Saved(value, began, after)], left := s.left - {file});
      AtTwice(kept, a, Publish(job, began, after), Unlock);
      AtTwice(kept.(lock := None), a, Unlock, Done);
    } else {
      AtTwice(s.(lock := Some(a)), a, CheckEpoch(job, began, after), Unlock);
      AtTwice(s, a, Unlock, Done);
    }
  }

  /** A removal's own steps, by itself. */
  lemma {:induction false} RemoveAlone(s: State, a: Agent, file: string, value: string)
    requires s.Pc(a) == WaitToRemove(file, value) && s.lock.None?
    ensures Alone(s, a, [GO, GO, GO, GO])
         == (if file in s.files && s.files[file].value == value then s.(files := s.files - {file}, left := s.left - {file}) else s).At(a, Done)
  {
    var one := s.(lock := Some(a)).At(a, Compare(file, value));
    assert Step(s, a, GO) == one;
    AloneFour(s, a);
    if file in s.files && s.files[file].value == value {
      AtTwice(s.(lock := Some(a)), a, Compare(file, value), RemoveIt(file));
      var kept := s.(lock := Some(a), files := s.files - {file}, left := s.left - {file});
      AtTwice(kept, a, RemoveIt(file), Unlock);
      AtTwice(kept.(lock := None), a, Unlock, Done);
    } else {
      AtTwice(s.(lock := Some(a)), a, Compare(file, value), Unlock);
      AtTwice(s, a, Unlock, Done);
    }
  }

  /** An answer for steps that ask the world nothing. */
  const GO := Answer(0, true)

  function Removed(names: seq<string>, goes: string -> bool): seq<Answer> {
    if names == [] then [] else [Answer(0, goes(names[0]))] + Removed(names[1..], goes)
  }

  /** What the world answers a whole sign-out: its epoch, each removal, and nothing where it is not asked. */
  function SigningOut(epoch: Epoch, names: seq<string>, goes: string -> bool): seq<Answer> {
    [GO] + ([Answer(epoch, true)] + (Removed(names, goes) + [GO, GO]))
  }

  /** The set once each named file that goes is removed, file by file. */
  function Cleared(s: State, a: Agent, names: seq<string>, goes: string -> bool): State {
    s.(files := RemoveAll(s.files, names, goes), left := LeftAfter(s.left, names, goes)).At(a, Removing([]))
  }

  function LeftAfter(left: set<string>, names: seq<string>, goes: string -> bool): set<string> {
    if names == [] then left else LeftAfter(if goes(names[0]) then left - {names[0]} else left, names[1..], goes)
  }

  lemma {:induction false} RemovedAlone(s: State, a: Agent, names: seq<string>, goes: string -> bool, rest: seq<Answer>)
    requires s.Pc(a) == Removing(names)
    ensures Alone(s, a, Removed(names, goes) + rest) == Alone(Cleared(s, a, names, goes), a, rest)
    decreases |names|
  {
    if names == [] {
      assert Removed(names, goes) + rest == rest;
      assert s.pcs[a := Removing([])] == s.pcs || a !in s.pcs;
      assert Cleared(s, a, names, goes) == s;
    } else {
      var answer := Answer(0, goes(names[0]));
      assert Removed(names, goes) + rest == [answer] + (Removed(names[1..], goes) + rest);
      AloneOne(s, a, answer, Removed(names[1..], goes) + rest);
      var t := Step(s, a, answer);
      RemovedAlone(t, a, names[1..], goes, rest);
      AtTwice(t.(files := RemoveAll(t.files, names[1..], goes), left := LeftAfter(t.left, names[1..], goes), pcs := s.pcs), a,
              Removing(names[1..]), Removing([]));
    }
  }

  /** A sign-out's own steps, by itself. */
  lemma {:induction false} SignOutAlone(s: State, a: Agent, epoch: Epoch, names: seq<string>, goes: string -> bool)
    requires s.Pc(a) == WaitToSignOut(names) && s.lock.None? && epoch !in s.used
    ensures Alone(s, a, SigningOut(epoch, names, goes))
         == s.(epoch := Some(epoch), used := s.used + {epoch}, signOuts := s.signOuts + 1, files := RemoveAll(s.files, names, goes),
               left := LeftAfter(s.left + s.files.Keys, names, goes)).At(a, Done)
  {
    var answers := Removed(names, goes) + [GO, GO];
    var one := s.(lock := Some(a)).At(a, NewEpoch(names));
    AloneOne(s, a, GO, [Answer(epoch, true)] + answers);
    assert Step(s, a, GO) == one;
    AloneOne(one, a, Answer(epoch, true), answers);
    var changed := s.(lock := Some(a), epoch := Some(epoch), used := s.used + {epoch}, signOuts := s.signOuts + 1, left := s.left + s.files.Keys);
    AtTwice(changed, a, NewEpoch(names), Removing(names));
    var two := changed.At(a, Removing(names));
    assert Step(one, a, Answer(epoch, true)) == two;
    RemovedAlone(two, a, names, goes, [GO, GO]);
    AtTwice(changed.(files := RemoveAll(s.files, names, goes), left := LeftAfter(two.left, names, goes)), a, Removing(names), Removing([]));
    UnlockedAlone(changed.(files := RemoveAll(s.files, names, goes), left := LeftAfter(two.left, names, goes)), a);
  }

  lemma {:induction false} UnlockedAlone(s: State, a: Agent)
    ensures Alone(s.At(a, Removing([])), a, [GO, GO]) == s.(lock := None).At(a, Done)
  {
    AtTwice(s, a, Removing([]), Unlock);
    AtTwice(s.(lock := None), a, Unlock, Done);
    AloneOne(s.At(a, Removing([])), a, GO, [GO]);
    AloneOne(s.At(a, Unlock), a, GO, []);
    assert [GO] + [GO] == [GO, GO] && [GO] + [] == [GO];
  }

  /** The set, as a command that runs by itself reads and changes it. */
  class CredentialSet {
    var lock: Option<Agent>
    var epoch: Option<Epoch>
    var files: map<string, Saved>
    ghost var pcs: map<Agent, Pc>
    ghost var dead: set<Agent>
    ghost var used: set<Epoch>
    ghost var signOuts: nat
    ghost var left: set<string>

    ghost function View(): State
      reads this
    {
      State(lock, epoch, files, pcs, dead, used, signOuts, left)
    }

    constructor ()
      ensures View() == FRESH
    {
      lock, epoch, files := None, None, map[];
      pcs, dead, used, signOuts, left := map[], {}, {}, 0, {};
    }

    /** What a save to come is compared with: three steps of the command, up to its request. */
    method BeginSave(a: Agent, job: Job) returns (began: Option<Epoch>)
      requires View().Pc(a) == WaitToBegin(job) && lock.None?
      modifies this`pcs
      ensures View() == Alone(old(View()), a, [GO, GO, GO])
      ensures began == epoch && View().Pc(a) == Requesting(job, began, signOuts)
    {
      AloneThree(View(), a);
      AtTwice(View().(lock := Some(a)), a, ReadEpoch(job), UnlockBegun(job, epoch, signOuts));
      AtTwice(View(), a, UnlockBegun(job, epoch, signOuts), Requesting(job, epoch, signOuts));
      began, pcs := epoch, pcs[a := Requesting(job, epoch, signOuts)];
    }

    /** Saves unless a sign-out ran since `began`; false when one did. */
    method SaveUnlessSignedOut(a: Agent, began: Option<Epoch>, after: nat, file: string, value: string) returns (saved: bool)
      requires View().Pc(a) == WaitToSave(Save(file, value), began, after) && lock.None?
      modifies this
      ensures View() == Alone(old(View()), a, [GO, GO, GO, GO])
      ensures saved == (old(epoch) == began)
    {
      SaveAlone(View(), a, began, after, file, value);
      lock := Some(a);
      saved := epoch == began;
      if saved {
        files, left := files[file := Saved(value, began, after)], left - {file};
      }
      lock, pcs := None, pcs[a := Done];
    }

    /** A new epoch, then each file removed; answers the files that could not be. */
    method SignOut(a: Agent, next: Epoch, names: seq<string>, goes: string -> bool) returns (failed: seq<string>)
      requires View().Pc(a) == WaitToSignOut(names) && lock.None? && next !in used
      modifies this
      ensures View() == Alone(old(View()), a, SigningOut(next, names, goes))
      ensures files == RemoveAll(old(files), names, goes) && failed == Filter(name => !goes(name), names)
    {
      SignOutAlone(View(), a, next, names, goes);
      lock := Some(a);
      epoch, used, signOuts, left := Some(next), used + {next}, signOuts + 1, left + files.Keys;
      failed := RemoveEach(names, goes);
      lock, pcs := None, pcs[a := Done];
    }

    method RemoveEach(names: seq<string>, goes: string -> bool) returns (failed: seq<string>)
      modifies this`files, this`left
      ensures files == RemoveAll(old(files), names, goes) && left == LeftAfter(old(left), names, goes)
      ensures failed == Filter(name => !goes(name), names)
    {
      failed := [];
      for i := 0 to |names|
        invariant RemoveAll(files, names[i..], goes) == RemoveAll(old(files), names, goes)
        invariant LeftAfter(left, names[i..], goes) == LeftAfter(old(left), names, goes)
        invariant failed + Filter(name => !goes(name), names[i..]) == Filter(name => !goes(name), names)
      {
        assert names[i..][1..] == names[i + 1..];
        if goes(names[i]) {
          files, left := files - {names[i]}, left - {names[i]};
        } else {
          failed := failed + [names[i]];
        }
      }
    }

    /** Removes a file only if it still holds `value`. */
    method RemoveIfHolds(a: Agent, file: string, value: string)
      requires View().Pc(a) == WaitToRemove(file, value) && lock.None?
      modifies this
      ensures View() == Alone(old(View()), a, [GO, GO, GO, GO])
    {
      RemoveAlone(View(), a, file, value);
      lock := Some(a);
      if file in files && files[file].value == value {
        files, left := files - {file}, left - {file};
      }
      lock, pcs := None, pcs[a := Done];
    }
  }
}
