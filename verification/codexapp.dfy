/**
 * apps/local-agent/codex-app.ts and app-steps.ts: one streamed call's
 * conversation with the app-server as a state machine over the lines read, from
 * its first request to its one ending.
 */
module CodexApp {
  import opened Lists
  import opened Gate
  import opened Grammar

  // ------------------------------------------------------------------ the plan's usage

  /** One window of the plan's reading; what is not a whole number reads as none. */
  datatype Window = Window(minutes: Option<nat>, used: Option<nat>)

  datatype Usage = Usage(reached: bool, allowed: Option<bool>, windows: seq<Window>)

  const WEEK_MINUTES := 7 * 24 * 60
  const WEEK_STOP_PERCENT := 95

  function Weekly(windows: seq<Window>): Option<Window> {
    if windows == [] then None
    else if windows[0].minutes.Some? && windows[0].minutes.value >= WEEK_MINUTES then Some(windows[0])
    else Weekly(windows[1..])
  }

  function UsageRefusal(usage: Usage): Option<Refusal> {
    if usage.reached || usage.allowed == Some(false) then Some(PlanLimit)
    else if usage.allowed != Some(true) then Some(UsageUnknown)
    else
      var weekly := Weekly(usage.windows);
      if weekly.None? || weekly.value.used.None? then Some(UsageUnknown)
      else if weekly.value.used.value < WEEK_STOP_PERCENT then None
      else Some(WeekReserved)
  }

  /** The first window of a week or longer, if it says a whole share. */
  predicate FirstWeek(windows: seq<Window>, i: nat, used: nat) {
    && i < |windows| && windows[i].minutes.Some? && windows[i].minutes.value >= 10_080 && windows[i].used == Some(used)
    && forall j :: 0 <= j < i ==> windows[j].minutes.None? || windows[j].minutes.value < 10_080
  }

  lemma {:induction false} WeeklyIsFirst(windows: seq<Window>, used: nat)
    ensures Weekly(windows).Some? && Weekly(windows).value.used == Some(used) <==> exists i: nat :: FirstWeek(windows, i, used)
  {
    if windows != [] {
      var weekly := windows[0].minutes.Some? && windows[0].minutes.value >= 10_080;
      WeeklyIsFirst(windows[1..], used);
      if weekly && windows[0].used == Some(used) {
        assert FirstWeek(windows, 0, used);
      } else if exists i: nat :: FirstWeek(windows[1..], i, used) {
        var i: nat :| FirstWeek(windows[1..], i, used);
        assert !weekly ==> FirstWeek(windows, i + 1, used);
      }
      if exists i: nat :: FirstWeek(windows, i, used) {
        var i: nat :| FirstWeek(windows, i, used);
        assert i > 0 ==> FirstWeek(windows[1..], i - 1, used);
      }
    }
  }

  /** The plan's reading lets a call go on exactly when its use is allowed outright and its week said to be under 95%; and stops it as it reads. */
  lemma {:induction false} UsageStopsExactly(usage: Usage)
    ensures UsageRefusal(usage) == None <==>
              !usage.reached && usage.allowed == Some(true) && exists i: nat, used: nat :: FirstWeek(usage.windows, i, used) && used < 95
    ensures UsageRefusal(usage) == Some(PlanLimit) <==> usage.reached || usage.allowed == Some(false)
    ensures UsageRefusal(usage) == Some(WeekReserved) <==>
              !usage.reached && usage.allowed == Some(true) && exists i: nat, used: nat :: FirstWeek(usage.windows, i, used) && used >= 95
    ensures UsageRefusal(usage).Some? ==> UsageRefusal(usage).value in {PlanLimit, UsageUnknown, WeekReserved}
  {
    var weekly := Weekly(usage.windows);
    forall i: nat, used: nat | FirstWeek(usage.windows, i, used) ensures weekly.Some? && weekly.value.used == Some(used) {
      WeeklyIsFirst(usage.windows, used);
    }
    if weekly.Some? && weekly.value.used.Some? {
      WeeklyIsFirst(usage.windows, weekly.value.used.value);
    }
  }

  // ------------------------------------------------------------------ the requests

  /** The Codex the child says it is, and the real path of its home. */
  datatype Agent = Agent(version: Option<string>)

  /** What a reply holds, as each step reads it. */
  datatype Result = Result(agent: Option<Agent>, home: Option<string>, chatgpt: bool, usage: Usage, threadId: Option<string>)

  datatype Plan = Plan(model: string, prompt: string, codexHome: Option<string>, codexVersion: Option<string>, sendBy: Option<int>)

  datatype Request =
    | Initialize | Initialized | ReadAccount | ReadUsage | StartThread(model: string)
    | StartTurn(threadId: string, prompt: string)
    | Refuse(id: int)

  datatype Ending = Ending(result: AppResult, kill: bool)

  datatype Step = Ask(request: Request) | End(ending: Ending) | TurnHasStarted

  function Broken(turnStarted: bool): Ending {
    Ending(if turnStarted then Unknown else NothingRan, true)
  }

  predicate ExpectedCodex(result: Result, plan: Plan) {
    && result.agent.Some? && result.home.Some?
    && (plan.codexVersion.Some? ==> result.agent.value.version == plan.codexVersion)
    && result.home == plan.codexHome
  }

  /** The next request once the one before it is answered; `now` is the clock it reads. */
  function NextStep(id: int, result: Result, plan: Plan, now: int): Step {
    match id
    case 1 => if ExpectedCodex(result, plan) then Ask(ReadAccount) else End(Ending(RefusedFirst(GptFailed), true))
    case 2 => if result.chatgpt then Ask(ReadUsage) else End(Ending(RefusedFirst(SignedOut), true))
    case 3 =>
      var stop := UsageRefusal(result.usage);
      if stop.Some? then End(Ending(RefusedFirst(stop.value), true)) else Ask(StartThread(plan.model))
    case 4 =>
      if result.threadId.None? then End(Broken(false))
      else if plan.sendBy.Some? && now > plan.sendBy.value then End(Ending(RefusedFirst(SendLapsed), true))
      else Ask(StartTurn(result.threadId.value, plan.prompt))
    case 5 => TurnHasStarted
    case _ => End(Broken(false))
  }

  // ------------------------------------------------------------------ the conversation

  /** A line, read; what is no record of the grammar is garbled. Every id that is no number reads as 0. */
  datatype Line =
    | Garbled
    | ServerRequest(id: int)
    | Notification(note: Note)
    | ErrorReply(id: int)
    | Reply(id: int, result: Result)

  /** `Stopped` is the deadline, the caller's leaving, the output cap or the child's close. */
  datatype Event = Read(line: Line, now: int) | Stopped | ChildError

  /** What was said each way, in order. */
  datatype Entry = Sent(request: Request, now: int) | Got(id: int, result: Result)

  datatype State = State(turn: Turn, turnStarted: bool, notes: seq<Note>, pieces: seq<string>, sent: nat, log: seq<Entry>,
                         ending: Option<Ending>)

  function Begin(now: int): State {
    State(FRESH, false, [], [], 0, [Sent(Initialize, now)], None)
  }

  function Asked(s: State, request: Request, now: int): State {
    s.(log := s.log + [Sent(request, now)])
  }

  function Ended(s: State, ending: Ending): State {
    if s.ending.Some? then s else s.(ending := Some(ending))
  }

  function Noted(s: State, note: Note): State {
    s.(turn := TurnAfter(s.turn, note), notes := s.notes + [note], pieces := s.pieces + PieceOf(s.turn, note))
  }

  function Settled(s: State, reading: Reading): State {
    match reading
    case Continue => s
    case Completed => Ended(s, Ending(ResultOf(s.turn), false))
    case RefusedNote => Ended(s, Broken(s.turnStarted))
  }

  function ReadNote(s: State, note: Note): State {
    Settled(Noted(s, note), ReadingOf(note))
  }

  function ReadReply(plan: Plan, s: State, id: int, result: Result, now: int): State {
    var got := s.(log := s.log + [Got(id, result)]);
    match NextStep(id, result, plan, now)
    case TurnHasStarted => got
    case End(ending) => Ended(got, ending)
    case Ask(request) =>
      var t := Asked(if id == 1 then Asked(got, Initialized, now) else got, request, now);
      if request.StartTurn? then t.(turnStarted := true, sent := s.sent + 1) else t
  }

  function ReadLine(plan: Plan, s: State, line: Line, now: int): State {
    match line
    case Garbled => Ended(s, Broken(s.turnStarted))
    case ServerRequest(id) => Ended(Asked(s, Refuse(id), now), Ending(if s.turnStarted then Unknown else NothingRan, false))
    case Notification(note) => ReadNote(s, note)
    case ErrorReply(_) => Ended(s, Broken(s.turnStarted))
    case Reply(id, result) => ReadReply(plan, s, id, result, now)
  }

  function Next(plan: Plan, s: State, e: Event): State {
    if s.ending.Some? then s
    else match e
    case Read(line, now) => ReadLine(plan, s, line, now)
    case Stopped => Ended(s, Ending(if s.turnStarted then Unknown else NothingRan, true))
    case ChildError => Ended(s, Ending(NothingRan, true))
  }

  function Run(plan: Plan, s: State, events: seq<Event>): State
    decreases |events|
  {
    if events == [] then s else Run(plan, Next(plan, s, events[0]), events[1..])
  }

  /** What a call is charged of its need. */
  function ChargeOf(result: AppResult, need: nat): nat {
    match result
    case NothingRan => 0
    case RefusedFirst(_) => 0
    case Unknown => need
    case Answered(_, input, output, _, _) => input + output
  }

  // ------------------------------------------------------------------ a server that answers each request once

  /** The request id last asked of the server, if it is still to be answered. */
  function Outstanding(log: seq<Entry>): Option<int> {
    if log == [] then None
    else match log[|log| - 1]
    case Got(_, _) => None
    case Sent(Initialize, _) => Some(1)
    case Sent(ReadAccount, _) => Some(2)
    case Sent(ReadUsage, _) => Some(3)
    case Sent(StartThread(_), _) => Some(4)
    case Sent(StartTurn(_, _), _) => Some(5)
    case Sent(_, _) => None
  }

  /** A reply answers a request sent and not yet answered. */
  predicate Disciplined(s: State, e: Event) {
    s.ending.None? && e.Read? && (e.line.Reply? || e.line.ErrorReply?) ==> Outstanding(s.log) == Some(e.line.id)
  }

  predicate DisciplinedRun(plan: Plan, s: State, events: seq<Event>)
    decreases |events|
  {
    events != [] ==> Disciplined(s, events[0]) && DisciplinedRun(plan, Next(plan, s, events[0]), events[1..])
  }

  /** The conversation so far, each request sent once what came before it was answered as it must be. */
  predicate InOrder(plan: Plan, log: seq<Entry>) {
    log != [] &&
      var last, before := log[|log| - 1], log[..|log| - 1];
      if before == [] then last.Sent? && last.request.Initialize?
      else
        && InOrder(plan, before)
        && match last
           case Got(id, _) => Outstanding(before) == Some(id)
           case Sent(request, now) =>
             match request
             case Initialize => false
             case Initialized => Answered1(plan, before)
             case ReadAccount => before[|before| - 1].Sent? && before[|before| - 1].request.Initialized?
             case ReadUsage => AnsweredBy(before, 2) && before[|before| - 1].result.chatgpt
             case StartThread(model) => AnsweredBy(before, 3) && UsageRefusal(before[|before| - 1].result.usage).None? && model == plan.model
             case StartTurn(threadId, prompt) =>
               && AnsweredBy(before, 4) && before[|before| - 1].result.threadId == Some(threadId) && prompt == plan.prompt
               && (plan.sendBy.Some? ==> now <= plan.sendBy.value)
             case Refuse(_) => true
  }

  predicate AnsweredBy(log: seq<Entry>, id: int) {
    log != [] && log[|log| - 1].Got? && log[|log| - 1].id == id
  }

  predicate Answered1(plan: Plan, log: seq<Entry>) {
    AnsweredBy(log, 1) && ExpectedCodex(log[|log| - 1].result, plan)
  }

  function TurnsSent(log: seq<Entry>): nat {
    if log == [] then 0
    else TurnsSent(log[..|log| - 1]) + if log[|log| - 1].Sent? && log[|log| - 1].request.StartTurn? then 1 else 0
  }

  // ------------------------------------------------------------------ the turn is sent once, after every check

  ghost predicate Orderly(plan: Plan, s: State) {
    && InOrder(plan, s.log)
    && s.sent == TurnsSent(s.log) <= 1
    && (s.turnStarted <==> s.sent == 1)
    && (s.ending.None? && s.turnStarted ==> Outstanding(s.log).None? || Outstanding(s.log) == Some(5))
  }

  lemma {:induction false} LogMore(plan: Plan, log: seq<Entry>, entry: Entry)
    requires log != []
    ensures var more := log + [entry];
            && TurnsSent(more) == TurnsSent(log) + (if entry.Sent? && entry.request.StartTurn? then 1 else 0)
            && more[..|log|] == log
            && (entry.Got? ==> Outstanding(more).None?)
  {
    assert (log + [entry])[..|log|] == log;
  }

  /** Answered: the next request is in order. */
  lemma {:induction false} AskedInOrder(plan: Plan, log: seq<Entry>, id: int, result: Result, now: int)
    requires InOrder(plan, log) && Outstanding(log) == Some(id) && NextStep(id, result, plan, now).Ask? && id != 1
    ensures InOrder(plan, log + [Got(id, result)] + [Sent(NextStep(id, result, plan, now).request, now)])
  {
    LogMore(plan, log, Got(id, result));
    LogMore(plan, log + [Got(id, result)], Sent(NextStep(id, result, plan, now).request, now));
  }

  lemma {:induction false} AccountAskedInOrder(plan: Plan, log: seq<Entry>, result: Result, now: int)
    requires InOrder(plan, log) && Outstanding(log) == Some(1) && ExpectedCodex(result, plan)
    ensures InOrder(plan, log + [Got(1, result)] + [Sent(Initialized, now)] + [Sent(ReadAccount, now)])
  {
    var got := log + [Got(1, result)];
    LogMore(plan, log, Got(1, result));
    LogMore(plan, got, Sent(Initialized, now));
    LogMore(plan, got + [Sent(Initialized, now)], Sent(ReadAccount, now));
  }

  lemma {:induction false} AskedKeepsOrder(plan: Plan, s: State, id: int, result: Result, now: int)
    requires Orderly(plan, s) && s.ending.None? && Outstanding(s.log) == Some(id) && NextStep(id, result, plan, now).Ask?
    ensures Orderly(plan, ReadReply(plan, s, id, result, now))
  {
    var got, request := s.log + [Got(id, result)], NextStep(id, result, plan, now).request;
    LogMore(plan, s.log, Got(id, result));
    if id == 1 {
      AccountAskedInOrder(plan, s.log, result, now);
      LogMore(plan, got, Sent(Initialized, now));
      LogMore(plan, got + [Sent(Initialized, now)], Sent(request, now));
    } else {
      AskedInOrder(plan, s.log, id, result, now);
      LogMore(plan, got, Sent(request, now));
    }
  }

  lemma {:induction false} ReplyKeepsOrder(plan: Plan, s: State, id: int, result: Result, now: int)
    requires Orderly(plan, s) && s.ending.None? && Outstanding(s.log) == Some(id)
    ensures Orderly(plan, ReadReply(plan, s, id, result, now))
  {
    if NextStep(id, result, plan, now).Ask? {
      AskedKeepsOrder(plan, s, id, result, now);
    } else {
      LogMore(plan, s.log, Got(id, result));
    }
  }

  /** What is asked of the server stays as it was: all a notification or an ending changes is beside it. */
  predicate SameAsked(s: State, t: State) {
    t.log == s.log && t.sent == s.sent && t.turnStarted == s.turnStarted && (t.ending.None? ==> s.ending.None?)
  }

  lemma {:induction false} SameAskedKeepsOrder(plan: Plan, s: State, t: State)
    requires Orderly(plan, s) && SameAsked(s, t)
    ensures Orderly(plan, t)
  {
  }

  lemma {:induction false} NoteAsksNothing(s: State, note: Note)
    ensures SameAsked(s, ReadNote(s, note))
  {
    var noted := Noted(s, note);
    assert SameAsked(s, noted);
    assert SameAsked(noted, Settled(noted, ReadingOf(note)));
  }

  lemma {:induction false} RefusedKeepsOrder(plan: Plan, s: State, id: int, now: int)
    requires Orderly(plan, s) && s.ending.None?
    ensures Orderly(plan, ReadLine(plan, s, ServerRequest(id), now))
  {
    LogMore(plan, s.log, Sent(Refuse(id), now));
  }

  lemma {:induction false} NextKeepsOrder(plan: Plan, s: State, e: Event)
    requires Orderly(plan, s) && Disciplined(s, e)
    ensures Orderly(plan, Next(plan, s, e))
  {
    if s.ending.None? && e.Read? {
      match e.line {
        case Reply(id, result) => ReplyKeepsOrder(plan, s, id, result, e.now);
        case ServerRequest(id) => RefusedKeepsOrder(plan, s, id, e.now);
        case Notification(note) =>
          NoteAsksNothing(s, note);
          SameAskedKeepsOrder(plan, s, ReadNote(s, note));
        case _ => SameAskedKeepsOrder(plan, s, Next(plan, s, e));
      }
    } else {
      SameAskedKeepsOrder(plan, s, Next(plan, s, e));
    }
  }

  lemma {:induction false} RunKeepsOrder(plan: Plan, s: State, events: seq<Event>)
    requires Orderly(plan, s) && DisciplinedRun(plan, s, events)
    ensures Orderly(plan, Run(plan, s, events))
    decreases |events|
  {
    if events != [] {
      NextKeepsOrder(plan, s, events[0]);
      RunKeepsOrder(plan, Next(plan, s, events[0]), events[1..]);
    }
  }

  /** The Codex answered first, and is the one expected. */
  predicate CodexChecked(plan: Plan, log: seq<Entry>) {
    |log| >= 4 && log[0].Sent? && log[0].request.Initialize? && log[1].Got? && log[1].id == 1 && ExpectedCodex(log[1].result, plan)
    && log[3].Sent? && log[3].request.ReadAccount?
  }

  predicate AccountChecked(log: seq<Entry>) {
    |log| >= 6 && log[4].Got? && log[4].id == 2 && log[4].result.chatgpt && log[5].Sent? && log[5].request.ReadUsage?
  }

  predicate UsageChecked(plan: Plan, log: seq<Entry>) {
    |log| >= 8 && log[6].Got? && log[6].id == 3 && UsageRefusal(log[6].result.usage).None?
    && log[7].Sent? && log[7].request == StartThread(plan.model)
  }

  lemma {:induction false} CodexAnsweredFirst(plan: Plan, log: seq<Entry>)
    requires InOrder(plan, log) && AnsweredBy(log, 1)
    ensures |log| == 2 && log[0].Sent? && log[0].request.Initialize?
  {
    var asked := log[..|log| - 1];
    assert asked[|asked| - 1].request.Initialize?;
  }

  lemma {:induction false} AccountAskedAfter(plan: Plan, log: seq<Entry>)
    requires InOrder(plan, log) && log[|log| - 1].Sent? && log[|log| - 1].request.ReadAccount?
    ensures |log| == 4 && CodexChecked(plan, log)
  {
    var n := |log|;
    var initialized := log[..n - 1];
    assert initialized[|initialized| - 1] == log[n - 2];
    var answered := initialized[..n - 2];
    assert answered == log[..n - 2];
    CodexAnsweredFirst(plan, answered);
  }

  lemma {:induction false} UsageAskedAfter(plan: Plan, log: seq<Entry>)
    requires InOrder(plan, log) && log[|log| - 1].Sent? && log[|log| - 1].request.ReadUsage?
    ensures |log| == 6 && CodexChecked(plan, log) && AccountChecked(log)
  {
    var n := |log|;
    var answered := log[..n - 1];
    assert answered[|answered| - 1] == log[n - 2];
    var asked := answered[..n - 2];
    assert asked == log[..n - 2];
    AccountAskedAfter(plan, asked);
  }

  lemma {:induction false} ThreadAskedAfter(plan: Plan, log: seq<Entry>)
    requires InOrder(plan, log) && log[|log| - 1].Sent? && log[|log| - 1].request.StartThread?
    ensures |log| == 8 && CodexChecked(plan, log) && AccountChecked(log) && UsageChecked(plan, log)
  {
    var n := |log|;
    var answered := log[..n - 1];
    assert answered[|answered| - 1] == log[n - 2];
    var asked := answered[..n - 2];
    assert asked == log[..n - 2];
    UsageAskedAfter(plan, asked);
  }

  lemma {:induction false} TurnAskedAfter(plan: Plan, log: seq<Entry>)
    requires InOrder(plan, log) && log[|log| - 1].Sent? && log[|log| - 1].request.StartTurn?
    ensures |log| == 10 && CodexChecked(plan, log) && AccountChecked(log) && UsageChecked(plan, log)
    ensures log[8].Got? && log[8].id == 4 && log[9].request == StartTurn(log[8].result.threadId.GetOr(""), plan.prompt)
    ensures log[8].result.threadId.Some? && (plan.sendBy.Some? ==> log[9].now <= plan.sendBy.value)
  {
    var n := |log|;
    var answered := log[..n - 1];
    assert answered[|answered| - 1] == log[n - 2];
    var asked := answered[..n - 2];
    assert asked == log[..n - 2];
    ThreadAskedAfter(plan, asked);
  }

  lemma {:induction false} InOrderTo(plan: Plan, log: seq<Entry>, i: nat)
    requires InOrder(plan, log) && i < |log|
    ensures InOrder(plan, log[..i + 1])
  {
    if i < |log| - 1 {
      InOrderTo(plan, log[..|log| - 1], i);
      assert log[..|log| - 1][..i + 1] == log[..i + 1];
    } else {
      assert log[..i + 1] == log;
    }
  }

  /**
   * With a server that answers each request once and only after it is sent: the
   * turn is sent at most once, with the thread's own id, by its deadline, and
   * only after the Codex, the account and the usage each answered as they must.
   */
  lemma {:induction false} TurnOnlyOnceAfterChecks(plan: Plan, now: int, events: seq<Event>, i: nat)
    requires DisciplinedRun(plan, Begin(now), events)
    ensures var s := Run(plan, Begin(now), events);
            && s.sent <= 1 && (s.turnStarted <==> s.sent == 1) && s.sent == TurnsSent(s.log)
            && (i < |s.log| && s.log[i].Sent? && s.log[i].request.StartTurn? ==>
                  && i == 9 && CodexChecked(plan, s.log) && AccountChecked(s.log) && UsageChecked(plan, s.log)
                  && s.log[8].Got? && s.log[8].id == 4 && Some(s.log[i].request.threadId) == s.log[8].result.threadId
                  && s.log[i].request.prompt == plan.prompt
                  && (plan.sendBy.Some? ==> s.log[i].now <= plan.sendBy.value))
  {
    var s := Run(plan, Begin(now), events);
    assert [Sent(Initialize, now)][..0] == [];
    RunKeepsOrder(plan, Begin(now), events);
    if i < |s.log| && s.log[i].Sent? && s.log[i].request.StartTurn? {
      InOrderTo(plan, s.log, i);
      var to := s.log[..i + 1];
      assert to[|to| - 1] == s.log[i];
      TurnAskedAfter(plan, to);
    }
  }

  /** Without that discipline there is no such promise: a thread answered unasked starts the turn unchecked, and answered twice, twice. */
  lemma {:induction false} UnaskedReplySkipsChecks(plan: Plan, now: int, result: Result)
    requires result.threadId.Some? && (plan.sendBy.Some? ==> now <= plan.sendBy.value)
    ensures var e := Read(Reply(4, result), now);
            var s := Next(plan, Begin(now), e);
            && !Disciplined(Begin(now), e) && s.turnStarted && !CodexChecked(plan, s.log)
            && Next(plan, s, e).sent == 2
  {
    LogMore(plan, [Sent(Initialize, now)], Got(4, result));
  }

  // ------------------------------------------------------------------ the turn, whatever the server answers

  /** The one line that starts a turn: a thread answered, inside the send deadline. */
  predicate StartsTurn(plan: Plan, s: State, e: Event) {
    && s.ending.None? && e.Read? && e.line.Reply? && e.line.id == 4 && e.line.result.threadId.Some?
    && (plan.sendBy.Some? ==> e.now <= plan.sendBy.value)
  }

  lemma {:induction false} TurnSentExactlyBy(plan: Plan, s: State, e: Event)
    ensures Next(plan, s, e).sent == s.sent + if StartsTurn(plan, s, e) then 1 else 0
  {
  }

  /** How many lines of a run start a turn. */
  function Starts(plan: Plan, s: State, events: seq<Event>): nat
    decreases |events|
  {
    if events == [] then 0
    else (if StartsTurn(plan, s, events[0]) then 1 else 0) + Starts(plan, Next(plan, s, events[0]), events[1..])
  }

  lemma {:induction false} SentCounts(plan: Plan, s: State, events: seq<Event>)
    ensures Run(plan, s, events).sent == s.sent + Starts(plan, s, events)
    decreases |events|
  {
    if events != [] {
      TurnSentExactlyBy(plan, s, events[0]);
      SentCounts(plan, Next(plan, s, events[0]), events[1..]);
    }
  }

  /** From any server: one turn is sent for each such line before the ending, so at most one exactly when at most one such line came. */
  lemma {:induction false} TurnsSentExactly(plan: Plan, now: int, events: seq<Event>)
    ensures Run(plan, Begin(now), events).sent == Starts(plan, Begin(now), events)
    ensures Run(plan, Begin(now), events).sent <= 1 <==> Starts(plan, Begin(now), events) <= 1
  {
    SentCounts(plan, Begin(now), events);
  }

  /** A reply that passes the check made of it. */
  predicate Passes(plan: Plan, entry: Entry)
    requires entry.Got?
  {
    match entry.id
    case 1 => ExpectedCodex(entry.result, plan)
    case 2 => entry.result.chatgpt
    case 3 => UsageRefusal(entry.result.usage).None?
    case _ => true
  }

  /** Every reply read passed, but for one that ended the call. */
  ghost predicate AllPass(plan: Plan, s: State) {
    forall i :: 0 <= i < |s.log| && s.log[i].Got? && (s.ending.None? || i < |s.log| - 1) ==> Passes(plan, s.log[i])
  }

  lemma {:induction false} ReplyPasses(plan: Plan, s: State, id: int, result: Result, now: int)
    requires AllPass(plan, s) && s.ending.None?
    ensures AllPass(plan, ReadReply(plan, s, id, result, now))
  {
  }

  lemma {:induction false} NextPasses(plan: Plan, s: State, e: Event)
    requires AllPass(plan, s)
    ensures AllPass(plan, Next(plan, s, e))
  {
    if s.ending.None? && e.Read? {
      match e.line {
        case Reply(id, result) => ReplyPasses(plan, s, id, result, e.now);
        case Notification(note) => NoteAsksNothing(s, note);
        case _ =>
      }
    }
  }

  lemma {:induction false} RunPasses(plan: Plan, s: State, events: seq<Event>)
    requires AllPass(plan, s)
    ensures AllPass(plan, Run(plan, s, events))
    decreases |events|
  {
    if events != [] {
      NextPasses(plan, s, events[0]);
      RunPasses(plan, Next(plan, s, events[0]), events[1..]);
    }
  }

  /** The request `id` was answered before the entry at `i`. */
  predicate AnsweredBefore(log: seq<Entry>, i: nat, id: int)
    requires i <= |log|
  {
    exists j :: 0 <= j < i && log[j].Got? && log[j].id == id
  }

  /** Its check was made, and passed, before the entry at `i`. */
  predicate PassedBefore(plan: Plan, log: seq<Entry>, i: nat, id: int)
    requires i <= |log|
  {
    exists j :: 0 <= j < i && log[j].Got? && log[j].id == id && Passes(plan, log[j])
  }

  /**
   * From any server: a check of the Codex, the account or the usage was made and
   * passed before a turn was sent exactly when that request was answered before
   * it; one answered and not passed would have ended the call.
   */
  lemma {:induction false} CheckedExactlyWhenAnswered(plan: Plan, now: int, events: seq<Event>, i: nat, id: int)
    ensures var log := Run(plan, Begin(now), events).log;
            i < |log| && log[i].Sent? && log[i].request.StartTurn? ==> (PassedBefore(plan, log, i, id) <==> AnsweredBefore(log, i, id))
  {
    var s := Run(plan, Begin(now), events);
    RunPasses(plan, Begin(now), events);
    if i < |s.log| && AnsweredBefore(s.log, i, id) {
      var j :| 0 <= j < i && s.log[j].Got? && s.log[j].id == id;
      assert Passes(plan, s.log[j]);
    }
  }

  // ------------------------------------------------------------------ what the call is charged

  ghost predicate Recorded(s: State) {
    s.turn == TurnOf(s.notes) && s.pieces == PiecesOf(s.notes)
  }

  lemma {:induction false} SettledSame(s: State, reading: Reading)
    ensures var t := Settled(s, reading); t.turn == s.turn && t.notes == s.notes && t.pieces == s.pieces
  {
  }

  lemma {:induction false} NotedRecords(s: State, note: Note)
    requires Recorded(s)
    ensures Recorded(Noted(s, note))
  {
    OneNoteMore(s.notes, note);
  }

  lemma {:induction false} NoteKeepsRecord(s: State, note: Note)
    requires Recorded(s)
    ensures Recorded(ReadNote(s, note))
  {
    NotedRecords(s, note);
    SettledSame(Noted(s, note), ReadingOf(note));
  }

  lemma {:induction false} NextKeepsRecord(plan: Plan, s: State, e: Event)
    requires Recorded(s)
    ensures Recorded(Next(plan, s, e))
  {
    if s.ending.None? && e.Read? {
      match e.line {
        case Notification(note) => NoteKeepsRecord(s, note);
        case Reply(id, result) => ReplySameRecord(plan, s, id, result, e.now);
        case _ =>
      }
    }
  }

  lemma {:induction false} ReplySameRecord(plan: Plan, s: State, id: int, result: Result, now: int)
    ensures var t := ReadReply(plan, s, id, result, now); t.turn == s.turn && t.notes == s.notes && t.pieces == s.pieces
  {
  }

  /** Unknown, by the usage last reported, or of a turn that gave nothing back, refused its sign-in or stopped at the limit. */
  predicate ChargedRightly(notes: seq<Note>, result: AppResult) {
    || result == Unknown
    || (LastUsage(notes).Some? && result.Answered?
        && result.input == LastUsage(notes).value.input && result.output == LastUsage(notes).value.output)
    || (LastUsage(notes).None? && !GaveBack(notes) && RefusedSignIn(notes) && result == RefusedFirst(SignedOut))
    || (LastUsage(notes).None? && !GaveBack(notes) && AtLimit(notes) && result == Answered("", 0, 0, true, true))
  }

  lemma {:induction false} ReplyNeverEndsTurn(plan: Plan, s: State, id: int, result: Result, now: int)
    requires Orderly(plan, s) && s.ending.None? && Outstanding(s.log) == Some(id)
    ensures var t := ReadReply(plan, s, id, result, now); t.turnStarted ==> t.ending.None?
  {
  }

  lemma {:induction false} NoteCharges(s: State, note: Note)
    requires s.ending.None? && s.turnStarted && s.turn == TurnOf(s.notes)
    ensures var t := ReadNote(s, note); t.ending.Some? ==> ChargedRightly(t.notes, t.ending.value.result)
  {
    OneNoteMore(s.notes, note);
    TurnEndsAs(s.notes + [note]);
  }

  lemma {:induction false} NextCharges(plan: Plan, s: State, e: Event)
    requires Recorded(s) && Orderly(plan, s) && Disciplined(s, e) && !e.ChildError?
    requires s.turnStarted && s.ending.Some? ==> ChargedRightly(s.notes, s.ending.value.result)
    ensures var t := Next(plan, s, e); t.turnStarted && t.ending.Some? ==> ChargedRightly(t.notes, t.ending.value.result)
  {
    if s.ending.None? && e.Read? {
      match e.line {
        case Notification(note) =>
          if s.turnStarted {
            NoteCharges(s, note);
          }
        case Reply(id, result) => ReplyNeverEndsTurn(plan, s, id, result, e.now);
        case _ =>
      }
    }
  }

  lemma {:induction false} RunCharges(plan: Plan, s: State, events: seq<Event>)
    requires Recorded(s) && Orderly(plan, s) && DisciplinedRun(plan, s, events) && ChildError !in events
    requires s.turnStarted && s.ending.Some? ==> ChargedRightly(s.notes, s.ending.value.result)
    ensures var t := Run(plan, s, events); t.turnStarted && t.ending.Some? ==> ChargedRightly(t.notes, t.ending.value.result)
    decreases |events|
  {
    if events != [] {
      NextCharges(plan, s, events[0]);
      NextKeepsRecord(plan, s, events[0]);
      NextKeepsOrder(plan, s, events[0]);
      RunCharges(plan, Next(plan, s, events[0]), events[1..]);
    }
  }

  /**
   * With such a server, and a child that did not fail to run: a call whose turn
   * was sent ends as unknown or by the usage last reported, unless its turn gave
   * nothing back and was refused its sign-in or stopped at the plan's limit.
   */
  lemma {:induction false} SentTurnIsCharged(plan: Plan, now: int, events: seq<Event>)
    requires DisciplinedRun(plan, Begin(now), events) && ChildError !in events
    ensures var s := Run(plan, Begin(now), events);
            s.turnStarted && s.ending.Some? ==> ChargedRightly(s.notes, s.ending.value.result)
  {
    assert [Sent(Initialize, now)][..0] == [];
    RunCharges(plan, Begin(now), events);
  }

  /** A turn that completed on these notifications used nothing. */
  predicate UsedNothing(notes: seq<Note>) {
    match LastUsage(notes)
    case Some(usage) => usage.input + usage.output == 0
    case None => !GaveBack(notes) && (RefusedSignIn(notes) || AtLimit(notes))
  }

  lemma {:induction false} ReplyEndsForNothing(plan: Plan, s: State, id: int, result: Result, now: int, need: nat)
    requires s.ending.None?
    ensures var t := ReadReply(plan, s, id, result, now);
            t.ending.Some? <==> NextStep(id, result, plan, now).End?
    ensures var t := ReadReply(plan, s, id, result, now);
            t.ending.Some? ==> ChargeOf(t.ending.value.result, need) == 0
  {
  }

  lemma {:induction false} SettledEndsForNothing(s: State, reading: Reading, need: nat)
    requires s.ending.None? && s.turnStarted && s.turn == TurnOf(s.notes) && need > 0
    ensures var t := Settled(s, reading);
            t.ending.Some? && ChargeOf(t.ending.value.result, need) == 0 <==> reading.Completed? && UsedNothing(s.notes)
  {
    TurnEndsAs(s.notes);
  }

  lemma {:induction false} CompletedReading(note: Note)
    ensures ReadingOf(note).Completed? <==> note.TurnCompleted?
  {
  }

  lemma {:induction false} NotedSame(s: State, note: Note)
    ensures var t := Noted(s, note); t.ending == s.ending && t.turnStarted == s.turnStarted && t.notes == s.notes + [note]
  {
  }

  lemma {:induction false} NoteEndsForNothing(s: State, note: Note, need: nat)
    requires s.ending.None? && s.turnStarted && Recorded(s) && need > 0
    ensures var t := ReadNote(s, note);
            t.ending.Some? && ChargeOf(t.ending.value.result, need) == 0 <==> note.TurnCompleted? && UsedNothing(s.notes + [note])
  {
    var noted := Noted(s, note);
    NotedSame(s, note);
    assert noted.turn == TurnOf(noted.notes) by {
      NotedRecords(s, note);
    }
    SettledEndsForNothing(noted, ReadingOf(note), need);
    CompletedReading(note);
  }

  /** Whatever the server does: a call whose turn was sent ends charged nothing exactly by one of these. */
  lemma {:induction false} ChargedNothingExactlyWhen(plan: Plan, s: State, e: Event, need: nat)
    requires s.ending.None? && s.turnStarted && Recorded(s) && need > 0
    ensures var t := Next(plan, s, e);
            t.ending.Some? && ChargeOf(t.ending.value.result, need) == 0 <==>
              || e.ChildError?
              || (e.Read? && e.line.Reply? && NextStep(e.line.id, e.line.result, plan, e.now).End?)
              || (e.Read? && e.line.Notification? && e.line.note.TurnCompleted? && UsedNothing(s.notes + [e.line.note]))
  {
    if e.Read? {
      match e.line {
        case Notification(note) => NoteEndsForNothing(s, note, need);
        case Reply(id, result) => ReplyEndsForNothing(plan, s, id, result, e.now, need);
        case _ =>
      }
    }
  }

  lemma {:induction false} RunKeepsRecord(plan: Plan, s: State, events: seq<Event>)
    requires Recorded(s)
    ensures Recorded(Run(plan, s, events))
    decreases |events|
  {
    if events != [] {
      NextKeepsRecord(plan, s, events[0]);
      RunKeepsRecord(plan, Next(plan, s, events[0]), events[1..]);
    }
  }

  /** What a call passes on, over any run: the first agent message's pieces as its notifications give them; and one ending. */
  lemma {:induction false} PassesOnFirstMessage(plan: Plan, now: int, events: seq<Event>, more: seq<Event>)
    ensures var s := Run(plan, Begin(now), events); s.pieces == PiecesOf(s.notes)
    ensures var s := Run(plan, Begin(now), events); s.ending.Some? ==> Run(plan, s, more) == s
    decreases |more|
  {
    RunKeepsRecord(plan, Begin(now), events);
    EndingStands(plan, Run(plan, Begin(now), events), more);
  }

  lemma {:induction false} EndingStands(plan: Plan, s: State, more: seq<Event>)
    ensures s.ending.Some? ==> Run(plan, s, more) == s
    decreases |more|
  {
    if more != [] && s.ending.Some? {
      EndingStands(plan, s, more[1..]);
    }
  }

  // ------------------------------------------------------------------ what is asked, and what the call ends as

  /** Whether the turn was asked for decides what a break leaves: unknown, or nothing. */
  function Untold(s: State): AppResult {
    if s.turnStarted then Unknown else NothingRan
  }

  /** The reply fails the check made of it, with this code. */
  predicate FailsCheck(plan: Plan, id: int, result: Result, now: int, code: Refusal) {
    match id
    case 1 =>
      && code == GptFailed
      && !(result.agent.Some? && result.home.Some? && result.home == plan.codexHome
           && (plan.codexVersion.Some? ==> result.agent.value.version == plan.codexVersion))
    case 2 => code == SignedOut && !result.chatgpt
    case 3 => UsageRefusal(result.usage) == Some(code)
    case 4 => code == SendLapsed && result.threadId.Some? && plan.sendBy.Some? && now > plan.sendBy.value
    case _ => false
  }

  /** A reply to nothing that is asked, or a thread with no id. */
  predicate Unreadable(id: int, result: Result) {
    id < 1 || id > 5 || (id == 4 && result.threadId.None?)
  }

  /** The step ends the call so. */
  predicate EndsAs(plan: Plan, s: State, e: Event, ending: Ending) {
    match e
    case Stopped => ending == Ending(Untold(s), true)
    case ChildError => ending == Ending(NothingRan, true)
    case Read(Garbled, _) => ending == Ending(Untold(s), true)
    case Read(ErrorReply(_), _) => ending == Ending(Untold(s), true)
    case Read(ServerRequest(_), _) => ending == Ending(Untold(s), false)
    case Read(Notification(note), _) =>
      || (note.TurnCompleted? && ending == Ending(ResultOf(TurnOf(s.notes + [note])), false))
      || (Misread(note) && ending == Ending(Untold(s), true))
    case Read(Reply(id, result), now) =>
      && ending.kill
      && ((ending.result.RefusedFirst? && FailsCheck(plan, id, result, now, ending.result.code))
          || (ending.result.NothingRan? && Unreadable(id, result)))
  }

  lemma {:induction false} ReplyEndsAs(plan: Plan, s: State, id: int, result: Result, now: int, ending: Ending)
    requires s.ending.None?
    ensures ReadReply(plan, s, id, result, now).ending == Some(ending) <==> EndsAs(plan, s, Read(Reply(id, result), now), ending)
  {
  }

  lemma {:induction false} NoteEndsAs(plan: Plan, s: State, note: Note, now: int, ending: Ending)
    requires s.ending.None? && Recorded(s)
    ensures ReadNote(s, note).ending == Some(ending) <==> EndsAs(plan, s, Read(Notification(note), now), ending)
  {
    ReadExactly(note);
    OneNoteMore(s.notes, note);
  }

  /** Before it ends, a step ends the call exactly as it must. */
  lemma {:induction false} EndsExactlyAs(plan: Plan, s: State, e: Event, ending: Ending)
    requires s.ending.None? && Recorded(s)
    ensures Next(plan, s, e).ending == Some(ending) <==> EndsAs(plan, s, e, ending)
  {
    if e.Read? && e.line.Reply? {
      ReplyEndsAs(plan, s, e.line.id, e.line.result, e.now, ending);
    } else if e.Read? && e.line.Notification? {
      NoteEndsAs(plan, s, e.line.note, e.now, ending);
    }
  }

  /** Step `n` of a run ended it so. */
  ghost predicate EndedAt(plan: Plan, now: int, events: seq<Event>, n: nat, ending: Ending) {
    && n < |events| && Run(plan, Begin(now), events[..n]).ending.None?
    && EndsAs(plan, Run(plan, Begin(now), events[..n]), events[n], ending)
  }

  lemma {:induction false} RunLast(plan: Plan, s: State, events: seq<Event>)
    requires events != []
    ensures Run(plan, s, events) == Next(plan, Run(plan, s, events[..|events| - 1]), events[|events| - 1])
    decreases |events|
  {
    var k := |events| - 1;
    if k == 0 {
      assert events[1..] == [] && events[..0] == [];
    } else {
      assert events[1..][..k - 1] == events[..k][1..];
      RunLast(plan, Next(plan, s, events[0]), events[1..]);
    }
  }

  lemma {:induction false} EndedAtMore(plan: Plan, now: int, events: seq<Event>, n: nat, ending: Ending)
    requires events != []
    ensures var k := |events| - 1;
            var before := Run(plan, Begin(now), events[..k]);
            EndedAt(plan, now, events, n, ending) <==>
              EndedAt(plan, now, events[..k], n, ending) || (n == k && before.ending.None? && EndsAs(plan, before, events[k], ending))
  {
    if n < |events| - 1 {
      assert events[..n] == events[..|events| - 1][..n];
    }
  }

  /** Over every run, from any server: the call ends so exactly when some step of it, before any ending, ended it so. */
  lemma {:induction false} EndedExactlyAs(plan: Plan, now: int, events: seq<Event>, ending: Ending)
    ensures Run(plan, Begin(now), events).ending == Some(ending) <==> exists n: nat :: EndedAt(plan, now, events, n, ending)
    decreases |events|
  {
    if events != [] {
      var k := |events| - 1;
      var before := Run(plan, Begin(now), events[..k]);
      RunLast(plan, Begin(now), events);
      EndedExactlyAs(plan, now, events[..k], ending);
      RunKeepsRecord(plan, Begin(now), events[..k]);
      forall n: nat ensures EndedAt(plan, now, events, n, ending) <==>
        EndedAt(plan, now, events[..k], n, ending) || (n == k && before.ending.None? && EndsAs(plan, before, events[k], ending))
      {
        EndedAtMore(plan, now, events, n, ending);
      }
      if before.ending.None? {
        EndsExactlyAs(plan, before, events[k], ending);
        assert EndsAs(plan, before, events[k], ending) ==> EndedAt(plan, now, events, k, ending);
      }
    }
  }

  /** A reply that ends nothing is what the next request waited for: it is sent, to the server asked, at once. */
  lemma {:induction false} AsksInTurn(plan: Plan, s: State, id: int, result: Result, now: int)
    requires s.ending.None? && !Unreadable(id, result) && forall code :: !FailsCheck(plan, id, result, now, code)
    ensures var log, t := s.log + [Got(id, result)], Next(plan, s, Read(Reply(id, result), now));
            && t.ending.None? && (t.turnStarted <==> s.turnStarted || id == 4)
            && t.log == match id
                        case 1 => log + [Sent(Initialized, now)] + [Sent(ReadAccount, now)]
                        case 2 => log + [Sent(ReadUsage, now)]
                        case 3 => log + [Sent(StartThread(plan.model), now)]
                        case 4 => log + [Sent(StartTurn(result.threadId.value, plan.prompt), now)]
                        case _ => log
  {
    assert !FailsCheck(plan, id, result, now, GptFailed) && !FailsCheck(plan, id, result, now, SignedOut) && !FailsCheck(plan, id, result, now, SendLapsed);
    if id == 3 && UsageRefusal(result.usage).Some? {
      assert FailsCheck(plan, id, result, now, UsageRefusal(result.usage).value);
    }
  }

  /** No other line is answered, but a request of the server's own, which is refused. */
  lemma {:induction false} OthersAskNothing(plan: Plan, s: State, e: Event)
    requires s.ending.None? && !(e.Read? && e.line.Reply?)
    ensures var t := Next(plan, s, e);
            t.turnStarted == s.turnStarted && t.log == if e.Read? && e.line.ServerRequest? then s.log + [Sent(Refuse(e.line.id), e.now)] else s.log
  {
    if e.Read? && e.line.Notification? {
      NoteAsksNothing(s, e.line.note);
    }
  }

  // ------------------------------------------------------------------ the runner's own code

  /** One call's conversation and its one ending. */
  class Conversation {
    const plan: Plan
    var turn: Turn
    var turnStarted: bool
    var ending: Option<Ending>
    var pieces: seq<string>
    var sent: nat
    ghost var notes: seq<Note>
    ghost var log: seq<Entry>

    ghost function View(): State
      reads this
    {
      State(turn, turnStarted, notes, pieces, sent, log, ending)
    }

    constructor (plan: Plan, now: int)
      ensures View() == Begin(now) && this.plan == plan
    {
      this.plan := plan;
      turn, turnStarted, ending, pieces, sent, notes, log := FRESH, false, None, [], 0, [], [Sent(Initialize, now)];
    }

    /** The first ending stands. */
    method Finish(settled: Ending)
      modifies this`ending
      ensures View() == Ended(old(View()), settled)
    {
      if ending.None? {
        ending := Some(settled);
      }
    }

    method Hear(note: Note)
      requires ending.None?
      modifies this
      ensures View() == ReadNote(old(View()), note)
    {
      pieces := pieces + PieceOf(turn, note);
      turn := TurnAfter(turn, note);
      notes := notes + [note];
      match ReadingOf(note) {
        case Continue =>
        case Completed => Finish(Ending(ResultOf(turn), false));
        case RefusedNote => Finish(Broken(turnStarted));
      }
    }

    method Answer(id: int, result: Result, now: int)
      requires ending.None?
      modifies this
      ensures View() == ReadReply(plan, old(View()), id, result, now)
    {
      log := log + [Got(id, result)];
      match NextStep(id, result, plan, now) {
        case TurnHasStarted =>
        case End(settled) => Finish(settled);
        case Ask(request) =>
          if id == 1 {
            log := log + [Sent(Initialized, now)];
          }
          log := log + [Sent(request, now)];
          if request.StartTurn? {
            turnStarted, sent := true, sent + 1;
          }
      }
    }

    method OnLine(line: Line, now: int)
      modifies this
      ensures View() == Next(plan, old(View()), Read(line, now))
    {
      if ending.Some? {
        return;
      }
      match line {
        case Garbled => Finish(Broken(turnStarted));
        case ServerRequest(id) =>
          log := log + [Sent(Refuse(id), now)];
          Finish(Ending(if turnStarted then Unknown else NothingRan, false));
        case Notification(note) => Hear(note);
        case ErrorReply(_) => Finish(Broken(turnStarted));
        case Reply(id, result) => Answer(id, result, now);
      }
    }

    method Stop()
      modifies this
      ensures View() == Next(plan, old(View()), Stopped)
    {
      Finish(Ending(if turnStarted then Unknown else NothingRan, true));
    }
  }
}