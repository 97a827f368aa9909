/**
 * apps/local-agent/runner.ts: calls run one at a time, each charged as unknown
 * before it runs and by what it reported after. A write to the ledger may be
 * cut or fail, and the process may die, at any step; a new runner then starts
 * on the same ledger. This is one runner's account of it, and call ids are
 * unique; OneLedger shows that runners sharing a home come to the same.
 */
module Runner {
  import opened Lists
  import opened Maps
  import opened Ledger
  import opened Gate

  /** What a call ends with: nothing was started, it cannot be told, it was refused unasked, or its reported tokens. */
  datatype Result =
    | NothingRan
    | Unknown
    | Refused(code: Refusal)
    | Reported(input: nat, output: nat, failed: bool, limited: bool)

  datatype Request = Request(model: string, promptBytes: nat, sendBy: bool)

  /** The call in flight: what it needs, and the cap it was let in under and what that left. */
  datatype Running = Running(id: string, call: Request, need: nat, cap: nat, left: nat)

  /** What a started call has come to. */
  datatype Charge = InFlight(need: nat) | Ended(need: nat, result: Result)

  datatype Config = Config(settings: Settings, defaultModel: string)

  datatype State = State(file: File, broken: bool, closing: bool, queue: seq<Request>, running: Option<Running>,
                         waiting: nat, calls: map<string, Charge>)

  /** The row a call leaves. */
  function RowOf(id: string, need: nat, result: Result): Row {
    match result
    case NothingRan => Row(Some(id), 0, 0)
    case Refused(_) => Row(Some(id), 0, 0)
    case Unknown => Row(Some(id), need, 0)
    case Reported(input, output, _, _) => Row(Some(id), input, output)
  }

  /** What a call comes to: its reported tokens, nothing when nothing ran, its need when unknown. */
  function Usage(need: nat, result: Result): nat {
    match result
    case NothingRan => 0
    case Refused(_) => 0
    case Unknown => need
    case Reported(input, output, _, _) => input + output
  }

  lemma {:induction false} RowCharges(id: string, need: nat, result: Result)
    ensures Tokens(RowOf(id, need, result)) == Usage(need, result) && RowOf(id, need, result).id == Some(id)
  {
  }

  datatype Answer = Answered(input: nat, output: nat) | Refusal(code: Refusal)

  /** A finished call's answer; one that used more than the tokens left is recorded, never answered. */
  function AnswerOf(run: Running, result: Result, recorded: bool): Answer {
    if !recorded then Refusal(GptFailed)
    else match result
    case NothingRan => Refusal(GptFailed)
    case Unknown => Refusal(GptFailed)
    case Refused(code) => Refusal(code)
    case Reported(input, output, failed, limited) =>
      if input + output > run.left then Refusal(CapReached)
      else if limited then Refusal(PlanLimit)
      else if failed then Refusal(GptFailed)
      else Answered(input, output)
  }

  /** How a write to the ledger ended: only a whole one goes on. */
  datatype Fate = WentOn | Threw | Died

  datatype Write = Write(written: Written, fate: Fate) {
    predicate Possible() {
      fate == WentOn ==> written == Whole
    }
  }

  datatype Event =
    | Arrive(call: Request)
    | Turn(timely: bool, gone: bool, approved: Approvals, id: string, write: Write)
    | Finish(result: Result, write: Write)
    | Reject                             // codex's own failure: no row after the first
    | Close
    | Die

  /** A new runner on the ledger left. */
  function Restarted(s: State, file: File): State {
    State(file, false, false, [], None, 0, s.calls)
  }

  ghost function Next(config: Config, s: State, e: Event): State {
    match e
    case Arrive(call) =>
      if call.sendBy && s.waiting > 0 then s else s.(queue := s.queue + [call], waiting := s.waiting + 1)
    case Turn(timely, gone, approved, id, write) =>
      if s.running.Some? || s.queue == [] || s.waiting == 0 then s else TakeTurn(config, s, timely, gone, approved, id, write)
    case Finish(result, write) =>
      if s.running.None? || s.waiting == 0 || !write.Possible() then s else EndTurn(s, result, write)
    case Reject => if s.running.None? || s.waiting == 0 then s else s.(running := None, waiting := s.waiting - 1)
    case Close => s.(closing := true)
    case Die => Restarted(s, s.file)
  }

  /** The head of the queue refused: nothing runs. */
  function TurnRefused(s: State): State
    requires s.queue != [] && s.waiting > 0
  {
    s.(queue := s.queue[1..], waiting := s.waiting - 1)
  }

  ghost function TotalNow(s: State, cap: nat): nat {
    Total(s.file.All(), cap)
  }

  ghost function DecisionOf(config: Config, s: State, approved: Approvals): Decision
    requires s.queue != []
  {
    var cap := CapInForce(config.settings, approved);
    Decide(config.defaultModel, approved, cap, TotalNow(s, cap), s.queue[0].model, CallNeed(s.queue[0].promptBytes))
  }

  ghost function TakeTurn(config: Config, s: State, timely: bool, gone: bool, approved: Approvals, id: string, write: Write): State
    requires s.running.None? && s.queue != [] && s.waiting > 0
  {
    var decision := DecisionOf(config, s, approved);
    if !timely || gone || s.closing || s.broken || decision.Declined? then TurnRefused(s)
    else if id in s.calls || id in Calls(s.file.All()) || !write.Possible() then s
    else
      var call := s.queue[0];
      var need := CallNeed(call.promptBytes);
      var file := Append(s.file, RowOf(id, need, Unknown), write.written);
      match write.fate
      case WentOn =>
        s.(file := file, queue := s.queue[1..], calls := s.calls[id := InFlight(need)],
           running := Some(Running(id, call, need, CapInForce(config.settings, approved), decision.tokensLeft)))
      case Threw => TurnRefused(s).(file := file, broken := true)
      case Died => Restarted(s, file)
  }

  function EndTurn(s: State, result: Result, write: Write): State
    requires s.running.Some? && s.waiting > 0
  {
    var run := s.running.value;
    var file := Append(s.file, RowOf(run.id, run.need, result), write.written);
    var ended := s.(file := file, running := None, waiting := s.waiting - 1, calls := s.calls[run.id := Ended(run.need, result)]);
    match write.fate
    case WentOn => ended
    case Threw => ended.(broken := true)
    case Died => Restarted(ended, file)
  }

  ghost function Run(config: Config, s: State, events: seq<Event>): State
    decreases |events|
  {
    if events == [] then s else Run(config, Next(config, s, events[0]), events[1..])
  }

  function Start(file: File): State {
    State(file, false, false, [], None, 0, map[])
  }

  // ------------------------------------------------------------------ what every run keeps

  /** What a started call may count as: its need, or once ended its reported tokens. */
  predicate Fits(charge: Charge, tokens: nat) {
    || tokens == charge.need
    || (charge.Ended? && tokens == Usage(charge.need, charge.result))
  }

  /** While the lines read, each started call is in them, charged what it may count as. */
  ghost predicate Covers(calls: map<string, Charge>, lines: seq<Line>) {
    Readable(lines) ==> forall id :: id in calls ==> id in Calls(lines) && Fits(calls[id], Calls(lines)[id])
  }

  /** The call in flight is charged its need, within the cap it was let in under. */
  ghost predicate InHand(s: State) {
    s.running.Some? ==>
      var run := s.running.value;
      && run.id in s.calls && s.calls[run.id] == InFlight(run.need)
      && run.need <= run.left <= run.cap
      && (Readable(s.file.All()) ==>
            && run.id in Calls(s.file.All()) && Calls(s.file.All())[run.id] == run.need
            && TotalNow(s, run.cap) == run.cap - run.left + run.need)
  }

  /** One call at a time, each queued one counted, and one with a send deadline never behind another. */
  predicate Queued(s: State) {
    && s.waiting == |s.queue| + (if s.running.Some? then 1 else 0)
    && forall i :: 0 <= i < |s.queue| && s.queue[i].sendBy ==> i == 0 && s.running.None?
  }

  ghost predicate Inv(s: State) {
    Covers(s.calls, s.file.All()) && InHand(s) && Queued(s)
  }

  lemma {:induction false} TotalOfNewId(file: File, row: Row, written: Written, cap: nat)
    requires row.id.Some? && row.id.value !in Calls(file.All()) && Readable(file.All())
    requires Total(file.All(), cap) + Tokens(row) <= cap
    ensures Total(Append(file, row, written).All(), cap) <= cap
    ensures written == Whole && Readable(Append(file, row, written).All()) ==>
              Total(Append(file, row, written).All(), cap) == Total(file.All(), cap) + Tokens(row)
  {
    AppendCharges(file, row, written);
    SumValuesUpdate(Calls(file.All()), row.id.value, Tokens(row));
  }

  lemma {:induction false} TotalOfKnownId(file: File, row: Row, written: Written, cap: nat)
    requires row.id.Some? && row.id.value in Calls(file.All()) && Readable(file.All())
    ensures written == Whole && Readable(Append(file, row, written).All()) ==>
              Total(Append(file, row, written).All(), cap)
              == Total(file.All(), cap) - Calls(file.All())[row.id.value] + Tokens(row)
  {
    AppendCharges(file, row, written);
    SumValuesUpdate(Calls(file.All()), row.id.value, Tokens(row));
  }

  /** A call is let in only on a ledger that reads, with its need left under the cap. */
  lemma {:induction false} AdmittedWithin(config: Config, s: State, approved: Approvals)
    requires s.queue != [] && DecisionOf(config, s, approved).Admitted?
    ensures var cap := CapInForce(config.settings, approved);
            var left := DecisionOf(config, s, approved).tokensLeft;
            && Readable(s.file.All())
            && TotalNow(s, cap) + CallNeed(s.queue[0].promptBytes) <= cap
            && left == cap - TotalNow(s, cap)
  {
  }

  /** A first row written for a call let in, however far it got: every call before is charged as it was. */
  lemma {:induction false} FirstRowCovers(calls: map<string, Charge>, file: File, written: Written, id: string, need: nat)
    requires Covers(calls, file.All()) && id !in calls
    ensures Covers(calls, Append(file, RowOf(id, need, Unknown), written).All())
    ensures written == Whole ==> Covers(calls[id := InFlight(need)], Append(file, RowOf(id, need, Unknown), written).All())
  {
    var row := RowOf(id, need, Unknown);
    AppendCharges(file, row, written);
    RowCharges(id, need, Unknown);
    var before, after := file.All(), Append(file, row, written).All();
    if Readable(after) {
      forall other | other in calls ensures other in Calls(after) && Fits(calls[other], Calls(after)[other]) {
        assert Calls(after)[other] == Calls(before)[other];
      }
    }
  }

  /** A call let in, its first row whole: in hand, charged its need, within the cap it was let in under. */
  lemma {:induction false} LetInIsInHand(config: Config, s: State, e: Event)
    requires e.Turn? && s.running.None? && s.queue != [] && s.waiting > 0
    requires DecisionOf(config, s, e.approved).Admitted? && e.id !in s.calls && e.id !in Calls(s.file.All())
    requires e.write.Possible() && e.write.fate == WentOn
    requires e.timely && !e.gone && !s.closing && !s.broken
    ensures InHand(Next(config, s, e))
  {
    var need, cap := CallNeed(s.queue[0].promptBytes), CapInForce(config.settings, e.approved);
    AdmittedWithin(config, s, e.approved);
    RowCharges(e.id, need, Unknown);
    TotalOfNewId(s.file, RowOf(e.id, need, Unknown), Whole, cap);
    AppendCharges(s.file, RowOf(e.id, need, Unknown), Whole);
  }

  lemma {:induction false} LetInKeeps(config: Config, s: State, e: Event)
    requires Inv(s) && e.Turn? && s.running.None? && s.queue != [] && s.waiting > 0
    requires DecisionOf(config, s, e.approved).Admitted? && e.id !in s.calls && e.id !in Calls(s.file.All()) && e.write.Possible()
    requires e.timely && !e.gone && !s.closing && !s.broken
    ensures Inv(Next(config, s, e))
  {
    FirstRowCovers(s.calls, s.file, e.write.written, e.id, CallNeed(s.queue[0].promptBytes));
    if e.write.fate == WentOn {
      LetInIsInHand(config, s, e);
    }
  }

  lemma {:induction false} TurnKeeps(config: Config, s: State, e: Event)
    requires Inv(s) && e.Turn? && s.running.None? && s.queue != []
    ensures Inv(Next(config, s, e))
  {
    if s.waiting > 0 && e.timely && !e.gone && !s.closing && !s.broken && DecisionOf(config, s, e.approved).Admitted?
       && e.id !in s.calls && e.id !in Calls(s.file.All()) && e.write.Possible()
    {
      LetInKeeps(config, s, e);
    }
  }

  lemma {:induction false} EndedIsCovered(calls: map<string, Charge>, file: File, written: Written, id: string, need: nat, result: Result)
    requires Covers(calls, file.All())
    requires id in calls && (Readable(file.All()) ==> id in Calls(file.All()) && Calls(file.All())[id] == need)
    ensures Covers(calls[id := Ended(need, result)], Append(file, RowOf(id, need, result), written).All())
  {
    var row := RowOf(id, need, result);
    var before, after, ended := file.All(), Append(file, row, written).All(), calls[id := Ended(need, result)];
    AppendCharges(file, row, written);
    RowCharges(id, need, result);
    if Readable(after) {
      forall other | other in ended ensures other in Calls(after) && Fits(ended[other], Calls(after)[other]) {
        if other != id {
          assert Calls(after)[other] == Calls(before)[other];
        }
      }
    }
  }

  lemma {:induction false} FinishKeeps(config: Config, s: State, e: Event)
    requires Inv(s) && e.Finish? && s.running.Some?
    ensures Inv(Next(config, s, e))
  {
    var run := s.running.value;
    EndedIsCovered(s.calls, s.file, e.write.written, run.id, run.need, e.result);
  }

  lemma {:induction false} NextKeeps(config: Config, s: State, e: Event)
    requires Inv(s)
    ensures Inv(Next(config, s, e))
  {
    match e {
      case Turn(_, _, _, _, _) =>
        if s.running.None? && s.queue != [] {
          TurnKeeps(config, s, e);
        }
      case Finish(_, _) =>
        if s.running.Some? {
          FinishKeeps(config, s, e);
        }
      case _ =>
    }
  }

  lemma {:induction false} RunKeeps(config: Config, s: State, events: seq<Event>)
    requires Inv(s)
    ensures Inv(Run(config, s, events))
    decreases |events|
  {
    if events != [] {
      NextKeeps(config, s, events[0]);
      RunKeeps(config, Next(config, s, events[0]), events[1..]);
    }
  }

  /**
   * Over every run from any ledger, whatever writes are cut and whenever the
   * process dies: while the ledger reads, each call that started is charged its
   * need, or once ended the tokens it reported, and nothing less; unread, the
   * ledger charges the whole cap.
   */
  lemma {:induction false} StartedCallsAreCharged(config: Config, file: File, events: seq<Event>, id: string)
    ensures var s := Run(config, Start(file), events);
            id in s.calls && Readable(s.file.All()) ==> id in Calls(s.file.All()) && Fits(s.calls[id], Calls(s.file.All())[id])
    ensures var s := Run(config, Start(file), events); Queued(s)
  {
    RunKeeps(config, Start(file), events);
  }

  /** A call whose end was written counts as what it came to, as long as the ledger reads. */
  lemma {:induction false} EndedCallCountsItsUsage(config: Config, s: State, e: Event)
    requires e.Finish? && e.write.written == Whole && s.running.Some? && s.waiting > 0 && e.write.Possible()
    ensures var run, t := s.running.value, Next(config, s, e);
            Readable(t.file.All()) ==> run.id in Calls(t.file.All()) && Calls(t.file.All())[run.id] == Usage(run.need, e.result)
  {
    var run := s.running.value;
    AppendCharges(s.file, RowOf(run.id, run.need, e.result), e.write.written);
    RowCharges(run.id, run.need, e.result);
  }

  /** The charge made before a call runs never takes the total past the cap in force, however far its write got. */
  lemma {:induction false} ProvisionalChargeWithinCap(config: Config, file: File, events: seq<Event>, e: Event)
    requires e.Turn?
    ensures var s := Run(config, Start(file), events);
            var t := Next(config, s, e);
            var cap := CapInForce(config.settings, e.approved);
            t.file != s.file ==>
              && s.queue != [] && TotalNow(s, cap) + CallNeed(s.queue[0].promptBytes) <= cap
              && TotalNow(t, cap) <= cap
  {
    var s := Run(config, Start(file), events);
    RunKeeps(config, Start(file), events);
    var cap := CapInForce(config.settings, e.approved);
    if s.queue != [] && DecisionOf(config, s, e.approved).Admitted? && e.id !in Calls(s.file.All()) {
      AdmittedWithin(config, s, e.approved);
      var row := RowOf(e.id, CallNeed(s.queue[0].promptBytes), Unknown);
      TotalOfNewId(s.file, row, e.write.written, cap);
    }
  }

  lemma {:induction false} AnswerStays(config: Config, s: State, e: Event)
    requires Inv(s) && s.running.Some?
    requires e.Finish? && e.write.fate == WentOn && e.write.Possible() && AnswerOf(s.running.value, e.result, true).Answered?
    ensures var run, t := s.running.value, Next(config, s, e);
            && TotalNow(t, run.cap) <= run.cap
            && (Readable(t.file.All()) ==>
                  TotalNow(t, run.cap) == TotalNow(s, run.cap) - run.need + e.result.input + e.result.output)
  {
    var run := s.running.value;
    var row := RowOf(run.id, run.need, e.result);
    AppendCharges(s.file, row, e.write.written);
    if Readable(s.file.All()) {
      TotalOfKnownId(s.file, row, e.write.written, run.cap);
    }
  }

  /** An answered call's own tokens stay within the cap it was let in under, as the ledger then counts them. */
  lemma {:induction false} AnswerWithinCap(config: Config, file: File, events: seq<Event>, e: Event)
    requires e.Finish? && e.write.fate == WentOn && e.write.Possible()
    ensures var s := Run(config, Start(file), events);
            s.running.Some? && AnswerOf(s.running.value, e.result, true).Answered? ==>
              var run, t := s.running.value, Next(config, s, e);
              && TotalNow(t, run.cap) <= run.cap
              && (Readable(t.file.All()) ==>
                    TotalNow(t, run.cap) == TotalNow(s, run.cap) - run.need + e.result.input + e.result.output)
  {
    RunKeeps(config, Start(file), events);
    var s := Run(config, Start(file), events);
    if s.running.Some? && AnswerOf(s.running.value, e.result, true).Answered? {
      AnswerStays(config, s, e);
    }
  }

  /** Once the ledger does not read it never does again, and no call runs on it. */
  lemma {:induction false} UnreadableStopsEveryCall(config: Config, s: State, events: seq<Event>)
    requires !Readable(s.file.All()) && s.running.None?
    ensures var t := Run(config, s, events); !Readable(t.file.All()) && t.running.None? && t.file == s.file && t.calls == s.calls
    decreases |events|
  {
    if events != [] {
      var e := events[0];
      if e.Turn? && s.queue != [] && DecisionOf(config, s, e.approved).Admitted? {
        AdmittedWithin(config, s, e.approved);
      }
      UnreadableStopsEveryCall(config, Next(config, s, e), events[1..]);
    }
  }

  /** After a row that could not be written, or once closing, no call of that runner starts. */
  lemma {:induction false} StoppedRunnerStartsNothing(config: Config, s: State, e: Event)
    requires s.broken || s.closing
    ensures Next(config, s, e).calls.Keys == s.calls.Keys + (if e.Finish? && s.running.Some? && s.waiting > 0 && e.write.Possible() then {s.running.value.id} else {})
    ensures s.running.None? ==> Next(config, s, e).running.None?
    ensures e != Die && !(e.Finish? && e.write.fate == Died) ==> (s.broken ==> Next(config, s, e).broken) && (s.closing ==> Next(config, s, e).closing)
  {
  }

  // ------------------------------------------------------------------ which calls start, and what each is answered

  /** The model this laptop runs, or one the owner's yes names now. */
  predicate ModelAllowed(config: Config, approved: Approvals, model: string) {
    model == config.defaultModel || model in approved.models
  }

  /** What is charged before it runs still fits: the prompt's bytes and 50,000 beside all the ledger counts. */
  ghost predicate FitsUnder(s: State, cap: nat, promptBytes: nat) {
    Total(s.file.All(), cap) + 50_000 + promptBytes <= cap
  }

  /** The code of the first check a turn fails, in the order made. */
  ghost function FirstFailed(config: Config, s: State, e: Event): (code: Option<Gate.Refusal>)
    requires e.Turn? && s.queue != []
  {
    if !e.timely || e.gone || s.closing then Some(GptFailed)
    else if s.broken then Some(CapReached)
    else if !ModelAllowed(config, e.approved, s.queue[0].model) then Some(ModelNotApproved)
    else if !FitsUnder(s, CapInForce(config.settings, e.approved), s.queue[0].promptBytes) then Some(CapReached)
    else if e.write.fate != WentOn then Some(GptFailed)
    else None
  }

  /** The step starts a call. */
  ghost predicate Starts(config: Config, s: State, e: Event) {
    && e.Turn? && s.running.None? && s.queue != [] && s.waiting > 0 && FirstFailed(config, s, e).None?
    && e.write.written == Whole && e.id !in s.calls && e.id !in Calls(s.file.All())
  }

  /** No check fails before the row is written. */
  ghost predicate ReachesWrite(config: Config, s: State, e: Event) {
    && e.Turn? && s.queue != [] && e.timely && !e.gone && !s.closing && !s.broken && ModelAllowed(config, e.approved, s.queue[0].model)
    && FitsUnder(s, CapInForce(config.settings, e.approved), s.queue[0].promptBytes)
  }

  /**
   * From any state: a call starts exactly in its own turn, timely, its caller not
   * gone, on a runner neither closing nor broken, its model allowed, its need under
   * the cap, its id new and its first row whole; and then with just that charge.
   */
  lemma {:induction false} StartsExactlyWhen(config: Config, s: State, e: Event)
    ensures s.running.None? && Next(config, s, e).running.Some? <==> Starts(config, s, e)
    ensures Starts(config, s, e) ==>
              var t, call, cap := Next(config, s, e), s.queue[0], CapInForce(config.settings, e.approved);
              && t.running == Some(Running(e.id, call, 50_000 + call.promptBytes, cap, cap - Total(s.file.All(), cap)))
              && t.queue == s.queue[1..] && t.waiting == s.waiting && t.calls == s.calls[e.id := InFlight(50_000 + call.promptBytes)]
  {
  }

  /** A turn refused before its row changes nothing but the queue, and one whose row could not be written stops the runner. */
  lemma {:induction false} RefusedTurnChanges(config: Config, s: State, e: Event)
    requires e.Turn? && s.running.None? && s.queue != [] && s.waiting > 0 && FirstFailed(config, s, e).Some?
    ensures var t := Next(config, s, e);
            && (!ReachesWrite(config, s, e) ==> t == s.(queue := s.queue[1..], waiting := s.waiting - 1))
            && (ReachesWrite(config, s, e) && e.write.fate == Threw && e.id !in s.calls && e.id !in Calls(s.file.All()) ==>
                  t == s.(queue := s.queue[1..], waiting := s.waiting - 1, broken := true, file := t.file))
            && t.calls == s.calls && t.running.None?
  {
  }

  /** Over every run the same, with the turn's place kept: a queued call is always one of those waiting. */
  lemma {:induction false} CallsStartExactlyWhen(config: Config, file: File, events: seq<Event>, e: Event)
    ensures var s := Run(config, Start(file), events);
            && (s.running.None? && Next(config, s, e).running.Some? <==> Starts(config, s, e))
            && (s.queue != [] ==> s.waiting > 0)
            && (e.Turn? && s.running.None? && s.queue != [] && e.id !in s.calls && e.id !in Calls(s.file.All()) && e.write.Possible() ==>
                  (Starts(config, s, e) <==> FirstFailed(config, s, e).None?))
  {
    var s := Run(config, Start(file), events);
    RunKeeps(config, Start(file), events);
    StartsExactlyWhen(config, s, e);
  }

  /** The step writes a row: a turn's that no check stopped, or a finished call's. */
  ghost predicate Writes(config: Config, s: State, e: Event) {
    match e
    case Turn(_, _, _, id, write) =>
      s.running.None? && s.queue != [] && ReachesWrite(config, s, e) && write.Possible() && id !in s.calls && id !in Calls(s.file.All())
    case Finish(_, write) => s.running.Some? && write.Possible()
    case _ => false
  }

  /** The row charges the call its need before it runs, and what it came to after. */
  ghost predicate RowWritten(s: State, e: Event, row: Row)
    requires e.Turn? || e.Finish?
  {
    if e.Turn? then s.queue != [] && row.id == Some(e.id) && Tokens(row) == 50_000 + s.queue[0].promptBytes
    else
      s.running.Some? && row.id == Some(s.running.value.id)
      && Tokens(row) == match e.result
                        case NothingRan => 0
                        case Unknown => s.running.value.need
                        case Refused(_) => 0
                        case Reported(input, output, _, _) => input + output
  }

  /** From any sound state: the ledger grows exactly by such a row, as far as it was written. */
  lemma {:induction false} WritesExactly(config: Config, s: State, e: Event) returns (row: Row)
    requires Inv(s)
    ensures Writes(config, s, e) ==> RowWritten(s, e, row) && Next(config, s, e).file == Append(s.file, row, e.write.written)
    ensures !Writes(config, s, e) ==> Next(config, s, e).file == s.file
  {
    row := if e.Turn? && s.queue != [] then RowOf(e.id, CallNeed(s.queue[0].promptBytes), Unknown)
           else if e.Finish? && s.running.Some? then RowOf(s.running.value.id, s.running.value.need, e.result)
           else Row(None, 0, 0);
  }

  /** The process dies, by itself or over a row. */
  ghost predicate Dies(config: Config, s: State, e: Event) {
    e.Die? || (Writes(config, s, e) && e.write.fate.Died?)
  }

  /** A runner stops by a row it could not write or by closing, and forgets both, and all it held, exactly when it dies. */
  lemma {:induction false} StopsExactlyWhen(config: Config, s: State, e: Event)
    requires Inv(s)
    ensures var t, dies := Next(config, s, e), Dies(config, s, e);
            && (t.broken <==> !dies && (s.broken || (Writes(config, s, e) && e.write.fate.Threw?)))
            && (t.closing <==> !dies && (s.closing || e.Close?))
            && (dies ==> t.queue == [] && t.running.None? && t.waiting == 0)
  {
  }

  /** A call runs until it ends or codex fails or the process dies; one arriving is turned away exactly when it has a send deadline and another is in hand. */
  lemma {:induction false} InHandExactlyUntil(config: Config, s: State, e: Event)
    requires Inv(s)
    ensures var t := Next(config, s, e);
            && (s.running.Some? ==>
                  if Writes(config, s, e) || e.Reject? || e.Die? then t.running.None?
                  else t.running == s.running)
            && (e.Reject? ==> t.calls == s.calls && t.file == s.file)
            && (e.Arrive? ==>
                  if e.call.sendBy && (s.queue != [] || s.running.Some?) then t == s
                  else t == s.(queue := s.queue + [e.call], waiting := s.waiting + 1))
  {
  }

  /** A finished call is answered exactly when its row was written and codex reported a whole turn within what was left. */
  lemma {:induction false} AnsweredExactlyWhen(run: Running, result: Result, wrote: bool)
    ensures forall input: nat, output: nat :: AnswerOf(run, result, wrote) == Answered(input, output) <==>
              wrote && result == Reported(input, output, false, false) && input + output <= run.left
    ensures AnswerOf(run, result, wrote) == Refusal(PlanLimit) <==>
              wrote && (result == Refused(PlanLimit) || (result.Reported? && result.limited && result.input + result.output <= run.left))
    ensures AnswerOf(run, result, wrote) == Refusal(CapReached) <==>
              wrote && (result == Refused(CapReached) || (result.Reported? && result.input + result.output > run.left))
    ensures wrote && result.Refused? ==> AnswerOf(run, result, wrote) == Refusal(result.code)
    ensures !wrote || result.NothingRan? || result.Unknown?
            || (result.Reported? && result.failed && !result.limited && result.input + result.output <= run.left)
            ==> AnswerOf(run, result, wrote) == Refusal(GptFailed)
  {
  }

  // ------------------------------------------------------------------ the runner's own code

  class RunnerState {
    var file: File
    var ledgerBroken: bool
    var closing: bool
    var queue: seq<Request>
    var running: Option<Running>
    var waiting: nat
    ghost var calls: map<string, Charge>

    ghost function View(): State
      reads this
    {
      State(file, ledgerBroken, closing, queue, running, waiting, calls)
    }

    constructor (ledger: File)
      ensures View() == Start(ledger)
    {
      file, ledgerBroken, closing, queue, running, waiting, calls := ledger, false, false, [], None, 0, map[];
    }

    /** A row written; when it cannot be, no later call of this runner starts. */
    method Recorded(row: Row, write: Write) returns (ok: bool)
      requires write.Possible() && write.fate != Died
      modifies this`file, this`ledgerBroken
      ensures file == Append(old(file), row, write.written)
      ensures ok <==> write.fate == WentOn
      ensures ledgerBroken == (old(ledgerBroken) || !ok)
    {
      file := Append(file, row, write.written);
      ok := write.fate == WentOn;
      if !ok {
        ledgerBroken := true;
      }
    }

    method Arrived(config: Config, call: Request) returns (answer: Option<Answer>)
      modifies this
      ensures View() == Next(config, old(View()), Arrive(call))
      ensures answer == if call.sendBy && old(waiting) > 0 then Some(Refusal(MachineBusy)) else None
    {
      if call.sendBy && waiting > 0 {
        return Some(Refusal(MachineBusy));
      }
      waiting := waiting + 1;
      queue := queue + [call];
      answer := None;
    }

    /** The next call's turn: let in and charged, or refused. */
    method Admit(config: Config, timely: bool, gone: bool, approved: Approvals, id: string, write: Write) returns (answer: Option<Answer>)
      requires running.None? && queue != [] && waiting > 0
      requires write.Possible() && write.fate != Died && id !in calls && id !in Calls(file.All())
      modifies this
      ensures View() == Next(config, old(View()), Turn(timely, gone, approved, id, write))
      ensures answer.None? <==> running.Some?
      ensures answer == match FirstFailed(config, old(View()), Turn(timely, gone, approved, id, write))
                        case None => None
                        case Some(code) => Some(Refusal(code))
    {
      var call := queue[0];
      ghost var was := View();
      queue := queue[1..];
      if !timely || gone || closing {
        waiting := waiting - 1;
        return Some(Refusal(GptFailed));
      }
      if ledgerBroken {
        waiting := waiting - 1;
        return Some(Refusal(CapReached));
      }
      var need, cap := CallNeed(call.promptBytes), CapInForce(config.settings, approved);
      var total := LedgerTotal(Some(file), true, cap);
      var decision := Decide(config.defaultModel, approved, cap, total, call.model, need);
      assert decision == DecisionOf(config, was, approved);
      if decision.Declined? {
        waiting := waiting - 1;
        return Some(Refusal(decision.code));
      }
      var ok := Recorded(RowOf(id, need, Unknown), write);
      if !ok {
        waiting := waiting - 1;
        return Some(Refusal(GptFailed));
      }
      running, calls := Some(Running(id, call, need, cap, decision.tokensLeft)), calls[id := InFlight(need)];
      answer := None;
    }

    method Finished(config: Config, result: Result, write: Write) returns (answer: Answer)
      requires running.Some? && waiting > 0 && write.Possible() && write.fate != Died
      modifies this
      ensures View() == Next(config, old(View()), Finish(result, write))
      ensures answer == AnswerOf(old(running.value), result, write.fate == WentOn)
    {
      var run := running.value;
      var ok := Recorded(RowOf(run.id, run.need, result), write);
      running, waiting, calls := None, waiting - 1, calls[run.id := Ended(run.need, result)];
      answer := AnswerOf(run, result, ok);
    }

    /** Codex failed in a way no result tells: the call stays charged its need. */
    method Rejected(config: Config) returns (answer: Answer)
      requires running.Some? && waiting > 0
      modifies this
      ensures View() == Next(config, old(View()), Reject) && answer == Refusal(GptFailed)
    {
      running, waiting := None, waiting - 1;
      answer := Refusal(GptFailed);
    }

    method Closing(config: Config)
      modifies this
      ensures View() == Next(config, old(View()), Close)
    {
      closing := true;
    }
  }
}
