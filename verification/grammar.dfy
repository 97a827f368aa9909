/** apps/local-agent/app-grammar.ts: what each notification of a turn means, and what the turn ends as. */
module Grammar {
  import opened Lists
  import opened Gate

  datatype ItemKind = UserMessage | AgentMessage | Reasoning | OtherItem

  datatype ErrorInfo = Unauthorized | UsageLimit | OtherInfo

  /** The item a delta names, if it names one; `null` and a number are neither absent nor a name. */
  datatype ItemId = Absent | NoName | Named(id: string)

  predicate IsItem(itemId: ItemId, item: Option<string>) {
    match itemId
    case Absent => item.None?
    case NoName => false
    case Named(id) => item == Some(id)
  }

  /** A notification's parts as the grammar reads them; what is not of its type reads as none. */
  datatype Note =
    | Quiet
    | RemoteControl(disabled: bool)
    | ItemStarted(kind: ItemKind, id: Option<string>)
    | ItemCompleted(kind: ItemKind, id: Option<string>, text: Option<string>)
    | Delta(itemId: ItemId, delta: Option<string>)
    | TokenUsage(input: Option<nat>, output: Option<nat>)
    | ErrorNote(willRetry: bool, info: ErrorInfo, saysLimit: bool)
    | TurnCompleted(completed: bool, info: ErrorInfo, saysLimit: bool)
    | OtherNote

  datatype Tokens = Tokens(input: nat, output: nat)

  datatype Turn = Turn(streaming: Option<string>, piecesStopped: bool, text: Option<string>, usage: Option<Tokens>,
                       failed: bool, limited: bool, unauthorized: bool, started: bool)

  const FRESH := Turn(None, false, None, None, false, false, false, false)

  /** What a call ends with: nothing was started, it cannot be told, it was refused before the model was asked, or an answer. */
  datatype AppResult =
    | NothingRan
    | Unknown
    | RefusedFirst(code: Refusal)
    | Answered(text: string, input: nat, output: nat, failed: bool, limited: bool)

  function Failure(turn: Turn, info: ErrorInfo, saysLimit: bool): Turn {
    turn.(failed := true,
          unauthorized := turn.unauthorized || info.Unauthorized?,
          limited := turn.limited || info.UsageLimit? || saysLimit)
  }

  function ResultOf(turn: Turn): AppResult {
    if turn.unauthorized && !turn.started && turn.usage.None? then RefusedFirst(SignedOut)
    else if turn.usage.None? then
      if turn.limited && !turn.started then Answered("", 0, 0, true, true) else Unknown
    else
      var failed := turn.failed || turn.text.None?;
      Answered(if failed then "" else turn.text.value, turn.usage.value.input, turn.usage.value.output, failed, turn.limited)
  }

  datatype Reading = Continue | Completed | RefusedNote

  function Started(turn: Turn, kind: ItemKind): Turn {
    if kind.UserMessage? then turn else turn.(started := true)
  }

  function ReadItemStarted(turn: Turn, kind: ItemKind, id: string): Turn {
    var t := Started(turn, kind);
    if !kind.AgentMessage? then t
    else if turn.streaming.None? then t.(streaming := Some(id))
    else t.(piecesStopped := t.piecesStopped || turn.streaming != Some(id))
  }

  /** What reading a notification says of the call. */
  function ReadingOf(note: Note): Reading {
    match note
    case Quiet => Continue
    case RemoteControl(disabled) => if disabled then Continue else RefusedNote
    case ItemStarted(kind, id) => if id.None? || kind.OtherItem? then RefusedNote else Continue
    case ItemCompleted(kind, id, text) =>
      if id.None? || kind.OtherItem? || (kind.AgentMessage? && text.None?) then RefusedNote else Continue
    case Delta(_, delta) => if delta.None? then RefusedNote else Continue
    case TokenUsage(input, output) => if input.None? || output.None? then RefusedNote else Continue
    case ErrorNote(_, _, _) => Continue
    case TurnCompleted(_, _, _) => Completed
    case OtherNote => RefusedNote
  }

  function TurnAfter(turn: Turn, note: Note): Turn {
    match note
    case ItemStarted(kind, id) => if id.None? || kind.OtherItem? then turn else ReadItemStarted(turn, kind, id.value)
    case ItemCompleted(kind, id, text) =>
      if id.None? || kind.OtherItem? then turn
      else if kind.AgentMessage? && text.Some? then Started(turn, kind).(text := text)
      else Started(turn, kind)
    case TokenUsage(input, output) =>
      if input.None? || output.None? then turn else turn.(usage := Some(Tokens(input.value, output.value)))
    case ErrorNote(willRetry, info, saysLimit) => if willRetry then turn else Failure(turn, info, saysLimit)
    case TurnCompleted(completed, info, saysLimit) => if completed then turn else Failure(turn, info, saysLimit)
    case _ => turn
  }

  /** The piece a notification passes on, if any. */
  function PieceOf(turn: Turn, note: Note): seq<string> {
    if note.Delta? && note.delta.Some? && !turn.piecesStopped && IsItem(note.itemId, turn.streaming) && note.delta.value != ""
    then [note.delta.value] else []
  }

  function TurnOf(notes: seq<Note>): Turn {
    if notes == [] then FRESH else TurnAfter(TurnOf(notes[..|notes| - 1]), notes[|notes| - 1])
  }

  function PiecesOf(notes: seq<Note>): seq<string> {
    if notes == [] then []
    else PiecesOf(notes[..|notes| - 1]) + PieceOf(TurnOf(notes[..|notes| - 1]), notes[|notes| - 1])
  }

  lemma {:induction false} OneNoteMore(notes: seq<Note>, note: Note)
    ensures TurnOf(notes + [note]) == TurnAfter(TurnOf(notes), note)
    ensures PiecesOf(notes + [note]) == PiecesOf(notes) + PieceOf(TurnOf(notes), note)
  {
    var more := notes + [note];
    assert more[..|more| - 1] == notes && more[|more| - 1] == note;
  }

  // ------------------------------------------------------------------ what the turn's record means

  /** The agent message a notification begins, if any. */
  function Begins(note: Note): Option<string> {
    if note.ItemStarted? && note.kind.AgentMessage? then note.id else None
  }

  /** The first agent message begun. */
  function FirstMessage(notes: seq<Note>): Option<string> {
    if notes == [] then None
    else if Begins(notes[0]).Some? then Begins(notes[0])
    else FirstMessage(notes[1..])
  }

  /** An agent message begun after and beside the first. */
  predicate SecondBegun(notes: seq<Note>) {
    exists i :: 0 <= i < |notes| && Begins(notes[i]).Some? && Begins(notes[i]) != FirstMessage(notes)
  }

  /** The usage last reported. */
  function LastUsage(notes: seq<Note>): Option<Tokens> {
    if notes == [] then None
    else
      var last := notes[|notes| - 1];
      if last.TokenUsage? && last.input.Some? && last.output.Some? then Some(Tokens(last.input.value, last.output.value))
      else LastUsage(notes[..|notes| - 1])
  }

  /** The text of the agent message last completed. */
  function LastText(notes: seq<Note>): Option<string> {
    if notes == [] then None
    else
      var last := notes[|notes| - 1];
      if last.ItemCompleted? && last.kind.AgentMessage? && last.id.Some? && last.text.Some? then last.text
      else LastText(notes[..|notes| - 1])
  }

  predicate GivesBack(note: Note) {
    (note.ItemStarted? || note.ItemCompleted?) && note.id.Some? && (note.kind.AgentMessage? || note.kind.Reasoning?)
  }

  predicate Fails(note: Note) {
    (note.ErrorNote? && !note.willRetry) || (note.TurnCompleted? && !note.completed)
  }

  lemma {:induction false} FirstMessageMore(notes: seq<Note>, note: Note)
    ensures FirstMessage(notes + [note]) == if FirstMessage(notes).Some? then FirstMessage(notes) else Begins(note)
  {
    if notes == [] {
      assert [note][1..] == [];
    } else {
      assert (notes + [note])[1..] == notes[1..] + [note];
      FirstMessageMore(notes[1..], note);
    }
  }

  lemma {:induction false} NoneBegun(notes: seq<Note>)
    ensures FirstMessage(notes).None? <==> forall i :: 0 <= i < |notes| ==> Begins(notes[i]).None?
  {
    if notes != [] {
      NoneBegun(notes[1..]);
    }
  }

  lemma {:induction false} SecondBegunMore(notes: seq<Note>, note: Note)
    ensures SecondBegun(notes + [note]) <==>
              SecondBegun(notes) || (FirstMessage(notes).Some? && Begins(note).Some? && Begins(note) != FirstMessage(notes))
  {
    var more := notes + [note];
    FirstMessageMore(notes, note);
    NoneBegun(notes);
    if SecondBegun(notes) {
      var i :| 0 <= i < |notes| && Begins(notes[i]).Some? && Begins(notes[i]) != FirstMessage(notes);
      assert more[i] == notes[i];
    }
    if SecondBegun(more) {
      var i :| 0 <= i < |more| && Begins(more[i]).Some? && Begins(more[i]) != FirstMessage(more);
      if i < |notes| {
        assert Begins(notes[i]).Some?;
      }
    }
    assert more[|notes|] == note;
  }

  predicate Any(p: Note -> bool, notes: seq<Note>) {
    notes != [] && (Any(p, notes[..|notes| - 1]) || p(notes[|notes| - 1]))
  }

  /** The model gave something back: an item other than the user's own message. */
  predicate GaveBack(notes: seq<Note>) {
    Any(GivesBack, notes)
  }

  predicate RefusedSignIn(notes: seq<Note>) {
    Any((note: Note) => Fails(note) && note.info.Unauthorized?, notes)
  }

  predicate AtLimit(notes: seq<Note>) {
    Any((note: Note) => Fails(note) && (note.info.UsageLimit? || note.saysLimit), notes)
  }

  lemma {:induction false} MessageStep(turn: Turn, note: Note)
    ensures var t := TurnAfter(turn, note);
            && t.streaming == (if turn.streaming.Some? then turn.streaming else Begins(note))
            && (t.piecesStopped <==>
                  turn.piecesStopped || (turn.streaming.Some? && Begins(note).Some? && Begins(note) != turn.streaming))
  {
    if !note.ItemStarted? {
      OthersBeginNothing(turn, note);
    }
  }

  lemma {:induction false} OthersBeginNothing(turn: Turn, note: Note)
    requires !note.ItemStarted?
    ensures TurnAfter(turn, note).streaming == turn.streaming && TurnAfter(turn, note).piecesStopped == turn.piecesStopped
  {
  }

  lemma {:induction false} UsageStep(turn: Turn, note: Note)
    ensures TurnAfter(turn, note).usage
         == if note.TokenUsage? && note.input.Some? && note.output.Some? then Some(Tokens(note.input.value, note.output.value)) else turn.usage
  {
  }

  lemma {:induction false} TextIsLast(notes: seq<Note>)
    ensures TurnOf(notes).text == LastText(notes)
  {
    if notes != [] {
      TextIsLast(notes[..|notes| - 1]);
    }
  }

  /** What the turn's record says of its messages. */
  lemma {:induction false} MessagesMean(notes: seq<Note>)
    ensures TurnOf(notes).streaming == FirstMessage(notes)
    ensures TurnOf(notes).piecesStopped <==> SecondBegun(notes)
    ensures TurnOf(notes).usage == LastUsage(notes)
  {
    if notes != [] {
      var before, note := notes[..|notes| - 1], notes[|notes| - 1];
      assert before + [note] == notes;
      MessagesMean(before);
      MessageStep(TurnOf(before), note);
      UsageStep(TurnOf(before), note);
      FirstMessageMore(before, note);
      SecondBegunMore(before, note);
    }
  }

  lemma {:induction false} FailureStep(turn: Turn, note: Note)
    ensures var t := TurnAfter(turn, note);
            && t.failed == (turn.failed || Fails(note))
            && t.unauthorized == (turn.unauthorized || (Fails(note) && note.info.Unauthorized?))
            && t.limited == (turn.limited || (Fails(note) && (note.info.UsageLimit? || note.saysLimit)))
  {
  }

  lemma {:induction false} StartedStep(turn: Turn, note: Note)
    ensures TurnAfter(turn, note).started == (turn.started || GivesBack(note))
  {
  }

  /** And of how it went. */
  lemma {:induction false} FailuresMean(notes: seq<Note>)
    ensures TurnOf(notes).started == GaveBack(notes)
    ensures TurnOf(notes).failed == Any(Fails, notes)
    ensures TurnOf(notes).unauthorized == RefusedSignIn(notes)
    ensures TurnOf(notes).limited == AtLimit(notes)
  {
    if notes != [] {
      var before, note := notes[..|notes| - 1], notes[|notes| - 1];
      FailuresMean(before);
      FailureStep(TurnOf(before), note);
      StartedStep(TurnOf(before), note);
    }
  }

  /**
   * A delta is passed on exactly when it is one of the first agent message's and
   * no other has begun; one that names no item, exactly when none has begun.
   */
  lemma {:induction false} PiecesAreTheFirstMessages(notes: seq<Note>, i: nat)
    requires i < |notes|
    ensures var piece := PieceOf(TurnOf(notes[..i]), notes[i]);
            piece != [] <==>
              && notes[i].Delta? && notes[i].delta.Some? && notes[i].delta.value != ""
              && IsItem(notes[i].itemId, FirstMessage(notes[..i])) && !SecondBegun(notes[..i])
    ensures PiecesOf(notes[..i + 1]) == PiecesOf(notes[..i]) + PieceOf(TurnOf(notes[..i]), notes[i])
  {
    MessagesMean(notes[..i]);
    assert notes[..i + 1][..i] == notes[..i];
  }

  lemma {:induction false} NoPieceOnceStopped(turn: Turn, note: Note)
    requires turn.piecesStopped
    ensures PieceOf(turn, note) == []
  {
  }

  /** Once a second message has begun, no more pieces. */
  lemma {:induction false} PiecesStop(notes: seq<Note>, more: seq<Note>)
    requires SecondBegun(notes)
    ensures PiecesOf(notes + more) == PiecesOf(notes)
    decreases |more|
  {
    if more == [] {
      assert notes + more == notes;
    } else {
      var n := |more| - 1;
      var before := notes + more[..n];
      PiecesStop(notes, more[..n]);
      assert notes + more == before + [more[n]];
      OneNoteMore(before, more[n]);
      SecondStays(notes, more[..n]);
      MessagesMean(before);
      NoPieceOnceStopped(TurnOf(before), more[n]);
    }
  }

  lemma {:induction false} SecondStays(notes: seq<Note>, more: seq<Note>)
    requires SecondBegun(notes)
    ensures SecondBegun(notes + more)
    decreases |more|
  {
    if more == [] {
      assert notes + more == notes;
    } else {
      SecondBegunMore(notes, more[0]);
      SecondStays(notes + [more[0]], more[1..]);
      assert notes + more == notes + [more[0]] + more[1..];
    }
  }

  /**
   * A turn ends with the usage last reported, and with the text last completed
   * unless it failed; never reported, as unknown, but for
   * one that gave nothing back and was refused its sign-in or stopped at the limit.
   */
  lemma {:induction false} TurnEndsAs(notes: seq<Note>)
    ensures var r := ResultOf(TurnOf(notes));
            match LastUsage(notes)
            case Some(usage) =>
              var failed := Any(Fails, notes) || LastText(notes).None?;
              r == Answered(if failed then "" else LastText(notes).value, usage.input, usage.output, failed, AtLimit(notes))
            case None =>
              if !GaveBack(notes) && RefusedSignIn(notes) then r == RefusedFirst(SignedOut)
              else if !GaveBack(notes) && AtLimit(notes) then r == Answered("", 0, 0, true, true)
              else r == Unknown
  {
    MessagesMean(notes);
    FailuresMean(notes);
    TextIsLast(notes);
  }

  /** A notification the grammar does not know, or one whose parts are not as it must have them. */
  predicate Misread(note: Note) {
    || note.OtherNote? || (note.RemoteControl? && !note.disabled)
    || ((note.ItemStarted? || note.ItemCompleted?) && (note.id.None? || note.kind.OtherItem?))
    || (note.ItemCompleted? && note.kind.AgentMessage? && note.text.None?)
    || (note.Delta? && note.delta.None?) || (note.TokenUsage? && (note.input.None? || note.output.None?))
  }

  /** The turn is over exactly by its own word, and the call refused exactly by a notification misread. */
  lemma {:induction false} ReadExactly(note: Note)
    ensures ReadingOf(note).Completed? <==> note.TurnCompleted?
    ensures ReadingOf(note).RefusedNote? <==> Misread(note)
  {
  }
}
