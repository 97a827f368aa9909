/** apps/local-agent/codex-app.ts, `lineReader`: whole lines out of chunks, until its reader says stop. */
module LineReader {
  import opened Lists
  import opened Text

  /** What JavaScript's `trim` takes for blank. */
  predicate IsBlank(c: char) {
    || c in {'\t', '\n', '\U{000B}', '\U{000C}', '\r', ' ', '\U{00A0}', '\U{1680}', '\U{2028}', '\U{2029}', '\U{202F}', '\U{205F}',
             '\U{3000}', '\U{FEFF}'}
    || '\U{2000}' <= c <= '\U{200A}'
  }

  predicate Blank(line: string) {
    forall i :: 0 <= i < |line| ==> IsBlank(line[i])
  }

  /** The whole lines of a text, each to its newline. */
  function Lines(text: string): seq<string>
    decreases |text|
  {
    var at := IndexOf(text, '\n', 0);
    if at == -1 then [] else [text[..at]] + Lines(text[at + 1..])
  }

  /** What stands after the last newline. */
  function Rest(text: string): string
    decreases |text|
  {
    var at := IndexOf(text, '\n', 0);
    if at == -1 then text else Rest(text[at + 1..])
  }

  /** The lines and what stands behind them are the text cut at its newlines. */
  lemma {:induction false} LinesAreTheText(text: string)
    ensures Lines(text) + [Rest(text)] == Split(text, '\n')
    decreases |text|
  {
    var at := IndexOf(text, '\n', 0);
    if at != -1 {
      LinesAreTheText(text[at + 1..]);
      assert [text[..at]] + Lines(text[at + 1..]) + [Rest(text[at + 1..])] == [text[..at]] + (Lines(text[at + 1..]) + [Rest(text[at + 1..])]);
    }
  }

  /** The non-blank lines a reader that answers `goesOn` to what it has been handed is handed. */
  function Handed(goesOn: seq<string> -> bool, handed: seq<string>, lines: seq<string>): seq<string>
    decreases |lines|
  {
    if lines == [] then handed
    else if Blank(lines[0]) then Handed(goesOn, handed, lines[1..])
    else
      var more := handed + [lines[0]];
      if goesOn(more) then Handed(goesOn, more, lines[1..]) else more
  }

  predicate GoesOn(goesOn: seq<string> -> bool, handed: seq<string>, lines: seq<string>)
    decreases |lines|
  {
    lines != [] ==>
      if Blank(lines[0]) then GoesOn(goesOn, handed, lines[1..])
      else goesOn(handed + [lines[0]]) && GoesOn(goesOn, handed + [lines[0]], lines[1..])
  }

  function NonBlank(lines: seq<string>): seq<string> {
    Filter((line: string) => !Blank(line), lines)
  }

  /** What is handed over is the non-blank lines from the first on: all of them when the reader goes on from each. */
  lemma {:induction false} HandedAreNonBlank(goesOn: seq<string> -> bool, handed: seq<string>, lines: seq<string>) returns (k: nat)
    ensures k <= |NonBlank(lines)| && Handed(goesOn, handed, lines) == handed + NonBlank(lines)[..k]
    ensures GoesOn(goesOn, handed, lines) ==> k == |NonBlank(lines)|
    ensures !GoesOn(goesOn, handed, lines) ==> k > 0 && !goesOn(handed + NonBlank(lines)[..k])
    decreases |lines|
  {
    k := 0;
    if lines != [] {
      if Blank(lines[0]) {
        k := HandedAreNonBlank(goesOn, handed, lines[1..]);
      } else {
        var more := handed + [lines[0]];
        var rest := NonBlank(lines[1..]);
        assert NonBlank(lines) == [lines[0]] + rest;
        if goesOn(more) {
          var n := HandedAreNonBlank(goesOn, more, lines[1..]);
          assert NonBlank(lines)[..n + 1] == [lines[0]] + rest[..n];
          assert handed + NonBlank(lines)[..n + 1] == more + rest[..n];
          k := n + 1;
        } else {
          assert NonBlank(lines)[..1] == [lines[0]];
          k := 1;
        }
      }
    } else {
      assert handed + NonBlank(lines)[..0] == handed;
    }
  }

  /** Text added behind a newline: the first line is as it was. */
  lemma {:induction false} SameFirst(a: string, b: string)
    requires IndexOf(a, '\n', 0) != -1
    ensures var at := IndexOf(a, '\n', 0);
            IndexOf(a + b, '\n', 0) == at && (a + b)[..at] == a[..at] && (a + b)[at + 1..] == a[at + 1..] + b
  {
    NoneBefore(a, '\n', 0);
    FirstThere(a + b, '\n', 0, IndexOf(a, '\n', 0));
  }

  /** More text: the rest of what came before is read on with it. */
  lemma {:induction false} LinesMore(a: string, b: string)
    ensures Lines(a + b) == Lines(a) + Lines(Rest(a) + b)
    decreases |a|
  {
    var at := IndexOf(a, '\n', 0);
    if at != -1 {
      SameFirst(a, b);
      LinesMore(a[at + 1..], b);
    }
  }

  lemma {:induction false} RestMore(a: string, b: string)
    ensures Rest(a + b) == Rest(Rest(a) + b)
    decreases |a|
  {
    var at := IndexOf(a, '\n', 0);
    if at != -1 {
      SameFirst(a, b);
      RestMore(a[at + 1..], b);
    }
  }

  lemma {:induction false} HandedMore(goesOn: seq<string> -> bool, handed: seq<string>, a: seq<string>, b: seq<string>)
    ensures GoesOn(goesOn, handed, a + b) <==>
              GoesOn(goesOn, handed, a) && GoesOn(goesOn, Handed(goesOn, handed, a), b)
    ensures Handed(goesOn, handed, a + b)
         == if GoesOn(goesOn, handed, a) then Handed(goesOn, Handed(goesOn, handed, a), b) else Handed(goesOn, handed, a)
    decreases |a|
  {
    if a == [] {
      assert a + b == b;
    } else {
      assert (a + b)[1..] == a[1..] + b;
      HandedMore(goesOn, if Blank(a[0]) then handed else handed + [a[0]], a[1..], b);
    }
  }

  /** Nothing is handed over after the reader says stop, and every line handed over before was one it went on from. */
  lemma {:induction false} StopsWhenTold(goesOn: seq<string> -> bool, handed: seq<string>, lines: seq<string>, k: nat)
    requires |handed| < k <= |Handed(goesOn, handed, lines)|
    ensures k < |Handed(goesOn, handed, lines)| ==> goesOn(Handed(goesOn, handed, lines)[..k])
    ensures k == |Handed(goesOn, handed, lines)| ==> (goesOn(Handed(goesOn, handed, lines)) <==> GoesOn(goesOn, handed, lines))
    ensures Handed(goesOn, handed, lines)[..|handed|] == handed
    decreases |lines|
  {
    if lines != [] {
      if Blank(lines[0]) {
        StopsWhenTold(goesOn, handed, lines[1..], k);
      } else {
        var more := handed + [lines[0]];
        HandedKeeps(goesOn, more, lines[1..]);
        assert goesOn(more) ==> Handed(goesOn, handed, lines)[..|more|] == more;
        if goesOn(more) && k > |more| {
          StopsWhenTold(goesOn, more, lines[1..], k);
        } else if goesOn(more) && |Handed(goesOn, more, lines[1..])| == |more| {
          NothingMore(goesOn, more, lines[1..]);
        }
      }
    }
  }

  lemma {:induction false} NothingMore(goesOn: seq<string> -> bool, handed: seq<string>, lines: seq<string>)
    requires |Handed(goesOn, handed, lines)| == |handed|
    ensures GoesOn(goesOn, handed, lines) && Handed(goesOn, handed, lines) == handed
    decreases |lines|
  {
    HandedKeeps(goesOn, handed, lines);
    if lines != [] {
      if Blank(lines[0]) {
        NothingMore(goesOn, handed, lines[1..]);
      } else {
        HandedKeeps(goesOn, handed + [lines[0]], lines[1..]);
      }
    }
  }

  lemma {:induction false} HandedKeeps(goesOn: seq<string> -> bool, handed: seq<string>, lines: seq<string>)
    ensures |Handed(goesOn, handed, lines)| >= |handed| && Handed(goesOn, handed, lines)[..|handed|] == handed
    decreases |lines|
  {
    if lines != [] {
      if Blank(lines[0]) {
        HandedKeeps(goesOn, handed, lines[1..]);
      } else {
        HandedKeeps(goesOn, handed + [lines[0]], lines[1..]);
      }
    }
  }

  class Reader {
    const goesOn: seq<string> -> bool
    var buffered: string
    var open: bool
    var handed: seq<string>
    ghost var text: string

    /** What has been handed over is what the whole text so far says, however it was cut. */
    ghost predicate Valid()
      reads this
    {
      && handed == Handed(goesOn, [], Lines(text))
      && open == GoesOn(goesOn, [], Lines(text))
      && (open ==> buffered == Rest(text))
    }

    constructor (goesOn: seq<string> -> bool)
      ensures Valid() && text == "" && this.goesOn == goesOn
    {
      this.goesOn := goesOn;
      buffered, open, handed, text := "", true, [], "";
    }

    method Chunk(chunk: string)
      requires Valid()
      modifies this
      ensures Valid() && text == old(text) + chunk
    {
      ghost var before := Lines(text);
      LinesMore(text, chunk);
      RestMore(text, chunk);
      HandedMore(goesOn, [], Lines(text), Lines(Rest(text) + chunk));
      text := text + chunk;
      buffered := buffered + chunk;
      var at := IndexOf(buffered, '\n', 0);
      while open && at != -1
        invariant at == IndexOf(buffered, '\n', 0)
        invariant open ==> Rest(buffered) == Rest(text)
        invariant (open && GoesOn(goesOn, handed, Lines(buffered))) == GoesOn(goesOn, [], Lines(text))
        invariant (if open then Handed(goesOn, handed, Lines(buffered)) else handed) == Handed(goesOn, [], Lines(text))
        invariant text == old(text) + chunk
        decreases |buffered|
      {
        var line := buffered[..at];
        buffered := buffered[at + 1..];
        if !Blank(line) {
          handed := handed + [line];
          open := goesOn(handed);
        }
        at := IndexOf(buffered, '\n', 0);
      }
    }
  }

  /** Fed in any pieces, a reader is handed the same. */
  method Feed(goesOn: seq<string> -> bool, chunks: seq<string>) returns (handed: seq<string>)
    ensures handed == Handed(goesOn, [], Lines(Flatten(chunks)))
  {
    var reader := new Reader(goesOn);
    for i := 0 to |chunks|
      invariant reader.Valid() && reader.goesOn == goesOn
      invariant reader.text + Flatten(chunks[i..]) == Flatten(chunks)
    {
      assert chunks[i..][1..] == chunks[i + 1..];
      reader.Chunk(chunks[i]);
    }
    assert chunks[|chunks|..] == [] && reader.text == Flatten(chunks);
    handed := reader.handed;
  }
}
