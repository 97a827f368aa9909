/**
 * scripts/suite-files.ts: what git prints of the base's suite files and of the
 * changes since, read back by offset and by field. A byte is a character here.
 */
module SuiteFiles {
  import opened Lists
  import opened Text

  const NUL: char := '\0'

  /** JavaScript's `subarray` from an offset, to one that may be past the end or, negative, counted from it. */
  function Subarray(s: string, from: nat, to: int): string {
    var n := |s|;
    var end := if to < 0 then (if to + n < 0 then 0 else to + n) else if to > n then n else to;
    if from <= end then s[from..end] else ""
  }

  /** A range within, one that ends before the last characters or past them, and none the wrong way round. */
  lemma {:induction false} SubarrayIs(s: string, from: nat, to: int)
    ensures from <= to <= |s| ==> Subarray(s, from, to) == s[from..to]
    ensures -|s| <= to < 0 && from <= |s| + to ==> Subarray(s, from, to) == s[from..|s| + to]
    ensures from <= |s| < to ==> Subarray(s, from, to) == s[from..]
    ensures from > 0 && (0 <= to < from || to < -|s| || (to < 0 && |s| + to < from)) && from <= |s| ==> Subarray(s, from, to) == ""
  {
  }

  /** `indexOf` from an offset that may be past the end. */
  function Find(s: string, mark: char, from: nat): int {
    if from > |s| then -1 else IndexOf(s, mark, from)
  }

  function Span(p: char -> bool, s: string): (n: nat)
    ensures n <= |s|
    ensures forall i :: 0 <= i < n ==> p(s[i])
    ensures n < |s| ==> !p(s[n])
  {
    if s != [] && p(s[0]) then
      var n := Span(p, s[1..]);
      assert forall i :: 0 < i < n + 1 ==> s[i] == s[1..][i - 1];
      n + 1
    else 0
  }

  predicate IsHex(c: char) {
    IsDigit(c) || 'a' <= c <= 'f'
  }

  predicate AllHex(s: string) {
    forall i :: 0 <= i < |s| ==> IsHex(s[i])
  }

  lemma {:induction false} SpanStops(p: char -> bool, s: string, rest: string)
    requires (forall i :: 0 <= i < |s| ==> p(s[i])) && (rest == [] || !p(rest[0]))
    ensures Span(p, s + rest) == |s|
  {
    if s == [] {
      assert s + rest == rest;
    } else {
      assert (s + rest)[1..] == s[1..] + rest && (s + rest)[0] == s[0];
      SpanStops(p, s[1..], rest);
    }
  }

  /** One thing read before the rest, if both were. */
  function Joined<T>(before: seq<T>, rest: Option<seq<T>>): Option<seq<T>> {
    match rest
    case Some(read) => Some(before + read)
    case None => None
  }

  lemma {:induction false} JoinedNone<T>(rest: Option<seq<T>>)
    ensures Joined([], rest) == rest
  {
    if rest.Some? {
      assert [] + rest.value == rest.value;
    }
  }

  lemma {:induction false} JoinedMore<T>(before: seq<T>, x: T, rest: Option<seq<T>>)
    ensures Joined(before, Joined([x], rest)) == Joined(before + [x], rest)
  {
    if rest.Some? {
      assert before + ([x] + rest.value) == before + [x] + rest.value;
    }
  }

  // ------------------------------------------------------------------ the listing

  const BLOB := " blob "

  datatype Entry = Entry(oid: string, path: string)

  /** One field of `git ls-tree -z`: a mode, " blob ", an object id, a tab and the path. */
  function EntryOf(line: string): Option<Entry> {
    match BehindMode(line)
    case None => None
    case Some(rest) => OidAndPath(rest)
  }

  function BehindMode(line: string): Option<string> {
    var mode := Span(IsDigit, line);
    var after := line[mode..];
    if mode == 0 || |after| < |BLOB| || after[..|BLOB|] != BLOB then None else Some(after[|BLOB|..])
  }

  function OidAndPath(rest: string): Option<Entry> {
    var hex := Span(IsHex, rest);
    if hex == 0 || |rest| < hex + 2 || rest[hex] != '\t' then None else Some(Entry(rest[..hex], rest[hex + 1..]))
  }

  function NonEmpty(fields: seq<string>): seq<string> {
    if fields == [] then [] else (if fields[0] == "" then [] else [fields[0]]) + NonEmpty(fields[1..])
  }

  function EntriesOf(lines: seq<string>): Option<seq<Entry>> {
    if lines == [] then Some([])
    else
      var first, rest := EntryOf(lines[0]), EntriesOf(lines[1..]);
      if first.None? || rest.None? then None else Some([first.value] + rest.value)
  }

  function ReadListing(text: string): Option<seq<Entry>> {
    EntriesOf(NonEmpty(Split(text, NUL)))
  }

  datatype File = File(mode: string, oid: string, path: string, content: string)

  predicate Printable(file: File) {
    && file.mode != "" && AllDigits(file.mode) && file.oid != "" && AllHex(file.oid)
    && file.path != "" && NUL !in file.path
  }

  function PrintEntry(file: File): string {
    file.mode + BLOB + file.oid + "\t" + file.path
  }

  function PrintListing(files: seq<File>): string {
    if files == [] then "" else PrintEntry(files[0]) + [NUL] + PrintListing(files[1..])
  }

  function Entries(files: seq<File>): seq<Entry> {
    if files == [] then [] else [Entry(files[0].oid, files[0].path)] + Entries(files[1..])
  }

  lemma {:induction false} EntryHoldsNoNul(file: File)
    requires Printable(file)
    ensures PrintEntry(file) != "" && NUL !in PrintEntry(file)
  {
    forall c | c in PrintEntry(file) ensures c != NUL {
      assert c in file.mode || c in BLOB || c in file.oid || c == '\t' || c in file.path;
    }
  }

  lemma {:induction false} BehindBlob(mode: string, tail: string)
    requires mode != "" && AllDigits(mode)
    ensures BehindMode(mode + (BLOB + tail)) == Some(tail)
  {
    assert (BLOB + tail)[0] == ' ';
    SpanStops(IsDigit, mode, BLOB + tail);
    assert (mode + (BLOB + tail))[|mode|..] == BLOB + tail;
    assert (BLOB + tail)[..|BLOB|] == BLOB && (BLOB + tail)[|BLOB|..] == tail;
  }

  lemma {:induction false} OidReads(oid: string, path: string)
    requires oid != "" && AllHex(oid) && path != ""
    ensures OidAndPath(oid + ("\t" + path)) == Some(Entry(oid, path))
  {
    var rest := oid + ("\t" + path);
    assert ("\t" + path)[0] == '\t';
    SpanStops(IsHex, oid, "\t" + path);
    assert rest[..|oid|] == oid && rest[|oid| + 1..] == path;
  }

  lemma {:induction false} EntryReads(file: File)
    requires Printable(file)
    ensures EntryOf(PrintEntry(file)) == Some(Entry(file.oid, file.path))
  {
    var tail := file.oid + ("\t" + file.path);
    assert PrintEntry(file) == file.mode + (BLOB + tail);
    BehindBlob(file.mode, tail);
    OidReads(file.oid, file.path);
  }

  lemma {:induction false} ModeIsBefore(line: string)
    requires BehindMode(line).Some?
    ensures var mode := line[..Span(IsDigit, line)];
            mode != "" && AllDigits(mode) && line == mode + (" blob " + BehindMode(line).value)
  {
    var after := line[Span(IsDigit, line)..];
    assert after == after[..|BLOB|] + after[|BLOB|..];
  }

  lemma {:induction false} OidIsBefore(rest: string)
    requires OidAndPath(rest).Some?
    ensures var e := OidAndPath(rest).value;
            e.oid != "" && AllHex(e.oid) && e.path != "" && rest == e.oid + ("\t" + e.path)
  {
    var hex := Span(IsHex, rest);
    assert rest == rest[..hex] + ([rest[hex]] + rest[hex + 1..]);
  }

  lemma {:induction false} EntryHasFields(line: string)
    requires EntryOf(line).Some?
    ensures var e, mode := EntryOf(line).value, line[..Span(IsDigit, line)];
            && e.oid != "" && AllHex(e.oid) && e.path != "" && mode != "" && AllDigits(mode)
            && line == mode + (" blob " + (e.oid + ("\t" + e.path)))
  {
    ModeIsBefore(line);
    OidIsBefore(BehindMode(line).value);
  }

  /** It reads exactly the fields git prints of a file; any other is refused. */
  lemma {:induction false} EntryReadsExactly(line: string, e: Entry)
    ensures EntryOf(line) == Some(e) <==>
              && e.oid != "" && AllHex(e.oid) && e.path != ""
              && exists mode :: mode != "" && AllDigits(mode) && line == mode + (" blob " + (e.oid + ("\t" + e.path)))
  {
    if EntryOf(line) == Some(e) {
      EntryHasFields(line);
    }
    if e.oid != "" && AllHex(e.oid) && e.path != "" {
      forall mode | mode != "" && AllDigits(mode) && line == mode + (" blob " + (e.oid + ("\t" + e.path))) ensures EntryOf(line) == Some(e) {
        BehindBlob(mode, e.oid + ("\t" + e.path));
        OidReads(e.oid, e.path);
      }
    }
  }

  /** The reader undoes `git ls-tree -z`, whatever characters but NUL the paths hold. */
  lemma {:induction false} ListingReads(files: seq<File>)
    requires forall f :: f in files ==> Printable(f)
    ensures ReadListing(PrintListing(files)) == Some(Entries(files))
  {
    if files == [] {
      SplitNone("", NUL);
      assert NonEmpty([""]) == [] + NonEmpty([]);
    } else {
      assert files[0] in files;
      EntryReads(files[0]);
      EntryHoldsNoNul(files[0]);
      SplitFirst(PrintEntry(files[0]), NUL, PrintListing(files[1..]));
      var rest := Split(PrintListing(files[1..]), NUL);
      assert ([PrintEntry(files[0])] + rest)[1..] == rest;
      ListingReads(files[1..]);
      var lines := [PrintEntry(files[0])] + NonEmpty(rest);
      assert lines[1..] == NonEmpty(rest);
    }
  }

  // ------------------------------------------------------------------ the blobs

  datatype Header = Header(oid: string, size: nat)

  function HeaderOf(line: string): Option<Header> {
    var hex := Span(IsHex, line);
    var after := line[hex..];
    if hex == 0 || |after| < |BLOB| || after[..|BLOB|] != BLOB then None
    else
      var digits := after[|BLOB|..];
      if digits != "" && AllDigits(digits) then Some(Header(line[..hex], Number(digits))) else None
  }

  /** What stands at an offset: a blob's id and bytes, and where the next one starts. */
  datatype Blob = Blob(oid: string, content: string, next: nat)

  /** `header` reads a header's line. */
  function BlobAt(header: string -> Option<Header>, out: string, at: nat): Option<Blob> {
    var end := Find(out, '\n', at);
    match header(Subarray(out, at, end))
    case None => None
    case Some(read) => Some(Blob(read.oid, Subarray(out, end + 1, end + 1 + read.size), end + 1 + read.size + 1))
  }

  function BlobsIn(out: string): nat -> Option<Blob> {
    (at: nat) => BlobAt(HeaderOf, out, at)
  }

  /** Each entry's bytes, from `at` on; none when a header is not its entry's. */
  function ReadBlobs(blob: nat -> Option<Blob>, entries: seq<Entry>, at: nat): Option<seq<string>>
    decreases |entries|
  {
    if entries == [] then Some([])
    else if blob(at).None? || blob(at).value.oid != entries[0].oid then None
    else Joined([blob(at).value.content], ReadBlobs(blob, entries[1..], blob(at).value.next))
  }

  function PrintHeader(oid: string, size: nat): string {
    oid + (BLOB + Numeral(size))
  }

  function PrintBlob(file: File): string {
    PrintHeader(file.oid, |file.content|) + (['\n'] + (file.content + ['\n']))
  }

  function PrintBlobs(files: seq<File>): string {
    if files == [] then "" else PrintBlob(files[0]) + PrintBlobs(files[1..])
  }

  function Contents(files: seq<File>): seq<string> {
    if files == [] then [] else [files[0].content] + Contents(files[1..])
  }

  lemma {:induction false} HeaderReads(oid: string, size: nat)
    requires oid != "" && AllHex(oid)
    ensures HeaderOf(PrintHeader(oid, size)) == Some(Header(oid, size))
    ensures '\n' !in PrintHeader(oid, size)
  {
    var tail := BLOB + Numeral(size);
    assert tail[0] == ' ';
    SpanStops(IsHex, oid, tail);
    assert (oid + tail)[|oid|..] == tail && (oid + tail)[..|oid|] == oid;
    assert tail[..|BLOB|] == BLOB && tail[|BLOB|..] == Numeral(size);
    NumeralReads(size);
    forall c | c in oid + tail ensures c != '\n' {
      assert c in oid || c in BLOB || c in Numeral(size);
    }
  }

  /** A blob's header is read from exactly what git prints of one. */
  lemma {:induction false} HeaderReadsExactly(line: string, h: Header)
    ensures HeaderOf(line) == Some(h) <==>
              && h.oid != "" && AllHex(h.oid)
              && exists digits :: digits != "" && AllDigits(digits) && Number(digits) == h.size && line == h.oid + (" blob " + digits)
  {
    if HeaderOf(line) == Some(h) {
      var hex := Span(IsHex, line);
      var digits := line[hex..][|BLOB|..];
      assert line == h.oid + (BLOB + digits);
    }
    if h.oid != "" && AllHex(h.oid) {
      forall digits | digits != "" && AllDigits(digits) && Number(digits) == h.size && line == h.oid + (" blob " + digits)
        ensures HeaderOf(line) == Some(h)
      {
        var tail := BLOB + digits;
        assert tail[0] == ' ';
        SpanStops(IsHex, h.oid, tail);
        assert (h.oid + tail)[|h.oid|..] == tail && (h.oid + tail)[..|h.oid|] == h.oid;
        assert tail[..|BLOB|] == BLOB && tail[|BLOB|..] == digits;
      }
    }
  }

  lemma {:induction false} FindIn(out: string, at: nat, field: string, rest: string)
    requires at <= |out| && out[at..] == field + (['\n'] + rest) && '\n' !in field
    ensures Find(out, '\n', at) == at + |field| < |out|
    ensures Subarray(out, at, at + |field|) == field && out[at + |field| + 1..] == rest
  {
    var tail := out[at..];
    assert forall i :: 0 <= i < |tail| ==> tail[i] == out[at + i];
    assert tail[|field|] == '\n';
    assert forall i :: 0 <= i < |field| ==> tail[i] == field[i];
    assert forall i :: at <= i < at + |field| ==> out[i] == tail[i - at];
    FirstThere(out, '\n', at, at + |field|);
    assert tail[|field| + 1..] == rest;
    assert out[at + |field| + 1..] == tail[|field| + 1..];
  }

  /** One printed blob, wherever it stands. */
  lemma {:induction false} FirstBlob(header: string -> Option<Header>, out: string, at: nat, line: string, oid: string, content: string, rest: string)
    requires at <= |out| && out[at..] == line + (['\n'] + (content + (['\n'] + rest)))
    requires '\n' !in line && header(line) == Some(Header(oid, |content|))
    ensures var next := at + |line| + 1 + |content| + 1;
            BlobAt(header, out, at) == Some(Blob(oid, content, next)) && next <= |out| && out[next..] == rest
  {
    FindIn(out, at, line, content + (['\n'] + rest));
    Behind(out, at + |line| + 1, content, rest);
  }

  lemma {:induction false} Behind(out: string, from: nat, content: string, rest: string)
    requires from <= |out| && out[from..] == content + (['\n'] + rest)
    ensures Subarray(out, from, from + |content|) == content
    ensures from + |content| + 1 <= |out| && out[from + |content| + 1..] == rest
  {
    var tail := out[from..];
    assert tail[..|content|] == content && tail[|content| + 1..] == rest;
    assert out[from..from + |content|] == tail[..|content|];
    assert out[from + |content| + 1..] == tail[|content| + 1..];
  }

  /** The files stand one behind the other, from `at` on. */
  ghost predicate Stand(blob: nat -> Option<Blob>, at: nat, files: seq<File>)
    decreases |files|
  {
    files != [] ==>
      && blob(at).Some? && blob(at).value.oid == files[0].oid && blob(at).value.content == files[0].content
      && Stand(blob, blob(at).value.next, files[1..])
  }

  lemma {:induction false} PrintedBlob(out: string, at: nat, file: File, rest: string)
    requires at <= |out| && out[at..] == PrintBlob(file) + rest && Printable(file)
    ensures var next := at + |PrintBlob(file)|;
            BlobAt(HeaderOf, out, at) == Some(Blob(file.oid, file.content, next)) && next <= |out| && out[next..] == rest
  {
    var line, content := PrintHeader(file.oid, |file.content|), file.content;
    HeaderReads(file.oid, |content|);
    assert PrintBlob(file) + rest == line + (['\n'] + (content + (['\n'] + rest)));
    FirstBlob(HeaderOf, out, at, line, file.oid, content, rest);
  }

  /** What stands at `at` is the first file, and the others stand behind it. */
  lemma {:induction false} StandMore(blob: nat -> Option<Blob>, at: nat, files: seq<File>, next: nat)
    requires files != [] && blob(at) == Some(Blob(files[0].oid, files[0].content, next)) && Stand(blob, next, files[1..])
    ensures Stand(blob, at, files)
  {
  }

  lemma {:induction false} PrintedStand(out: string, at: nat, files: seq<File>)
    requires at <= |out| && out[at..] == PrintBlobs(files) && forall f :: f in files ==> Printable(f)
    ensures Stand(BlobsIn(out), at, files)
    decreases |files|
  {
    if files != [] {
      var next := at + |PrintBlob(files[0])|;
      assert next <= |out| && out[next..] == PrintBlobs(files[1..])
             && BlobsIn(out)(at) == Some(Blob(files[0].oid, files[0].content, next)) by {
        assert files[0] in files;
        PrintedBlob(out, at, files[0], PrintBlobs(files[1..]));
      }
      assert Stand(BlobsIn(out), next, files[1..]) by {
        assert forall f :: f in files[1..] ==> f in files;
        PrintedStand(out, next, files[1..]);
      }
      StandMore(BlobsIn(out), at, files, next);
    }
  }

  lemma {:induction false} StandingRead(blob: nat -> Option<Blob>, at: nat, files: seq<File>)
    requires Stand(blob, at, files)
    ensures ReadBlobs(blob, Entries(files), at) == Some(Contents(files))
    decreases |files|
  {
    if files != [] {
      StandingRead(blob, blob(at).value.next, files[1..]);
      assert Entries(files)[1..] == Entries(files[1..]);
    }
  }

  /** Blobs of any bytes, newlines and headers among them, come back as they were printed. */
  lemma {:induction false} BlobsRead(files: seq<File>)
    requires forall f :: f in files ==> Printable(f)
    ensures ReadBlobs(BlobsIn(PrintBlobs(files)), Entries(files), 0) == Some(Contents(files))
  {
    PrintedStand(PrintBlobs(files), 0, files);
    StandingRead(BlobsIn(PrintBlobs(files)), 0, files);
  }

  lemma {:induction false} MissingIsNoHeader(oid: string)
    requires oid != "" && AllHex(oid)
    ensures HeaderOf(oid + " missing").None? && '\n' !in oid + " missing"
  {
    var line := oid + " missing";
    assert " missing"[0] == ' ';
    SpanStops(IsHex, oid, " missing");
    assert line[|oid|..] == " missing";
    assert " missing"[..|BLOB|][1] == 'm' && BLOB[1] == 'b';
  }

  lemma {:induction false} NoBlob(header: string -> Option<Header>, out: string, at: nat, line: string, rest: string)
    requires at <= |out| && out[at..] == line + (['\n'] + rest) && '\n' !in line && header(line).None?
    ensures BlobAt(header, out, at).None?
  {
    FindIn(out, at, line, rest);
  }

  lemma {:induction false} NoneRead(blob: nat -> Option<Blob>, entries: seq<Entry>, at: nat)
    requires entries != [] && blob(at).None?
    ensures ReadBlobs(blob, entries, at).None?
  {
  }

  /** A blob git could not read is refused. */
  lemma {:induction false} MissingIsRefused(out: string, at: nat, oid: string, path: string, rest: string, more: seq<Entry>)
    requires at <= |out| && out[at..] == (oid + " missing") + (['\n'] + rest) && oid != "" && AllHex(oid)
    ensures ReadBlobs(BlobsIn(out), [Entry(oid, path)] + more, at).None?
  {
    MissingIsNoHeader(oid);
    NoBlob(HeaderOf, out, at, oid + " missing", rest);
    NoneRead(BlobsIn(out), [Entry(oid, path)] + more, at);
  }

  function Files(entries: seq<Entry>, contents: seq<string>): seq<(string, string)>
    requires |entries| == |contents|
  {
    if entries == [] then [] else [(entries[0].path, contents[0])] + Files(entries[1..], contents[1..])
  }

  lemma {:induction false} FilesMore(entries: seq<Entry>, contents: seq<string>, entry: Entry, content: string)
    requires |entries| == |contents|
    ensures Files(entries + [entry], contents + [content]) == Files(entries, contents) + [(entry.path, content)]
  {
    if entries != [] {
      FilesMore(entries[1..], contents[1..], entry, content);
      assert (entries + [entry])[1..] == entries[1..] + [entry] && (contents + [content])[1..] == contents[1..] + [content];
    }
  }

  /** One more entry is read, or nothing is. */
  lemma {:induction false} BlobsStep(blob: nat -> Option<Blob>, entries: seq<Entry>, i: nat, at: nat, contents: seq<string>)
    requires i < |entries| && |contents| == i
    ensures if blob(at).None? || blob(at).value.oid != entries[i].oid then Joined(contents, ReadBlobs(blob, entries[i..], at)).None?
            else
              var content := blob(at).value.content;
              && Files(entries[..i + 1], contents + [content]) == Files(entries[..i], contents) + [(entries[i].path, content)]
              && Joined(contents, ReadBlobs(blob, entries[i..], at))
                 == Joined(contents + [content], ReadBlobs(blob, entries[i + 1..], blob(at).value.next))
  {
    assert entries[i..][1..] == entries[i + 1..] && entries[..i + 1] == entries[..i] + [entries[i]];
    if blob(at).Some? {
      JoinedMore(contents, blob(at).value.content, ReadBlobs(blob, entries[i + 1..], blob(at).value.next));
      FilesMore(entries[..i], contents, entries[i], blob(at).value.content);
    }
  }

  /** The bytes of each entry, in order, read on from where the one before ended. */
  method Blobs(entries: seq<Entry>, out: string) returns (files: Option<seq<(string, string)>>)
    ensures files.Some? <==> ReadBlobs(BlobsIn(out), entries, 0).Some?
    ensures files.Some? ==> |ReadBlobs(BlobsIn(out), entries, 0).value| == |entries|
                            && files.value == Files(entries, ReadBlobs(BlobsIn(out), entries, 0).value)
  {
    var blobs := BlobsIn(out);
    var written: seq<(string, string)> := [];
    var at: nat := 0;
    ghost var contents: seq<string> := [];
    JoinedNone(ReadBlobs(blobs, entries, 0));
    assert entries[0..] == entries;
    for i := 0 to |entries|
      invariant |contents| == i && written == Files(entries[..i], contents)
      invariant Joined(contents, ReadBlobs(blobs, entries[i..], at)) == ReadBlobs(blobs, entries, 0)
    {
      BlobsStep(blobs, entries, i, at, contents);
      var blob := blobs(at);
      if blob.None? || blob.value.oid != entries[i].oid {
        return None;
      }
      var content := blob.value.content;
      written := written + [(entries[i].path, content)];
      contents := contents + [content];
      at := blob.value.next;
    }
    assert entries[..|entries|] == entries && entries[|entries|..] == [] && contents + [] == contents;
    files := Some(written);
  }

  /** Every file of the base's listing with its bytes, in order; none when the listing or a blob does not read. */
  method Materialise(listing: string, out: string) returns (files: Option<seq<(string, string)>>)
    ensures var entries := ReadListing(listing);
            && (files.Some? <==> entries.Some? && entries.value != [] && ReadBlobs(BlobsIn(out), entries.value, 0).Some?)
            && (files.Some? ==>
                  && |ReadBlobs(BlobsIn(out), entries.value, 0).value| == |entries.value|
                  && files.value == Files(entries.value, ReadBlobs(BlobsIn(out), entries.value, 0).value))
  {
    var entries := ReadListing(listing);
    if entries.None? || entries.value == [] {
      return None;
    }
    files := Blobs(entries.value, out);
  }

  function Held(files: seq<File>): seq<(string, string)> {
    if files == [] then [] else [(files[0].path, files[0].content)] + Held(files[1..])
  }

  /** What git prints of any files, listed and dumped, is written back as those very files. */
  lemma {:induction false} MaterialisesWhatGitPrints(files: seq<File>)
    requires forall f :: f in files ==> Printable(f)
    ensures ReadListing(PrintListing(files)) == Some(Entries(files))
    ensures ReadBlobs(BlobsIn(PrintBlobs(files)), Entries(files), 0) == Some(Contents(files))
    ensures |Entries(files)| == |Contents(files)| && Files(Entries(files), Contents(files)) == Held(files)
  {
    ListingReads(files);
    BlobsRead(files);
    HeldFiles(files);
  }

  lemma {:induction false} HeldFiles(files: seq<File>)
    ensures |Entries(files)| == |Contents(files)| && Files(Entries(files), Contents(files)) == Held(files)
  {
    if files != [] {
      HeldFiles(files[1..]);
    }
  }

  // ------------------------------------------------------------------ the changes

  datatype Change = Deleted(path: string) | Renamed(score: string, path: string, to: string)

  function FieldAt(fields: seq<string>, at: nat): string {
    if at < |fields| then fields[at] else ""
  }

  predicate IsRename(status: string) {
    |status| > 1 && status[0] == 'R' && AllDigits(status[1..])
  }

  function ChangeAt(fields: seq<string>, at: nat): Option<Change>
    requires at < |fields|
  {
    var status, path, to := fields[at], FieldAt(fields, at + 1), FieldAt(fields, at + 2);
    if status == "D" then Some(Deleted(path))
    else if IsRename(status) && to != "" then Some(Renamed(status[1..], path, to))
    else None
  }

  function ReadChanges(fields: seq<string>, at: nat): Option<seq<Change>>
    decreases |fields| - at
  {
    if at >= |fields| then Some([])
    else
      match ChangeAt(fields, at)
      case None => None
      case Some(c) => Joined([c], ReadChanges(fields, at + if c.Deleted? then 2 else 3))
  }

  /** The fields at `at` are a deletion's or a rename's exactly when git prints such; others are refused. */
  lemma {:induction false} ChangeIsExactly(fields: seq<string>, at: nat, c: Change)
    requires at < |fields|
    ensures ChangeAt(fields, at) == Some(c) <==>
              match c
              case Deleted(path) => fields[at] == "D" && path == FieldAt(fields, at + 1)
              case Renamed(score, path, to) =>
                && score != "" && AllDigits(score) && fields[at] == "R" + score
                && path == FieldAt(fields, at + 1) && to == FieldAt(fields, at + 2) && to != ""
  {
    if c.Renamed? {
      assert ("R" + c.score)[1..] == c.score;
      assert IsRename(fields[at]) ==> fields[at] == "R" + fields[at][1..];
    }
  }

  predicate Tellable(c: Change) {
    && c.path != "" && NUL !in c.path
    && (c.Renamed? ==> c.to != "" && NUL !in c.to && c.score != "" && AllDigits(c.score))
  }

  function FieldsOf(c: Change): seq<string> {
    match c
    case Deleted(path) => ["D", path]
    case Renamed(score, path, to) => ["R" + score, path, to]
  }

  function AllFields(changes: seq<Change>): seq<string> {
    if changes == [] then [] else FieldsOf(changes[0]) + AllFields(changes[1..])
  }

  function PrintFields(fields: seq<string>): string {
    if fields == [] then "" else fields[0] + [NUL] + PrintFields(fields[1..])
  }

  lemma {:induction false} FieldsRead(fields: seq<string>)
    requires forall f :: f in fields ==> f != "" && NUL !in f
    ensures NonEmpty(Split(PrintFields(fields), NUL)) == fields
  {
    if fields == [] {
      SplitNone("", NUL);
      assert NonEmpty([""]) == [] + NonEmpty([]);
    } else {
      assert fields[0] in fields;
      SplitFirst(fields[0], NUL, PrintFields(fields[1..]));
      var rest := Split(PrintFields(fields[1..]), NUL);
      assert ([fields[0]] + rest)[1..] == rest;
      assert forall f :: f in fields[1..] ==> f in fields;
      FieldsRead(fields[1..]);
    }
  }

  lemma {:induction false} AllFieldsTellable(changes: seq<Change>)
    requires forall c :: c in changes ==> Tellable(c)
    ensures forall f :: f in AllFields(changes) ==> f != "" && NUL !in f
  {
    if changes != [] {
      assert changes[0] in changes;
      AllFieldsTellable(changes[1..]);
      forall f | f in FieldsOf(changes[0]) ensures f != "" && NUL !in f {
        if changes[0].Renamed? && f == "R" + changes[0].score {
          assert forall i :: 0 <= i < |f| ==> f[i] == 'R' || f[i] in changes[0].score;
        }
      }
    }
  }

  lemma {:induction false} ChangeReads(fields: seq<string>, at: nat, c: Change)
    requires Tellable(c) && at + |FieldsOf(c)| <= |fields|
    requires forall k :: 0 <= k < |FieldsOf(c)| ==> fields[at + k] == FieldsOf(c)[k]
    ensures ReadChanges(fields, at) == Joined([c], ReadChanges(fields, at + |FieldsOf(c)|))
  {
    assert fields[at + 0] == FieldsOf(c)[0] && fields[at + 1] == FieldsOf(c)[1];
    if c.Renamed? {
      assert ("R" + c.score)[1..] == c.score;
      assert fields[at + 2] == FieldsOf(c)[2];
    }
  }

  lemma {:induction false} ChangesRead(before: seq<string>, changes: seq<Change>)
    requires forall c :: c in changes ==> Tellable(c)
    ensures ReadChanges(before + AllFields(changes), |before|) == Some(changes)
    decreases |changes|
  {
    if changes != [] {
      var c, fields := changes[0], before + (FieldsOf(changes[0]) + AllFields(changes[1..]));
      assert ReadChanges(fields, |before|) == Joined([c], ReadChanges(fields, |before| + |FieldsOf(c)|)) by {
        assert c in changes;
        assert forall k :: 0 <= k < |FieldsOf(c)| ==> fields[|before| + k] == FieldsOf(c)[k];
        ChangeReads(fields, |before|, c);
      }
      assert ReadChanges(fields, |before| + |FieldsOf(c)|) == Some(changes[1..]) by {
        assert fields == (before + FieldsOf(c)) + AllFields(changes[1..]);
        ChangesRead(before + FieldsOf(c), changes[1..]);
      }
      assert [c] + changes[1..] == changes;
    }
  }

  /** The reader undoes `git diff -z`, paths spelled `D` or `R100` included. */
  lemma {:induction false} DiffReads(changes: seq<Change>)
    requires forall c :: c in changes ==> Tellable(c)
    ensures ReadChanges(NonEmpty(Split(PrintFields(AllFields(changes)), NUL)), 0) == Some(changes)
  {
    AllFieldsTellable(changes);
    FieldsRead(AllFields(changes));
    ChangesRead([], changes);
    assert [] + AllFields(changes) == AllFields(changes);
  }

  function DeletedIn(changes: seq<Change>): seq<string> {
    if changes == [] then [] else (if changes[0].Deleted? then [changes[0].path] else []) + DeletedIn(changes[1..])
  }

  /** Where each renamed path went, the last telling first. */
  function RenamedIn(changes: seq<Change>): map<string, string> {
    if changes == [] then map[]
    else
      var last, before := changes[|changes| - 1], RenamedIn(changes[..|changes| - 1]);
      if last.Renamed? then before[last.path := last.to] else before
  }

  lemma {:induction false} DeletedAppend(changes: seq<Change>, c: Change)
    ensures DeletedIn(changes + [c]) == DeletedIn(changes) + if c.Deleted? then [c.path] else []
  {
    if changes != [] {
      DeletedAppend(changes[1..], c);
      assert (changes + [c])[1..] == changes[1..] + [c];
    } else {
      assert changes + [c] == [c] && [c][1..] == [];
    }
  }

  lemma {:induction false} ChangesMore(changes: seq<Change>, c: Change)
    ensures DeletedIn(changes + [c]) == DeletedIn(changes) + if c.Deleted? then [c.path] else []
    ensures RenamedIn(changes + [c]) == if c.Renamed? then RenamedIn(changes)[c.path := c.to] else RenamedIn(changes)
  {
    DeletedAppend(changes, c);
    assert (changes + [c])[..|changes|] == changes;
  }

  /** One more change is read. */
  lemma {:induction false} ReadOn(fields: seq<string>, at: nat, done: seq<Change>, c: Change)
    requires at < |fields| && ChangeAt(fields, at) == Some(c)
    ensures DeletedIn(done + [c]) == DeletedIn(done) + if c.Deleted? then [c.path] else []
    ensures RenamedIn(done + [c]) == if c.Renamed? then RenamedIn(done)[c.path := c.to] else RenamedIn(done)
    ensures Joined(done, ReadChanges(fields, at)) == Joined(done + [c], ReadChanges(fields, at + if c.Deleted? then 2 else 3))
  {
    ChangesMore(done, c);
    JoinedMore(done, c, ReadChanges(fields, at + if c.Deleted? then 2 else 3));
  }

  method ChangesSince(text: string) returns (read: Option<(seq<string>, map<string, string>)>)
    ensures var changes := ReadChanges(NonEmpty(Split(text, NUL)), 0);
            read == if changes.None? then None else Some((DeletedIn(changes.value), RenamedIn(changes.value)))
  {
    var fields := NonEmpty(Split(text, NUL));
    var deleted: seq<string> := [];
    var renamed: map<string, string> := map[];
    var at: nat := 0;
    ghost var done: seq<Change> := [];
    JoinedNone(ReadChanges(fields, 0));
    while at < |fields|
      invariant deleted == DeletedIn(done) && renamed == RenamedIn(done)
      invariant Joined(done, ReadChanges(fields, at)) == ReadChanges(fields, 0)
      decreases |fields| - at
    {
      var status, path, to := fields[at], FieldAt(fields, at + 1), FieldAt(fields, at + 2);
      if status == "D" {
        ReadOn(fields, at, done, Deleted(path));
        deleted := deleted + [path];
        done := done + [Deleted(path)];
        at := at + 2;
      } else if IsRename(status) && to != "" {
        ReadOn(fields, at, done, Renamed(status[1..], path, to));
        renamed := renamed[path := to];
        done := done + [Renamed(status[1..], path, to)];
        at := at + 3;
      } else {
        return None;
      }
    }
    assert done + [] == done;
    read := Some((deleted, renamed));
  }

  // ------------------------------------------------------------------ what is kept

  function Moved(renamed: map<string, string>, suites: seq<string>): seq<string> {
    Map((s: string) => if s in renamed then renamed[s] else s, suites)
  }

  function Dropped(base: seq<string>, head: seq<string>, deleted: seq<string>): seq<string> {
    Filter((s: string) => s !in head && s !in deleted, base)
  }

  /** A suite the base named is told dropped exactly when its file is neither named, under its new path, nor deleted. */
  lemma {:induction false} DroppedExactly(base: seq<string>, head: seq<string>, deleted: seq<string>, renamed: map<string, string>)
    ensures Dropped(Moved(renamed, base), head, deleted) == [] <==>
              forall s :: s in base ==> var now := if s in renamed then renamed[s] else s; now in head || now in deleted
  {
    var move := (s: string) => if s in renamed then renamed[s] else s;
    var moved := Moved(renamed, base);
    var dropped := Dropped(moved, head, deleted);
    forall x ensures x in dropped <==> x in moved && x !in head && x !in deleted {
      FilterMembers((s: string) => s !in head && s !in deleted, moved, x);
    }
    if dropped == [] {
      forall s | s in base ensures move(s) in head || move(s) in deleted {
        var i :| 0 <= i < |base| && base[i] == s;
        assert moved[i] == move(s) && moved[i] in moved;
        assert moved[i] !in dropped;
      }
    } else {
      assert dropped[0] in moved;
      var i :| 0 <= i < |moved| && moved[i] == dropped[0];
      assert base[i] in base && moved[i] == move(base[i]);
    }
  }
}
