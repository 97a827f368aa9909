/** Decimal numerals, and cutting a text at a mark. */
module Text {

  function DigitChar(d: nat): char
    requires d < 10
  {
    '0' + d as char
  }

  predicate IsDigit(c: char) {
    '0' <= c <= '9'
  }

  predicate AllDigits(s: string) {
    forall i :: 0 <= i < |s| ==> IsDigit(s[i])
  }

  function Numeral(n: nat): (s: string)
    ensures s != []
  {
    if n < 10 then [DigitChar(n)] else Numeral(n / 10) + [DigitChar(n % 10)]
  }

  /** `Number` of a run of digits. */
  function Number(s: string): nat
    requires AllDigits(s)
  {
    if s == [] then 0 else 10 * Number(s[..|s| - 1]) + (s[|s| - 1] - '0') as nat
  }

  lemma {:induction false} NumeralReads(n: nat)
    ensures AllDigits(Numeral(n)) && Number(Numeral(n)) == n
    ensures n > 0 ==> Numeral(n)[0] != '0'
  {
    if n >= 10 {
      NumeralReads(n / 10);
      assert Numeral(n)[..|Numeral(n)| - 1] == Numeral(n / 10);
    }
  }

  /** Where `mark` first stands in `s` at or after `from`, or -1. */
  function IndexOf(s: string, mark: char, from: nat): (at: int)
    requires from <= |s|
    ensures at == -1 || (from <= at < |s| && s[at] == mark)
    decreases |s| - from
  {
    if from == |s| then -1
    else if s[from] == mark then from
    else IndexOf(s, mark, from + 1)
  }

  /** It is the first there. */
  lemma {:induction false} NoneBefore(s: string, mark: char, from: nat)
    requires from <= |s|
    ensures var at := IndexOf(s, mark, from);
            forall i :: from <= i < (if at == -1 then |s| else at) ==> s[i] != mark
    decreases |s| - from
  {
    if from < |s| && s[from] != mark {
      NoneBefore(s, mark, from + 1);
    }
  }

  lemma {:induction false} FirstThere(s: string, mark: char, from: nat, at: nat)
    requires from <= at < |s| && s[at] == mark && forall i :: from <= i < at ==> s[i] != mark
    ensures IndexOf(s, mark, from) == at
    decreases at - from
  {
    if from < at {
      FirstThere(s, mark, from + 1, at);
    }
  }

  /** JavaScript's `split` by one character. */
  function Split(s: string, mark: char): (fields: seq<string>)
    ensures fields != []
    decreases |s|
  {
    var at := IndexOf(s, mark, 0);
    if at == -1 then [s] else [s[..at]] + Split(s[at + 1..], mark)
  }

  lemma {:induction false} SplitFirst(field: string, mark: char, rest: string)
    requires mark !in field
    ensures Split(field + [mark] + rest, mark) == [field] + Split(rest, mark)
  {
    var s := field + [mark] + rest;
    assert s[|field|] == mark;
    assert forall i :: 0 <= i < |field| ==> s[i] == field[i];
    FirstThere(s, mark, 0, |field|);
    assert s[..|field|] == field && s[|field| + 1..] == rest;
  }

  lemma {:induction false} SplitNone(s: string, mark: char)
    requires mark !in s
    ensures Split(s, mark) == [s]
  {
    NoneBefore(s, mark, 0);
  }

  /** Fields put one behind the other with the mark between. */
  function JoinWith(fields: seq<string>, mark: char): string
    requires fields != []
  {
    if |fields| == 1 then fields[0] else fields[0] + [mark] + JoinWith(fields[1..], mark)
  }

  /** A text is cut into just those fields, none holding the mark, that put together make it. */
  lemma {:induction false} SplitJoins(s: string, mark: char)
    ensures JoinWith(Split(s, mark), mark) == s
    ensures forall i :: 0 <= i < |Split(s, mark)| ==> mark !in Split(s, mark)[i]
    decreases |s|
  {
    var at := IndexOf(s, mark, 0);
    NoneBefore(s, mark, 0);
    if at != -1 {
      SplitJoins(s[at + 1..], mark);
      assert s == s[..at] + [mark] + s[at + 1..];
      assert ([s[..at]] + Split(s[at + 1..], mark))[1..] == Split(s[at + 1..], mark);
    }
  }

  lemma {:induction false} JoinedSplits(fields: seq<string>, mark: char)
    requires fields != [] && forall f :: f in fields ==> mark !in f
    ensures Split(JoinWith(fields, mark), mark) == fields
    decreases |fields|
  {
    assert fields[0] in fields;
    if |fields| == 1 {
      SplitNone(fields[0], mark);
    } else {
      JoinedSplits(fields[1..], mark);
      SplitFirst(fields[0], mark, JoinWith(fields[1..], mark));
    }
  }

  /** A run of digits with no zero before it prints as it is read. */
  lemma {:induction false} NumberPrints(s: string)
    requires s != [] && AllDigits(s) && s[0] != '0'
    ensures Number(s) > 0 && Numeral(Number(s)) == s
    decreases |s|
  {
    var k := |s| - 1;
    var d := (s[k] - '0') as nat;
    assert DigitChar(d) == s[k] && s == s[..k] + [s[k]];
    if k == 0 {
      assert Number(s[..0]) == 0 && Number(s) == d;
    } else {
      NumberPrints(s[..k]);
      assert Number(s) == 10 * Number(s[..k]) + d;
      assert Number(s) / 10 == Number(s[..k]) && Number(s) % 10 == d;
    }
  }
}
