/** apps/api/live-follow.ts, `sharesOf`: one stream split between groups, ended with its last share. */
module StreamShares {

  /** How many shares have not ended. */
  function Open(ended: seq<bool>): nat {
    if ended == [] then 0 else Open(ended[1..]) + if ended[0] then 0 else 1
  }

  lemma {:induction false} OneFewer(ended: seq<bool>, i: nat)
    requires i < |ended| && !ended[i]
    ensures Open(ended) == Open(ended[i := true]) + 1
  {
    if i > 0 {
      OneFewer(ended[1..], i - 1);
      assert ended[i := true][1..] == ended[1..][i - 1 := true];
    }
  }

  lemma {:induction false} NoneOpen(ended: seq<bool>)
    ensures Open(ended) == 0 <==> forall i :: 0 <= i < |ended| ==> ended[i]
  {
    if ended != [] {
      NoneOpen(ended[1..]);
    }
  }

  class Shares {
    var ended: seq<bool>
    var open: nat
    var streamAborted: bool
    /** How often each share's listeners were called. */
    var told: seq<nat>

    /** Counted down once for each share that ended, and its listeners called once, then. */
    ghost predicate Counted()
      reads this
    {
      open == Open(ended) && |told| == |ended| && forall i :: 0 <= i < |ended| ==> told[i] == if ended[i] then 1 else 0
    }

    /** The stream has ended exactly when every share of it has. */
    ghost predicate Valid()
      reads this
    {
      Counted() && (ended != [] ==> (streamAborted <==> forall i :: 0 <= i < |ended| ==> ended[i]))
    }

    constructor (count: nat)
      requires count > 0
      ensures Valid() && |ended| == count && !streamAborted && forall i :: 0 <= i < count ==> !ended[i]
    {
      ended := seq(count, i => false);
      told := seq(count, i => 0);
      open, streamAborted := count, false;
      new;
      AllOpen(ended);
    }

    /** A share ends once; the last to end ends the stream. */
    method Abort(i: nat)
      requires i < |ended| && Counted()
      modifies this
      ensures Counted() && ended == old(ended)[i := true]
      ensures streamAborted == (old(streamAborted) || (!old(ended)[i] && Open(ended) == 0))
    {
      if ended[i] {
        return;
      }
      OneFewer(ended, i);
      ended := ended[i := true];
      told := told[i := told[i] + 1];
      open := open - 1;
      if open == 0 {
        streamAborted := true;
      }
    }

    method End(i: nat)
      requires i < |ended| && Valid()
      modifies this
      ensures Valid() && ended == old(ended)[i := true]
    {
      Abort(i);
      NoneOpen(ended);
      assert old(ended)[i] ==> ended == old(ended);
    }

    /** The stream's own end is every share's. */
    method StreamEnds()
      requires Valid()
      modifies this
      ensures Valid() && streamAborted && |ended| == |old(ended)| && forall i :: 0 <= i < |ended| ==> ended[i]
    {
      streamAborted := true;
      for i := 0 to |ended|
        invariant Counted() && streamAborted && |ended| == |old(ended)|
        invariant forall k :: 0 <= k < i ==> ended[k]
      {
        Abort(i);
      }
    }
  }

  lemma {:induction false} AllOpen(ended: seq<bool>)
    requires forall i :: 0 <= i < |ended| ==> !ended[i]
    ensures Open(ended) == |ended|
  {
    if ended != [] {
      AllOpen(ended[1..]);
    }
  }
}
