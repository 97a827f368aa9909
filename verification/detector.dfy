/** apps/api/alerts/detect.ts, as the forwarder uses it: signals counted per kind and scope, in a sliding window. */
module Detector {

  datatype SignalKind = SignInFailed | AuthorityChanged | SecretScanFailed | CrossScopeRefusal | WebhookSignatureFailed | Export

  datatype AlertKind =
    | SignInFailures | AuthorityChangedAlert | SecretScanFailedAlert | CrossScopeBurst | WebhookSignatureFailures | ExportVolume
    | SignalsDropped

  const MINUTE := 60_000

  function AlertOf(kind: SignalKind): AlertKind {
    match kind
    case SignInFailed => SignInFailures
    case AuthorityChanged => AuthorityChangedAlert
    case SecretScanFailed => SecretScanFailedAlert
    case CrossScopeRefusal => CrossScopeBurst
    case WebhookSignatureFailed => WebhookSignatureFailures
    case Export => ExportVolume
  }

  /** The weight that, inside one window, raises the alert. */
  function Threshold(kind: SignalKind): nat {
    match kind
    case SignInFailed => 5
    case AuthorityChanged => 1
    case SecretScanFailed => 1
    case CrossScopeRefusal => 10
    case WebhookSignatureFailed => 5
    case Export => 5000
  }

  function WindowMs(kind: SignalKind): (ms: nat)
    ensures MINUTE <= ms <= 60 * MINUTE
  {
    match kind
    case SignInFailed => 15 * MINUTE
    case AuthorityChanged => MINUTE
    case SecretScanFailed => MINUTE
    case CrossScopeRefusal => 10 * MINUTE
    case WebhookSignatureFailed => 15 * MINUTE
    case Export => 60 * MINUTE
  }

  datatype Key = Key(kind: SignalKind, scope: string)

  datatype Event = Event(at: nat, weight: nat)

  function Since(events: seq<Event>, at: nat, window: nat): seq<Event> {
    if events == [] then []
    else (if at - events[0].at < window then [events[0]] else []) + Since(events[1..], at, window)
  }

  function Sum(events: seq<Event>): nat {
    if events == [] then 0 else events[0].weight + Sum(events[1..])
  }

  function SeenAt(seen: map<Key, seq<Event>>, key: Key): seq<Event> {
    if key in seen then seen[key] else []
  }

  /** The events counted once one more is, and whether they raise the alert; the count then starts again. */
  function Counting(seen: map<Key, seq<Event>>, key: Key, at: nat, weight: nat): seq<Event> {
    Since(SeenAt(seen, key), at, WindowMs(key.kind)) + [Event(at, weight)]
  }

  predicate Raises(seen: map<Key, seq<Event>>, key: Key, at: nat, weight: nat) {
    Sum(Counting(seen, key, at, weight)) >= Threshold(key.kind)
  }

  function Observed(seen: map<Key, seq<Event>>, key: Key, at: nat, weight: nat): map<Key, seq<Event>> {
    if Raises(seen, key, at, weight) then seen - {key} else seen[key := Counting(seen, key, at, weight)]
  }

  lemma {:induction false} SumAppend(events: seq<Event>, e: Event)
    ensures Sum(events + [e]) == Sum(events) + e.weight
  {
    if events != [] {
      SumAppend(events[1..], e);
      assert (events + [e])[1..] == events[1..] + [e];
    }
  }

  /** The detector, with no bound on the scopes it holds. */
  class Counts {
    var seen: map<Key, seq<Event>>

    constructor ()
      ensures seen == map[]
    {
      seen := map[];
    }

    method Recent(key: Key, at: nat) returns (events: seq<Event>)
      ensures events == Since(SeenAt(seen, key), at, WindowMs(key.kind))
    {
      var all := if key in seen then seen[key] else [];
      events := [];
      var i := |all|;
      while i > 0
        invariant 0 <= i <= |all|
        invariant events == Since(all[i..], at, WindowMs(key.kind))
      {
        i := i - 1;
        assert all[i..][1..] == all[i + 1..];
        if at - all[i].at < WindowMs(key.kind) {
          events := [all[i]] + events;
        }
      }
      assert all[0..] == all;
    }

    method Observe(key: Key, at: nat, weight: nat) returns (raised: bool)
      modifies this
      ensures raised <==> Raises(old(seen), key, at, weight)
      ensures seen == Observed(old(seen), key, at, weight)
    {
      var events := Recent(key, at);
      events := events + [Event(at, weight)];
      var sum := 0;
      for i := 0 to |events|
        invariant sum == Sum(events[..i]) && seen == old(seen)
      {
        assert events[..i + 1] == events[..i] + [events[i]];
        SumAppend(events[..i], events[i]);
        sum := sum + events[i].weight;
      }
      assert events[..|events|] == events;
      assert events == Counting(old(seen), key, at, weight);
      raised := sum >= Threshold(key.kind);
      seen := if raised then seen - {key} else seen[key := events];
    }
  }
}
