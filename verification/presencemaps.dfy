/**
 * apps/api/presence.ts and live-presence.ts, map by map: every `Map` and `Set` has
 * an identity, a leave holds on to the ones its join found or made, and by then
 * others may stand at their keys.
 */
module PresenceMaps {
  import opened Lists
  import opened Maps
  import opened Presence

  /** Each map by its identity; `businesses` alone is never replaced. Identities are not used twice. */
  datatype Heap = Heap(seats: map<nat, Topic>, topics: map<nat, map<string, nat>>, businesses: map<string, nat>, next: nat, joins: nat)

  /** What a leave holds on to: where its join sat, the topics and seats maps it used, and its own seat. */
  datatype Handle = Handle(at: Place, topics: nat, seats: nat, token: nat)

  const EMPTY := Heap(map[], map[], map[], 0, 0)

  function SeatsAt(m: Heap, id: nat): Topic {
    if id in m.seats then m.seats[id] else []
  }

  function TopicsAt(m: Heap, id: nat): map<string, nat> {
    if id in m.topics then m.topics[id] else map[]
  }

  // ------------------------------------------------------------------ what the code does to the maps

  /** `businesses.get(b) ?? new Map()`, set back. */
  function WithBusiness(m: Heap, b: string): Heap {
    if b in m.businesses then m
    else m.(businesses := m.businesses[b := m.next], topics := m.topics[m.next := map[]], next := m.next + 1)
  }

  /** `topics.get(t) ?? new Map()`, set back. */
  function WithTopic(m: Heap, id: nat, t: string): Heap {
    if t in TopicsAt(m, id) then m
    else m.(topics := m.topics[id := TopicsAt(m, id)[t := m.next]], seats := m.seats[m.next := []], next := m.next + 1)
  }

  function BusinessId(m: Heap, b: string): nat {
    if b in m.businesses then m.businesses[b] else 0
  }

  function SeatsId(m: Heap, id: nat, t: string): nat {
    if t in TopicsAt(m, id) then TopicsAt(m, id)[t] else 0
  }

  function Seated(m: Heap, id: nat, seat: Seat): Heap {
    m.(seats := m.seats[id := WithSeat(SeatsAt(m, id), seat)])
  }

  /** The maps a join seats in, made where there were none. */
  function RoomFor(m: Heap, b: string, t: string): Heap {
    var one := WithBusiness(m, b);
    WithTopic(one, BusinessId(one, b), t)
  }

  function JoinedTo(m: Heap, b: string, t: string, session: Session): (Heap, Handle) {
    var room := RoomFor(m, b, t).(joins := m.joins + 1);
    var topics := BusinessId(room, b);
    var seats := SeatsId(room, topics, t);
    (Seated(room, seats, Seat(m.joins, session, None)), Handle(Place(b, t, session.sessionId), topics, seats, m.joins))
  }

  predicate Own(m: Heap, h: Handle) {
    var seat := SeatIn(SeatsAt(m, h.seats), h.at.sessionId);
    seat.Some? && seat.value.token == h.token
  }

  /** The topic goes, if the seats held on to are empty and still the ones there. */
  function DropTopic(m: Heap, h: Handle): Heap {
    if SeatsAt(m, h.seats) == [] && h.at.topic in TopicsAt(m, h.topics) && TopicsAt(m, h.topics)[h.at.topic] == h.seats
    then m.(topics := m.topics[h.topics := TopicsAt(m, h.topics) - {h.at.topic}])
    else m
  }

  function DropBusiness(m: Heap, h: Handle): Heap {
    if TopicsAt(m, h.topics) == map[] && h.at.business in m.businesses && m.businesses[h.at.business] == h.topics
    then m.(businesses := m.businesses - {h.at.business})
    else m
  }

  function Unseated(m: Heap, h: Handle): Heap {
    m.(seats := m.seats[h.seats := WithoutSeat(SeatsAt(m, h.seats), h.at.sessionId)])
  }

  /** A leave, called once or again: it looks only in the maps it holds on to. */
  function LeftFrom(m: Heap, h: Handle): Heap {
    if !Own(m, h) then m else DropBusiness(DropTopic(Unseated(m, h), h), h)
  }

  /** The seats map found from the book's root. */
  function SeatsNow(m: Heap, at: Place): Option<nat> {
    if at.business in m.businesses && at.topic in TopicsAt(m, m.businesses[at.business])
    then Some(TopicsAt(m, m.businesses[at.business])[at.topic]) else None
  }

  function SeatNow(m: Heap, at: Place): Option<Seat> {
    var id := SeatsNow(m, at);
    if id.None? then None else SeatIn(SeatsAt(m, id.value), at.sessionId)
  }

  /** A mark reads from the root. */
  function MarkedIn(m: Heap, at: Place, field: Option<string>): Heap {
    var seat := SeatNow(m, at);
    if seat.None? || !seat.value.session.side.Staff? || seat.value.field == field then m
    else Seated(m, SeatsNow(m, at).value, seat.value.(field := field))
  }

  // ------------------------------------------------------------------ what every call keeps

  /** Each map at a key is made, and at that key alone. */
  ghost predicate Rooted(m: Heap) {
    && (forall b :: b in m.businesses ==> m.businesses[b] in m.topics)
    && forall b, c :: b in m.businesses && c in m.businesses && m.businesses[b] == m.businesses[c] ==> b == c
  }

  ghost predicate Topical(m: Heap) {
    && (forall id, t :: id in m.topics && t in m.topics[id] ==> m.topics[id][t] in m.seats)
    && forall id, t, jd, u :: (id in m.topics && t in m.topics[id] && jd in m.topics && u in m.topics[jd]
                              && m.topics[id][t] == m.topics[jd][u]) ==> id == jd && t == u
  }

  ghost predicate Numbered(m: Heap) {
    && (forall id :: id in m.seats ==> id < m.next) && (forall id :: id in m.topics ==> id < m.next)
    && forall id, seat :: id in m.seats && seat in m.seats[id] ==> seat.token < m.joins
  }

  ghost predicate OnePerMap(m: Heap) {
    forall id :: id in m.seats ==> OnePerSession(m.seats[id])
  }

  ghost predicate Made(m: Heap) {
    Rooted(m) && Topical(m) && Numbered(m) && OnePerMap(m)
  }

  /** No topics map at a business is empty, but for one. */
  ghost predicate TopicsFull(m: Heap, but: Option<nat>) {
    forall b :: b in m.businesses && Some(m.businesses[b]) != but ==> TopicsAt(m, m.businesses[b]) != map[]
  }

  ghost predicate SeatsFull(m: Heap, but: Option<nat>) {
    forall id, t :: id in m.topics && t in m.topics[id] && Some(m.topics[id][t]) != but ==> SeatsAt(m, m.topics[id][t]) != []
  }

  /**
   * What a leave holds on to is made, and while it is not empty it is the very map
   * at its key; its seat is nowhere else.
   */
  ghost predicate HandleHolds(m: Heap, h: Handle) {
    && h.topics in m.topics && h.seats in m.seats && h.token < m.joins
    && (m.topics[h.topics] != map[] ==> h.at.business in m.businesses && m.businesses[h.at.business] == h.topics)
    && (m.seats[h.seats] != [] ==> h.at.topic in m.topics[h.topics] && m.topics[h.topics][h.at.topic] == h.seats)
    && forall id, seat :: id in m.seats && seat in m.seats[id] && seat.token == h.token ==>
         id == h.seats && seat.session.sessionId == h.at.sessionId
  }

  ghost predicate HandlesHold(m: Heap, handles: seq<Handle>) {
    forall i :: 0 <= i < |handles| ==> HandleHolds(m, handles[i])
  }

  ghost predicate Inv(m: Heap, handles: seq<Handle>) {
    Made(m) && TopicsFull(m, None) && SeatsFull(m, None) && HandlesHold(m, handles)
  }

  // ------------------------------------------------------------------ a join

  lemma {:induction false} BusinessRooted(m: Heap, b: string)
    requires Rooted(m) && Numbered(m) && OnePerMap(m)
    ensures var one := WithBusiness(m, b);
            Rooted(one) && Numbered(one) && OnePerMap(one) && b in one.businesses && one.businesses[b] in one.topics
  {
  }

  lemma {:induction false} BusinessTopical(m: Heap, b: string)
    requires Topical(m) && SeatsFull(m, None)
    ensures Topical(WithBusiness(m, b)) && SeatsFull(WithBusiness(m, b), None)
  {
  }

  lemma {:induction false} BusinessFull(m: Heap, b: string)
    requires Rooted(m) && Numbered(m) && TopicsFull(m, None)
    ensures var one := WithBusiness(m, b); b in one.businesses && TopicsFull(one, Some(one.businesses[b]))
  {
  }

  lemma {:induction false} BusinessMade(m: Heap, b: string)
    requires Made(m) && TopicsFull(m, None) && SeatsFull(m, None)
    ensures var one := WithBusiness(m, b);
            && b in one.businesses && one.businesses[b] in one.topics
            && Made(one) && TopicsFull(one, Some(one.businesses[b])) && SeatsFull(one, None)
  {
    BusinessRooted(m, b);
    BusinessTopical(m, b);
    BusinessFull(m, b);
  }

  /** What a leave holds on to stays, and is this business's only if it sat there. */
  lemma {:induction false} BusinessKeeps(m: Heap, b: string, h: Handle)
    requires Made(m) && TopicsFull(m, None) && HandleHolds(m, h)
    ensures var one := WithBusiness(m, b); HandleHolds(one, h) && (h.topics == one.businesses[b] ==> h.at.business == b)
  {
  }

  lemma {:induction false} TopicTopical(m: Heap, id: nat, t: string)
    requires Topical(m) && Numbered(m) && id in m.topics
    ensures Topical(WithTopic(m, id, t))
  {
    assert forall jd, u :: jd in m.topics && u in m.topics[jd] ==> m.topics[jd][u] < m.next;
  }

  lemma {:induction false} TopicNumbered(m: Heap, id: nat, t: string)
    requires Numbered(m) && OnePerMap(m) && id in m.topics
    ensures Numbered(WithTopic(m, id, t)) && OnePerMap(WithTopic(m, id, t))
  {
  }

  lemma {:induction false} TopicSeatsFull(m: Heap, id: nat, t: string)
    requires id in m.topics && Topical(m) && Numbered(m) && SeatsFull(m, None)
    ensures var two := WithTopic(m, id, t);
            && id in two.topics && t in two.topics[id] && two.topics[id][t] in two.seats
            && SeatsFull(two, Some(two.topics[id][t]))
  {
    var two := WithTopic(m, id, t);
    forall jd, u | jd in two.topics && u in two.topics[jd] && two.topics[jd][u] != two.topics[id][t]
      ensures SeatsAt(two, two.topics[jd][u]) != []
    {
      assert jd in m.topics && u in m.topics[jd] && two.topics[jd][u] == m.topics[jd][u];
      assert SeatsAt(m, m.topics[jd][u]) != [];
      assert two.topics[jd][u] in m.seats;
    }
  }

  lemma {:induction false} TopicTopicsFull(m: Heap, b: string, t: string)
    requires b in m.businesses && Rooted(m) && TopicsFull(m, Some(m.businesses[b]))
    ensures var two := WithTopic(m, m.businesses[b], t); two.businesses == m.businesses && Rooted(two) && TopicsFull(two, None)
  {
    var two := WithTopic(m, m.businesses[b], t);
    forall c | c in two.businesses ensures TopicsAt(two, two.businesses[c]) != map[] {
      if c == b {
        assert t in TopicsAt(two, two.businesses[b]);
      } else {
        assert m.businesses[c] != m.businesses[b] && TopicsAt(two, two.businesses[c]) == TopicsAt(m, m.businesses[c]);
      }
    }
  }

  lemma {:induction false} TopicMade(m: Heap, b: string, t: string)
    requires b in m.businesses && Made(m) && TopicsFull(m, Some(m.businesses[b])) && SeatsFull(m, None)
    ensures var id := m.businesses[b];
            var two := WithTopic(m, id, t);
            && two.businesses == m.businesses && id in two.topics && t in two.topics[id] && two.topics[id][t] in two.seats
            && Made(two) && TopicsFull(two, None) && SeatsFull(two, Some(two.topics[id][t]))
  {
    TopicTopical(m, m.businesses[b], t);
    TopicNumbered(m, m.businesses[b], t);
    TopicSeatsFull(m, m.businesses[b], t);
    TopicTopicsFull(m, b, t);
  }

  lemma {:induction false} TopicKeeps(m: Heap, b: string, t: string, h: Handle)
    requires b in m.businesses && Made(m) && SeatsFull(m, None) && HandleHolds(m, h)
    requires h.topics == m.businesses[b] ==> h.at.business == b
    ensures var id := m.businesses[b];
            var two := WithTopic(m, id, t);
            HandleHolds(two, h) && (h.seats == two.topics[id][t] ==> h.topics == id && h.at.topic == t)
  {
  }

  /** A seat put in the seats map of a place keeps what every leave holds on to. */
  lemma {:induction false} SeatedKeeps(m: Heap, handles: seq<Handle>, id: nat, t: string, seat: Seat)
    requires Made(m) && TopicsFull(m, None) && HandlesHold(m, handles)
    requires id in m.topics && t in m.topics[id] && SeatsFull(m, Some(m.topics[id][t]))
    requires forall i :: 0 <= i < |handles| && handles[i].seats == m.topics[id][t] ==> handles[i].topics == id && handles[i].at.topic == t
    requires forall i :: 0 <= i < |handles| && handles[i].token == seat.token ==>
               handles[i].seats == m.topics[id][t] && handles[i].at.sessionId == seat.session.sessionId
    requires seat.token < m.joins
    ensures Inv(Seated(m, m.topics[id][t], seat), handles)
  {
    var seats := m.topics[id][t];
    var after := Seated(m, seats, seat);
    WithSeatMeans(m.seats[seats], seat, "");
    forall i | 0 <= i < |handles| ensures HandleHolds(after, handles[i]) {
      assert HandleHolds(m, handles[i]);
    }
  }

  lemma {:induction false} MakesRoom(m: Heap, handles: seq<Handle>, b: string, t: string)
    requires Inv(m, handles)
    ensures var two := RoomFor(m, b, t).(joins := m.joins + 1);
            && b in two.businesses && t in TopicsAt(two, two.businesses[b])
            && Made(two) && TopicsFull(two, None) && SeatsFull(two, Some(two.topics[two.businesses[b]][t]))
            && forall i :: 0 <= i < |handles| ==>
                 && HandleHolds(two, handles[i]) && handles[i].token < m.joins
                 && (handles[i].seats == two.topics[two.businesses[b]][t] ==> handles[i].topics == two.businesses[b] && handles[i].at.topic == t)
  {
    BusinessMade(m, b);
    var one := WithBusiness(m, b);
    TopicMade(one, b, t);
    forall i | 0 <= i < |handles|
      ensures var two := RoomFor(m, b, t).(joins := m.joins + 1);
              && HandleHolds(two, handles[i]) && handles[i].token < m.joins
              && (handles[i].seats == two.topics[two.businesses[b]][t] ==> handles[i].topics == two.businesses[b] && handles[i].at.topic == t)
    {
      BusinessKeeps(m, b, handles[i]);
      TopicKeeps(one, b, t, handles[i]);
    }
  }

  lemma {:induction false} OneMoreHandle(m: Heap, handles: seq<Handle>, h: Handle)
    requires Inv(m, handles) && HandleHolds(m, h)
    ensures Inv(m, handles + [h])
  {
  }

  lemma {:induction false} JoinKeeps(m: Heap, handles: seq<Handle>, b: string, t: string, session: Session)
    requires Inv(m, handles)
    ensures Inv(JoinedTo(m, b, t, session).0, handles + [JoinedTo(m, b, t, session).1])
  {
    MakesRoom(m, handles, b, t);
    var room := RoomFor(m, b, t).(joins := m.joins + 1);
    var id := room.businesses[b];
    var seat := Seat(m.joins, session, None);
    var after := Seated(room, room.topics[id][t], seat);
    assert Inv(after, handles) by {
      SeatedKeeps(room, handles, id, t, seat);
    }
    var h := Handle(Place(b, t, session.sessionId), id, room.topics[id][t], m.joins);
    assert HandleHolds(after, h) by {
      RoomIsFresh(m, b, t);
      NewHandleHolds(room, b, t, seat);
    }
    assert JoinedTo(m, b, t, session) == (after, h);
    OneMoreHandle(after, handles, h);
  }

  lemma {:induction false} RoomIsFresh(m: Heap, b: string, t: string)
    requires Made(m)
    ensures forall id, seat :: id in RoomFor(m, b, t).seats && seat in RoomFor(m, b, t).seats[id] ==> seat.token < m.joins
  {
  }

  lemma {:induction false} NewHandleHolds(m: Heap, b: string, t: string, seat: Seat)
    requires Made(m) && b in m.businesses && t in m.topics[m.businesses[b]] && seat.token < m.joins
    requires forall id, other :: id in m.seats && other in m.seats[id] ==> other.token != seat.token
    ensures var id := m.businesses[b];
            HandleHolds(Seated(m, m.topics[id][t], seat), Handle(Place(b, t, seat.session.sessionId), id, m.topics[id][t], seat.token))
  {
    WithSeatMeans(m.seats[m.topics[m.businesses[b]][t]], seat, "");
  }

  // ------------------------------------------------------------------ a leave, called once or again

  /** A leave whose seat is still there holds on to the very maps at its keys. */
  lemma {:induction false} OwnIsCurrent(m: Heap, h: Handle)
    requires HandleHolds(m, h) && Own(m, h)
    ensures h.at.business in m.businesses && m.businesses[h.at.business] == h.topics
    ensures h.at.topic in m.topics[h.topics] && m.topics[h.topics][h.at.topic] == h.seats
    ensures SeatsNow(m, h.at) == Some(h.seats)
  {
  }

  /** Once unseated: the seats map may stand empty, there alone. */
  lemma {:induction false} UnseatedMade(m: Heap, h: Handle)
    requires Made(m) && TopicsFull(m, None) && SeatsFull(m, None) && HandleHolds(m, h)
    ensures var one := Unseated(m, h); Made(one) && TopicsFull(one, None) && SeatsFull(one, Some(h.seats))
  {
    WithoutSeatMeans(m.seats[h.seats], h.at.sessionId, "");
  }

  lemma {:induction false} UnseatedKeeps(m: Heap, h: Handle, other: Handle)
    requires Made(m) && HandleHolds(m, h) && HandleHolds(m, other)
    ensures HandleHolds(Unseated(m, h), other)
  {
    WithoutSeatMeans(m.seats[h.seats], h.at.sessionId, "");
  }

  lemma {:induction false} DropTopicSeatsFull(m: Heap, h: Handle)
    requires Topical(m) && SeatsFull(m, Some(h.seats))
    requires h.topics in m.topics && h.at.topic in m.topics[h.topics] && m.topics[h.topics][h.at.topic] == h.seats
    ensures SeatsFull(DropTopic(m, h), None)
  {
    var two := DropTopic(m, h);
    forall id, t | id in two.topics && t in two.topics[id] ensures SeatsAt(two, two.topics[id][t]) != [] {
      assert id in m.topics && t in m.topics[id] && two.topics[id][t] == m.topics[id][t];
    }
  }

  lemma {:induction false} DropTopicTopical(m: Heap, h: Handle)
    requires Topical(m) && h.topics in m.topics
    ensures Topical(DropTopic(m, h))
  {
    var two := DropTopic(m, h);
    forall id, t | id in two.topics && t in two.topics[id] ensures id in m.topics && t in m.topics[id] && two.topics[id][t] == m.topics[id][t] {
    }
  }

  lemma {:induction false} DropTopicRooted(m: Heap, h: Handle)
    requires Rooted(m) && Numbered(m) && OnePerMap(m) && TopicsFull(m, None) && h.topics in m.topics
    ensures var two := DropTopic(m, h); Rooted(two) && Numbered(two) && OnePerMap(two) && TopicsFull(two, Some(h.topics))
  {
  }

  /** The emptied seats map goes from its topic: the topics map may stand empty, there alone. */
  lemma {:induction false} DropTopicMade(m: Heap, h: Handle)
    requires Made(m) && TopicsFull(m, None) && SeatsFull(m, Some(h.seats)) && HandleHolds(m, h)
    requires h.at.topic in m.topics[h.topics] && m.topics[h.topics][h.at.topic] == h.seats
    ensures var two := DropTopic(m, h); Made(two) && TopicsFull(two, Some(h.topics)) && SeatsFull(two, None)
  {
    DropTopicSeatsFull(m, h);
    DropTopicTopical(m, h);
    DropTopicRooted(m, h);
  }

  lemma {:induction false} DropTopicKeeps(m: Heap, h: Handle, other: Handle)
    requires Made(m) && HandleHolds(m, h) && HandleHolds(m, other)
    requires h.at.topic in m.topics[h.topics] && m.topics[h.topics][h.at.topic] == h.seats
    ensures HandleHolds(DropTopic(m, h), other)
  {
  }

  lemma {:induction false} DropBusinessMade(m: Heap, h: Handle)
    requires Made(m) && TopicsFull(m, Some(h.topics)) && SeatsFull(m, None)
    requires h.at.business in m.businesses && m.businesses[h.at.business] == h.topics
    ensures var three := DropBusiness(m, h); Made(three) && TopicsFull(three, None) && SeatsFull(three, None)
  {
  }

  lemma {:induction false} DropBusinessKeeps(m: Heap, h: Handle, other: Handle)
    requires Made(m) && HandleHolds(m, other)
    requires h.at.business in m.businesses && m.businesses[h.at.business] == h.topics
    ensures HandleHolds(DropBusiness(m, h), other)
  {
  }

  lemma {:induction false} LeftHandle(m: Heap, h: Handle, other: Handle)
    requires Made(m) && TopicsFull(m, None) && SeatsFull(m, None) && HandleHolds(m, h) && HandleHolds(m, other) && Own(m, h)
    ensures HandleHolds(LeftFrom(m, h), other)
  {
    OwnIsCurrent(m, h);
    UnseatedMade(m, h);
    UnseatedKeeps(m, h, h);
    UnseatedKeeps(m, h, other);
    var one := Unseated(m, h);
    DropTopicMade(one, h);
    DropTopicKeeps(one, h, other);
    var two := DropTopic(one, h);
    DropBusinessKeeps(two, h, other);
  }

  /** However late and however often a leave is called, what every leave holds on to stays so. */
  lemma {:induction false} LeaveKeeps(m: Heap, handles: seq<Handle>, h: Handle)
    requires Inv(m, handles) && h in handles
    ensures Inv(LeftFrom(m, h), handles)
  {
    if Own(m, h) {
      OwnIsCurrent(m, h);
      UnseatedMade(m, h);
      UnseatedKeeps(m, h, h);
      var one := Unseated(m, h);
      DropTopicMade(one, h);
      DropBusinessMade(DropTopic(one, h), h);
      forall i | 0 <= i < |handles| ensures HandleHolds(LeftFrom(m, h), handles[i]) {
        LeftHandle(m, h, handles[i]);
      }
    }
  }

  // ------------------------------------------------------------------ a mark

  lemma {:induction false} MarkKeeps(m: Heap, handles: seq<Handle>, at: Place, field: Option<string>)
    requires Inv(m, handles)
    ensures Inv(MarkedIn(m, at, field), handles)
  {
    var seat := SeatNow(m, at);
    if seat.Some? {
      var id := m.businesses[at.business];
      SeatInMeans(m.seats[m.topics[id][at.topic]], at.sessionId);
      forall i | 0 <= i < |handles|
        ensures handles[i].seats == m.topics[id][at.topic] ==> handles[i].topics == id && handles[i].at.topic == at.topic
        ensures handles[i].token == seat.value.token ==>
                  handles[i].seats == m.topics[id][at.topic] && handles[i].at.sessionId == seat.value.session.sessionId
      {
        assert HandleHolds(m, handles[i]);
      }
      SeatedKeeps(m, handles, id, at.topic, seat.value.(field := field));
    }
  }

  // ------------------------------------------------------------------ what is found from the root

  lemma {:induction false} BusinessSame(m: Heap, b: string, at: Place)
    requires Made(m)
    ensures SeatNow(WithBusiness(m, b), at) == SeatNow(m, at)
  {
  }

  lemma {:induction false} TopicSame(m: Heap, b: string, t: string, at: Place)
    requires Made(m) && b in m.businesses
    ensures SeatNow(WithTopic(m, m.businesses[b], t), at) == SeatNow(m, at)
  {
    var now := SeatsNow(m, at);
    assert now.Some? ==> now.value in m.seats && now.value != m.next;
  }

  /** Other seats in the map at one place are found there and nowhere else. */
  lemma {:induction false} SeatsAtOnePlace(m: Heap, b: string, t: string, seats: Topic, at: Place)
    requires Made(m) && b in m.businesses && t in m.topics[m.businesses[b]]
    ensures var after := m.(seats := m.seats[m.topics[m.businesses[b]][t] := seats]);
            SeatNow(after, at) == if at.business == b && at.topic == t then SeatIn(seats, at.sessionId) else SeatNow(m, at)
  {
  }

  lemma {:induction false} RoomSame(m: Heap, b: string, t: string, at: Place)
    requires Made(m) && TopicsFull(m, None) && SeatsFull(m, None)
    ensures var room := RoomFor(m, b, t);
            && SeatNow(room, at) == SeatNow(m, at) && Rooted(room) && Topical(room) && OnePerMap(room)
            && b in room.businesses && t in TopicsAt(room, room.businesses[b])
  {
    BusinessMade(m, b);
    BusinessSame(m, b, at);
    TopicMade(WithBusiness(m, b), b, t);
    TopicSame(WithBusiness(m, b), b, t, at);
  }

  lemma {:induction false} CountedSame(m: Heap, joins: nat, at: Place)
    requires Rooted(m) && Topical(m) && OnePerMap(m)
    ensures var n := m.(joins := joins); SeatNow(n, at) == SeatNow(m, at) && Rooted(n) && Topical(n) && OnePerMap(n)
  {
  }

  lemma {:induction false} JoinSeats(m: Heap, b: string, t: string, session: Session, at: Place)
    requires Made(m) && TopicsFull(m, None) && SeatsFull(m, None)
    ensures SeatNow(JoinedTo(m, b, t, session).0, at)
         == if at == Place(b, t, session.sessionId) then Some(Seat(m.joins, session, None)) else SeatNow(m, at)
  {
    RoomSame(m, b, t, at);
    CountedSame(RoomFor(m, b, t), m.joins + 1, at);
    RoomSeats(RoomFor(m, b, t).(joins := m.joins + 1), b, t, Seat(m.joins, session, None), at);
  }

  lemma {:induction false} RoomSeats(m: Heap, b: string, t: string, seat: Seat, at: Place)
    requires Rooted(m) && Topical(m) && OnePerMap(m) && b in m.businesses && t in m.topics[m.businesses[b]]
    ensures SeatNow(Seated(m, m.topics[m.businesses[b]][t], seat), at)
         == if at == Place(b, t, seat.session.sessionId) then Some(seat) else SeatNow(m, at)
  {
    var id := m.topics[m.businesses[b]][t];
    WithSeatMeans(m.seats[id], seat, at.sessionId);
    if SeatsNow(m, at) == Some(id) {
      assert at.business == b && at.topic == t;
    }
  }

  lemma {:induction false} DropTopicSame(m: Heap, h: Handle, at: Place)
    requires Made(m) && h.topics in m.topics && h.at.topic in m.topics[h.topics] && m.topics[h.topics][h.at.topic] == h.seats
    ensures SeatNow(DropTopic(m, h), at) == SeatNow(m, at)
  {
  }

  lemma {:induction false} DropBusinessSame(m: Heap, h: Handle, at: Place)
    ensures SeatNow(DropBusiness(m, h), at) == SeatNow(m, at)
  {
  }

  lemma {:induction false} UnseatedSeats(m: Heap, h: Handle, at: Place)
    requires Made(m) && HandleHolds(m, h) && Own(m, h)
    ensures SeatNow(Unseated(m, h), at) == if at == h.at then None else SeatNow(m, at)
  {
    OwnIsCurrent(m, h);
    WithoutSeatMeans(m.seats[h.seats], h.at.sessionId, at.sessionId);
    SeatsAtOnePlace(m, h.at.business, h.at.topic, WithoutSeat(m.seats[h.seats], h.at.sessionId), at);
  }

  /** A seat is its leave's own exactly when it is the one found at its place; then the leave takes that seat alone. */
  lemma {:induction false} LeaveSeats(m: Heap, h: Handle, at: Place)
    requires Made(m) && TopicsFull(m, None) && SeatsFull(m, None) && HandleHolds(m, h)
    ensures Own(m, h) <==> SeatNow(m, h.at).Some? && SeatNow(m, h.at).value.token == h.token
    ensures SeatNow(LeftFrom(m, h), at) == if at == h.at && Own(m, h) then None else SeatNow(m, at)
  {
    if Own(m, h) {
      OwnIsCurrent(m, h);
      UnseatedSeats(m, h, at);
      UnseatedMade(m, h);
      var one := Unseated(m, h);
      DropTopicSame(one, h, at);
      DropBusinessSame(DropTopic(one, h), h, at);
    } else if SeatNow(m, h.at).Some? {
      SeatInMeans(SeatsAt(m, SeatsNow(m, h.at).value), h.at.sessionId);
    }
  }

  lemma {:induction false} MarkSeats(m: Heap, on: Place, field: Option<string>, at: Place)
    requires Made(m)
    ensures SeatNow(MarkedIn(m, on, field), at)
         == if at == on && SeatNow(m, on).Some? && SeatNow(m, on).value.session.side.Staff? then Some(SeatNow(m, on).value.(field := field))
            else SeatNow(m, at)
  {
    var seat := SeatNow(m, on);
    if seat.Some? {
      SeatInMeans(SeatsAt(m, SeatsNow(m, on).value), on.sessionId);
      RoomSeats(m, on.business, on.topic, seat.value.(field := field), at);
    }
  }

  // ------------------------------------------------------------------ every sequence of joins, marks and leaves

  /** `Leave(n)` calls what the `n`-th join returned, for the first time or again. */
  datatype Op =
    | Join(business: string, topic: string, session: Session)
    | Leave(n: nat)
    | Mark(at: Place, field: Option<string>)

  datatype State = State(maps: Heap, handles: seq<Handle>)

  function Apply(s: State, op: Op): State {
    match op
    case Join(b, t, session) =>
      var (maps, h) := JoinedTo(s.maps, b, t, session);
      State(maps, s.handles + [h])
    case Leave(n) => if n < |s.handles| then s.(maps := LeftFrom(s.maps, s.handles[n])) else s
    case Mark(at, field) => s.(maps := MarkedIn(s.maps, at, field))
  }

  function After(ops: seq<Op>): State {
    if ops == [] then State(EMPTY, []) else Apply(After(ops[..|ops| - 1]), ops[|ops| - 1])
  }

  function Joins(ops: seq<Op>): nat {
    if ops == [] then 0 else Joins(ops[..|ops| - 1]) + if ops[|ops| - 1].Join? then 1 else 0
  }

  /** The seat at a place, said without the maps: the last join's there, as last marked, until its own leave. */
  function Current(ops: seq<Op>, at: Place): Option<Seat> {
    if ops == [] then None
    else
      var before, joins := Current(ops[..|ops| - 1], at), Joins(ops[..|ops| - 1]);
      match ops[|ops| - 1]
      case Join(b, t, session) => if at == Place(b, t, session.sessionId) then Some(Seat(joins, session, None)) else before
      case Leave(n) => if n < joins && before.Some? && before.value.token == n then None else before
      case Mark(on, field) =>
        if on == at && before.Some? && before.value.session.side.Staff? then Some(before.value.(field := field)) else before
  }

  ghost predicate Sound(s: State) {
    && Inv(s.maps, s.handles) && |s.handles| == s.maps.joins
    && forall i :: 0 <= i < |s.handles| ==> s.handles[i].token == i
  }

  lemma {:induction false} ApplyKeeps(s: State, op: Op)
    requires Sound(s)
    ensures Sound(Apply(s, op))
  {
    match op {
      case Join(b, t, session) => JoinKeeps(s.maps, s.handles, b, t, session);
      case Leave(n) =>
        if n < |s.handles| {
          LeaveKeeps(s.maps, s.handles, s.handles[n]);
        }
      case Mark(at, field) => MarkKeeps(s.maps, s.handles, at, field);
    }
  }

  /** What one call leaves at a place. */
  function SeatAfter(s: State, op: Op, at: Place): Option<Seat> {
    var before := SeatNow(s.maps, at);
    match op
    case Join(b, t, session) => if at == Place(b, t, session.sessionId) then Some(Seat(s.maps.joins, session, None)) else before
    case Leave(n) => if n < |s.handles| && before.Some? && before.value.token == n then None else before
    case Mark(on, field) =>
      if on == at && before.Some? && before.value.session.side.Staff? then Some(before.value.(field := field)) else before
  }

  lemma {:induction false} LeaveTakes(s: State, n: nat, at: Place)
    requires Sound(s) && n < |s.handles|
    ensures SeatNow(LeftFrom(s.maps, s.handles[n]), at) == SeatAfter(s, Leave(n), at)
  {
    var h := s.handles[n];
    assert HandleHolds(s.maps, h);
    LeaveSeats(s.maps, h, at);
    var now := SeatNow(s.maps, at);
    if now.Some? && now.value.token == n {
      TokenPlace(s, at);
    }
  }

  /** A seat found is where the join of its token sat. */
  lemma {:induction false} TokenPlace(s: State, at: Place)
    requires Sound(s) && SeatNow(s.maps, at).Some?
    ensures var token := SeatNow(s.maps, at).value.token; token < |s.handles| && s.handles[token].at == at
  {
    var id, seat := SeatsNow(s.maps, at).value, SeatNow(s.maps, at).value;
    SeatInMeans(s.maps.seats[id], at.sessionId);
    assert seat.token < s.maps.joins;
    var h := s.handles[seat.token];
    assert HandleHolds(s.maps, h);
    assert s.maps.seats[id] != [];
  }

  lemma {:induction false} ApplySeats(s: State, op: Op, at: Place)
    requires Sound(s)
    ensures SeatNow(Apply(s, op).maps, at) == SeatAfter(s, op, at)
  {
    match op {
      case Join(b, t, session) => JoinSeats(s.maps, b, t, session, at);
      case Leave(n) =>
        if n < |s.handles| {
          LeaveTakes(s, n, at);
        } else if SeatNow(s.maps, at).Some? {
          TokenPlace(s, at);
        }
      case Mark(on, field) => MarkSeats(s.maps, on, field, at);
    }
  }

  lemma {:induction false} MapsSound(ops: seq<Op>)
    ensures Sound(After(ops)) && After(ops).maps.joins == Joins(ops)
  {
    if ops != [] {
      MapsSound(ops[..|ops| - 1]);
      ApplyKeeps(After(ops[..|ops| - 1]), ops[|ops| - 1]);
    }
  }

  /**
   * Over every sequence, late and repeated leaves included: from the root are found
   * exactly the seats joined last and not left; no empty map stands at a key; and
   * what every leave holds on to is, while not empty, the very map at its key.
   */
  lemma {:induction false} MapsAreCurrent(ops: seq<Op>, at: Place)
    ensures Sound(After(ops)) && SeatNow(After(ops).maps, at) == Current(ops, at) && After(ops).maps.joins == Joins(ops)
  {
    MapsSound(ops);
    if ops != [] {
      var before, op := ops[..|ops| - 1], ops[|ops| - 1];
      MapsAreCurrent(before, at);
      ApplySeats(After(before), op, at);
      CurrentNext(ops, at);
    }
  }

  lemma {:induction false} CurrentNext(ops: seq<Op>, at: Place)
    requires ops != []
    requires var s, before := After(ops[..|ops| - 1]), ops[..|ops| - 1];
             SeatNow(s.maps, at) == Current(before, at) && |s.handles| == s.maps.joins == Joins(before)
    ensures SeatAfter(After(ops[..|ops| - 1]), ops[|ops| - 1], at) == Current(ops, at)
  {
  }

  /** A leave already spent, by itself or by a rejoin, changes nothing, whatever maps it still holds on to. */
  lemma {:induction false} SpentLeaveChangesNothing(ops: seq<Op>, n: nat)
    requires forall at :: Current(ops, at).Some? ==> Current(ops, at).value.token != n
    ensures After(ops + [Leave(n)]) == After(ops)
  {
    var s := After(ops);
    assert (ops + [Leave(n)])[..|ops|] == ops;
    MapsAreCurrent(ops, Place("", "", ""));
    if n < |s.handles| {
      var h := s.handles[n];
      assert HandleHolds(s.maps, h);
      MapsAreCurrent(ops, h.at);
      LeaveSeats(s.maps, h, h.at);
    }
  }

  // ------------------------------------------------------------------ what is held

  function Sizes(m: Heap, id: nat): map<string, nat> {
    map t | t in TopicsAt(m, id) :: |SeatsAt(m, TopicsAt(m, id)[t])|
  }

  ghost function HeldIn(m: Heap, id: nat): nat {
    |TopicsAt(m, id)| + SumValues(Sizes(m, id))
  }

  ghost function HeldPer(m: Heap, businesses: map<string, nat>): map<string, nat> {
    map b | b in businesses :: HeldIn(m, businesses[b])
  }

  /** The sizes of all the maps reached from the root. */
  ghost function Held(m: Heap): nat {
    |m.businesses| + SumValues(HeldPer(m, m.businesses))
  }

  lemma {:induction false} SomeSeat(m: Heap) returns (at: Place)
    requires Made(m) && TopicsFull(m, None) && SeatsFull(m, None) && m.businesses != map[]
    ensures SeatNow(m, at).Some?
  {
    var b :| b in m.businesses;
    assert TopicsAt(m, m.businesses[b]) != map[];
    var t :| t in TopicsAt(m, m.businesses[b]);
    var seats := SeatsAt(m, TopicsAt(m, m.businesses[b])[t]);
    assert seats != [];
    at := Place(b, t, seats[0].session.sessionId);
    SeatInMeans(seats, at.sessionId);
  }

  /** Nothing is held exactly when no seat is current. */
  lemma {:induction false} HeldIsZeroWhenAllLeft(ops: seq<Op>)
    ensures Held(After(ops).maps) == 0 <==> forall at :: Current(ops, at).None?
  {
    var m := After(ops).maps;
    MapsAreCurrent(ops, Place("", "", ""));
    if m.businesses == map[] {
      assert HeldPer(m, m.businesses) == map[];
      forall at ensures Current(ops, at).None? {
        MapsAreCurrent(ops, at);
      }
    } else {
      var at := SomeSeat(m);
      MapsAreCurrent(ops, at);
      assert Current(ops, at).Some? && |m.businesses| > 0;
    }
  }

  // ------------------------------------------------------------------ the hub

  /** One seat call, its own listener named by its number: the set of listeners its leave holds on to. */
  datatype Call = Call(at: Place, own: nat)

  /** Each set of listeners by its identity, the one at each key now, and the calls not yet left. */
  datatype Hub = Hub(book: State, sets: map<nat, set<nat>>, listeners: map<string, nat>, nextSet: nat, calls: seq<Call>, open: set<nat>)

  const NO_HUB := Hub(State(EMPTY, []), map[], map[], 0, [], {})

  function KeyOf(at: Place): string {
    at.business + "/" + at.topic
  }

  function SetAt(h: Hub, id: nat): set<nat> {
    if id in h.sets then h.sets[id] else {}
  }

  /** `listeners.get(key) ?? new Set()`, set back, and this call's own added. */
  function Listening(h: Hub, at: Place): Hub {
    var n, known := |h.calls|, KeyOf(at) in h.listeners;
    var id := if known then h.listeners[KeyOf(at)] else h.nextSet;
    var held := if known then SetAt(h, id) else {};
    h.(sets := h.sets[id := held + {n}], listeners := h.listeners[KeyOf(at) := id],
       nextSet := if known then h.nextSet else h.nextSet + 1, calls := h.calls + [Call(at, id)], open := h.open + {n})
  }

  /** Its own listener goes from the set held on to; the key goes if that set is empty and still the one there. */
  function Deaf(h: Hub, n: nat): Hub
    requires n < |h.calls|
  {
    var c := h.calls[n];
    var rest := SetAt(h, c.own) - {n};
    h.(sets := h.sets[c.own := rest],
       listeners := if rest == {} && KeyOf(c.at) in h.listeners && h.listeners[KeyOf(c.at)] == c.own then h.listeners - {KeyOf(c.at)} else h.listeners,
       open := h.open - {n})
  }

  function HubNext(h: Hub, op: Op): Hub {
    match op
    case Join(b, t, session) => Listening(h, Place(b, t, session.sessionId)).(book := Apply(h.book, op))
    case Leave(n) => if n < |h.calls| then Deaf(h, n).(book := Apply(h.book, op)) else h
    case Mark(_, _) => h.(book := Apply(h.book, op))
  }

  function HubAfter(ops: seq<Op>): Hub {
    if ops == [] then NO_HUB else HubNext(HubAfter(ops[..|ops| - 1]), ops[|ops| - 1])
  }

  /** The set at a key is not empty. */
  ghost predicate KeyHolds(h: Hub, key: string) {
    key in h.listeners ==> h.listeners[key] < h.nextSet && SetAt(h, h.listeners[key]) != {}
  }

  ghost predicate OneKey(h: Hub, k: string, l: string) {
    k in h.listeners && l in h.listeners && h.listeners[k] == h.listeners[l] ==> k == l
  }

  /** A listener in a set is of a call not yet left, and of that set. */
  ghost predicate SetHolds(h: Hub, id: nat) {
    && (SetAt(h, id) != {} ==> id < h.nextSet)
    && forall n: nat :: n in SetAt(h, id) ==> n < |h.calls| && n in h.open && h.calls[n].own == id
  }

  ghost predicate OpenHolds(h: Hub, n: nat) {
    n in h.open ==> n < |h.calls| && n in SetAt(h, h.calls[n].own)
  }

  /** What a call holds on to is, while not empty, the very set at its key. */
  ghost predicate CallHolds(h: Hub, c: Call) {
    && c.own < h.nextSet
    && (SetAt(h, c.own) != {} ==> KeyOf(c.at) in h.listeners && h.listeners[KeyOf(c.at)] == c.own)
  }

  /**
   * No empty set stands at a key, and none at two; what a call holds on to is,
   * while not empty, the very set at its key, and has its listener until it left.
   */
  ghost predicate ListenersHold(h: Hub) {
    && (forall key: string :: KeyHolds(h, key)) && (forall k: string, l: string :: OneKey(h, k, l))
    && (forall id: nat :: SetHolds(h, id)) && (forall n: nat :: OpenHolds(h, n))
    && forall i :: 0 <= i < |h.calls| ==> CallHolds(h, h.calls[i])
  }

  lemma {:induction false} ListeningSets(h: Hub, at: Place, id: nat)
    requires ListenersHold(h)
    ensures SetHolds(Listening(h, at), id)
  {
    assert SetHolds(h, id) && KeyHolds(h, KeyOf(at));
    assert SetHolds(h, h.nextSet);
  }

  lemma {:induction false} ListeningCalls(h: Hub, at: Place, i: nat)
    requires ListenersHold(h) && i <= |h.calls|
    ensures CallHolds(Listening(h, at), Listening(h, at).calls[i])
  {
    assert KeyHolds(h, KeyOf(at));
    assert SetHolds(h, h.nextSet);
    if i < |h.calls| {
      assert CallHolds(h, h.calls[i]) && OneKey(h, KeyOf(at), KeyOf(h.calls[i].at));
    }
  }

  lemma {:induction false} ListeningOpens(h: Hub, at: Place, n: nat)
    requires ListenersHold(h)
    ensures OpenHolds(Listening(h, at), n)
  {
    assert OpenHolds(h, n) && SetHolds(h, h.nextSet);
  }

  lemma {:induction false} ListeningKeys(h: Hub, at: Place, k: string, l: string)
    requires ListenersHold(h)
    ensures KeyHolds(Listening(h, at), k) && OneKey(Listening(h, at), k, l)
  {
    assert KeyHolds(h, k) && KeyHolds(h, l) && KeyHolds(h, KeyOf(at)) && OneKey(h, k, l) && OneKey(h, k, KeyOf(at)) && OneKey(h, KeyOf(at), l);
  }

  lemma {:induction false} ListeningKeeps(h: Hub, at: Place)
    requires ListenersHold(h)
    ensures ListenersHold(Listening(h, at))
  {
    var t := Listening(h, at);
    forall key: string ensures KeyHolds(t, key) { ListeningKeys(h, at, key, key); }
    forall k: string, l: string ensures OneKey(t, k, l) { ListeningKeys(h, at, k, l); }
    forall id: nat ensures SetHolds(t, id) { ListeningSets(h, at, id); }
    forall n: nat ensures OpenHolds(t, n) { ListeningOpens(h, at, n); }
    forall i | 0 <= i < |t.calls| ensures CallHolds(t, t.calls[i]) { ListeningCalls(h, at, i); }
  }

  /** Only its own set loses a listener. */
  lemma {:induction false} DeafSets(h: Hub, n: nat, id: nat)
    requires ListenersHold(h) && n < |h.calls|
    ensures SetAt(Deaf(h, n), id) == SetAt(h, id) - {n} && SetHolds(Deaf(h, n), id)
  {
    assert SetHolds(h, id) && CallHolds(h, h.calls[n]);
  }

  lemma {:induction false} DeafKeys(h: Hub, n: nat, k: string, l: string)
    requires ListenersHold(h) && n < |h.calls|
    ensures KeyHolds(Deaf(h, n), k) && OneKey(Deaf(h, n), k, l)
  {
    assert KeyHolds(h, k) && OneKey(h, k, l) && CallHolds(h, h.calls[n]) && OneKey(h, k, KeyOf(h.calls[n].at));
    if k in h.listeners {
      DeafSets(h, n, h.listeners[k]);
      assert SetHolds(h, h.listeners[k]);
    }
  }

  lemma {:induction false} DeafCalls(h: Hub, n: nat, i: nat)
    requires ListenersHold(h) && n < |h.calls| && i < |h.calls|
    ensures CallHolds(Deaf(h, n), h.calls[i])
  {
    assert CallHolds(h, h.calls[i]) && CallHolds(h, h.calls[n]);
    DeafSets(h, n, h.calls[i].own);
  }

  lemma {:induction false} DeafOpens(h: Hub, n: nat, m: nat)
    requires ListenersHold(h) && n < |h.calls|
    ensures OpenHolds(Deaf(h, n), m)
  {
    assert OpenHolds(h, m);
    if m in h.open {
      DeafSets(h, n, h.calls[m].own);
    }
  }

  lemma {:induction false} DeafKeeps(h: Hub, n: nat)
    requires ListenersHold(h) && n < |h.calls|
    ensures ListenersHold(Deaf(h, n))
  {
    var t := Deaf(h, n);
    forall key: string ensures KeyHolds(t, key) { DeafKeys(h, n, key, key); }
    forall k: string, l: string ensures OneKey(t, k, l) { DeafKeys(h, n, k, l); }
    forall id: nat ensures SetHolds(t, id) { DeafSets(h, n, id); }
    forall m: nat ensures OpenHolds(t, m) { DeafOpens(h, n, m); }
    forall i | 0 <= i < |t.calls| ensures CallHolds(t, t.calls[i]) { DeafCalls(h, n, i); }
  }

  /** Every seat found is one a call not yet left took. */
  ghost predicate SeatsOpen(h: Hub) {
    && Sound(h.book) && |h.calls| == |h.book.handles|
    && forall at :: SeatNow(h.book.maps, at).Some? ==> SeatNow(h.book.maps, at).value.token in h.open
  }

  lemma {:induction false} SeatOpenNext(h: Hub, op: Op, at: Place)
    requires SeatsOpen(h)
    ensures var t := HubNext(h, op); SeatNow(t.book.maps, at).Some? ==> SeatNow(t.book.maps, at).value.token in t.open
  {
    ApplySeats(h.book, op, at);
    assert SeatNow(h.book.maps, at).Some? ==> SeatNow(h.book.maps, at).value.token in h.open;
  }

  lemma {:induction false} SeatsOpenNext(h: Hub, op: Op)
    requires SeatsOpen(h)
    ensures SeatsOpen(HubNext(h, op))
  {
    var t := HubNext(h, op);
    ApplyKeeps(h.book, op);
    assert t.book == Apply(h.book, op) || t == h;
    forall at | SeatNow(t.book.maps, at).Some? ensures SeatNow(t.book.maps, at).value.token in t.open {
      SeatOpenNext(h, op, at);
    }
  }

  lemma {:induction false} SetApart(h: Hub, book: State, id: nat)
    requires SetHolds(h, id)
    ensures SetHolds(h.(book := book), id)
  {
    var t := h.(book := book);
    assert SetAt(t, id) == SetAt(h, id) && t.calls == h.calls && t.open == h.open;
    forall n: nat | n in SetAt(t, id) ensures n < |t.calls| && n in t.open && t.calls[n].own == id {
      assert n in SetAt(h, id);
    }
  }

  lemma {:induction false} BookApart(h: Hub, book: State)
    requires ListenersHold(h)
    ensures ListenersHold(h.(book := book))
  {
    var t := h.(book := book);
    forall key: string ensures KeyHolds(t, key) { assert KeyHolds(h, key); }
    forall k: string, l: string ensures OneKey(t, k, l) { assert OneKey(h, k, l); }
    forall id: nat ensures SetHolds(t, id) { SetApart(h, book, id); }
    forall n: nat ensures OpenHolds(t, n) { assert OpenHolds(h, n); }
    forall i | 0 <= i < |t.calls| ensures CallHolds(t, t.calls[i]) { assert CallHolds(h, h.calls[i]); }
  }

  lemma {:induction false} HubNextHolds(h: Hub, op: Op)
    requires ListenersHold(h)
    ensures ListenersHold(HubNext(h, op))
  {
    match op {
      case Join(b, t, session) =>
        ListeningKeeps(h, Place(b, t, session.sessionId));
        BookApart(Listening(h, Place(b, t, session.sessionId)), Apply(h.book, op));
      case Leave(n) =>
        if n < |h.calls| {
          DeafKeeps(h, n);
          BookApart(Deaf(h, n), Apply(h.book, op));
        }
      case Mark(_, _) => BookApart(h, Apply(h.book, op));
    }
  }

  lemma {:induction false} HubHolds(ops: seq<Op>)
    ensures ListenersHold(HubAfter(ops)) && SeatsOpen(HubAfter(ops))
  {
    if ops != [] {
      HubHolds(ops[..|ops| - 1]);
      HubNextHolds(HubAfter(ops[..|ops| - 1]), ops[|ops| - 1]);
      SeatsOpenNext(HubAfter(ops[..|ops| - 1]), ops[|ops| - 1]);
    }
  }

  lemma {:induction false} SpentDeaf(h: Hub, n: nat)
    requires ListenersHold(h) && n < |h.calls| && n !in h.open
    ensures Deaf(h, n).listeners == h.listeners && Deaf(h, n).open == h.open && forall id: nat :: SetAt(Deaf(h, n), id) == SetAt(h, id)
  {
    assert SetHolds(h, h.calls[n].own) && CallHolds(h, h.calls[n]) && KeyHolds(h, KeyOf(h.calls[n].at));
    assert SetAt(h, h.calls[n].own) - {n} == SetAt(h, h.calls[n].own);
  }

  /** A call's leave called again changes no listener and no seat, though others listen at its key by then. */
  lemma {:induction false} SecondLeaveChangesNothing(ops: seq<Op>, n: nat)
    requires n !in HubAfter(ops).open
    ensures var h, t := HubAfter(ops), HubAfter(ops + [Leave(n)]);
            t.listeners == h.listeners && t.book == h.book && t.open == h.open && forall id: nat :: SetAt(t, id) == SetAt(h, id)
  {
    var h := HubAfter(ops);
    HubHolds(ops);
    assert (ops + [Leave(n)])[..|ops|] == ops;
    if n < |h.calls| {
      var handle := h.book.handles[n];
      assert HandleHolds(h.book.maps, handle);
      LeaveSeats(h.book.maps, handle, handle.at);
      SpentDeaf(h, n);
    }
  }

  ghost function HubHeld(h: Hub): nat {
    Held(h.book.maps) + |h.listeners|
  }

  lemma {:induction false} SeatsMeanOpen(h: Hub)
    requires SeatsOpen(h) && h.book.maps.businesses != map[]
    ensures h.open != {}
  {
    var at := SomeSeat(h.book.maps);
    assert SeatNow(h.book.maps, at).value.token in h.open;
  }

  lemma {:induction false} ListenersMeanOpen(h: Hub)
    requires ListenersHold(h)
    ensures h.listeners != map[] <==> h.open != {}
  {
    if h.listeners != map[] {
      var key :| key in h.listeners;
      assert KeyHolds(h, key) && SetHolds(h, h.listeners[key]);
      var n :| n in SetAt(h, h.listeners[key]);
      assert n in h.open;
    }
    if h.open != {} {
      var n :| n in h.open;
      assert OpenHolds(h, n) && CallHolds(h, h.calls[n]);
    }
  }

  /** Where each seat call sat, in the order called. */
  function PlacesOf(ops: seq<Op>): seq<Place> {
    if ops == [] then []
    else PlacesOf(ops[..|ops| - 1]) + match ops[|ops| - 1]
                                      case Join(b, t, session) => [Place(b, t, session.sessionId)]
                                      case _ => []
  }

  /** The seat calls not yet left, said without the hub. */
  function StillOpen(ops: seq<Op>): set<nat> {
    if ops == [] then {}
    else
      var before := StillOpen(ops[..|ops| - 1]);
      match ops[|ops| - 1]
      case Join(_, _, _) => before + {Joins(ops[..|ops| - 1])}
      case Leave(n) => before - {n}
      case Mark(_, _) => before
  }

  predicate CallsAre(h: Hub, places: seq<Place>) {
    |h.calls| == |places| && forall i :: 0 <= i < |places| ==> h.calls[i].at == places[i]
  }

  lemma {:induction false} HubNextIs(h: Hub, op: Op)
    ensures var t := HubNext(h, op);
            && (op.Join? ==> t.open == h.open + {|h.calls|} && |t.calls| == |h.calls| + 1 && t.calls[..|h.calls|] == h.calls
                             && t.calls[|h.calls|].at == Place(op.business, op.topic, op.session.sessionId))
            && (!op.Join? ==> t.calls == h.calls)
            && (op.Leave? ==> t.open == if op.n < |h.calls| then h.open - {op.n} else h.open)
            && (op.Mark? ==> t.open == h.open)
            && (t.book == if op.Leave? && op.n >= |h.calls| then h.book else Apply(h.book, op))
  {
  }

  /** The hub's book is the book, and its calls the seat calls made and not left. */
  lemma {:induction false} HubIsBookAndCalls(ops: seq<Op>)
    ensures var h := HubAfter(ops);
            && h.book == After(ops) && CallsAre(h, PlacesOf(ops)) && |PlacesOf(ops)| == Joins(ops) == |After(ops).handles|
            && h.open == StillOpen(ops) && forall n :: n in StillOpen(ops) ==> n < Joins(ops)
  {
    if ops != [] {
      var k := |ops| - 1;
      HubIsBookAndCalls(ops[..k]);
      HubNextIs(HubAfter(ops[..k]), ops[k]);
      var h := HubAfter(ops[..k]);
      if ops[k].Leave? && ops[k].n >= |h.calls| {
        assert h.open - {ops[k].n} == h.open;
      }
    }
  }

  /** Who is told of a change at a key: exactly the seat calls made there and not yet left. */
  lemma {:induction false} ListenersAre(ops: seq<Op>, key: string, n: nat)
    ensures var h := HubAfter(ops);
            key in h.listeners && n in SetAt(h, h.listeners[key]) <==>
              n in StillOpen(ops) && n < |PlacesOf(ops)| && KeyOf(PlacesOf(ops)[n]) == key
  {
    var h := HubAfter(ops);
    HubHolds(ops);
    HubIsBookAndCalls(ops);
    if key in h.listeners && n in SetAt(h, h.listeners[key]) {
      assert SetHolds(h, h.listeners[key]);
      assert CallHolds(h, h.calls[n]) && OneKey(h, key, KeyOf(h.calls[n].at));
    }
    if n in h.open {
      assert OpenHolds(h, n) && CallHolds(h, h.calls[n]);
    }
  }

  /** The hub holds nothing exactly when every seat call has left, whatever leaves came late or twice. */
  lemma {:induction false} HubHoldsNothingWhenAllLeft(ops: seq<Op>)
    ensures HubHeld(HubAfter(ops)) == 0 <==> StillOpen(ops) == {}
  {
    var h := HubAfter(ops);
    HubHolds(ops);
    HubIsBookAndCalls(ops);
    ListenersMeanOpen(h);
    if h.book.maps.businesses != map[] {
      SeatsMeanOpen(h);
      assert |h.book.maps.businesses| > 0;
    } else {
      assert HeldPer(h.book.maps, h.book.maps.businesses) == map[];
      assert |h.listeners| == 0 <==> h.listeners == map[];
    }
  }

  // ------------------------------------------------------------------ the book's own code

  /** The book: its maps by identity, and what it said changed. */
  class PresenceBook {
    var seats: map<nat, Topic>
    var topics: map<nat, map<string, nat>>
    var businesses: map<string, nat>
    var next: nat
    var joins: nat
    var announced: seq<(string, string)>
    var handles: seq<Handle>

    function Maps(): Heap
      reads this
    {
      Heap(seats, topics, businesses, next, joins)
    }

    ghost function View(): State
      reads this
    {
      State(Maps(), handles)
    }

    constructor ()
      ensures View() == State(EMPTY, []) && announced == []
    {
      seats, topics, businesses, next, joins := map[], map[], map[], 0, 0;
      announced, handles := [], [];
    }

    /** Only a staff seat's change is told, and of it the business and topic. */
    method Announce(at: Place, seat: Seat)
      modifies this`announced
      ensures announced == old(announced) + if seat.session.side.Staff? then [(at.business, at.topic)] else []
    {
      if seat.session.side.Staff? {
        announced := announced + [(at.business, at.topic)];
      }
    }

    /** The maps a join seats in, found or made. */
    method Room(business: string, topic: string) returns (held: nat, there: nat)
      modifies this`seats, this`topics, this`businesses, this`next
      ensures Maps() == RoomFor(old(Maps()), business, topic)
      ensures held == BusinessId(Maps(), business) && there == SeatsId(Maps(), held, topic)
    {
      if business !in businesses {
        businesses, topics, next := businesses[business := next], topics[next := map[]], next + 1;
      }
      held := businesses[business];
      assert Maps() == WithBusiness(old(Maps()), business);
      var known := if held in topics then topics[held] else map[];
      if topic !in known {
        known := known[topic := next];
        topics, seats, next := topics[held := known], seats[next := []], next + 1;
      }
      there := known[topic];
    }

    method Join(business: string, topic: string, session: Session) returns (handle: Handle)
      modifies this
      ensures View() == Apply(old(View()), Op.Join(business, topic, session)) && handles == old(handles) + [handle]
      ensures announced == old(announced) + if session.side.Staff? then [(business, topic)] else []
    {
      var held, there := Room(business, topic);
      var seat := Seat(joins, session, None);
      seats := seats[there := WithSeat(if there in seats then seats[there] else [], seat)];
      handle := Handle(Place(business, topic, session.sessionId), held, there, joins);
      joins := joins + 1;
      handles := handles + [handle];
      Announce(handle.at, seat);
    }

    /** What a join returned, called for the first time or again: it looks only in the maps it holds on to. */
    method Leave(handle: Handle, ghost n: nat)
      requires n < |handles| && handles[n] == handle
      modifies this
      ensures View() == Apply(old(View()), Op.Leave(n))
      ensures announced == old(announced)
                           + if Own(old(Maps()), handle) && SeatIn(SeatsAt(old(Maps()), handle.seats), handle.at.sessionId).value.session.side.Staff?
                             then [(handle.at.business, handle.at.topic)] else []
    {
      var held := if handle.seats in seats then seats[handle.seats] else [];
      var seat := SeatIn(held, handle.at.sessionId);
      if seat.None? || seat.value.token != handle.token {
        return;
      }
      held := WithoutSeat(held, handle.at.sessionId);
      seats := seats[handle.seats := held];
      assert Maps() == Unseated(old(Maps()), handle);
      var known := if handle.topics in topics then topics[handle.topics] else map[];
      if |held| == 0 && handle.at.topic in known && known[handle.at.topic] == handle.seats {
        known := known - {handle.at.topic};
        topics := topics[handle.topics := known];
      }
      assert Maps() == DropTopic(Unseated(old(Maps()), handle), handle) && known == TopicsAt(Maps(), handle.topics);
      if known == map[] && handle.at.business in businesses && businesses[handle.at.business] == handle.topics {
        businesses := businesses - {handle.at.business};
      }
      Announce(handle.at, seat.value);
    }

    method Mark(at: Place, field: Option<string>) returns (marked: bool)
      modifies this
      ensures View() == Apply(old(View()), Op.Mark(at, field))
      ensures marked <==> SeatNow(old(Maps()), at).Some? && SeatNow(old(Maps()), at).value.session.side.Staff?
      ensures announced == old(announced)
                           + if marked && SeatNow(old(Maps()), at).value.field != field then [(at.business, at.topic)] else []
    {
      var seat := SeatNow(Maps(), at);
      if seat.None? || !seat.value.session.side.Staff? {
        return false;
      }
      marked := true;
      if seat.value.field == field {
        return;
      }
      var there := SeatsNow(Maps(), at).value;
      seats := seats[there := WithSeat(if there in seats then seats[there] else [], seat.value.(field := field))];
      Announce(at, seat.value);
    }

    /** Who else a joined staff session sees: nothing for a client, or a session not seated. */
    method SeenBy(at: Place) returns (views: seq<Sight>)
      ensures views == match SeatNow(Maps(), at)
                       case None => []
                       case Some(viewer) =>
                         if viewer.session.side.Staff? then Seen(SeatsAt(Maps(), SeatsNow(Maps(), at).value), viewer.session.personId) else []
    {
      var viewer := SeatNow(Maps(), at);
      views := [];
      if viewer.None? || !viewer.value.session.side.Staff? {
        return;
      }
      var held := SeatsAt(Maps(), SeatsNow(Maps(), at).value);
      for i := 0 to |held|
        invariant views == Seen(held[..i], viewer.value.session.personId)
      {
        assert held[..i + 1][..i] == held[..i];
        views := Told(views, viewer.value.session.personId, held[i]);
      }
      assert held[..|held|] == held;
    }

    method CountTopics(id: nat) returns (count: nat)
      ensures count == HeldIn(Maps(), id)
    {
      var sizes := SumOf(Sizes(Maps(), id));
      count := |TopicsAt(Maps(), id)| + sizes;
    }

    /** What the proof that a leaving keeps nothing reads. */
    method Count() returns (count: nat)
      ensures count == Held(Maps())
    {
      count := |businesses|;
      var rest := businesses;
      while rest != map[]
        invariant count + SumValues(HeldPer(Maps(), rest)) == Held(Maps())
        decreases |rest|
      {
        var b :| b in rest;
        HeldWithout(Maps(), rest, b);
        var more := CountTopics(rest[b]);
        count, rest := count + more, rest - {b};
      }
      assert HeldPer(Maps(), rest) == map[];
    }
  }

  lemma {:induction false} HeldWithout(m: Heap, businesses: map<string, nat>, b: string)
    requires b in businesses
    ensures SumValues(HeldPer(m, businesses)) == HeldIn(m, businesses[b]) + SumValues(HeldPer(m, businesses - {b}))
    ensures |businesses - {b}| < |businesses|
  {
    assert HeldPer(m, businesses) - {b} == HeldPer(m, businesses - {b});
    SumValuesWithout(HeldPer(m, businesses), b);
    assert (businesses - {b}).Keys == businesses.Keys - {b};
  }

  /** The hub over a book of its own. */
  class LivePresenceHub {
    const book: PresenceBook
    var sets: map<nat, set<nat>>
    var listeners: map<string, nat>
    var nextSet: nat
    var calls: seq<Call>
    ghost var open: set<nat>

    ghost function View(): Hub
      reads this, book
    {
      Hub(book.View(), sets, listeners, nextSet, calls, open)
    }

    constructor ()
      ensures View() == NO_HUB && fresh(book)
    {
      book := new PresenceBook();
      sets, listeners, nextSet, calls, open := map[], map[], 0, [], {};
    }

    method Listen(at: Place) returns (n: nat)
      modifies this
      ensures View() == Listening(old(View()), at) && n == |old(calls)|
    {
      var key := KeyOf(at);
      n := |calls|;
      var known := key in listeners;
      var own := if known then listeners[key] else nextSet;
      var held := if known && own in sets then sets[own] else {};
      sets, listeners, nextSet := sets[own := held + {n}], listeners[key := own], if known then nextSet else nextSet + 1;
      calls, open := calls + [Call(at, own)], open + {n};
    }

    method Sit(business: string, topic: string, session: Session) returns (n: nat)
      modifies this, book
      ensures View() == HubNext(old(View()), Op.Join(business, topic, session)) && n == |old(calls)|
    {
      n := Listen(Place(business, topic, session.sessionId));
      var handle := book.Join(business, topic, session);
    }

    /** What a seat call returned, called for the first time or again. */
    method Go(n: nat)
      requires n < |calls| && n < |book.handles|
      modifies this, book
      ensures View() == HubNext(old(View()), Op.Leave(n))
    {
      var c := calls[n];
      var rest := (if c.own in sets then sets[c.own] else {}) - {n};
      sets := sets[c.own := rest];
      if rest == {} && KeyOf(c.at) in listeners && listeners[KeyOf(c.at)] == c.own {
        listeners := listeners - {KeyOf(c.at)};
      }
      open := open - {n};
      book.Leave(book.handles[n], n);
    }
  }
}
