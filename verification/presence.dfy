/**
 * apps/api/presence.ts: one topic's seats, and what a viewer sees of them. A
 * seat's token stands for its object's identity. The maps that keep the topics,
 * and the leaves that hold on to them, are `PresenceMaps`.
 */
module Presence {
  import opened Lists

  datatype Side = Staff | Client

  datatype Session = Session(sessionId: string, personId: string, name: string, side: Side)

  datatype Seat = Seat(token: nat, session: Session, field: Option<string>)

  /** One seat a session, where a map's insertion keeps them. */
  type Topic = seq<Seat>

  /** A place to sit: a business, its topic and a session. */
  datatype Place = Place(business: string, topic: string, sessionId: string)

  // ------------------------------------------------------------------ one topic

  function SeatIn(seats: Topic, sessionId: string): Option<Seat> {
    if seats == [] then None
    else if seats[0].session.sessionId == sessionId then Some(seats[0])
    else SeatIn(seats[1..], sessionId)
  }

  /** A map's `set`: in the place of the seat it replaces, or last. */
  function WithSeat(seats: Topic, seat: Seat): Topic {
    if seats == [] then [seat]
    else if seats[0].session.sessionId == seat.session.sessionId then [seat] + seats[1..]
    else [seats[0]] + WithSeat(seats[1..], seat)
  }

  function WithoutSeat(seats: Topic, sessionId: string): Topic {
    if seats == [] then []
    else if seats[0].session.sessionId == sessionId then seats[1..]
    else [seats[0]] + WithoutSeat(seats[1..], sessionId)
  }

  ghost predicate OnePerSession(seats: Topic) {
    forall i, j :: 0 <= i < j < |seats| ==> seats[i].session.sessionId != seats[j].session.sessionId
  }

  lemma {:induction false} SeatInMeans(seats: Topic, sessionId: string)
    ensures SeatIn(seats, sessionId).None? <==> forall i :: 0 <= i < |seats| ==> seats[i].session.sessionId != sessionId
    ensures SeatIn(seats, sessionId).Some? ==>
              SeatIn(seats, sessionId).value in seats && SeatIn(seats, sessionId).value.session.sessionId == sessionId
  {
    if seats != [] && seats[0].session.sessionId != sessionId {
      SeatInMeans(seats[1..], sessionId);
    }
  }

  lemma {:induction false} WithSeatMeans(seats: Topic, seat: Seat, sessionId: string)
    requires OnePerSession(seats)
    ensures OnePerSession(WithSeat(seats, seat)) && WithSeat(seats, seat) != []
    ensures SeatIn(WithSeat(seats, seat), sessionId)
         == if sessionId == seat.session.sessionId then Some(seat) else SeatIn(seats, sessionId)
    ensures forall x :: x in WithSeat(seats, seat) ==> x == seat || x in seats
  {
    if seats != [] && seats[0].session.sessionId != seat.session.sessionId {
      WithSeatMeans(seats[1..], seat, sessionId);
      var rest := WithSeat(seats[1..], seat);
      forall j | 0 <= j < |rest| ensures rest[j].session.sessionId != seats[0].session.sessionId {
        assert rest[j] in rest;
      }
    }
  }

  lemma {:induction false} WithoutSeatMeans(seats: Topic, sessionId: string, other: string)
    requires OnePerSession(seats)
    ensures OnePerSession(WithoutSeat(seats, sessionId))
    ensures SeatIn(WithoutSeat(seats, sessionId), other) == if other == sessionId then None else SeatIn(seats, other)
    ensures forall x :: x in WithoutSeat(seats, sessionId) ==> x in seats
  {
    if seats != [] {
      if seats[0].session.sessionId == sessionId {
        SeatInMeans(seats[1..], sessionId);
      } else {
        WithoutSeatMeans(seats[1..], sessionId, other);
        var rest := WithoutSeat(seats[1..], sessionId);
        forall j | 0 <= j < |rest| ensures rest[j].session.sessionId != seats[0].session.sessionId {
          assert rest[j] in rest;
        }
      }
    }
  }

  // ------------------------------------------------------------------ who is seen

  datatype Sight = Sight(personId: string, name: string, field: Option<string>)

  function ViewIn(views: seq<Sight>, personId: string): Option<Sight> {
    if views == [] then None else if views[0].personId == personId then Some(views[0]) else ViewIn(views[1..], personId)
  }

  function WithView(views: seq<Sight>, v: Sight): seq<Sight> {
    if views == [] then [v]
    else if views[0].personId == v.personId then [v] + views[1..]
    else [views[0]] + WithView(views[1..], v)
  }

  function Told(views: seq<Sight>, viewer: string, seat: Seat): seq<Sight> {
    var known := ViewIn(views, seat.session.personId);
    if !seat.session.side.Staff? || seat.session.personId == viewer then views
    else if known.Some? && (known.value.field.Some? || seat.field.None?) then views
    else WithView(views, Sight(seat.session.personId, seat.session.name, seat.field))
  }

  function Seen(seats: seq<Seat>, viewer: string): seq<Sight> {
    if seats == [] then [] else Told(Seen(seats[..|seats| - 1], viewer), viewer, seats[|seats| - 1])
  }

  /** A staff seat of this person, other than the viewer. */
  predicate Theirs(seat: Seat, viewer: string, personId: string) {
    seat.session.side.Staff? && seat.session.personId == personId && personId != viewer
  }

  /** The first field any of their seats is changing. */
  function FirstChange(seats: seq<Seat>, viewer: string, personId: string): Option<string> {
    if seats == [] then None
    else
      var before := FirstChange(seats[..|seats| - 1], viewer, personId);
      if before.Some? then before
      else if Theirs(seats[|seats| - 1], viewer, personId) then seats[|seats| - 1].field
      else None
  }

  predicate Sits(seats: seq<Seat>, viewer: string, personId: string) {
    exists i :: 0 <= i < |seats| && Theirs(seats[i], viewer, personId)
  }

  ghost predicate OnePerPerson(views: seq<Sight>) {
    forall i, j :: 0 <= i < j < |views| ==> views[i].personId != views[j].personId
  }

  lemma {:induction false} WithViewMeans(views: seq<Sight>, v: Sight, personId: string)
    requires OnePerPerson(views)
    ensures OnePerPerson(WithView(views, v))
    ensures ViewIn(WithView(views, v), personId) == if personId == v.personId then Some(v) else ViewIn(views, personId)
    ensures forall x :: x in WithView(views, v) ==> x == v || x in views
  {
    if views != [] && views[0].personId != v.personId {
      WithViewMeans(views[1..], v, personId);
      var rest := WithView(views[1..], v);
      forall j | 0 <= j < |rest| ensures rest[j].personId != views[0].personId {
        assert rest[j] in rest;
      }
    }
  }

  /** Each other staff person is seen once, changing exactly when some seat of theirs is, and then the first field of these. */
  lemma {:induction false} SeenMeans(seats: seq<Seat>, viewer: string, personId: string)
    ensures OnePerPerson(Seen(seats, viewer))
    ensures ViewIn(Seen(seats, viewer), personId).Some? <==> Sits(seats, viewer, personId)
    ensures ViewIn(Seen(seats, viewer), personId).Some? ==>
              ViewIn(Seen(seats, viewer), personId).value.field == FirstChange(seats, viewer, personId)
  {
    if seats != [] {
      var before, seat := seats[..|seats| - 1], seats[|seats| - 1];
      SeenMeans(before, viewer, personId);
      WithViewMeans(Seen(before, viewer), Sight(seat.session.personId, seat.session.name, seat.field), personId);
      assert Sits(seats, viewer, personId) <==> Sits(before, viewer, personId) || Theirs(seat, viewer, personId) by {
        assert forall i :: 0 <= i < |before| ==> before[i] == seats[i];
      }
      NoneChanging(before, viewer, personId);
    }
  }

  lemma {:induction false} NoneChanging(seats: seq<Seat>, viewer: string, personId: string)
    ensures FirstChange(seats, viewer, personId).Some? <==>
              exists i :: 0 <= i < |seats| && Theirs(seats[i], viewer, personId) && seats[i].field.Some?
  {
    if seats != [] {
      NoneChanging(seats[..|seats| - 1], viewer, personId);
    }
  }
}
