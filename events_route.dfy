/** The events endpoint (app/api/events/route.ts): creation by any signed-in user, and a listing that is
    either every event with a given status or every event from now on, earliest first. */
module EventsRoute {
  import opened Wrappers
  import opened SharedTypes
  import opened Server
  import Seqs

  /** An event row; `date` in milliseconds. */
  datatype Event = Event(id: string, title: string, description: string, date: int, eventType: string, status: string)

  datatype EventBody = EventBody(title: Option<string>, description: Option<string>, date: Option<string>,
                                 eventType: Option<string>, status: Option<string>)

  datatype Body = Error(message: string) | CreatedEvent(event: Event) | Listing(events: seq<Event>)

  datatype Outcome = Outcome(response: Response<Body>, events: seq<Event>)

  predicate Complete(b: EventBody) {
    Truthy(b.title) && Truthy(b.description) && Truthy(b.date) && Truthy(b.eventType) && Truthy(b.status)
  }

  /** POST /api/events. `parseDate` is `new Date(text)` (None for an invalid date, which the insert
      rejects); `create` is the insert's outcome. */
  function HandlePost(authUserId: Option<string>, body: Json<EventBody>, parseDate: string -> Option<int>,
                      events: seq<Event>, create: CreateOutcome): (r: Outcome)
    ensures !Truthy(authUserId) ==> r == Outcome(Response(UNAUTHORIZED, Error("Unauthorized")), events)
    ensures Truthy(authUserId) && body.Parsed? && !Complete(body.value) ==>
      r == Outcome(Response(BAD_REQUEST, Error("Missing required fields")), events)
    ensures Truthy(authUserId) && body.Malformed? ==>
      r == Outcome(Response(INTERNAL_SERVER_ERROR, Error("Failed to create event")), events)
    ensures Truthy(authUserId) && body.Parsed? && Complete(body.value) ==>
      var b := body.value;
      match (create, parseDate(b.date.value))
      case (Created(id, _), Some(date)) =>
        var e := Event(id, b.title.value, b.description.value, date, b.eventType.value, b.status.value);
        r == Outcome(Response(CREATED, CreatedEvent(e)), events + [e])
      case _ => r == Outcome(Response(INTERNAL_SERVER_ERROR, Error("Failed to create event")), events)
    ensures r.events != events <==> r.response.status == CREATED
    ensures r.response.status in {CREATED, BAD_REQUEST, UNAUTHORIZED, INTERNAL_SERVER_ERROR}
  {
    if !Truthy(authUserId) then
      Outcome(Response(UNAUTHORIZED, Error("Unauthorized")), events)
    else match body
      case Malformed => Outcome(Response(INTERNAL_SERVER_ERROR, Error("Failed to create event")), events)
      case Parsed(b) =>
        if !Complete(b) then
          Outcome(Response(BAD_REQUEST, Error("Missing required fields")), events)
        else match (create, parseDate(b.date.value))
          case (Created(id, _), Some(date)) =>
            var e := Event(id, b.title.value, b.description.value, date, b.eventType.value, b.status.value);
            Outcome(Response(CREATED, CreatedEvent(e)), events + [e])
          case _ => Outcome(Response(INTERNAL_SERVER_ERROR, Error("Failed to create event")), events)
  }

  /** Every authenticated caller with a complete body and a working store creates the event:
      no role is looked at. */
  lemma AnySignedInUserCreates(authUserId: Option<string>, b: EventBody, parseDate: string -> Option<int>,
                               events: seq<Event>, id: string, at: int)
    requires Truthy(authUserId) && Complete(b) && parseDate(b.date.value).Some?
    ensures HandlePost(authUserId, Parsed(b), parseDate, events, Created(id, at)).response.status == CREATED
  {
  }

  /** The listing's filter: the given status when there is one, otherwise a date not before `now`. */
  predicate Selected(e: Event, statusFilter: Option<string>, now: int) {
    if Truthy(statusFilter) then e.status == statusFilter.value else e.date >= now
  }

  /** GET /api/events?status=…; `readFails` stands for a store query that throws. */
  function HandleGet(statusFilter: Option<string>, now: int, events: seq<Event>, readFails: bool): (r: Response<Body>)
    ensures readFails ==> r == Response(INTERNAL_SERVER_ERROR, Error("Failed to fetch events"))
    ensures !readFails ==> r.status == OK && r.body.Listing?
    ensures r.body.Listing? && Truthy(statusFilter) ==>
      forall e :: e in r.body.events <==> e in events && e.status == statusFilter.value
    ensures r.body.Listing? && !Truthy(statusFilter) ==>
      forall e :: e in r.body.events <==> e in events && e.date >= now
    ensures r.body.Listing? ==>
      && multiset(r.body.events) == multiset(Seqs.Filter(events, (e: Event) => Selected(e, statusFilter, now)))
      && forall i, j :: 0 <= i < j < |r.body.events| ==> r.body.events[i].date <= r.body.events[j].date
  {
    if readFails then
      Response(INTERNAL_SERVER_ERROR, Error("Failed to fetch events"))
    else
      var selected := Seqs.Filter(events, (e: Event) => Selected(e, statusFilter, now));
      var ordered := Seqs.SortBy(selected, (e: Event) => e.date);
      assert forall e :: e in ordered <==> e in events && Selected(e, statusFilter, now) by {
        forall e ensures e in ordered <==> e in events && Selected(e, statusFilter, now) {
          Seqs.SortByMembers(selected, (e: Event) => e.date, e);
          if e in events && Selected(e, statusFilter, now) {
            var k :| 0 <= k < |events| && events[k] == e;
          }
          if e in selected {
            var k :| 0 <= k < |selected| && selected[k] == e;
          }
        }
      }
      Response(OK, Listing(ordered))
  }
}
