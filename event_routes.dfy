/** The handlers of the events blueprint (app/routes/events.py) over the in-memory tables. */
module EventRoutes {
  import opened Common
  import opened UserModel
  import opened EventModel
  import opened AuthGuards
  import opened Store

  const EVENT_NOT_FOUND: string := "Event not found"
  const MISSING_FIELDS: string := "Missing required fields"
  const INVALID_DATETIME: string := "Invalid datetime format"
  const END_BEFORE_START: string := "End time must be after start time"
  const PERMISSION_DENIED: string := "Permission denied"
  const INVALID_START: string := "Invalid start time format"
  const INVALID_END: string := "Invalid end time format"
  const NOT_PUBLISHED: string := "Event is not published"
  const ALREADY_REGISTERED: string := "Already registered for this event"
  const FULL_CAPACITY: string := "Event is at full capacity"
  const NOT_REGISTERED: string := "Not registered for this event"

  /** A timestamp field of a JSON body: an ISO string that parses to a time, or one that does not. */
  datatype TimeInput = Parsed(time: int) | Unparseable

  /**
   * The JSON body of a create or update request; `None` is a key that is absent. `capacity` is
   * `Some(None)` when the key is present with `null`.
   */
  datatype EventPayload = EventPayload(
    title: Option<string>,
    description: Option<string>,
    location: Option<string>,
    startTime: Option<TimeInput>,
    endTime: Option<TimeInput>,
    capacity: Option<Option<int>>,
    isPublished: Option<bool>)

  /** Whether a create request carries every required key: title, description, location and both times. */
  predicate Complete(data: EventPayload)
  {
    data.title.Some? && data.description.Some? && data.location.Some? && data.startTime.Some? && data.endTime.Some?
  }

  /** The value a time field takes in an update: the parsed body value when the key is present, the stored one otherwise. */
  function UpdatedTime(input: Option<TimeInput>, current: int): int
    requires input != Some(Unparseable)
  {
    if input.Some? then input.value.time else current
  }

  /** The body of `GET /<id>/attendees`. */
  datatype AttendeeList = AttendeeList(eventId: int, eventTitle: string, attendeeCount: int, attendees: seq<UserView>)

  /** The events kept by `keep`, each as its `to_dict` view. */
  function Select(events: map<int, Event>, keep: Event -> bool): (r: map<int, EventView>)
    ensures forall id :: id in r <==> id in events && keep(events[id])
    ensures forall id :: id in r ==> r[id] == ToDict(events[id])
  {
    map id | id in events && keep(events[id]) :: ToDict(events[id])
  }

  /** `get_events`: the published events and no others. */
  function GetEvents(events: map<int, Event>): (r: map<int, EventView>)
    ensures forall id :: id in r <==> id in events && events[id].isPublished
    ensures forall id :: id in r ==> r[id] == ToDict(events[id]) && r[id].isPublished
  {
    Select(events, (e: Event) => e.isPublished)
  }

  /** `get_all_events`: every event for an admin; a publisher's own events and the published ones otherwise. */
  function GetAllEvents(users: map<int, User>, events: map<int, Event>, caller: int): (r: Reply<map<int, EventView>>)
    requires UsersValid(users)
    ensures PublisherRequired(users, caller).Deny? ==>
              r == Fail(PublisherRequired(users, caller).status, PublisherRequired(users, caller).message)
    ensures r.Ok? ==> caller in users && IsPublisher(users[caller]) && r.status == 200
    ensures r.Ok? && IsAdmin(users[caller]) ==> r.body.Keys == events.Keys
    ensures r.Ok? && !IsAdmin(users[caller]) ==>
              forall id :: id in r.body <==> id in events && (events[id].publisherId == caller || events[id].isPublished)
  {
    match PublisherRequired(users, caller)
    case Deny(status, message) => Fail(status, message)
    case Pass(user) =>
      if IsAdmin(user) then Ok(200, Select(events, (e: Event) => true))
      else Ok(200, Select(events, (e: Event) => e.publisherId == user.id || e.isPublished))
  }

  /** Whether the requester may see an unpublished event: its publisher or an admin. */
  predicate MaySeeDraft(users: map<int, User>, caller: Option<int>, e: Event)
  {
    caller.Some? && caller.value in users &&
    (users[caller.value].id == e.publisherId || IsAdmin(users[caller.value]))
  }

  /**
   * `get_event`. `caller` is the identity of the request's token, `None` for an anonymous request.
   * A hidden draft gets the very answer a missing id gets.
   */
  function GetEvent(users: map<int, User>, events: map<int, Event>, caller: Option<int>, eventId: int): (r: Reply<EventView>)
    ensures r.Fail? ==> r == Fail(404, EVENT_NOT_FOUND)
    ensures r.Ok? <==> eventId in events && (events[eventId].isPublished || MaySeeDraft(users, caller, events[eventId]))
    ensures r.Ok? ==> r == Ok(200, ToDict(events[eventId]))
  {
    if eventId !in events then Fail(404, EVENT_NOT_FOUND)
    else
      var e := events[eventId];
      if !e.isPublished then
        match caller
        case None => Fail(404, EVENT_NOT_FOUND)
        case Some(id) =>
          match GetCurrentUser(users, id)
          case None => Fail(404, EVENT_NOT_FOUND)
          case Some(user) =>
            if user.id != e.publisherId && !IsAdmin(user) then Fail(404, EVENT_NOT_FOUND)
            else Ok(200, ToDict(e))
      else Ok(200, ToDict(e))
  }

  /** The listings agree with the detail view: whatever a listing shows, `get_event` shows to the same requester. */
  lemma ListingsAgreeWithDetail(users: map<int, User>, events: map<int, Event>, caller: int, eventId: int)
    requires UsersValid(users)
    ensures eventId in GetEvents(events) ==> GetEvent(users, events, None, eventId).Ok?
    ensures GetAllEvents(users, events, caller).Ok? && eventId in GetAllEvents(users, events, caller).body ==>
              GetEvent(users, events, Some(caller), eventId).Ok?
  {
  }

  /** `get_my_events`: the caller's own events, refused with 403 to anyone without publisher rights. */
  function GetMyEvents(users: map<int, User>, events: map<int, Event>, caller: int): (r: Reply<map<int, EventView>>)
    requires UsersValid(users) && caller in users
    ensures r.Fail? <==> !IsPublisher(users[caller])
    ensures r.Fail? ==> r == Fail(403, PERMISSION_DENIED)
    ensures r.Ok? ==> forall id :: id in r.body <==> id in events && events[id].publisherId == caller
  {
    if !IsPublisher(users[caller]) then Fail(403, PERMISSION_DENIED)
    else Ok(200, Select(events, (e: Event) => e.publisherId == users[caller].id))
  }

  /** `get_my_registrations`: the events whose attendees include the caller. */
  function GetMyRegistrations(events: map<int, Event>, caller: int): (r: map<int, EventView>)
    ensures forall id :: id in r <==> id in events && caller in events[id].attendees
  {
    Select(events, (e: Event) => caller in e.attendees)
  }

  /** `get_event_attendees`: 404 for a missing event, 403 unless owner or admin, then the attendee rows. */
  function GetEventAttendees(users: map<int, User>, events: map<int, Event>, caller: int, eventId: int): (r: Reply<AttendeeList>)
    requires UsersValid(users) && EventsValid(users, events) && caller in users
    ensures eventId !in events ==> r == Fail(404, EVENT_NOT_FOUND)
    ensures eventId in events && events[eventId].publisherId != caller && !IsAdmin(users[caller]) ==>
              r == Fail(403, PERMISSION_DENIED)
    ensures eventId in events && OwnerOrAdmin(users[caller], events[eventId]) ==> r.Ok?
    ensures r.Ok? ==> eventId in events && r.status == 200
    ensures r.Ok? ==> r.body.attendeeCount == |r.body.attendees| == |events[eventId].attendees|
    ensures r.Ok? ==> forall i :: 0 <= i < |r.body.attendees| ==>
              events[eventId].attendees[i] in users && r.body.attendees[i] == ToView(users[events[eventId].attendees[i]])
  {
    if eventId !in events then Fail(404, EVENT_NOT_FOUND)
    else
      var e := events[eventId];
      var user := users[caller];
      if e.publisherId != user.id && !IsAdmin(user) then Fail(403, PERMISSION_DENIED)
      else
        AttendeesAreUsers(users, events, eventId);
        var rows := seq(|e.attendees|, i requires 0 <= i < |e.attendees| => ToView(users[e.attendees[i]]));
        Ok(200, AttendeeList(e.id, e.title, |rows|, rows))
  }

  /** Every attendee of a stored event is a stored user. */
  lemma AttendeesAreUsers(users: map<int, User>, events: map<int, Event>, eventId: int)
    requires EventsValid(users, events) && eventId in events
    ensures forall i :: 0 <= i < |events[eventId].attendees| ==> events[eventId].attendees[i] in users
  {
    forall i | 0 <= i < |events[eventId].attendees|
      ensures events[eventId].attendees[i] in users
    {
      var uid := events[eventId].attendees[i];
      assert eventId in events && uid in events[eventId].attendees;
      assert uid in users;
    }
  }

  /** Whether the caller owns the event or is an admin: the check of update, delete and attendees. */
  predicate OwnerOrAdmin(user: User, e: Event)
  {
    e.publisherId == user.id || IsAdmin(user)
  }

  /** The event after the field-wise assignments of `update_event` (its time fields already parsed). */
  function Merge(e: Event, data: EventPayload, start: int, end: int): (m: Event)
    ensures m.title == (if data.title.Some? then data.title.value else e.title)
    ensures m.description == (if data.description.Some? then data.description.value else e.description)
    ensures m.location == (if data.location.Some? then data.location.value else e.location)
    ensures m.capacity == (if data.capacity.Some? then data.capacity.value else e.capacity)
    ensures m.isPublished == (if data.isPublished.Some? then data.isPublished.value else e.isPublished)
    ensures m.startTime == start && m.endTime == end
    ensures m.id == e.id && m.publisherId == e.publisherId && m.attendees == e.attendees
  {
    e.(title := match data.title case Some(t) => t case None => e.title,
       description := match data.description case Some(d) => d case None => e.description,
       location := match data.location case Some(l) => l case None => e.location,
       capacity := match data.capacity case Some(c) => c case None => e.capacity,
       isPublished := match data.isPublished case Some(p) => p case None => e.isPublished,
       startTime := start,
       endTime := end)
  }

  /** An update that carries no key leaves the event as it was. */
  lemma EmptyMergeIsIdentity(e: Event)
    ensures Merge(e, EventPayload(None, None, None, None, None, None, None), e.startTime, e.endTime) == e
  {
  }

  /** `create_event`. The new row takes the next id; `is_published` defaults to false. */
  method CreateEvent(db: Database, caller: int, data: EventPayload) returns (r: Reply<EventView>)
    requires db.Valid()
    modifies db
    ensures db.Valid()
    ensures db.users == old(db.users) && db.nextUserId == old(db.nextUserId)
    ensures PublisherRequired(old(db.users), caller).Deny? ==>
              r == Fail(PublisherRequired(old(db.users), caller).status, PublisherRequired(old(db.users), caller).message)
    ensures PublisherRequired(old(db.users), caller).Pass? && !Complete(data) ==> r == Fail(400, MISSING_FIELDS)
    ensures PublisherRequired(old(db.users), caller).Pass? && Complete(data) &&
            (data.startTime.value.Unparseable? || data.endTime.value.Unparseable?) ==>
              r == Fail(400, INVALID_DATETIME)
    ensures PublisherRequired(old(db.users), caller).Pass? && Complete(data) &&
            data.startTime.value.Parsed? && data.endTime.value.Parsed? ==>
              (r.Ok? <==> data.startTime.value.time < data.endTime.value.time) &&
              (r.Fail? ==> r == Fail(400, END_BEFORE_START))
    ensures r.Fail? ==> db.events == old(db.events) && db.nextEventId == old(db.nextEventId) && r.status in {400, 403, 404}
    ensures r.Ok? ==> data.startTime.Some? && data.startTime.value.Parsed? && data.endTime.Some? && data.endTime.value.Parsed?
    ensures r.Ok? ==> data.startTime.value.time < data.endTime.value.time
    ensures r.Ok? ==>
              var id := old(db.nextEventId);
              && id !in old(db.events)
              && id in db.events
              && db.events == old(db.events)[id := db.events[id]]
              && db.nextEventId == id + 1
              && r == Ok(201, ToDict(db.events[id]))
              && db.events[id] == Event(id, data.title.value, data.description.value, data.location.value,
                                        data.startTime.value.time, data.endTime.value.time,
                                        if data.capacity.Some? then data.capacity.value else None,
                                        data.isPublished == Some(true), caller, [])
  {
    var g := PublisherRequired(db.users, caller);
    if g.Deny? {
      return Fail(g.status, g.message);
    }
    if data.title.None? || data.description.None? || data.location.None? || data.startTime.None? || data.endTime.None? {
      return Fail(400, MISSING_FIELDS);
    }
    if data.startTime.value.Unparseable? || data.endTime.value.Unparseable? {
      return Fail(400, INVALID_DATETIME);
    }
    var start, end := data.startTime.value.time, data.endTime.value.time;
    if start >= end {
      return Fail(400, END_BEFORE_START);
    }
    var capacity := match data.capacity case Some(c) => c case None => None;
    var published := match data.isPublished case Some(p) => p case None => false;
    var id := db.nextEventId;
    var e := Event(id, data.title.value, data.description.value, data.location.value,
                   start, end, capacity, published, g.user.id, []);
    db.events := db.events[id := e];
    db.nextEventId := id + 1;
    r := Ok(201, ToDict(e));
  }

  /**
   * `update_event`. Every refusal returns before the commit, so the stored event keeps its old
   * fields; on success only the keys present in the body are overwritten and start precedes end.
   */
  method UpdateEvent(db: Database, caller: int, eventId: int, data: EventPayload) returns (r: Reply<EventView>)
    requires db.Valid()
    modifies db
    ensures db.Valid()
    ensures db.users == old(db.users) && db.nextUserId == old(db.nextUserId) && db.nextEventId == old(db.nextEventId)
    ensures PublisherRequired(old(db.users), caller).Deny? ==>
              r == Fail(PublisherRequired(old(db.users), caller).status, PublisherRequired(old(db.users), caller).message)
    ensures PublisherRequired(old(db.users), caller).Pass? && eventId !in old(db.events) ==> r == Fail(404, EVENT_NOT_FOUND)
    ensures (PublisherRequired(old(db.users), caller).Pass? && eventId in old(db.events) &&
             !OwnerOrAdmin(old(db.users)[caller], old(db.events)[eventId])) ==> r == Fail(403, PERMISSION_DENIED)
    ensures (PublisherRequired(old(db.users), caller).Pass? && eventId in old(db.events) &&
             OwnerOrAdmin(old(db.users)[caller], old(db.events)[eventId])) ==>
              var e := old(db.events)[eventId];
              && (data.startTime == Some(Unparseable) ==> r == Fail(400, INVALID_START))
              && (data.startTime != Some(Unparseable) && data.endTime == Some(Unparseable) ==> r == Fail(400, INVALID_END))
              && (data.startTime != Some(Unparseable) && data.endTime != Some(Unparseable) ==>
                    var start, end := UpdatedTime(data.startTime, e.startTime), UpdatedTime(data.endTime, e.endTime);
                    && (r.Ok? <==> start < end)
                    && (r.Fail? ==> r == Fail(400, END_BEFORE_START))
                    && (r.Ok? ==> eventId in db.events && db.events[eventId] == Merge(e, data, start, end)))
    ensures r.Fail? ==> db.events == old(db.events)
    ensures r.Ok? ==>
              && eventId in old(db.events)
              && OwnerOrAdmin(old(db.users)[caller], old(db.events)[eventId])
              && eventId in db.events
              && db.events == old(db.events)[eventId := db.events[eventId]]
              && db.events[eventId] == Merge(old(db.events)[eventId], data, db.events[eventId].startTime, db.events[eventId].endTime)
              && db.events[eventId].startTime < db.events[eventId].endTime
              && r == Ok(200, ToDict(db.events[eventId]))
    ensures r.Ok? && data.startTime.Some? ==> data.startTime.value == Parsed(db.events[eventId].startTime)
    ensures r.Ok? && data.startTime.None? ==> db.events[eventId].startTime == old(db.events)[eventId].startTime
    ensures r.Ok? && data.endTime.Some? ==> data.endTime.value == Parsed(db.events[eventId].endTime)
    ensures r.Ok? && data.endTime.None? ==> db.events[eventId].endTime == old(db.events)[eventId].endTime
  {
    var g := PublisherRequired(db.users, caller);
    if g.Deny? {
      return Fail(g.status, g.message);
    }
    if eventId !in db.events {
      return Fail(404, EVENT_NOT_FOUND);
    }
    var e := db.events[eventId];
    if e.publisherId != g.user.id && !IsAdmin(g.user) {
      return Fail(403, PERMISSION_DENIED);
    }
    var start := e.startTime;
    if data.startTime.Some? {
      if data.startTime.value.Unparseable? {
        return Fail(400, INVALID_START);
      }
      start := data.startTime.value.time;
    }
    var end := e.endTime;
    if data.endTime.Some? {
      if data.endTime.value.Unparseable? {
        return Fail(400, INVALID_END);
      }
      end := data.endTime.value.time;
    }
    if start >= end {
      return Fail(400, END_BEFORE_START);
    }
    var m := Merge(e, data, start, end);
    db.events := db.events[eventId := m];
    r := Ok(200, ToDict(m));
  }

  /** `delete_event`. After a successful delete the id is gone, so `get_event` answers 404 to everyone. */
  method DeleteEvent(db: Database, caller: int, eventId: int) returns (r: Reply<()>)
    requires db.Valid()
    modifies db
    ensures db.Valid()
    ensures db.users == old(db.users) && db.nextUserId == old(db.nextUserId) && db.nextEventId == old(db.nextEventId)
    ensures PublisherRequired(old(db.users), caller).Deny? ==>
              r == Fail(PublisherRequired(old(db.users), caller).status, PublisherRequired(old(db.users), caller).message)
    ensures PublisherRequired(old(db.users), caller).Pass? && eventId !in old(db.events) ==> r == Fail(404, EVENT_NOT_FOUND)
    ensures (PublisherRequired(old(db.users), caller).Pass? && eventId in old(db.events) &&
             !OwnerOrAdmin(old(db.users)[caller], old(db.events)[eventId])) ==> r == Fail(403, PERMISSION_DENIED)
    ensures r.Fail? ==> db.events == old(db.events)
    ensures r.Ok? <==> PublisherRequired(old(db.users), caller).Pass? && eventId in old(db.events) &&
                       OwnerOrAdmin(old(db.users)[caller], old(db.events)[eventId])
    ensures r.Ok? ==> r.status == 200 && db.events == old(db.events) - {eventId}
    ensures r.Ok? ==> forall c :: GetEvent(db.users, db.events, c, eventId) == Fail(404, EVENT_NOT_FOUND)
  {
    var g := PublisherRequired(db.users, caller);
    if g.Deny? {
      return Fail(g.status, g.message);
    }
    if eventId !in db.events {
      return Fail(404, EVENT_NOT_FOUND);
    }
    var e := db.events[eventId];
    if e.publisherId != g.user.id && !IsAdmin(g.user) {
      return Fail(403, PERMISSION_DENIED);
    }
    db.events := db.events - {eventId};
    r := Ok(200, ());
  }

  /**
   * `register_for_event`: missing (404), unpublished (400), already registered (400) and full (400)
   * are checked in that order; it succeeds exactly when `can_register` holds.
   */
  method RegisterForEvent(db: Database, caller: int, eventId: int) returns (r: Reply<EventView>)
    requires db.Valid() && caller in db.users
    modifies db
    ensures db.Valid()
    ensures db.users == old(db.users) && db.nextUserId == old(db.nextUserId) && db.nextEventId == old(db.nextEventId)
    ensures eventId !in old(db.events) ==> r == Fail(404, EVENT_NOT_FOUND)
    ensures eventId in old(db.events) && !old(db.events)[eventId].isPublished ==> r == Fail(400, NOT_PUBLISHED)
    ensures eventId in old(db.events) && old(db.events)[eventId].isPublished && caller in old(db.events)[eventId].attendees ==>
              r == Fail(400, ALREADY_REGISTERED)
    ensures (eventId in old(db.events) && old(db.events)[eventId].isPublished &&
             caller !in old(db.events)[eventId].attendees && IsFull(old(db.events)[eventId])) ==> r == Fail(400, FULL_CAPACITY)
    ensures r.Ok? <==> eventId in old(db.events) && CanRegister(old(db.events)[eventId], caller)
    ensures r.Fail? ==> db.events == old(db.events)
    ensures r.Ok? ==> db.events == old(db.events)[eventId := WithAttendee(old(db.events)[eventId], caller)]
    ensures r.Ok? ==> r == Ok(200, ToDict(db.events[eventId]))
  {
    if eventId !in db.events {
      return Fail(404, EVENT_NOT_FOUND);
    }
    var e := db.events[eventId];
    if !e.isPublished {
      return Fail(400, NOT_PUBLISHED);
    }
    if caller in e.attendees {
      return Fail(400, ALREADY_REGISTERED);
    }
    if Truthy(e.capacity) && |e.attendees| >= e.capacity.value {
      return Fail(400, FULL_CAPACITY);
    }
    RegisterEffects(e, caller);
    var e' := WithAttendee(e, caller);
    db.events := db.events[eventId := e'];
    r := Ok(200, ToDict(e'));
  }

  /** `unregister_from_event`: 404 for a missing event, 400 for a non-attendee, otherwise exactly that user leaves. */
  method UnregisterFromEvent(db: Database, caller: int, eventId: int) returns (r: Reply<EventView>)
    requires db.Valid() && caller in db.users
    modifies db
    ensures db.Valid()
    ensures db.users == old(db.users) && db.nextUserId == old(db.nextUserId) && db.nextEventId == old(db.nextEventId)
    ensures eventId !in old(db.events) ==> r == Fail(404, EVENT_NOT_FOUND)
    ensures eventId in old(db.events) && caller !in old(db.events)[eventId].attendees ==> r == Fail(400, NOT_REGISTERED)
    ensures r.Fail? ==> db.events == old(db.events)
    ensures r.Ok? <==> eventId in old(db.events) && caller in old(db.events)[eventId].attendees
    ensures r.Ok? ==> db.events == old(db.events)[eventId := WithoutAttendee(old(db.events)[eventId], caller)]
    ensures r.Ok? ==> caller !in db.events[eventId].attendees
    ensures r.Ok? ==> r == Ok(200, ToDict(db.events[eventId])) && r.body.attendeeCount == |old(db.events)[eventId].attendees| - 1
  {
    if eventId !in db.events {
      return Fail(404, EVENT_NOT_FOUND);
    }
    var e := db.events[eventId];
    if caller !in e.attendees {
      return Fail(400, NOT_REGISTERED);
    }
    UnregisterEffects(e, caller);
    var e' := WithoutAttendee(e, caller);
    db.events := db.events[eventId := e'];
    r := Ok(200, ToDict(e'));
  }
}
