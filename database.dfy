/**
 * The backend's tables as in-memory maps, in place of the SQLAlchemy session, together with
 * `Event.register_user` and `Event.unregister_user` acting on a stored event.
 */
module Store {
  import opened Common
  import opened UserModel
  import opened EventModel

  /** Rows are keyed by their id; usernames and emails are unique (the columns' unique constraints). */
  ghost predicate UsersValid(users: map<int, User>)
  {
    && (forall id :: id in users ==> users[id].id == id)
    && (forall a, b :: a in users && b in users && a != b ==>
          users[a].username != users[b].username && users[a].email != users[b].email)
  }

  /** Events are keyed by their id; attendee lists have no duplicates and name stored users. */
  ghost predicate EventsValid(users: map<int, User>, events: map<int, Event>)
  {
    && (forall id :: id in events ==> events[id].id == id && NoDuplicates(events[id].attendees))
    && (forall id, uid :: id in events && uid in events[id].attendees ==> uid in users)
  }

  /** The database: the `users` and `events` tables and the next ids the autoincrement keys hand out. */
  class Database {
    var users: map<int, User>
    var events: map<int, Event>
    var nextUserId: int
    var nextEventId: int

    ghost predicate Valid()
      reads this
    {
      && UsersValid(users)
      && EventsValid(users, events)
      && (forall id :: id in users ==> id < nextUserId)
      && (forall id :: id in events ==> id < nextEventId)
    }

    /** An empty database. */
    constructor ()
      ensures Valid()
      ensures users == map[] && events == map[]
    {
      users, events := map[], map[];
      nextUserId, nextEventId := 1, 1;
    }

    /** `Event.register_user`: appends the user exactly when `can_register` holds. */
    method RegisterUser(eventId: int, userId: int) returns (registered: bool)
      requires Valid() && eventId in events && userId in users
      modifies this
      ensures Valid()
      ensures registered == CanRegister(old(events[eventId]), userId)
      ensures events == if registered then old(events)[eventId := WithAttendee(old(events[eventId]), userId)]
                        else old(events)
      ensures users == old(users) && nextUserId == old(nextUserId) && nextEventId == old(nextEventId)
    {
      var e := events[eventId];
      registered := CanRegister(e, userId);
      if registered {
        RegisterEffects(e, userId);
        events := events[eventId := WithAttendee(e, userId)];
      }
    }

    /** `Event.unregister_user`: removes the user and answers true exactly when the user was an attendee. */
    method UnregisterUser(eventId: int, userId: int) returns (removed: bool)
      requires Valid() && eventId in events
      modifies this
      ensures Valid()
      ensures removed == (userId in old(events[eventId]).attendees)
      ensures events == if removed then old(events)[eventId := WithoutAttendee(old(events[eventId]), userId)]
                        else old(events)
      ensures removed ==> userId !in events[eventId].attendees
      ensures users == old(users) && nextUserId == old(nextUserId) && nextEventId == old(nextEventId)
    {
      var e := events[eventId];
      removed := userId in e.attendees;
      if removed {
        UnregisterEffects(e, userId);
        events := events[eventId := WithoutAttendee(e, userId)];
      }
    }
  }
}
