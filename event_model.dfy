/** The backend `Event` row, its registration checks and its JSON view (app/models/event.py). */
module EventModel {
  import opened Common

  /**
   * A stored event. Times are integer timestamps; `capacity` is the nullable column;
   * `attendees` lists the ids of registered users in registration order.
   */
  datatype Event = Event(
    id: int,
    title: string,
    description: string,
    location: string,
    startTime: int,
    endTime: int,
    capacity: Option<int>,
    isPublished: bool,
    publisherId: int,
    attendees: seq<int>)

  /** The fields of `Event.to_dict()` that the handlers and the client read (timestamps of the row left out). */
  datatype EventView = EventView(
    id: int,
    title: string,
    description: string,
    location: string,
    startTime: int,
    endTime: int,
    capacity: Option<int>,
    isPublished: bool,
    publisherId: int,
    attendeeCount: int,
    isFull: bool)

  /** No user id occurs twice (the association table's primary key is the pair of ids). */
  ghost predicate NoDuplicates(s: seq<int>)
  {
    forall i, j :: 0 <= i < j < |s| ==> s[i] != s[j]
  }

  /** `get_attendee_count`. */
  function AttendeeCount(e: Event): nat
  {
    |e.attendees|
  }

  /** `is_full`: only a truthy capacity can make an event full. */
  function IsFull(e: Event): (r: bool)
    ensures !Truthy(e.capacity) ==> !r
    ensures r <==> Truthy(e.capacity) && |e.attendees| >= e.capacity.value
  {
    if !Truthy(e.capacity) then false else AttendeeCount(e) >= e.capacity.value
  }

  /** `can_register`: published, not full, and the user is not yet an attendee. */
  function CanRegister(e: Event, userId: int): (r: bool)
    ensures !e.isPublished ==> !r
    ensures r <==> e.isPublished && !IsFull(e) && userId !in e.attendees
  {
    if !e.isPublished then false
    else if Truthy(e.capacity) && |e.attendees| >= e.capacity.value then false
    else if userId in e.attendees then false
    else true
  }

  /** The event after `attendees.append(user)`. */
  function WithAttendee(e: Event, userId: int): (e': Event)
    ensures e'.attendees == e.attendees + [userId]
    ensures e' == e.(attendees := e'.attendees)
  {
    e.(attendees := e.attendees + [userId])
  }

  /** The position of the first occurrence of `x` in `s`. */
  function IndexOf(s: seq<int>, x: int): (k: nat)
    requires x in s
    ensures k < |s| && s[k] == x && x !in s[..k]
  {
    if s[0] == x then 0
    else
      var k := IndexOf(s[1..], x);
      assert s[..k + 1] == [s[0]] + s[1..][..k];
      k + 1
  }

  /** Python's `list.remove`: drop the first occurrence of `x` (the list is unchanged when `x` is absent). */
  function RemoveFirst(s: seq<int>, x: int): (r: seq<int>)
    ensures x !in s ==> r == s
    ensures x in s ==> |r| == |s| - 1
    ensures multiset(r) == multiset(s) - multiset{x}
  {
    if x in s then
      var k := IndexOf(s, x);
      assert s == s[..k] + [s[k]] + s[k + 1..];
      s[..k] + s[k + 1..]
    else
      assert multiset(s)[x] == 0;
      s
  }

  /** The event after `attendees.remove(user)`. */
  function WithoutAttendee(e: Event, userId: int): (e': Event)
    ensures e'.attendees == RemoveFirst(e.attendees, userId)
    ensures e' == e.(attendees := e'.attendees)
  {
    e.(attendees := RemoveFirst(e.attendees, userId))
  }

  /** `to_dict`: `attendee_count` is the length of the attendee list and `is_full` is `is_full()`. */
  function ToDict(e: Event): (v: EventView)
    ensures v.attendeeCount == |e.attendees|
    ensures v.isFull <==> Truthy(e.capacity) && |e.attendees| >= e.capacity.value
    ensures v.id == e.id && v.capacity == e.capacity && v.isPublished == e.isPublished
    ensures v.publisherId == e.publisherId && v.startTime == e.startTime && v.endTime == e.endTime
  {
    EventView(e.id, e.title, e.description, e.location, e.startTime, e.endTime,
              e.capacity, e.isPublished, e.publisherId, AttendeeCount(e), IsFull(e))
  }

  /** The attendee count respects a truthy capacity. */
  ghost predicate WithinCapacity(e: Event)
  {
    Truthy(e.capacity) ==> |e.attendees| <= e.capacity.value
  }

  /** With no capacity (None or 0) the event is never full and capacity never blocks a registration. */
  lemma NoCapacityNeverFull(e: Event, userId: int)
    requires !Truthy(e.capacity)
    ensures !IsFull(e)
    ensures CanRegister(e, userId) <==> e.isPublished && userId !in e.attendees
  {
  }

  /**
   * A successful registration adds exactly that user, grows the count by one, keeps the list free of
   * duplicates and keeps the count within a truthy capacity; registering the same user again is refused.
   */
  lemma {:induction false} RegisterEffects(e: Event, userId: int)
    requires CanRegister(e, userId)
    ensures userId in WithAttendee(e, userId).attendees
    ensures AttendeeCount(WithAttendee(e, userId)) == AttendeeCount(e) + 1
    ensures !CanRegister(WithAttendee(e, userId), userId)
    ensures WithinCapacity(e) ==> WithinCapacity(WithAttendee(e, userId))
    ensures NoDuplicates(e.attendees) ==> NoDuplicates(WithAttendee(e, userId).attendees)
  {
    var s := WithAttendee(e, userId).attendees;
    assert s[|s| - 1] == userId;
    if NoDuplicates(e.attendees) {
      forall i, j | 0 <= i < j < |s| ensures s[i] != s[j] {
        if j == |s| - 1 {
          assert s[i] == e.attendees[i];
        } else {
          assert s[i] == e.attendees[i] && s[j] == e.attendees[j];
        }
      }
    }
  }

  /** Removing the element at position `k` shifts every later element one place to the left. */
  lemma RemoveAtIndex(s: seq<int>, k: nat, i: nat)
    requires k < |s| && i < |s| - 1
    ensures (s[..k] + s[k + 1..])[i] == s[if i < k then i else i + 1]
  {
  }

  /** In a duplicate-free list, removing `x` removes every trace of it and keeps the other ids. */
  lemma RemoveFirstNoDuplicates(s: seq<int>, x: int)
    requires NoDuplicates(s)
    ensures x !in RemoveFirst(s, x)
    ensures NoDuplicates(RemoveFirst(s, x))
    ensures forall y :: y != x ==> (y in RemoveFirst(s, x) <==> y in s)
  {
    var r := RemoveFirst(s, x);
    if x in s {
      var k := IndexOf(s, x);
      assert r == s[..k] + s[k + 1..];
      forall i | 0 <= i < |r| ensures r[i] != x {
        RemoveAtIndex(s, k, i);
      }
      forall i, j | 0 <= i < j < |r| ensures r[i] != r[j] {
        RemoveAtIndex(s, k, i);
        RemoveAtIndex(s, k, j);
      }
      forall y | y != x ensures y in r <==> y in s {
        if y in s {
          assert multiset(s)[y] > 0;
          assert multiset(r)[y] > 0;
        }
      }
    }
  }

  /** Unregistering an attendee removes exactly that user: the count drops by one and nobody else leaves. */
  lemma UnregisterEffects(e: Event, userId: int)
    requires NoDuplicates(e.attendees) && userId in e.attendees
    ensures userId !in WithoutAttendee(e, userId).attendees
    ensures AttendeeCount(WithoutAttendee(e, userId)) == AttendeeCount(e) - 1
    ensures forall y :: y != userId ==> (y in WithoutAttendee(e, userId).attendees <==> y in e.attendees)
    ensures NoDuplicates(WithoutAttendee(e, userId).attendees)
    ensures WithinCapacity(e) ==> WithinCapacity(WithoutAttendee(e, userId))
  {
    RemoveFirstNoDuplicates(e.attendees, userId);
  }
}
