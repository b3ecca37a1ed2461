/** The registrations page (frontend/src/pages/MyRegistrations.js): the cancel handler and the upcoming/past split. */
module MyRegistrations {
  import opened Common
  import opened ClientCommon
  import opened EventModel
  import RequestPipeline

  const LOAD_FAILED: string := "Failed to load your registrations. Please try again later."
  const CANCEL_FAILED: string := "Failed to cancel registration. Please try again."
  const MY_REGISTRATIONS_URL: string := "/api/events/my-registrations/"

  /** `Array.prototype.filter` on a list of events: the kept elements, in their original order. */
  function Filter(s: seq<EventView>, keep: EventView -> bool): (r: seq<EventView>)
    ensures |r| <= |s|
  {
    if s == [] then []
    else (if keep(s[0]) then [s[0]] else []) + Filter(s[1..], keep)
  }

  /** The filtered list holds exactly the elements of the list that the test accepts. */
  lemma {:induction false} FilterMembers(s: seq<EventView>, keep: EventView -> bool)
    ensures forall x :: x in Filter(s, keep) ==> x in s && keep(x)
    ensures forall x :: x in s && keep(x) ==> x in Filter(s, keep)
  {
    if s != [] {
      FilterMembers(s[1..], keep);
    }
  }

  /** Filtering distributes over concatenation, so the kept elements stay in their order. */
  lemma {:induction false} FilterAppend(a: seq<EventView>, b: seq<EventView>, keep: EventView -> bool)
    ensures Filter(a + b, keep) == Filter(a, keep) + Filter(b, keep)
  {
    if a == [] {
      assert a + b == b;
    } else {
      var head := if keep(a[0]) then [a[0]] else [];
      assert (a + b)[0] == a[0];
      assert (a + b)[1..] == a[1..] + b;
      FilterAppend(a[1..], b, keep);
      assert Filter(a + b, keep) == head + Filter(a[1..] + b, keep);
      assert Filter(a, keep) == head + Filter(a[1..], keep);
    }
  }

  /** A filter that keeps every element is the identity. */
  lemma {:induction false} FilterKeepingAll(s: seq<EventView>, keep: EventView -> bool)
    requires forall x :: x in s ==> keep(x)
    ensures Filter(s, keep) == s
  {
    if s != [] {
      assert forall x :: x in s[1..] ==> x in s;
      FilterKeepingAll(s[1..], keep);
    }
  }

  /** The filtered list holds each accepted element as often as the list does, and no other element. */
  lemma {:induction false} FilterCount(s: seq<EventView>, keep: EventView -> bool)
    ensures forall x :: multiset(Filter(s, keep))[x] == if keep(x) then multiset(s)[x] else 0
  {
    if s != [] {
      var y, rest := s[0], s[1..];
      assert s == [y] + rest;
      FilterCons(y, rest, keep);
      FilterCount(rest, keep);
      assert multiset(s) == multiset{y} + multiset(rest);
    }
  }

  /** The list left after a successful cancel: every registration with that event id goes, the rest stay as listed. */
  function WithoutEvent(events: seq<EventView>, eventId: int): (r: seq<EventView>)
    ensures forall x :: x in r ==> x in events && x.id != eventId
    ensures forall x :: x in events ==> (x in r <==> x.id != eventId)
    ensures forall x :: multiset(r)[x] == if x.id != eventId then multiset(events)[x] else 0
  {
    var keep := (e: EventView) => e.id != eventId;
    FilterMembers(events, keep);
    FilterCount(events, keep);
    Filter(events, keep)
  }

  /** Cancelling keeps the order of the list: the rows left from each part of the list stay in that part's place. */
  lemma CancelKeepsOrder(a: seq<EventView>, b: seq<EventView>, eventId: int)
    ensures WithoutEvent(a + b, eventId) == WithoutEvent(a, eventId) + WithoutEvent(b, eventId)
  {
    FilterAppend(a, b, (e: EventView) => e.id != eventId);
  }

  /** Cancelling an event the list does not show leaves the list as it is. */
  lemma CancelAbsentIsIdentity(events: seq<EventView>, eventId: int)
    requires forall i :: 0 <= i < |events| ==> events[i].id != eventId
    ensures WithoutEvent(events, eventId) == events
  {
    FilterKeepingAll(events, (e: EventView) => e.id != eventId);
  }

  /** `isPastEvent`, with the clock as a parameter. */
  predicate IsPast(endTime: int, now: int)
  {
    endTime < now
  }

  /** The upcoming table. */
  function Upcoming(events: seq<EventView>, now: int): (r: seq<EventView>)
    ensures forall x :: x in r ==> !IsPast(x.endTime, now)
  {
    var keep := (e: EventView) => !IsPast(e.endTime, now);
    FilterMembers(events, keep);
    Filter(events, keep)
  }

  /** The past table. */
  function Past(events: seq<EventView>, now: int): (r: seq<EventView>)
    ensures forall x :: x in r ==> IsPast(x.endTime, now)
  {
    var keep := (e: EventView) => IsPast(e.endTime, now);
    FilterMembers(events, keep);
    Filter(events, keep)
  }

  /** Filtering a list with a known first element: that element first if the test accepts it, then the filtered rest. */
  lemma FilterCons(x: EventView, rest: seq<EventView>, keep: EventView -> bool)
    ensures Filter([x] + rest, keep) == (if keep(x) then [x] else []) + Filter(rest, keep)
  {
    assert ([x] + rest)[1..] == rest;
  }

  /** Two complementary filters split a list: together they hold each element exactly as often as the list does. */
  lemma {:induction false} FilterSplits(s: seq<EventView>, keep: EventView -> bool, drop: EventView -> bool)
    requires forall x :: keep(x) <==> !drop(x)
    ensures multiset(Filter(s, keep)) + multiset(Filter(s, drop)) == multiset(s)
  {
    if s != [] {
      var x, rest := s[0], s[1..];
      assert s == [x] + rest;
      FilterSplits(rest, keep, drop);
      FilterCons(x, rest, keep);
      FilterCons(x, rest, drop);
      assert multiset(s) == multiset{x} + multiset(rest);
      if keep(x) {
        assert multiset(Filter(s, keep)) == multiset{x} + multiset(Filter(rest, keep));
        assert multiset(Filter(s, drop)) == multiset(Filter(rest, drop));
      } else {
        assert multiset(Filter(s, keep)) == multiset(Filter(rest, keep));
        assert multiset(Filter(s, drop)) == multiset{x} + multiset(Filter(rest, drop));
      }
    }
  }

  /** The upcoming and past tables are disjoint and together show every registration, each as often as listed. */
  lemma UpcomingAndPastPartition(events: seq<EventView>, now: int)
    ensures multiset(Upcoming(events, now)) + multiset(Past(events, now)) == multiset(events)
    ensures forall x :: !(x in Upcoming(events, now) && x in Past(events, now))
    ensures forall x :: x in events ==> x in Upcoming(events, now) || x in Past(events, now)
  {
    FilterSplits(events, (e: EventView) => !IsPast(e.endTime, now), (e: EventView) => IsPast(e.endTime, now));
    forall x | x in events
      ensures x in Upcoming(events, now) || x in Past(events, now)
    {
      assert multiset(Upcoming(events, now))[x] + multiset(Past(events, now))[x] == multiset(events)[x];
    }
  }

  /** Whether a row's cancel button is disabled: only while that event is being cancelled. */
  predicate CancelDisabled(cancelling: Option<int>, row: EventView)
  {
    cancelling == Some(row.id)
  }

  /** While an event is being cancelled, the disabled rows are exactly those a successful cancel removes. */
  lemma DisabledRowsAreRemoved(events: seq<EventView>, eventId: int)
    ensures forall x :: x in events ==> (CancelDisabled(Some(eventId), x) <==> x !in WithoutEvent(events, eventId))
  {
  }

  /** The page component's state. */
  class Page {
    /** The shared API client the page's calls go through. */
    const client: RequestPipeline.Pipeline
    var events: seq<EventView>
    var loading: bool
    var error: Option<string>
    /** The id of the event whose cancel is in progress (`null` otherwise). */
    var cancelling: Option<int>

    constructor (client: RequestPipeline.Pipeline)
      ensures this.client == client && events == [] && loading && error == None && cancelling == None
    {
      this.client := client;
      events := [];
      loading := true;
      error := None;
      cancelling := None;
    }

    /**
     * `fetchMyRegistrations`: the list on success, the load error after the client's response handler otherwise;
     * loading ends either way.
     */
    method Fetch(response: Call<seq<EventView>>)
      requires client.Valid()
      modifies this, client, client.store
      ensures client.Valid()
      ensures response.Done? ==> client.Untouched()
      ensures response.Failed? ==> client.RejectedWith(response.status)
      ensures !loading && cancelling == old(cancelling)
      ensures response.Done? ==> events == response.value && error == old(error)
      ensures response.Failed? ==> events == old(events) && error == Some(LOAD_FAILED)
    {
      match response {
        case Done(list) =>
          events := list;
        case Failed(status, _) =>
          var h := client.RejectUnmarked(status, MY_REGISTRATIONS_URL);
          error := Some(LOAD_FAILED);
      }
      loading := false;
    }

    /**
     * `handleCancelRegistration`: the button of `eventId` is disabled while the call runs; on success its rows are
     * removed, on failure the list stays and the error is set after the client's response handler; afterwards no
     * button is disabled.
     */
    method HandleCancelRegistration(eventId: int, response: Call<()>)
      requires client.Valid()
      modifies this, client, client.store
      ensures client.Valid()
      ensures response.Done? ==> client.Untouched()
      ensures response.Failed? ==> client.RejectedWith(response.status)
      ensures cancelling == None && loading == old(loading)
      ensures forall x :: !CancelDisabled(cancelling, x)
      ensures response.Done? ==> events == WithoutEvent(old(events), eventId) && error == old(error)
      ensures response.Failed? ==> events == old(events) && error == Some(CANCEL_FAILED)
    {
      cancelling := Some(eventId);
      match response {
        case Done(_) =>
          events := WithoutEvent(events, eventId);
        case Failed(status, _) =>
          var h := client.RejectUnmarked(status, "/api/events/" + Decimal(eventId) + "/unregister/");
          error := Some(CANCEL_FAILED);
      }
      cancelling := None;
    }
  }
}
