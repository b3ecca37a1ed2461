/** The event page (frontend/src/pages/EventDetails.js): who may edit or register, and what each handler does to the page state. */
module EventDetails {
  import opened Common
  import opened RoleUtils
  import opened ClientCommon
  import opened EventModel
  import UserModel
  import EventRoutes
  import RequestPipeline

  const LOAD_FAILED: string := "Failed to load event details"
  const REGISTRATION_FAILED: string := "Registration failed"
  const UNREGISTER_FAILED: string := "Failed to unregister from event"
  const DELETE_FAILED: string := "Failed to delete event"
  const MY_REGISTRATIONS_URL: string := "/api/events/my-registrations/"

  /** The URL of one event. */
  function EventUrl(eventId: int): string
  {
    "/api/events/" + Decimal(eventId)
  }

  /** `canEdit`: the user owns the event or is an admin. */
  predicate CanEdit(user: Option<ClientUser>, event: EventView)
  {
    (user.Some? && user.value.id == Some(event.publisherId)) || IsAdmin(user)
  }

  /** `canRegister`, and the condition under which the registration status is fetched: a user who is neither publisher nor admin. */
  predicate CanRegisterAs(user: Option<ClientUser>)
  {
    user.Some? && !IsPublisher(user) && !IsAdmin(user)
  }

  /** `isEventFull`: a truthy capacity that the attendee count has reached. */
  function IsEventFull(event: EventView): (r: bool)
    ensures !Truthy(event.capacity) ==> !r
    ensures r <==> Truthy(event.capacity) && event.attendeeCount >= event.capacity.value
  {
    Truthy(event.capacity) && event.attendeeCount >= event.capacity.value
  }

  /** `isPastEvent`, with the clock as a parameter. */
  predicate IsPastEvent(event: EventView, now: int)
  {
    event.endTime < now
  }

  /** Whether the register/cancel buttons are shown. */
  predicate ShowRegistrationPanel(user: Option<ClientUser>, event: EventView, now: int)
  {
    event.isPublished && CanRegisterAs(user) && !IsPastEvent(event, now)
  }

  /** Whether the register button is disabled. */
  predicate RegisterDisabled(registering: bool, event: EventView)
  {
    registering || IsEventFull(event)
  }

  /** The registration status: some registration has the page's event id. */
  function IsRegisteredIn(registrations: seq<EventView>, eventId: int): (r: bool)
    ensures r <==> exists i :: 0 <= i < |registrations| && registrations[i].id == eventId
  {
    if registrations == [] then false
    else if registrations[0].id == eventId then true
    else
      var rest := IsRegisteredIn(registrations[1..], eventId);
      assert forall i :: 1 <= i < |registrations| ==> registrations[i] == registrations[1..][i - 1];
      rest
  }

  /** The page after a successful registration: the attendee count grows by one, all else is kept. */
  function Optimistic(event: EventView): (r: EventView)
    ensures r.attendeeCount == event.attendeeCount + 1
    ensures r.(attendeeCount := event.attendeeCount) == event
  {
    event.(attendeeCount := event.attendeeCount + 1)
  }

  /** Where the page navigates after a delete. */
  function AfterDelete(user: Option<ClientUser>): (r: string)
    ensures r == "/admin" <==> IsAdmin(user)
    ensures r == "/events" <==> !IsAdmin(user)
  {
    if IsAdmin(user) then "/admin" else "/events"
  }

  /**
   * For a user and an event as the backend sends them, the page's predicates agree with the backend's:
   * the edit buttons with the owner-or-admin check, fullness with `is_full()`, and registration with the roles.
   */
  lemma PredicatesAgreeWithServer(u: UserModel.User, e: Event)
    ensures CanEdit(FromServer(u), ToDict(e)) <==> EventRoutes.OwnerOrAdmin(u, e)
    ensures IsEventFull(ToDict(e)) <==> IsFull(e)
    ensures !CanManageEvents(FromServer(u)) <==> !UserModel.IsPublisher(u)
    ensures CanRegisterAs(FromServer(u)) <==> !UserModel.IsPublisher(u)
  {
    AgreesWithServer(u);
  }

  /**
   * An enabled register button for an event the user has not joined is a registration the backend accepts:
   * the event is published and not full, whatever the clock says and whatever role the user has.
   */
  lemma EnabledButtonIsAccepted(u: UserModel.User, e: Event, now: int)
    requires ShowRegistrationPanel(FromServer(u), ToDict(e), now) && !RegisterDisabled(false, ToDict(e))
    requires u.id !in e.attendees
    ensures EventModel.CanRegister(e, u.id)
  {
    PredicatesAgreeWithServer(u, e);
  }

  /**
   * The optimistic update agrees with what the backend now stores: the attendee count and the fullness the page
   * computes are those of the event with the new attendee (only the stored `is_full` flag goes stale).
   */
  lemma OptimisticMatchesServer(e: Event, userId: int)
    requires EventModel.CanRegister(e, userId)
    ensures Optimistic(ToDict(e)).(isFull := ToDict(WithAttendee(e, userId)).isFull) == ToDict(WithAttendee(e, userId))
    ensures IsEventFull(Optimistic(ToDict(e))) <==> IsFull(WithAttendee(e, userId))
  {
    RegisterEffects(e, userId);
  }

  /** The page component's state once mounted for one event id. */
  class Page {
    /** The shared API client the page's calls go through. */
    const client: RequestPipeline.Pipeline
    const eventId: int
    const currentUser: Option<ClientUser>
    var event: Option<EventView>
    var loading: bool
    var error: Option<string>
    var registering: bool
    var isRegistered: bool
    var registrationSuccess: bool
    var registrationError: Option<string>
    /** The route passed to `navigate`, if any. */
    var navigatedTo: Option<string>

    constructor (client: RequestPipeline.Pipeline, eventId: int, currentUser: Option<ClientUser>)
      ensures this.client == client && this.eventId == eventId && this.currentUser == currentUser
      ensures event == None && loading && error == None && !registering && !isRegistered
      ensures !registrationSuccess && registrationError == None && navigatedTo == None
    {
      this.client := client;
      this.eventId := eventId;
      this.currentUser := currentUser;
      event := None;
      loading := true;
      error := None;
      registering := false;
      isRegistered := false;
      registrationSuccess := false;
      registrationError := None;
      navigatedTo := None;
    }

    /**
     * `fetchEventDetails`: the event, then the registration status for users who may register; a failed status
     * fetch changes nothing on the page. A failed call passes through the client's response handler. Loading ends
     * either way.
     */
    method FetchDetails(response: Call<EventView>, registrations: Call<seq<EventView>>)
      requires client.Valid()
      modifies this, client, client.store
      ensures client.Valid()
      ensures response.Failed? ==> client.RejectedWith(response.status)
      ensures response.Done? && CanRegisterAs(currentUser) && registrations.Failed? ==>
                client.RejectedWith(registrations.status)
      ensures response.Done? && !(CanRegisterAs(currentUser) && registrations.Failed?) ==> client.Untouched()
      ensures !loading && registering == old(registering) && navigatedTo == old(navigatedTo)
      ensures registrationSuccess == old(registrationSuccess) && registrationError == old(registrationError)
      ensures response.Failed? ==>
                error == Some(OrElse(response.message, LOAD_FAILED)) && event == old(event) && isRegistered == old(isRegistered)
      ensures response.Done? ==> event == Some(response.value) && error == old(error)
      ensures response.Done? && CanRegisterAs(currentUser) && registrations.Done? ==>
                isRegistered == IsRegisteredIn(registrations.value, eventId)
      ensures !(response.Done? && CanRegisterAs(currentUser) && registrations.Done?) ==> isRegistered == old(isRegistered)
    {
      match response {
        case Failed(status, message) =>
          var h := client.RejectUnmarked(status, EventUrl(eventId));
          error := Some(OrElse(message, LOAD_FAILED));
        case Done(data) =>
          event := Some(data);
          if CanRegisterAs(currentUser) {
            match registrations {
              case Done(list) =>
                isRegistered := IsRegisteredIn(list, eventId);
              case Failed(status, _) =>
                var h := client.RejectUnmarked(status, MY_REGISTRATIONS_URL);
            }
          }
      }
      loading := false;
    }

    /** `handleRegistration`: on success the user is registered and the count grows by one; on failure only the message is set. */
    method HandleRegistration(response: Call<()>)
      requires event.Some? && client.Valid()
      modifies this, client, client.store
      ensures client.Valid()
      ensures response.Done? ==> client.Untouched()
      ensures response.Failed? ==> client.RejectedWith(response.status)
      ensures loading == old(loading) && error == old(error) && registering == old(registering) && navigatedTo == old(navigatedTo)
      ensures response.Done? ==>
                && isRegistered && registrationSuccess && event == Some(Optimistic(old(event).value))
                && registrationError == old(registrationError)
      ensures response.Failed? ==>
                && registrationError == Some(OrElse(response.message, REGISTRATION_FAILED))
                && event == old(event) && isRegistered == old(isRegistered) && registrationSuccess == old(registrationSuccess)
    {
      match response
      case Done(_) =>
        isRegistered := true;
        registrationSuccess := true;
        event := Some(Optimistic(event.value));
      case Failed(status, message) =>
        var h := client.RejectUnmarked(status, EventUrl(eventId) + "/register/");
        registrationError := Some(OrElse(message, REGISTRATION_FAILED));
    }

    /**
     * `handleUnregister`: the unregister call, then a reload of the event; a failure of either sets the page error
     * and leaves the status as it was. `registering` is false afterwards on every path.
     */
    method HandleUnregister(deleted: Call<()>, reloaded: Call<EventView>)
      requires client.Valid()
      modifies this, client, client.store
      ensures client.Valid()
      ensures deleted.Failed? ==> client.RejectedWith(deleted.status)
      ensures deleted.Done? && reloaded.Failed? ==> client.RejectedWith(reloaded.status)
      ensures deleted.Done? && reloaded.Done? ==> client.Untouched()
      ensures !registering && loading == old(loading) && navigatedTo == old(navigatedTo)
      ensures registrationSuccess == old(registrationSuccess) && registrationError == old(registrationError)
      ensures deleted.Failed? ==>
                error == Some(OrElse(deleted.message, UNREGISTER_FAILED)) && event == old(event) && isRegistered == old(isRegistered)
      ensures deleted.Done? && reloaded.Failed? ==>
                error == Some(OrElse(reloaded.message, UNREGISTER_FAILED)) && event == old(event) && isRegistered == old(isRegistered)
      ensures deleted.Done? && reloaded.Done? ==> event == Some(reloaded.value) && !isRegistered && error == old(error)
    {
      registering := true;
      match deleted {
        case Failed(status, message) =>
          var h := client.RejectUnmarked(status, EventUrl(eventId) + "/unregister/");
          error := Some(OrElse(message, UNREGISTER_FAILED));
        case Done(_) =>
          match reloaded {
            case Failed(status, message) =>
              var h := client.RejectUnmarked(status, EventUrl(eventId));
              error := Some(OrElse(message, UNREGISTER_FAILED));
            case Done(data) =>
              event := Some(data);
              isRegistered := false;
          }
      }
      registering := false;
    }

    /** `handleDelete`: nothing without confirmation; admins are then sent to `/admin`, everyone else to `/events`. */
    method HandleDelete(confirmed: bool, deleted: Call<()>)
      requires client.Valid()
      modifies this, client, client.store
      ensures client.Valid()
      ensures !(confirmed && deleted.Failed?) ==> client.Untouched()
      ensures confirmed && deleted.Failed? ==> client.RejectedWith(deleted.status)
      ensures event == old(event) && loading == old(loading) && registering == old(registering)
      ensures isRegistered == old(isRegistered) && registrationSuccess == old(registrationSuccess)
      ensures registrationError == old(registrationError)
      ensures !confirmed ==> error == old(error) && navigatedTo == old(navigatedTo)
      ensures confirmed && deleted.Done? ==> navigatedTo == Some(AfterDelete(currentUser)) && error == old(error)
      ensures confirmed && deleted.Failed? ==>
                error == Some(OrElse(deleted.message, DELETE_FAILED)) && navigatedTo == old(navigatedTo)
    {
      if confirmed {
        match deleted
        case Done(_) =>
          navigatedTo := Some(AfterDelete(currentUser));
        case Failed(status, message) =>
          var h := client.RejectUnmarked(status, EventUrl(eventId));
          error := Some(OrElse(message, DELETE_FAILED));
      }
    }
  }
}
