/** The event-detail popup: on opening for a client code and a subject it
    fetches that lead's events and shows them newest first. The request is
    a parameter: what fetching the events of (client code, subject)
    settles to. Absent props (`null`) are "" as everywhere in the model. */
module Popup {
  import opened Common
  import opened Types
  import opened Sorting

  const MissingData: string := "Faltan datos para recuperar el evento."
  const DetailError: string := "Error al cargar los detalles del evento."

  /** The comparator `b.created_at - a.created_at` lets `a` come first
      when it is not older than `b`. */
  predicate NewestFirst(a: Event, b: Event)
  {
    a.createdAt >= b.createdAt
  }

  lemma NewestFirstIsTotalPreorder()
    ensures TotalPreorder(NewestFirst)
  {
  }

  /** `processEventData`: sorts the array it is given in place, newest
      first, and hands back that same array. */
  method ProcessEventData(events: array<Event>) returns (r: array<Event>)
    modifies events
    ensures r == events
    ensures events[..] == InsertionSort(old(events[..]), NewestFirst)
    ensures forall i, j :: 0 <= i < j < events.Length ==> events[i].createdAt >= events[j].createdAt
    ensures multiset(events[..]) == multiset(old(events[..]))
  {
    NewestFirstIsTotalPreorder();
    SortInPlace(events, NewestFirst);
    r := events;
  }

  /** When the effect fetches: only while open and with both props truthy. */
  predicate ShouldFetch(isOpen: bool, icodCli: string, asunto: string)
  {
    isOpen && icodCli != "" && asunto != ""
  }

  /** The message of a failed detail request: the response's own message
      when it has one, the fixed text otherwise. */
  function DetailErrorMessage(f: Failure): (m: string)
    ensures m != ""
    ensures f.responseMessage != "" ==> m == f.responseMessage
    ensures f.responseMessage == "" ==> m == DetailError
  {
    Or(f.responseMessage, DetailError)
  }

  /** What the popup renders. */
  datatype PopupView = Nothing | Spinner | ErrorText(message: string) | Details(events: seq<Event>)

  /** Nothing at all without details unless loading; then the spinner, a
      truthy error, or the details. */
  function ViewOf(eventDetails: Option<seq<Event>>, loading: bool, error: Option<string>): (v: PopupView)
    ensures v.Nothing? <==> eventDetails.None? && !loading
    ensures v.Spinner? <==> loading
    ensures v.ErrorText? ==> error.Some? && v.message == error.value && eventDetails.Some?
    ensures v.Details? ==> eventDetails == Some(v.events)
    ensures !loading && eventDetails.Some? && error.Some? && error.value != "" ==> v == ErrorText(error.value)
    ensures !loading && eventDetails.Some? && (error.None? || error.value == "") ==> v == Details(eventDetails.value)
  {
    if eventDetails.None? && !loading then Nothing
    else if loading then Spinner
    else if error.Some? && error.value != "" then ErrorText(error.value)
    else Details(eventDetails.value)
  }

  /** The effect runs for these props and fetches: they differ from its
      last run, and the popup is open with both identifiers. */
  predicate Runs(last: Option<(bool, string, string)>, isOpen: bool, icodCli: string, asunto: string)
  {
    last != Some((isOpen, icodCli, asunto)) && ShouldFetch(isOpen, icodCli, asunto)
  }

  class EventPopup {
    var eventDetails: Option<seq<Event>>
    var loading: bool
    var error: Option<string>
    /** The props `(isOpen, icodCli, asunto)` the effect last ran with;
        None before its first run on mount. */
    var lastProps: Option<(bool, string, string)>

    /** Mounted loading, with no details and no error. */
    constructor ()
      ensures eventDetails == None && loading && error == None && lastProps == None
    {
      eventDetails, loading, error := None, true, None;
      lastProps := None;
    }

    function Render(): PopupView
      reads this
    {
      ViewOf(eventDetails, loading, error)
    }

    /** `fetchEventDetails`: without both identifiers it only records the
        missing-data error; otherwise it requests the events, sorts them
        newest first and shows them, or records the failure. Loading ends
        false on every path. */
    method FetchEventDetails(icodCli: string, asunto: string, request: (string, string) -> Fetch<seq<Event>>)
      modifies this
      ensures !loading && lastProps == old(lastProps)
      ensures icodCli == "" || asunto == "" ==>
        error == Some(MissingData) && eventDetails == old(eventDetails)
      ensures icodCli != "" && asunto != "" && request(icodCli, asunto).Loaded? ==>
        && error == None
        && eventDetails == Some(InsertionSort(request(icodCli, asunto).value, NewestFirst))
        && multiset(eventDetails.value) == multiset(request(icodCli, asunto).value)
        && forall i, j :: 0 <= i < j < |eventDetails.value| ==>
             eventDetails.value[i].createdAt >= eventDetails.value[j].createdAt
      ensures icodCli != "" && asunto != "" && request(icodCli, asunto).Failed? ==>
        && error == Some(DetailErrorMessage(request(icodCli, asunto).failure))
        && eventDetails == old(eventDetails)
    {
      if icodCli == "" || asunto == "" {
        error := Some(MissingData);
        loading := false;
        return;
      }
      loading := true;
      error := None;
      var response := request(icodCli, asunto);
      if response.Loaded? {
        var received := response.value;
        var data := new Event[|received|](i requires 0 <= i < |received| => received[i]);
        assert data[..] == received;
        var ordered := ProcessEventData(data);
        eventDetails := Some(ordered[..]);
      } else {
        error := Some(Or(response.failure.responseMessage, DetailError));
      }
      loading := false;
    }

    /** A render with props (isOpen, icodCli, asunto). The effect on those
        dependencies runs on mount and whenever one of them differs from
        its last run; it fetches when the popup is open with both
        identifiers, and otherwise does nothing. */
    method OnPropsChange(isOpen: bool, icodCli: string, asunto: string, request: (string, string) -> Fetch<seq<Event>>)
      modifies this
      ensures old(lastProps) == Some((isOpen, icodCli, asunto)) ==> unchanged(this)
      ensures lastProps == Some((isOpen, icodCli, asunto))
      ensures old(lastProps) != Some((isOpen, icodCli, asunto)) && !ShouldFetch(isOpen, icodCli, asunto) ==>
        eventDetails == old(eventDetails) && loading == old(loading) && error == old(error)
      ensures Runs(old(lastProps), isOpen, icodCli, asunto) ==> !loading
      ensures Runs(old(lastProps), isOpen, icodCli, asunto) && request(icodCli, asunto).Loaded? ==>
        && error == None
        && eventDetails == Some(InsertionSort(request(icodCli, asunto).value, NewestFirst))
        && multiset(eventDetails.value) == multiset(request(icodCli, asunto).value)
        && forall i, j :: 0 <= i < j < |eventDetails.value| ==>
             eventDetails.value[i].createdAt >= eventDetails.value[j].createdAt
      ensures Runs(old(lastProps), isOpen, icodCli, asunto) && request(icodCli, asunto).Failed? ==>
        && error == Some(DetailErrorMessage(request(icodCli, asunto).failure))
        && eventDetails == old(eventDetails)
    {
      if lastProps == Some((isOpen, icodCli, asunto)) {
        return;
      }
      lastProps := Some((isOpen, icodCli, asunto));
      if isOpen && icodCli != "" && asunto != "" {
        FetchEventDetails(icodCli, asunto, request);
      }
    }
  }

  /** The missing-data error is only ever seen over earlier details: with
      none, the popup renders nothing at all; with some, the error replaces
      them. */
  lemma MissingDataShowsNothingWithoutDetails(details: seq<Event>)
    ensures ViewOf(None, false, Some(MissingData)) == Nothing
    ensures ViewOf(Some(details), false, Some(MissingData)) == ErrorText(MissingData)
  {
  }
}
