/** The leads table: the pending or managed events fetched from the
    backend, shown as a grid of nine columns, with a detail popup. The
    backend is a parameter: what one request for a status settles to. */
module EventTable {
  import opened Common
  import opened Types

  const UnknownError: string := "Error desconocido al cargar los datos."
  const NotAvailable: string := "N/A"

  const Columns: seq<string> :=
    ["Fecha y Hora", "Correo", "IcodCli", "Colectivo", "Asunto", "Fuente", "Sección", "Estado", "Acciones"]

  /** A grid cell: the creation date (its formatting is not modelled), a
      text, or the "Ver más" button that opens the popup for a client and
      subject. */
  datatype Cell = DateCell(t: int) | TextCell(text: string) | ViewMore(icodCli: string, asunto: string)

  /** The message shown for a failed fetch: an `Error`'s own message, any
      other thrown value the fixed text. */
  function FetchErrorMessage(f: Failure): (m: string)
    ensures f.isError ==> m == f.message
    ensures !f.isError ==> m == UnknownError
  {
    if f.isError then f.message else UnknownError
  }

  /** One row of `tableRows`. */
  function RowOf(e: Event): (cells: seq<Cell>)
    ensures |cells| == |Columns|
    ensures cells[0] == DateCell(e.createdAt) && cells[8] == ViewMore(e.icodcli, e.asunto)
    ensures forall k :: 1 <= k < 8 ==> cells[k].TextCell? && cells[k].text != ""
    ensures forall k :: 1 <= k < 8 && FieldOf(e, k) != "" ==> cells[k].text == FieldOf(e, k)
    ensures forall k :: 1 <= k < 8 && FieldOf(e, k) == "" ==> cells[k].text == NotAvailable
  {
    [DateCell(e.createdAt),
     TextCell(Or(e.email, NotAvailable)),
     TextCell(Or(e.icodcli, NotAvailable)),
     TextCell(Or(e.colectivo, NotAvailable)),
     TextCell(Or(e.asunto, NotAvailable)),
     TextCell(Or(e.fuente, NotAvailable)),
     TextCell(Or(e.section, NotAvailable)),
     TextCell(Or(e.status, NotAvailable)),
     ViewMore(e.icodcli, e.asunto)]
  }

  /** `tableRows`: one row per event, in the same order. */
  function TableRows(events: seq<Event>): (rows: seq<seq<Cell>>)
    ensures |rows| == |events|
    ensures forall i :: 0 <= i < |rows| ==> rows[i] == RowOf(events[i])
  {
    seq(|events|, i requires 0 <= i < |events| => RowOf(events[i]))
  }

  /** The field shown in text column `k` (1 to 7) of the grid. */
  function FieldOf(e: Event, k: int): string
    requires 1 <= k < 8
  {
    match k
    case 1 => e.email
    case 2 => e.icodcli
    case 3 => e.colectivo
    case 4 => e.asunto
    case 5 => e.fuente
    case 6 => e.section
    case 7 => e.status
  }

  /** Every text cell shows its own column's field when that is truthy,
      and "N/A" exactly when the field is falsy or is "N/A" itself. */
  lemma TextCellsShowFields(e: Event, k: int)
    requires 1 <= k < 8
    ensures RowOf(e)[k].text == NotAvailable <==> FieldOf(e, k) == "" || FieldOf(e, k) == NotAvailable
    ensures FieldOf(e, k) != "" ==> RowOf(e)[k].text == FieldOf(e, k)
    ensures FieldOf(e, k) == "" ==> RowOf(e)[k].text == NotAvailable
  {
  }

  /** What the table area shows. */
  datatype View = Skeleton | ErrorText(message: string) | Grid(rows: seq<seq<Cell>>)

  /** The render precedence: loading first, then a truthy error alone (the
      grid is hidden), then the grid. */
  function ViewOf(loading: bool, error: Option<string>, events: seq<Event>): (v: View)
    ensures loading <==> v.Skeleton?
    ensures v.ErrorText? <==> !loading && error.Some? && error.value != ""
    ensures v.ErrorText? ==> v.message == error.value
    ensures v.Grid? ==> v.rows == TableRows(events)
  {
    if loading then Skeleton
    else if error.Some? && error.value != "" then ErrorText(error.value)
    else Grid(TableRows(events))
  }

  /** An `Error` with an empty message is a falsy error text: the grid
      stays on screen with the events of before, as if nothing failed. */
  lemma EmptyErrorMessageShowsGrid(events: seq<Event>, f: Failure)
    requires f.isError && f.message == ""
    ensures ViewOf(false, Some(FetchErrorMessage(f)), events) == Grid(TableRows(events))
  {
  }

  class EventTableScreen {
    var events: seq<Event>
    var loading: bool
    var error: Option<string>
    var asunto: string
    var isOpen: bool
    var selectedIcodCli: Option<string>
    var activeTab: EventStatus

    constructor ()
      ensures events == [] && !loading && error == None
      ensures asunto == "" && !isOpen && selectedIcodCli == None && activeTab == Pendiente
    {
      events, loading, error := [], false, None;
      asunto, isOpen, selectedIcodCli := "", false, None;
      activeTab := Pendiente;
    }

    function Render(): View
      reads this
    {
      ViewOf(loading, error, events)
    }

    /** The popup is mounted only while a truthy client code is selected. */
    predicate PopupMounted()
      reads this
    {
      selectedIcodCli.Some? && selectedIcodCli.value != ""
    }

    /** `fetchEvents`: loading with no error while the request is out;
        then the list is replaced by the result, or kept and the error
        set; loading ends false either way. */
    method FetchEvents(status: EventStatus, backend: EventStatus -> Fetch<seq<Event>>)
      modifies this
      ensures !loading
      ensures backend(status).Loaded? ==> events == backend(status).value && error == None
      ensures backend(status).Failed? ==>
        events == old(events) && error == Some(FetchErrorMessage(backend(status).failure))
      ensures asunto == old(asunto) && isOpen == old(isOpen)
      ensures selectedIcodCli == old(selectedIcodCli) && activeTab == old(activeTab)
    {
      loading := true;
      error := None;
      var result := backend(status);
      if result.Loaded? {
        events := result.value;
      } else {
        error := Some(if result.failure.isError then result.failure.message else UnknownError);
      }
      loading := false;
    }

    /** The mount effect: the active tab is fetched. */
    method Mount(backend: EventStatus -> Fetch<seq<Event>>)
      modifies this
      ensures !loading && activeTab == old(activeTab)
      ensures backend(activeTab).Loaded? ==> events == backend(activeTab).value && error == None
      ensures backend(activeTab).Failed? ==>
        events == old(events) && error == Some(FetchErrorMessage(backend(activeTab).failure))
      ensures asunto == old(asunto) && isOpen == old(isOpen) && selectedIcodCli == old(selectedIcodCli)
    {
      FetchEvents(activeTab, backend);
    }

    /** A tab button: the effect on `activeTab` refetches only when the tab
        actually changes. */
    method SelectTab(tab: EventStatus, backend: EventStatus -> Fetch<seq<Event>>)
      modifies this
      ensures activeTab == tab
      ensures tab == old(activeTab) ==> unchanged(this)
      ensures tab != old(activeTab) ==>
        && !loading
        && (backend(tab).Loaded? ==> events == backend(tab).value && error == None)
        && (backend(tab).Failed? ==>
              events == old(events) && error == Some(FetchErrorMessage(backend(tab).failure)))
        && asunto == old(asunto) && isOpen == old(isOpen) && selectedIcodCli == old(selectedIcodCli)
    {
      if tab != activeTab {
        activeTab := tab;
        FetchEvents(tab, backend);
      }
    }

    /** "Refrescar": refetches the active tab. */
    method Refresh(backend: EventStatus -> Fetch<seq<Event>>)
      modifies this
      ensures !loading && activeTab == old(activeTab)
      ensures backend(activeTab).Loaded? ==> events == backend(activeTab).value && error == None
      ensures backend(activeTab).Failed? ==>
        events == old(events) && error == Some(FetchErrorMessage(backend(activeTab).failure))
      ensures asunto == old(asunto) && isOpen == old(isOpen) && selectedIcodCli == old(selectedIcodCli)
    {
      FetchEvents(activeTab, backend);
    }

    /** `openPopup`, from a row's "Ver más" button. */
    method OpenPopup(icodCli: string, asuntoSel: string)
      modifies this
      ensures selectedIcodCli == Some(icodCli) && asunto == asuntoSel && isOpen
      ensures events == old(events) && loading == old(loading) && error == old(error)
      ensures activeTab == old(activeTab)
    {
      selectedIcodCli := Some(icodCli);
      asunto := asuntoSel;
      isOpen := true;
    }

    /** `closePopup`: closed, selection cleared, and the active tab
        refetched so the table shows what the popup changed. */
    method ClosePopup(backend: EventStatus -> Fetch<seq<Event>>)
      modifies this
      ensures !isOpen && asunto == "" && selectedIcodCli == None && !PopupMounted()
      ensures !loading && activeTab == old(activeTab)
      ensures backend(activeTab).Loaded? ==> events == backend(activeTab).value && error == None
      ensures backend(activeTab).Failed? ==>
        events == old(events) && error == Some(FetchErrorMessage(backend(activeTab).failure))
    {
      isOpen := false;
      FetchEvents(activeTab, backend);
      asunto := "";
      selectedIcodCli := None;
    }
  }

  /** A row's button opens the popup for that row's event. */
  lemma ButtonSelectsRowEvent(events: seq<Event>, i: int)
    requires 0 <= i < |events|
    ensures TableRows(events)[i][8] == ViewMore(events[i].icodcli, events[i].asunto)
    ensures |TableRows(events)[i]| == |Columns|
  {
  }
}
