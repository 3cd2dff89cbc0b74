/** The templates report: the templates fetched once on mount, newest
    mailing first, as a grid of send date, name and clicks. The request
    is a parameter: what fetching the templates settles to. */
module Plantillas {
  import opened Common
  import opened Types
  import opened Sorting

  const LoadError: string := "Error al cargar las plantillas."

  /** The comparator `b.start_date - a.start_date` lets `a` come first when
      it was not sent earlier than `b`. */
  predicate LatestStartFirst(a: Plantilla, b: Plantilla)
  {
    a.startDate >= b.startDate
  }

  lemma LatestStartFirstIsTotalPreorder()
    ensures TotalPreorder(LatestStartFirst)
  {
  }

  /** One grid row of `datos`: the send date (its formatting is not
      modelled), the template name and the click count. */
  datatype Dato = Dato(fechaEnvio: int, nombrePlantilla: string, numClicks: int)

  /** `datos`: one row per template, in the same order. */
  function Datos(plantillas: seq<Plantilla>): (r: seq<Dato>)
    ensures |r| == |plantillas|
    ensures forall i :: 0 <= i < |r| ==>
      r[i] == Dato(plantillas[i].startDate, plantillas[i].templateName, plantillas[i].clickCount)
  {
    seq(|plantillas|, i requires 0 <= i < |plantillas| =>
      Dato(plantillas[i].startDate, plantillas[i].templateName, plantillas[i].clickCount))
  }

  /** What the screen shows. */
  datatype View = Loading | ErrorText(message: string) | Grid(datos: seq<Dato>)

  /** The loading message wins over the error, which wins over the grid. */
  function ViewOf(loading: bool, error: Option<string>, plantillas: seq<Plantilla>): (v: View)
    ensures loading ==> v == Loading
    ensures !loading && error.Some? && error.value != "" ==> v == ErrorText(error.value)
    ensures v.Grid? <==> !loading && (error.None? || error.value == "")
    ensures v.Grid? ==> v.datos == Datos(plantillas)
  {
    if loading then Loading
    else if error.Some? && error.value != "" then ErrorText(error.value)
    else Grid(Datos(plantillas))
  }

  /** Sorted newest first, the grid's send dates never increase. */
  lemma GridDatesDescend(plantillas: seq<Plantilla>)
    requires SortedBy(plantillas, LatestStartFirst)
    ensures forall i, j :: 0 <= i < j < |Datos(plantillas)| ==>
      Datos(plantillas)[i].fechaEnvio >= Datos(plantillas)[j].fechaEnvio
  {
    var d := Datos(plantillas);
    forall i, j | 0 <= i < j < |d|
      ensures d[i].fechaEnvio >= d[j].fechaEnvio
    {
      assert LatestStartFirst(plantillas[i], plantillas[j]);
    }
  }

  class PlantillasScreen {
    var plantillas: seq<Plantilla>
    var loading: bool
    var error: Option<string>

    constructor ()
      ensures plantillas == [] && !loading && error == None
    {
      plantillas, loading, error := [], false, None;
    }

    function Render(): View
      reads this
    {
      ViewOf(loading, error, plantillas)
    }

    /** `cargarPlantillas`: the response array is sorted in place, newest
        mailing first, and becomes the list; a failure sets the fixed
        message and keeps the list. Loading ends false either way. */
    method CargarPlantillas(request: Fetch<seq<Plantilla>>)
      modifies this
      ensures !loading
      ensures request.Loaded? ==>
        && error == None
        && plantillas == InsertionSort(request.value, LatestStartFirst)
        && multiset(plantillas) == multiset(request.value)
        && SortedBy(plantillas, LatestStartFirst)
      ensures request.Failed? ==> error == Some(LoadError) && plantillas == old(plantillas)
    {
      loading := true;
      error := None;
      if request.Loaded? {
        var received := request.value;
        var response := new Plantilla[|received|](i requires 0 <= i < |received| => received[i]);
        assert response[..] == received;
        LatestStartFirstIsTotalPreorder();
        SortInPlace(response, LatestStartFirst);
        plantillas := response[..];
      } else {
        error := Some(LoadError);
      }
      loading := false;
    }
  }
}
