/** The records the dashboard works on. Dates are integer milliseconds
    since the epoch. Text fields that the backend may leave out or send as
    null are the empty string here: every use of them in the dashboard
    only asks whether they are truthy. */
module Types {
  import opened Common

  /** A generated analytics row (`DataRow` of the dashboard). */
  datatype DataRow = DataRow(
    fuente: string,
    icodcli: string,
    correo: string,
    asunto: string,
    horaFecha: int,
    estado: string,
    clics: seq<string>,
    colectivo: string)

  /** A lead event as the backend returns it. */
  datatype Event = Event(
    id: string,
    createdAt: int,
    email: string,
    icodcli: string,
    asunto: string,
    status: string,
    colectivo: string,
    fuente: string,
    section: string)

  /** An e-mail template with its click count, as the reports endpoint returns it. */
  datatype Plantilla = Plantilla(
    id: int,
    templateName: string,
    startDate: int,
    endDate: int,
    clickCount: int,
    createdAt: int,
    updatedAt: int)

  /** What a failed request threw: whether it is an `Error` instance, its
      `message`, and the `message` of the HTTP response body ("" when the
      response carries none). */
  datatype Failure = Failure(isError: bool, message: string, responseMessage: string)

  /** The settled outcome of one awaited request. */
  datatype Fetch<T> = Loaded(value: T) | Failed(failure: Failure)

  /** The two event lists the backend serves. */
  datatype EventStatus = Pendiente | Gestionado

  /** The four click sources the dashboard knows, in cycle order. */
  const Sources: seq<string> := ["mail.video", "mail.plus.video", "mail.precios", "mail.plus.precios"]

  /** The collective of a row, as a key function for counting. */
  function Colectivo(r: DataRow): string { r.colectivo }

  /** `data.map(item => item.colectivo)`: the collective of every row, in order. */
  function Colectivos(data: seq<DataRow>): seq<string>
  {
    if |data| == 0 then [] else Colectivos(AllButLast(data)) + [Last(data).colectivo]
  }

  lemma {:induction false} ColectivosMembership(data: seq<DataRow>, c: string)
    ensures c in Colectivos(data) <==> exists i :: 0 <= i < |data| && data[i].colectivo == c
    decreases |data|
  {
    if |data| > 0 {
      var init := AllButLast(data);
      ColectivosMembership(init, c);
      assert forall i :: 0 <= i < |init| ==> init[i] == data[i];
      if exists i :: 0 <= i < |init| && init[i].colectivo == c {
        var i :| 0 <= i < |init| && init[i].colectivo == c;
        assert data[i].colectivo == c;
      }
    }
  }
}
