/** The stand-alone sortable, paged table of `src/utils`: fifty seed rows of
    text, a click-to-sort header, pages of 25 rows and a status selector. */
module UtilsDataTable {
  import opened Common
  import opened Text
  import opened Sorting

  /** A row of this table: every field is text. */
  datatype LocalRow = LocalRow(
    fuente: string,
    icodcli: string,
    correo: string,
    asunto: string,
    horaFecha: string,
    estado: string)

  /** The six column accessors. */
  datatype Column = Fuente | Icodcli | Correo | Asunto | HoraFecha | Estado

  datatype Direction = Ascending | Descending

  datatype SortConfig = SortConfig(key: Column, direction: Direction)

  const RowsPerPage: int := 25

  function Field(row: LocalRow, key: Column): string
  {
    match key
    case Fuente => row.fuente
    case Icodcli => row.icodcli
    case Correo => row.correo
    case Asunto => row.asunto
    case HoraFecha => row.horaFecha
    case Estado => row.estado
  }

  // ------------------------------------------------------------ seed data

  /** Row `i` of the local `generateData`. */
  function SeedRow(i: nat): LocalRow
  {
    var n := NatToString(i + 1);
    LocalRow("Fuente " + n, "IC" + n, "correo" + n + "@example.com", "Asunto " + n,
      "2024-12-13 12:00", if i % 2 == 0 then "Activo" else "Inactivo")
  }

  /** The local `generateData`: fifty rows, "Activo" at even positions and
      "Inactivo" at odd ones. */
  method GenerateData() returns (data: seq<LocalRow>)
    ensures |data| == 50
    ensures forall i :: 0 <= i < 50 ==> data[i] == SeedRow(i)
    ensures forall i :: 0 <= i < 50 ==> (data[i].estado == "Activo" <==> i % 2 == 0)
    ensures forall i :: 0 <= i < 50 ==> (data[i].estado == "Inactivo" <==> i % 2 == 1)
  {
    data := [];
    for i := 0 to 50
      invariant |data| == i
      invariant forall k :: 0 <= k < i ==> data[k] == SeedRow(k)
    {
      data := data + [SeedRow(i)];
    }
  }

  // -------------------------------------------------------------- sorting

  /** `handleSort`: a second click on the column sorted ascending turns it
      descending; any other click sorts that column ascending. */
  function NextSort(config: Option<SortConfig>, column: Column): (r: SortConfig)
    ensures r.key == column
    ensures r.direction == Descending <==> config == Some(SortConfig(column, Ascending))
  {
    if config.Some? && config.value.key == column && config.value.direction == Ascending then
      SortConfig(column, Descending)
    else SortConfig(column, Ascending)
  }

  /** Toggling the same column alternates the direction. */
  lemma SortToggles(config: Option<SortConfig>, column: Column)
    ensures NextSort(Some(NextSort(config, column)), column).direction != NextSort(config, column).direction
  {
  }

  /** The comparator of `sortedData` says `a` may come before `b`: it does
      not return 1. */
  function Le(config: SortConfig): (LocalRow, LocalRow) -> bool
  {
    (a: LocalRow, b: LocalRow) =>
      if config.direction == Ascending then !StrLt(Field(b, config.key), Field(a, config.key))
      else !StrLt(Field(a, config.key), Field(b, config.key))
  }

  lemma LeIsTotalPreorder(config: SortConfig)
    ensures TotalPreorder(Le(config))
  {
    var le := Le(config);
    forall x, y
      ensures le(x, y) || le(y, x)
    {
      StrLtAsymmetric(Field(x, config.key), Field(y, config.key));
    }
    forall x, y, z | le(x, y) && le(y, z)
      ensures le(x, z)
    {
      var a, b, c := Field(x, config.key), Field(y, config.key), Field(z, config.key);
      StrLtTrichotomy(a, b);
      StrLtTrichotomy(b, c);
      StrLtTrichotomy(a, c);
      if StrLt(a, b) && StrLt(b, c) {
        StrLtTransitive(a, b, c);
      }
      if StrLt(b, a) && StrLt(c, b) {
        StrLtTransitive(c, b, a);
      }
      if StrLt(c, a) {
        StrLtAsymmetric(a, c);
        if StrLt(b, c) {
          StrLtTransitive(b, c, a);
        }
        if StrLt(a, b) {
          StrLtTransitive(c, a, b);
        }
      }
      if StrLt(a, c) {
        if StrLt(c, b) {
          StrLtTransitive(a, c, b);
        }
        if StrLt(b, a) {
          StrLtTransitive(b, a, c);
        }
      }
    }
  }

  /** `sortedData`: a copy of the rows, sorted when a column was chosen. */
  function SortedData(localData: seq<LocalRow>, config: Option<SortConfig>): seq<LocalRow>
  {
    if config.None? then localData else InsertionSort(localData, Le(config.value))
  }

  /** Without a sort the rows keep their order; with one they come out
      non-decreasing (ascending) or non-increasing (descending) by the key,
      and always as a rearrangement of the same rows. */
  lemma SortedDataIsSorting(localData: seq<LocalRow>, config: Option<SortConfig>)
    ensures config.None? ==> SortedData(localData, config) == localData
    ensures multiset(SortedData(localData, config)) == multiset(localData)
    ensures |SortedData(localData, config)| == |localData|
    ensures config.Some? && config.value.direction == Ascending ==>
      forall i, j :: 0 <= i < j < |localData| ==>
        !StrLt(Field(SortedData(localData, config)[j], config.value.key), Field(SortedData(localData, config)[i], config.value.key))
    ensures config.Some? && config.value.direction == Descending ==>
      forall i, j :: 0 <= i < j < |localData| ==>
        !StrLt(Field(SortedData(localData, config)[i], config.value.key), Field(SortedData(localData, config)[j], config.value.key))
  {
    if config.Some? {
      LeIsTotalPreorder(config.value);
      InsertionSortIsSorting(localData, Le(config.value));
      var r := SortedData(localData, config);
      assert forall i, j :: 0 <= i < j < |r| ==> Le(config.value)(r[i], r[j]);
    }
  }

  // ----------------------------------------------------------- pagination

  /** `rows.slice(25 * page, 25 * (page + 1))` for a page that is not
      negative: the slice is clipped to the rows there are. */
  function PageRows(rows: seq<LocalRow>, page: nat): (r: seq<LocalRow>)
    ensures |r| == if page * RowsPerPage >= |rows| then 0
      else if (page + 1) * RowsPerPage <= |rows| then RowsPerPage
      else |rows| - page * RowsPerPage
    ensures |r| <= RowsPerPage
    ensures forall k :: 0 <= k < |r| ==> r[k] == rows[page * RowsPerPage + k]
  {
    var start := page * RowsPerPage;
    if start >= |rows| then []
    else if start + RowsPerPage <= |rows| then rows[start..start + RowsPerPage]
    else rows[start..]
  }

  /** `Math.ceil(length / 25)`. */
  function PageCount(length: nat): (n: nat)
    ensures (n - 1) * RowsPerPage < length <= n * RowsPerPage || (length == 0 && n == 0)
  {
    (length + RowsPerPage - 1) / RowsPerPage
  }

  /** "Siguiente" is enabled exactly when there is a further page, and
      every row is shown on page `i / 25` at position `i % 25`. */
  lemma PagesCoverRows(rows: seq<LocalRow>, page: nat, i: int)
    ensures (page + 1) * RowsPerPage < |rows| <==> page + 1 < PageCount(|rows|)
    ensures 0 <= i < |rows| ==>
      i % RowsPerPage < |PageRows(rows, i / RowsPerPage)| && PageRows(rows, i / RowsPerPage)[i % RowsPerPage] == rows[i]
    ensures |PageRows(rows, page)| > 0 <==> page < PageCount(|rows|)
  {
    if 0 <= i < |rows| {
      assert (i / RowsPerPage) * RowsPerPage + i % RowsPerPage == i;
    }
  }

  // ---------------------------------------------------------------- state

  /** Where the pagination buttons can bring the page: the first page, or
      one that starts inside the rows. */
  predicate PageInRange(page: int, length: int)
  {
    0 <= page && (page == 0 || page * RowsPerPage < length)
  }

  class LocalTable {
    var localData: seq<LocalRow>
    var sortConfig: Option<SortConfig>
    var currentPage: int

    ghost predicate Valid()
      reads this
    {
      PageInRange(currentPage, |localData|)
    }

    constructor ()
      ensures Valid()
      ensures |localData| == 50 && forall i :: 0 <= i < 50 ==> localData[i] == SeedRow(i)
      ensures sortConfig == None && currentPage == 0
    {
      var data := GenerateData();
      localData := data;
      sortConfig := None;
      currentPage := 0;
    }

    /** The rows of the current page, taken from the sorted view. */
    function VisibleRows(): seq<LocalRow>
      reads this
      requires Valid()
    {
      PageRows(SortedData(localData, sortConfig), currentPage)
    }

    method HandleSort(column: Column)
      requires Valid()
      modifies this
      ensures Valid()
      ensures sortConfig == Some(NextSort(old(sortConfig), column))
      ensures localData == old(localData) && currentPage == old(currentPage)
    {
      var direction := Ascending;
      if sortConfig.Some? && sortConfig.value.key == column && sortConfig.value.direction == Ascending {
        direction := Descending;
      }
      sortConfig := Some(SortConfig(column, direction));
    }

    /** "Anterior": disabled on the first page. */
    method PreviousPage()
      requires Valid()
      modifies this
      ensures Valid()
      ensures currentPage == if old(currentPage) == 0 then 0 else old(currentPage) - 1
      ensures localData == old(localData) && sortConfig == old(sortConfig)
    {
      if currentPage != 0 {
        currentPage := currentPage - 1;
      }
    }

    /** "Siguiente": disabled once the next page would start past the rows. */
    method NextPage()
      requires Valid()
      modifies this
      ensures Valid()
      ensures currentPage == if (old(currentPage) + 1) * RowsPerPage >= |localData| then old(currentPage)
        else old(currentPage) + 1
      ensures localData == old(localData) && sortConfig == old(sortConfig)
    {
      if (currentPage + 1) * RowsPerPage < |localData| {
        currentPage := currentPage + 1;
      }
    }

    /** `handleChangeStatus`: the status of the row at `index` of the rows
      as stored (not as sorted or paged) becomes `newStatus`. */
    method HandleChangeStatus(index: int, newStatus: string)
      requires Valid()
      requires 0 <= index < |localData|
      modifies this
      ensures Valid()
      ensures |localData| == |old(localData)|
      ensures localData[index] == old(localData[index]).(estado := newStatus)
      ensures forall k :: 0 <= k < |localData| && k != index ==> localData[k] == old(localData[k])
      ensures sortConfig == old(sortConfig) && currentPage == old(currentPage)
    {
      var updatedData := localData;
      updatedData := updatedData[index := updatedData[index].(estado := newStatus)];
      localData := updatedData;
    }
  }

  /** Whatever page the buttons reach, it shows at least one row when
      there are rows. */
  lemma ValidPageIsNotEmpty(rows: seq<LocalRow>, page: int)
    requires PageInRange(page, |rows|) && |rows| > 0
    ensures |PageRows(rows, page)| > 0
  {
  }
}
