/** The analytics screen: its date-range and collective filter over the
    generated rows, the list of collectives offered for selection, and
    the preset date ranges. A date is the instant it holds, in
    milliseconds; `null` is `None`, and an unselected collective is "". */
module AnalyticsData {
  import opened Common
  import opened Time
  import opened Types

  /** Whether `filteredStatsData` keeps `item`: both date bounds are
      inclusive, and a selected collective must match exactly. */
  predicate Keep(item: DataRow, startDate: Option<int>, endDate: Option<int>, selectedColectivo: string)
  {
    if startDate.Some? && item.horaFecha < startDate.value then false
    else if endDate.Some? && item.horaFecha > endDate.value then false
    else if selectedColectivo != "" && item.colectivo != selectedColectivo then false
    else true
  }

  function Keeps(startDate: Option<int>, endDate: Option<int>, selectedColectivo: string): DataRow -> bool
  {
    (item: DataRow) => Keep(item, startDate, endDate, selectedColectivo)
  }

  /** `filteredStatsData`. */
  function FilteredStatsData(data: seq<DataRow>, startDate: Option<int>, endDate: Option<int>, selectedColectivo: string): seq<DataRow>
  {
    Filter(data, Keeps(startDate, endDate, selectedColectivo))
  }

  /** An item is kept exactly when it lies in both bounds that are set and
      belongs to the selected collective, if any; what is kept keeps its
      order. */
  lemma FilteredStatsDataKeeps(data: seq<DataRow>, startDate: Option<int>, endDate: Option<int>, selectedColectivo: string, x: DataRow)
    ensures x in FilteredStatsData(data, startDate, endDate, selectedColectivo) <==>
      x in data
      && (startDate.None? || x.horaFecha >= startDate.value)
      && (endDate.None? || x.horaFecha <= endDate.value)
      && (selectedColectivo == "" || x.colectivo == selectedColectivo)
    ensures IsSubsequence(FilteredStatsData(data, startDate, endDate, selectedColectivo), data)
  {
    FilterMembership(data, Keeps(startDate, endDate, selectedColectivo), x);
    FilterIsSubsequence(data, Keeps(startDate, endDate, selectedColectivo));
  }

  /** With no filter set every row is shown, in order. */
  lemma NoFilterKeepsAll(data: seq<DataRow>)
    ensures FilteredStatsData(data, None, None, "") == data
  {
    FilterKeepsAll(data, Keeps(None, None, ""));
  }

  /** Selecting a collective shows exactly its rows: as many as it has. */
  lemma SelectedColectivoCount(data: seq<DataRow>, c: string)
    requires c != ""
    ensures |FilteredStatsData(data, None, None, c)| == CountEq(data, (r: DataRow) => r.colectivo, c)
  {
    SelectedCount(data, c);
  }

  lemma {:induction false} SelectedCount(data: seq<DataRow>, c: string)
    requires c != ""
    ensures |Filter(data, Keeps(None, None, c))| == CountEq(data, (r: DataRow) => r.colectivo, c)
    decreases |data|
  {
    if |data| > 0 {
      SelectedCount(AllButLast(data), c);
    }
  }

  /** `Array.from(new Set(allStatsData.map(item => item.colectivo)))`. */
  function ColectivoOptions(data: seq<DataRow>): seq<string>
  {
    Distinct(Colectivos(data))
  }

  /** Each collective that occurs is offered exactly once, in order of its
      first row. */
  lemma ColectivoOptionsDistinct(data: seq<DataRow>, c: string)
    ensures c in ColectivoOptions(data) <==> exists i :: 0 <= i < |data| && data[i].colectivo == c
    ensures NoDup(ColectivoOptions(data))
    ensures forall i, j :: 0 <= i < j < |ColectivoOptions(data)| ==>
      IndexOf(Colectivos(data), ColectivoOptions(data)[i]) < IndexOf(Colectivos(data), ColectivoOptions(data)[j])
  {
    DistinctMembership(Colectivos(data), c);
    ColectivosMembership(data, c);
    DistinctNoDup(Colectivos(data));
    DistinctFirstSeenOrder(Colectivos(data));
  }

  /** `setTodayRange` at instant `now`: from local 00:00:00.000 to local
      23:59:59.999 of today. */
  function TodayRange(now: int, offsetMs: int): (r: (int, int))
    ensures r.0 <= now <= r.1
    ensures r.1 - r.0 == DayMs - 1
    ensures (r.0 + offsetMs) % DayMs == 0
  {
    (LocalMidnight(now, offsetMs), LocalEndOfDay(now, offsetMs))
  }

  /** `setYesterdayRange`: the day of `now` one calendar day back. */
  function YesterdayRange(now: int, offsetMs: int): (r: (int, int))
    ensures r.1 - r.0 == DayMs - 1
    ensures r.1 < now
  {
    var yesterday := now - DayMs;
    (LocalMidnight(yesterday, offsetMs), LocalEndOfDay(yesterday, offsetMs))
  }

  /** Yesterday's range is today's range moved back by exactly one day. */
  lemma YesterdayIsTodayMovedBack(now: int, offsetMs: int)
    ensures YesterdayRange(now, offsetMs).0 == TodayRange(now, offsetMs).0 - DayMs
    ensures YesterdayRange(now, offsetMs).1 == TodayRange(now, offsetMs).1 - DayMs
  {
    LocalMidnightShift(now, offsetMs, -1);
  }

  /** `setLast7DaysRange`: from the same instant seven days ago until now. */
  function Last7DaysRange(now: int): (r: (int, int))
    ensures r.1 == now && now - r.0 == 7 * DayMs
  {
    (now - 7 * DayMs, now)
  }

  /** The filter state of the analytics screen. */
  class AnalyticsFilters {
    var startDate: Option<int>
    var endDate: Option<int>
    var selectedColectivo: string

    /** Nothing selected: every row is shown. */
    constructor ()
      ensures startDate == None && endDate == None && selectedColectivo == ""
    {
      startDate, endDate, selectedColectivo := None, None, "";
    }

    /** The rows the charts receive. */
    function Filtered(data: seq<DataRow>): seq<DataRow>
      reads this
    {
      FilteredStatsData(data, startDate, endDate, selectedColectivo)
    }

    /** The collective drop-down. */
    method SelectColectivo(c: string)
      modifies this
      ensures selectedColectivo == c
      ensures startDate == old(startDate) && endDate == old(endDate)
    {
      selectedColectivo := c;
    }

    /** `clearDateFilters`: both dates back to null, the collective kept. */
    method ClearDateFilters()
      modifies this
      ensures startDate == None && endDate == None
      ensures selectedColectivo == old(selectedColectivo)
    {
      startDate := None;
      endDate := None;
    }

    method SetTodayRange(now: int, offsetMs: int)
      modifies this
      ensures startDate == Some(TodayRange(now, offsetMs).0)
      ensures endDate == Some(TodayRange(now, offsetMs).1)
      ensures selectedColectivo == old(selectedColectivo)
    {
      // setHours(0, 0, 0, 0) moves `today` to its midnight; the second
      // setHours then works on that midnight, which lies in the same day
      var today := now;
      today := LocalMidnight(today, offsetMs);
      startDate := Some(today);
      today := LocalEndOfDay(today, offsetMs);
      endDate := Some(today);
      LocalEndOfDayOfMidnight(now, offsetMs);
    }

    method SetYesterdayRange(now: int, offsetMs: int)
      modifies this
      ensures startDate == Some(YesterdayRange(now, offsetMs).0)
      ensures endDate == Some(YesterdayRange(now, offsetMs).1)
      ensures selectedColectivo == old(selectedColectivo)
    {
      var yesterday := now - DayMs;
      yesterday := LocalMidnight(yesterday, offsetMs);
      startDate := Some(yesterday);
      yesterday := LocalEndOfDay(yesterday, offsetMs);
      endDate := Some(yesterday);
      LocalEndOfDayOfMidnight(now - DayMs, offsetMs);
    }

    method SetLast7DaysRange(now: int)
      modifies this
      ensures startDate == Some(Last7DaysRange(now).0)
      ensures endDate == Some(Last7DaysRange(now).1)
      ensures selectedColectivo == old(selectedColectivo)
    {
      endDate := Some(now);
      startDate := Some(now - 7 * DayMs);
    }
  }

  /** The end of the day of a day's midnight is the end of that day. */
  lemma LocalEndOfDayOfMidnight(t: int, offsetMs: int)
    ensures LocalEndOfDay(LocalMidnight(t, offsetMs), offsetMs) == LocalEndOfDay(t, offsetMs)
  {
    var m := LocalMidnight(t, offsetMs);
    assert LocalMidnight(m, offsetMs) == m;
  }
}
