/** The reports screen: label normalisation, grouping of lead events by
    UTC calendar day, and the two tables (day x collective, day x source)
    with a recomputed TOTAL column. */
module Informes {
  import opened Common
  import opened Text
  import opened Time
  import opened Types

  const Desconocido: string := "Desconocido"
  const ErrorCarga: string := "Error al cargar los eventos."

  // ------------------------------------------------------ label normaliser

  /** The six synonyms, keyed by their lower-case spelling. */
  const Corrections: map<string, string> := map[
    "asesorias" := "Asesorías",
    "abogados" := "Abogados",
    "entidades-sociales" := "Entidades sociales",
    "clinicas" := "Clínicas",
    "formacion" := "Formación",
    "odontologos" := "Odontólogos"
  ]

  /** `\b\w` matches at `i`: a word character at the start or after a
      non-word character. */
  predicate WordStart(s: string, i: int)
    requires 0 <= i < |s|
  {
    IsWordChar(s[i]) && (i == 0 || !IsWordChar(s[i - 1]))
  }

  /** `.replace(/-/g, " ")` */
  function ReplaceHyphens(s: string): string
  {
    seq(|s|, i requires 0 <= i < |s| => if s[i] == '-' then ' ' else s[i])
  }

  /** `.replace(/\b\w/g, (char) => char.toUpperCase())` */
  function CapitalizeWords(s: string): string
  {
    seq(|s|, i requires 0 <= i < |s| => if WordStart(s, i) then ToUpperAscii(s[i]) else s[i])
  }

  /** `corregirNombreColectivo`: the table label when the lower-cased name
      is a synonym; otherwise hyphens become spaces and word-initial ASCII
      word characters are upper-cased, everything else kept. */
  function NormalizeName(nombre: string): (r: string)
    ensures LowerAscii(nombre) in Corrections ==> r == Corrections[LowerAscii(nombre)]
    ensures LowerAscii(nombre) !in Corrections ==>
      && |r| == |nombre|
      && forall i :: 0 <= i < |nombre| ==>
           r[i] == if nombre[i] == '-' then ' '
                   else if IsWordChar(nombre[i]) && (i == 0 || !IsWordChar(nombre[i - 1]))
                   then ToUpperAscii(nombre[i])
                   else nombre[i]
  {
    var key := LowerAscii(nombre);
    if key in Corrections then Corrections[key]
    else CapitalizeWords(ReplaceHyphens(nombre))
  }

  lemma NoKeyHasSpace(k: string)
    requires k in Corrections
    ensures ' ' !in k
  {
  }

  lemma {:induction false} LowerOfUpper(c: char)
    ensures ToLowerAscii(ToUpperAscii(c)) == ToLowerAscii(c)
  {
  }

  /** A label produced by the fallback path normalises to itself: it has
      no hyphen left, and its lower-cased form is no synonym key. */
  lemma NormalizeFallbackIsFixedPoint(nombre: string)
    requires LowerAscii(nombre) !in Corrections
    ensures NormalizeName(NormalizeName(nombre)) == NormalizeName(nombre)
  {
    var r := NormalizeName(nombre);
    var h := ReplaceHyphens(nombre);
    assert r == CapitalizeWords(h);
    assert forall i :: 0 <= i < |r| ==> r[i] != '-';
    if exists i :: 0 <= i < |nombre| && nombre[i] == '-' {
      var i :| 0 <= i < |nombre| && nombre[i] == '-';
      assert LowerAscii(r)[i] == ' ';
      if LowerAscii(r) in Corrections {
        NoKeyHasSpace(LowerAscii(r));
        assert false;
      }
    } else {
      forall i | 0 <= i < |nombre|
        ensures LowerAscii(r)[i] == LowerAscii(nombre)[i]
      {
        LowerOfUpper(nombre[i]);
      }
      assert LowerAscii(r) == LowerAscii(nombre);
    }
    assert ReplaceHyphens(r) == r;
    forall i | 0 <= i < |r|
      ensures CapitalizeWords(r)[i] == r[i]
    {
      assert IsWordChar(r[i]) <==> IsWordChar(h[i]);
      if i > 0 {
        assert IsWordChar(r[i - 1]) <==> IsWordChar(h[i - 1]);
      }
    }
  }

  /** Every synonym is matched whatever its letter case; for example the
      upper-case key of the social entities. */
  lemma NormalizeSynonymIgnoresCase()
    ensures NormalizeName("ENTIDADES-SOCIALES") == "Entidades sociales"
    ensures NormalizeName("Asesorias") == "Asesorías"
  {
    assert LowerAscii("ENTIDADES-SOCIALES") == "entidades-sociales";
    assert LowerAscii("Asesorias") == "asesorias";
  }

  /** `\w` is ASCII-only: a letter right after an accented letter counts
      as the start of a word and is upper-cased. */
  lemma AccentedLetterStartsWord()
    ensures NormalizeName("clínicas") == "ClíNicas"
  {
    assert LowerAscii("clínicas") == "clínicas";
    assert "clínicas" !in Corrections;
  }

  /** So an accented spelling of a synonym is not merged with the table
      label: "Asesorías" is shown as "AsesoríAs", not "Asesorías". */
  lemma AccentedSynonymIsNotMerged()
    ensures NormalizeName("Asesorías") == "AsesoríAs"
    ensures NormalizeName("asesorias") != NormalizeName("Asesorías")
  {
    assert LowerAscii("asesorias") == "asesorias";
    assert LowerAscii("Asesorías") == "asesorías";
    assert "asesorías" !in Corrections;
  }

  // --------------------------------------------------------- day grouper

  /** The collective label an event is counted under. */
  function CollectiveLabel(e: Event): string
  {
    NormalizeName(Or(e.colectivo, Desconocido))
  }

  /** The source label an event is counted under (not normalised). */
  function SourceLabel(e: Event): string
  {
    Or(e.fuente, Desconocido)
  }

  /** The bucket key: the UTC calendar day of `created_at`. */
  function EventDay(e: Event): int
  {
    UtcDay(e.createdAt)
  }

  function EventDays(evs: seq<Event>): seq<int>
  {
    if |evs| == 0 then [] else EventDays(AllButLast(evs)) + [EventDay(Last(evs))]
  }

  datatype Dimension = ByCollective | BySource

  function LabelOf(dim: Dimension): Event -> string
  {
    if dim == ByCollective then CollectiveLabel else SourceLabel
  }

  function Labels(evs: seq<Event>, dim: Dimension): seq<string>
  {
    if |evs| == 0 then [] else Labels(AllButLast(evs), dim) + [LabelOf(dim)(Last(evs))]
  }

  /** One day's accumulator: a counter per collective label and per source label. */
  datatype Bucket = Bucket(colectivo: map<string, nat>, fuente: map<string, nat>)

  function Tally(b: Bucket, dim: Dimension): map<string, nat>
  {
    if dim == ByCollective then b.colectivo else b.fuente
  }

  /** `tally` holds, for day `d`, exactly the labels that occur that day,
      each with the number of its events that day. */
  ghost predicate TallyExact(evs: seq<Event>, d: int, tally: map<string, nat>, f: Event -> string)
  {
    forall l ::
      && (l in tally <==> CountEq2(evs, EventDay, d, f, l) > 0)
      && (l in tally ==> tally[l] == CountEq2(evs, EventDay, d, f, l))
  }

  /** `days` lists the buckets in first-seen day order (the key order of
      the accumulator object) and every bucket counts its day exactly. */
  ghost predicate IsGrouping(evs: seq<Event>, days: seq<int>, groups: map<int, Bucket>)
  {
    && days == Distinct(EventDays(evs))
    && (forall d :: d in groups <==> d in days)
    && (forall d :: d in groups ==>
          && TallyExact(evs, d, groups[d].colectivo, CollectiveLabel)
          && TallyExact(evs, d, groups[d].fuente, SourceLabel))
  }

  /** `m[k] || 0`, a counter that is absent reading as zero. */
  function Lookup(m: map<string, nat>, key: string): nat
  {
    if key in m then m[key] else 0
  }

  /** The counter of `key`, created at zero if absent, plus one. */
  function Bump(m: map<string, nat>, key: string): (r: map<string, nat>)
    ensures key in r && r[key] == Lookup(m, key) + 1
    ensures forall k :: k != key ==> (k in r <==> k in m) && (k in m ==> r[k] == m[k])
  {
    m[key := Lookup(m, key) + 1]
  }

  lemma TallyStep(evs: seq<Event>, i: int, m: map<string, nat>, f: Event -> string)
    requires 0 <= i < |evs|
    requires TallyExact(evs[..i], EventDay(evs[i]), m, f)
    ensures TallyExact(evs[..i + 1], EventDay(evs[i]), Bump(m, f(evs[i])), f)
  {
    assert AllButLast(evs[..i + 1]) == evs[..i];
    assert Last(evs[..i + 1]) == evs[i];
  }

  lemma TallyOtherDay(evs: seq<Event>, i: int, d: int, m: map<string, nat>, f: Event -> string)
    requires 0 <= i < |evs| && d != EventDay(evs[i])
    requires TallyExact(evs[..i], d, m, f)
    ensures TallyExact(evs[..i + 1], d, m, f)
  {
    assert AllButLast(evs[..i + 1]) == evs[..i];
    assert Last(evs[..i + 1]) == evs[i];
  }

  lemma TallyNewDay(evs: seq<Event>, d: int, f: Event -> string)
    requires d !in Distinct(EventDays(evs))
    ensures TallyExact(evs, d, map[], f)
  {
    forall l
      ensures CountEq2(evs, EventDay, d, f, l) == 0
    {
      DayAbsentCountsZero(evs, d, f, l);
    }
  }

  /** One event folded into the accumulator keeps it an exact grouping of
      the events seen so far. */
  lemma GroupingStep(evs: seq<Event>, i: int, days: seq<int>, groups: map<int, Bucket>, b: Bucket)
    requires 0 <= i < |evs|
    requires IsGrouping(evs[..i], days, groups)
    requires b == if EventDay(evs[i]) in groups then groups[EventDay(evs[i])] else Bucket(map[], map[])
    ensures var d := EventDay(evs[i]);
      IsGrouping(evs[..i + 1], if d in groups then days else days + [d],
        groups[d := Bucket(Bump(b.colectivo, CollectiveLabel(evs[i])), Bump(b.fuente, SourceLabel(evs[i])))])
  {
    var d := EventDay(evs[i]);
    assert AllButLast(evs[..i + 1]) == evs[..i];
    assert Last(evs[..i + 1]) == evs[i];
    assert EventDays(evs[..i + 1]) == EventDays(evs[..i]) + [d];
    if d !in groups {
      TallyNewDay(evs[..i], d, CollectiveLabel);
      TallyNewDay(evs[..i], d, SourceLabel);
    }
    TallyStep(evs, i, b.colectivo, CollectiveLabel);
    TallyStep(evs, i, b.fuente, SourceLabel);
    forall d' | d' in groups && d' != d
      ensures TallyExact(evs[..i + 1], d', groups[d'].colectivo, CollectiveLabel)
      ensures TallyExact(evs[..i + 1], d', groups[d'].fuente, SourceLabel)
    {
      TallyOtherDay(evs, i, d', groups[d'].colectivo, CollectiveLabel);
      TallyOtherDay(evs, i, d', groups[d'].fuente, SourceLabel);
    }
  }

  /** The accumulator's two steps for one label: create its counter at
      zero when absent, then increment it. */
  method CountOne(counts: map<string, nat>, key: string) returns (r: map<string, nat>)
    ensures r == Bump(counts, key)
  {
    r := counts;
    if key !in r {
      r := r[key := 0];
    }
    r := r[key := r[key] + 1];
  }

  /** `agruparPorDiaYColectivo`: one pass over the events, creating a
      day's bucket and a label's counter at zero on first sight, then
      bumping one collective counter and one source counter. */
  method GroupByDay(eventos: seq<Event>) returns (days: seq<int>, groups: map<int, Bucket>)
    ensures IsGrouping(eventos, days, groups)
  {
    days, groups := [], map[];
    var i := 0;
    while i < |eventos|
      invariant 0 <= i <= |eventos|
      invariant IsGrouping(eventos[..i], days, groups)
    {
      var evento := eventos[i];
      var fecha := EventDay(evento);
      var colectivo := CollectiveLabel(evento);
      var fuente := SourceLabel(evento);
      var b := if fecha in groups then groups[fecha] else Bucket(map[], map[]);
      GroupingStep(eventos, i, days, groups, b);
      if fecha !in groups {
        days := days + [fecha];
      }
      var porColectivo := CountOne(b.colectivo, colectivo);
      var porFuente := CountOne(b.fuente, fuente);
      groups := groups[fecha := Bucket(porColectivo, porFuente)];
      i := i + 1;
    }
    assert eventos[..i] == eventos;
  }

  lemma {:induction false} EventDaysMembership(evs: seq<Event>, d: int)
    ensures d in EventDays(evs) <==> exists i :: 0 <= i < |evs| && EventDay(evs[i]) == d
    decreases |evs|
  {
    if |evs| > 0 {
      var init := AllButLast(evs);
      EventDaysMembership(init, d);
      assert forall i :: 0 <= i < |init| ==> init[i] == evs[i];
      if exists i :: 0 <= i < |init| && EventDay(init[i]) == d {
        var i :| 0 <= i < |init| && EventDay(init[i]) == d;
        assert EventDay(evs[i]) == d;
      }
    }
  }

  /** A day that has no event so far has no counts. */
  lemma DayAbsentCountsZero(evs: seq<Event>, d: int, f: Event -> string, l: string)
    requires d !in Distinct(EventDays(evs))
    ensures CountEq2(evs, EventDay, d, f, l) == 0
  {
    DistinctMembership(EventDays(evs), d);
    EventDaysMembership(evs, d);
    CountEq2Positive(evs, EventDay, d, f, l);
  }

  // ----------------------------------------------------- table materialiser

  /** `["Fecha", ...new Set(labels), "TOTAL"]` */
  function Header(evs: seq<Event>, dim: Dimension): (h: seq<string>)
    ensures |h| >= 2
  {
    ["Fecha"] + Distinct(Labels(evs, dim)) + ["TOTAL"]
  }

  /** `header.slice(1, -1)`: the label columns. */
  function Columns(header: seq<string>): seq<string>
    requires |header| >= 2
  {
    header[1..|header| - 1]
  }

  function RowValues(cols: seq<string>, tally: map<string, nat>): (vs: seq<nat>)
    ensures |vs| == |cols|
    ensures forall j :: 0 <= j < |cols| ==> vs[j] == Lookup(tally, cols[j])
  {
    if |cols| == 0 then []
    else RowValues(AllButLast(cols), tally) + [Lookup(tally, Last(cols))]
  }

  /** A table row: the day, one count per label column, and the TOTAL. */
  datatype Row = Row(day: int, values: seq<nat>, total: int)

  function MakeRow(header: seq<string>, d: int, b: Bucket, dim: Dimension): Row
    requires |header| >= 2
  {
    var values := RowValues(Columns(header), Tally(b, dim));
    Row(d, values, Sum(values))
  }

  /** `Object.entries(grupos).map(...)`: one row per bucket, in the
      accumulator's key order. */
  function TableRows(header: seq<string>, days: seq<int>, groups: map<int, Bucket>, dim: Dimension): (rows: seq<Row>)
    requires |header| >= 2
    requires forall d :: d in days ==> d in groups
    ensures |rows| == |days|
    ensures forall i :: 0 <= i < |days| ==> rows[i] == MakeRow(header, days[i], groups[days[i]], dim)
  {
    if |days| == 0 then []
    else
      TableRows(header, AllButLast(days), groups, dim)
        + [MakeRow(header, Last(days), groups[Last(days)], dim)]
  }

  function Totals(rows: seq<Row>): seq<int>
  {
    if |rows| == 0 then [] else Totals(AllButLast(rows)) + [Last(rows).total]
  }

  lemma TallyLookup(evs: seq<Event>, d: int, tally: map<string, nat>, f: Event -> string, l: string)
    requires TallyExact(evs, d, tally, f)
    ensures Lookup(tally, l) == CountEq2(evs, EventDay, d, f, l)
  {
  }

  lemma {:induction false} RowValuesSum(evs: seq<Event>, d: int, tally: map<string, nat>, f: Event -> string, cols: seq<string>)
    requires TallyExact(evs, d, tally, f)
    ensures Sum(RowValues(cols, tally)) == SumCountEq2(evs, EventDay, d, f, cols)
    decreases |cols|
  {
    if |cols| > 0 {
      RowValuesSum(evs, d, tally, f, AllButLast(cols));
      TallyLookup(evs, d, tally, f, Last(cols));
      assert AllButLast(RowValues(cols, tally)) == RowValues(AllButLast(cols), tally);
    }
  }

  lemma {:induction false} LabelsMembership(evs: seq<Event>, dim: Dimension, i: int)
    requires 0 <= i < |evs|
    ensures LabelOf(dim)(evs[i]) in Labels(evs, dim)
    decreases |evs|
  {
    if i < |evs| - 1 {
      LabelsMembership(AllButLast(evs), dim, i);
    }
  }

  lemma TallyOf(evs: seq<Event>, days: seq<int>, groups: map<int, Bucket>, dim: Dimension, d: int)
    requires IsGrouping(evs, days, groups)
    requires d in groups
    ensures TallyExact(evs, d, Tally(groups[d], dim), LabelOf(dim))
  {
  }

  /** Every cell of a row is the number of that day's events with that
      column's label (0 where the label does not occur that day); the row
      is as wide as the header and its TOTAL is the number of events that
      day. */
  lemma RowIsDayCount(evs: seq<Event>, days: seq<int>, groups: map<int, Bucket>, dim: Dimension, d: int)
    requires IsGrouping(evs, days, groups)
    requires d in days
    ensures var header := Header(evs, dim);
      var row := MakeRow(header, d, groups[d], dim);
      && 1 + |row.values| + 1 == |header|
      && (forall j :: 0 <= j < |row.values| ==>
            row.values[j] == CountEq2(evs, EventDay, d, LabelOf(dim), header[j + 1]))
      && row.total == Sum(row.values) == CountEq(evs, EventDay, d)
  {
    var header := Header(evs, dim);
    var cols := Columns(header);
    assert cols == Distinct(Labels(evs, dim));
    TallyOf(evs, days, groups, dim, d);
    var tally := Tally(groups[d], dim);
    forall j | 0 <= j < |cols|
      ensures RowValues(cols, tally)[j] == CountEq2(evs, EventDay, d, LabelOf(dim), header[j + 1])
    {
      TallyLookup(evs, d, tally, LabelOf(dim), cols[j]);
    }
    RowValuesSum(evs, d, tally, LabelOf(dim), cols);
    DistinctNoDup(Labels(evs, dim));
    forall i | 0 <= i < |evs| && EventDay(evs[i]) == d
      ensures LabelOf(dim)(evs[i]) in cols
    {
      LabelsMembership(evs, dim, i);
      DistinctMembership(Labels(evs, dim), LabelOf(dim)(evs[i]));
    }
    SumCountEq2Covers(evs, EventDay, d, LabelOf(dim), cols);
  }

  lemma {:induction false} TotalsAreDayCounts(evs: seq<Event>, days: seq<int>, groups: map<int, Bucket>, dim: Dimension, ds: seq<int>)
    requires IsGrouping(evs, days, groups)
    requires forall d :: d in ds ==> d in days
    ensures Sum(Totals(TableRows(Header(evs, dim), ds, groups, dim))) == SumCountEq(evs, EventDay, ds)
    decreases |ds|
  {
    if |ds| > 0 {
      var header := Header(evs, dim);
      TotalsAreDayCounts(evs, days, groups, dim, AllButLast(ds));
      RowIsDayCount(evs, days, groups, dim, Last(ds));
      var rows := TableRows(header, ds, groups, dim);
      assert AllButLast(rows) == TableRows(header, AllButLast(ds), groups, dim);
    }
  }

  /** Conservation: the TOTAL column adds up to the number of events. */
  lemma TotalsSumToEventCount(evs: seq<Event>, days: seq<int>, groups: map<int, Bucket>, dim: Dimension)
    requires IsGrouping(evs, days, groups)
    ensures Sum(Totals(TableRows(Header(evs, dim), days, groups, dim))) == |evs|
  {
    TotalsAreDayCounts(evs, days, groups, dim, days);
    DistinctNoDup(EventDays(evs));
    forall i | 0 <= i < |evs|
      ensures EventDay(evs[i]) in days
    {
      EventDaysMembership(evs, EventDay(evs[i]));
      DistinctMembership(EventDays(evs), EventDay(evs[i]));
    }
    SumCountEqCovers(evs, EventDay, days);
  }

  /** One report table: the header and its rows. */
  /** A report table over `eventos` along `dim`: the dates column, one
      column per distinct label and the total; one row per distinct day in
      first-seen order, each cell counting the events of that day with
      that label, the row total counting all events of that day; and the
      totals together count every event. */
  predicate IsTable(eventos: seq<Event>, dim: Dimension, header: seq<string>, rows: seq<Row>)
  {
    && header == ["Fecha"] + Distinct(Labels(eventos, dim)) + ["TOTAL"]
    && |rows| == |Distinct(EventDays(eventos))|
    && (forall i :: 0 <= i < |rows| ==>
          && rows[i].day == Distinct(EventDays(eventos))[i]
          && |rows[i].values| == |header| - 2
          && (forall j :: 0 <= j < |rows[i].values| ==>
                rows[i].values[j] == CountEq2(eventos, EventDay, rows[i].day, LabelOf(dim), header[j + 1]))
          && rows[i].total == Sum(rows[i].values) == CountEq(eventos, EventDay, rows[i].day))
    && Sum(Totals(rows)) == |eventos|
  }

  method BuildTable(eventos: seq<Event>, dim: Dimension) returns (header: seq<string>, rows: seq<Row>)
    ensures header == ["Fecha"] + Distinct(Labels(eventos, dim)) + ["TOTAL"]
    ensures |rows| == |Distinct(EventDays(eventos))|
    ensures forall i :: 0 <= i < |rows| ==>
      && rows[i].day == Distinct(EventDays(eventos))[i]
      && |rows[i].values| == |header| - 2
      && (forall j :: 0 <= j < |rows[i].values| ==>
            rows[i].values[j] == CountEq2(eventos, EventDay, rows[i].day, LabelOf(dim), header[j + 1]))
      && rows[i].total == Sum(rows[i].values) == CountEq(eventos, EventDay, rows[i].day)
    ensures Sum(Totals(rows)) == |eventos|
  {
    var days, groups := GroupByDay(eventos);
    header := Header(eventos, dim);
    rows := TableRows(header, days, groups, dim);
    forall i | 0 <= i < |rows|
      ensures
        && rows[i].day == days[i]
        && |rows[i].values| == |header| - 2
        && (forall j :: 0 <= j < |rows[i].values| ==>
              rows[i].values[j] == CountEq2(eventos, EventDay, rows[i].day, LabelOf(dim), header[j + 1]))
        && rows[i].total == Sum(rows[i].values) == CountEq(eventos, EventDay, rows[i].day)
    {
      RowIsDayCount(eventos, days, groups, dim, days[i]);
    }
    TotalsSumToEventCount(eventos, days, groups, dim);
  }

  /** Rows follow the first-seen order of the days, not the calendar: a
      later day seen first comes first. */
  lemma RowsFollowFirstSeenDay(e1: Event, e2: Event)
    requires EventDay(e1) > EventDay(e2)
    ensures Distinct(EventDays([e1, e2])) == [EventDay(e1), EventDay(e2)]
  {
    assert AllButLast([e1, e2]) == [e1];
    assert AllButLast([e1]) == [];
    assert EventDays([e1]) == [EventDay(e1)];
    assert EventDays([e1, e2]) == [EventDay(e1), EventDay(e2)];
    var ds := [EventDay(e1), EventDay(e2)];
    assert AllButLast(ds) == [EventDay(e1)];
    assert AllButLast([EventDay(e1)]) == [];
    assert Distinct([EventDay(e1)]) == [EventDay(e1)];
  }

  /** A missing collective is counted under "Desconocido"; a missing source
      likewise, and the source label is never normalised. */
  lemma MissingLabelsAreUnknown(e: Event)
    ensures e.colectivo == "" ==> CollectiveLabel(e) == Desconocido
    ensures e.colectivo != "" ==> CollectiveLabel(e) == NormalizeName(e.colectivo)
    ensures e.fuente == "" ==> SourceLabel(e) == Desconocido
    ensures e.fuente != "" ==> SourceLabel(e) == e.fuente
  {
    assert LowerAscii(Desconocido) == "desconocido";
    assert "desconocido" !in Corrections;
    var r := NormalizeName(Desconocido);
    assert |r| == |Desconocido|;
    forall i | 0 <= i < |r|
      ensures r[i] == Desconocido[i]
    {
    }
  }

  /** Two events whose collectives spell the same synonym in any letter
      case are counted under the one table label, so the collective table
      gives them a single column. */
  lemma SynonymsShareColumn(evs: seq<Event>, i: int, j: int)
    requires 0 <= i < |evs| && 0 <= j < |evs|
    requires evs[i].colectivo != "" && evs[j].colectivo != ""
    requires LowerAscii(evs[i].colectivo) == LowerAscii(evs[j].colectivo)
    requires LowerAscii(evs[i].colectivo) in Corrections
    ensures CollectiveLabel(evs[i]) == CollectiveLabel(evs[j]) == Corrections[LowerAscii(evs[i].colectivo)]
    ensures Corrections[LowerAscii(evs[i].colectivo)] in Distinct(Labels(evs, ByCollective))
  {
    LabelsMembership(evs, ByCollective, i);
    DistinctMembership(Labels(evs, ByCollective), CollectiveLabel(evs[i]));
  }

  // ------------------------------------------------------- range filter

  /** `filtrarEventosPorRango`. The bounds are the two date inputs, each
      given as the UTC day that `new Date("YYYY-MM-DD")` denotes, or None
      when the input is empty. */
  function RangeFilter(eventos: seq<Event>, fechaInicio: Option<int>, fechaFin: Option<int>, offsetMs: int): seq<Event>
  {
    if fechaInicio.None? || fechaFin.None? then eventos
    else
      var inicio := LocalMidnight(fechaInicio.value * DayMs, offsetMs);
      var fin := LocalEndOfDay(fechaFin.value * DayMs, offsetMs);
      Filter(eventos, (e: Event) => inicio <= e.createdAt <= fin)
  }

  /** With both bounds set, exactly the events inside the inclusive window
      are kept, in their original order; with either bound empty, all. */
  lemma RangeFilterKeeps(eventos: seq<Event>, fechaInicio: Option<int>, fechaFin: Option<int>, offsetMs: int, e: Event)
    ensures IsSubsequence(RangeFilter(eventos, fechaInicio, fechaFin, offsetMs), eventos)
    ensures fechaInicio.None? || fechaFin.None? ==> RangeFilter(eventos, fechaInicio, fechaFin, offsetMs) == eventos
    ensures fechaInicio.Some? && fechaFin.Some? ==>
      (e in RangeFilter(eventos, fechaInicio, fechaFin, offsetMs) <==>
        e in eventos
        && LocalMidnight(fechaInicio.value * DayMs, offsetMs) <= e.createdAt
        && e.createdAt <= LocalEndOfDay(fechaFin.value * DayMs, offsetMs))
  {
    if fechaInicio.Some? && fechaFin.Some? {
      var inicio := LocalMidnight(fechaInicio.value * DayMs, offsetMs);
      var fin := LocalEndOfDay(fechaFin.value * DayMs, offsetMs);
      var p := (e: Event) => inicio <= e.createdAt <= fin;
      FilterMembership(eventos, p, e);
      FilterIsSubsequence(eventos, p);
    } else {
      IsSubsequenceReflexive(eventos);
    }
  }

  lemma {:induction false} IsSubsequenceReflexive<T>(s: seq<T>)
    ensures IsSubsequence(s, s)
    decreases |s|
  {
    if |s| > 0 {
      IsSubsequenceReflexive(AllButLast(s));
    }
  }

  /** The window opens at local midnight of the chosen date east of
      Greenwich, but at local midnight of the day before west of it,
      because the date input is read as UTC midnight. */
  lemma RangeStartDependsOnOffset(day: int, offsetMs: int)
    requires -DayMs < offsetMs < DayMs
    ensures LocalMidnight(day * DayMs, offsetMs) + offsetMs
         == (if offsetMs < 0 then day - 1 else day) * DayMs
  {
    if offsetMs < 0 {
      assert day * DayMs + offsetMs == (day - 1) * DayMs + (DayMs + offsetMs);
    } else {
      assert day * DayMs + offsetMs == day * DayMs + offsetMs;
    }
  }

  // ----------------------------------------------------- screen state

  datatype ReportStatus = Pendientes | Gestionados | Totales

  /** What `cargarEventos` obtains for a status: one list, or for
      "totales" the pending list followed by the managed one. The second
      request is only made once the first has succeeded. */
  function Obtain(status: ReportStatus, backend: EventStatus -> Fetch<seq<Event>>): Fetch<seq<Event>>
  {
    match status
    case Pendientes => backend(Pendiente)
    case Gestionados => backend(Gestionado)
    case Totales =>
      match backend(Pendiente)
      case Failed(f) => Failed(f)
      case Loaded(p) =>
        match backend(Gestionado)
        case Failed(f) => Failed(f)
        case Loaded(g) => Loaded(p + g)
  }

  class InformesScreen {
    var eventos: seq<Event>
    var eventosSinFiltrar: seq<Event>
    var loading: bool
    var error: Option<string>
    var status: ReportStatus
    var fechaInicio: Option<int>
    var fechaFin: Option<int>

    constructor ()
      ensures eventos == [] && eventosSinFiltrar == []
      ensures !loading && error == None
      ensures status == Pendientes && fechaInicio == None && fechaFin == None
    {
      eventos, eventosSinFiltrar := [], [];
      loading, error := false, None;
      status := Pendientes;
      fechaInicio, fechaFin := None, None;
    }

    /** `cargarEventos`: on success both lists become the fetched events;
        on failure they are kept and the fixed message is shown. Loading
        ends false either way. */
    method CargarEventos(backend: EventStatus -> Fetch<seq<Event>>)
      modifies this
      ensures !loading
      ensures status == old(status) && fechaInicio == old(fechaInicio) && fechaFin == old(fechaFin)
      ensures Obtain(status, backend).Loaded? ==>
        && eventos == Obtain(status, backend).value
        && eventosSinFiltrar == Obtain(status, backend).value
        && error == None
      ensures Obtain(status, backend).Failed? ==>
        && eventos == old(eventos)
        && eventosSinFiltrar == old(eventosSinFiltrar)
        && error == Some(ErrorCarga)
    {
      loading := true;
      error := None;
      var obtenidos: Fetch<seq<Event>>;
      if status == Totales {
        var pendientes := backend(Pendiente);
        if pendientes.Loaded? {
          var gestionados := backend(Gestionado);
          obtenidos := if gestionados.Loaded? then Loaded(pendientes.value + gestionados.value) else gestionados;
        } else {
          obtenidos := pendientes;
        }
      } else {
        obtenidos := backend(if status == Pendientes then Pendiente else Gestionado);
      }
      if obtenidos.Loaded? {
        eventos := obtenidos.value;
        eventosSinFiltrar := obtenidos.value;
      } else {
        error := Some(ErrorCarga);
      }
      loading := false;
    }

    /** A status button: the load effect runs only when the status changes. */
    method SetStatus(s: ReportStatus, backend: EventStatus -> Fetch<seq<Event>>)
      modifies this
      ensures status == s
      ensures s == old(status) ==> unchanged(this)
      ensures s != old(status) ==>
        && !loading
        && fechaInicio == old(fechaInicio) && fechaFin == old(fechaFin)
        && (Obtain(s, backend).Loaded? ==>
              && eventos == Obtain(s, backend).value
              && eventosSinFiltrar == Obtain(s, backend).value
              && error == None)
        && (Obtain(s, backend).Failed? ==>
              && eventos == old(eventos)
              && eventosSinFiltrar == old(eventosSinFiltrar)
              && error == Some(ErrorCarga))
    {
      if s != status {
        status := s;
        CargarEventos(backend);
      }
    }

    /** `eventosFiltrados`: computed from the date inputs, and used by no table. */
    function EventosFiltrados(offsetMs: int): seq<Event>
      reads this
    {
      RangeFilter(eventos, fechaInicio, fechaFin, offsetMs)
    }

    /** The two tables of the screen, both built from the unfiltered events. */
    method Tables() returns (colHeader: seq<string>, colRows: seq<Row>, srcHeader: seq<string>, srcRows: seq<Row>)
      ensures IsTable(eventosSinFiltrar, ByCollective, colHeader, colRows)
      ensures IsTable(eventosSinFiltrar, BySource, srcHeader, srcRows)
    {
      colHeader, colRows := BuildTable(eventosSinFiltrar, ByCollective);
      srcHeader, srcRows := BuildTable(eventosSinFiltrar, BySource);
    }
  }
}
