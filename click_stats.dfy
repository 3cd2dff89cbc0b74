/** Per-collective click counters of the analytics dashboard: one entry
    per collective with a counter for each of the four known sources and
    a running total. */
module ClickStats {
  import opened Common
  import opened Types

  const TotalKey: string := "total"

  function Fuente(r: DataRow): string { r.fuente }

  /** The entry a collective gets when first seen: every counter at zero. */
  const FreshCounters: map<string, nat> :=
    map["mail.video" := 0, "mail.plus.video" := 0, "mail.precios" := 0, "mail.plus.precios" := 0, "total" := 0]

  /** Rows of collective `c` from source `s`. */
  function SourceCount(data: seq<DataRow>, c: string, s: string): nat
  {
    CountEq2(data, Colectivo, c, Fuente, s)
  }

  /** What `total` ends at for collective `c`: one per row from a known
      source, and two per row whose source is the key "total" itself,
      which passes the guard and is bumped once as its own counter and
      once as the total. */
  function TotalCount(data: seq<DataRow>, c: string): nat
  {
    CountIn2(data, Colectivo, c, Fuente, Sources) + 2 * CountEq2(data, Colectivo, c, Fuente, TotalKey)
  }

  /** The entry of collective `c` after counting `data`. */
  function Counters(data: seq<DataRow>, c: string): map<string, nat>
  {
    map[
      "mail.video" := SourceCount(data, c, "mail.video"),
      "mail.plus.video" := SourceCount(data, c, "mail.plus.video"),
      "mail.precios" := SourceCount(data, c, "mail.precios"),
      "mail.plus.precios" := SourceCount(data, c, "mail.plus.precios"),
      "total" := TotalCount(data, c)]
  }

  /** The accumulator after a prefix of the data: the entries in creation
      order, each equal to its collective's counters. */
  ghost predicate IsClickData(data: seq<DataRow>, order: seq<string>, m: map<string, map<string, nat>>)
  {
    && order == Distinct(Colectivos(data))
    && (forall c :: c in m <==> c in order)
    && (forall c :: c in m ==> m[c] == Counters(data, c))
  }

  lemma CountersOfNothing(data: seq<DataRow>, c: string)
    requires c !in Distinct(Colectivos(data))
    ensures Counters(data, c) == FreshCounters
  {
    DistinctMembership(Colectivos(data), c);
    ColectivosMembership(data, c);
    forall s
      ensures CountEq2(data, Colectivo, c, Fuente, s) == 0
    {
      CountEq2Positive(data, Colectivo, c, Fuente, s);
    }
    CountIn2Zero(data, c);
  }

  lemma {:induction false} CountIn2Zero(data: seq<DataRow>, c: string)
    requires forall i :: 0 <= i < |data| ==> data[i].colectivo != c
    ensures CountIn2(data, Colectivo, c, Fuente, Sources) == 0
    decreases |data|
  {
    if |data| > 0 {
      CountIn2Zero(AllButLast(data), c);
    }
  }

  /** One row counted into an entry: when the source is truthy and a key
      of the entry, that counter and then the total go up by one. */
  function Applied(entry: map<string, nat>, fuente: string): map<string, nat>
  {
    if fuente != "" && fuente in entry && TotalKey in entry then
      var bumped := entry[fuente := entry[fuente] + 1];
      bumped[TotalKey := bumped[TotalKey] + 1]
    else entry
  }

  /** Counting one more row changes only its own collective's entry. */
  lemma CountersStep(data: seq<DataRow>, i: int, c: string)
    requires 0 <= i < |data|
    ensures Counters(data[..i + 1], c)
         == if data[i].colectivo == c then Applied(Counters(data[..i], c), data[i].fuente)
            else Counters(data[..i], c)
  {
    assert AllButLast(data[..i + 1]) == data[..i];
    assert Last(data[..i + 1]) == data[i];
  }

  lemma ClickDataStep(data: seq<DataRow>, i: int, order: seq<string>, m: map<string, map<string, nat>>)
    requires 0 <= i < |data|
    requires IsClickData(data[..i], order, m)
    ensures var c := data[i].colectivo;
      var entry := if c in m then m[c] else FreshCounters;
      IsClickData(data[..i + 1], if c in m then order else order + [c],
        m[c := Applied(entry, data[i].fuente)])
  {
    var c := data[i].colectivo;
    assert AllButLast(data[..i + 1]) == data[..i];
    assert Colectivos(data[..i + 1]) == Colectivos(data[..i]) + [c];
    if c !in m {
      CountersOfNothing(data[..i], c);
    }
    CountersStep(data, i, c);
    forall c' | c' in m && c' != c
      ensures m[c'] == Counters(data[..i + 1], c')
    {
      CountersStep(data, i, c');
    }
  }

  lemma EntryHasTotal(data: seq<DataRow>, c: string)
    ensures TotalKey in Counters(data, c) && TotalKey in FreshCounters
  {
  }

  /** The guarded increments of one item on its entry. */
  method CountClick(entry: map<string, nat>, fuente: string) returns (r: map<string, nat>)
    requires TotalKey in entry
    ensures r == Applied(entry, fuente)
    ensures r.Keys == entry.Keys
    ensures fuente == "" || fuente !in entry ==> r == entry
    ensures fuente != "" && fuente in entry && fuente != TotalKey ==>
      && r[fuente] == entry[fuente] + 1
      && r[TotalKey] == entry[TotalKey] + 1
      && forall k :: k in entry && k != fuente && k != TotalKey ==> r[k] == entry[k]
    ensures fuente == TotalKey ==> r == entry[TotalKey := entry[TotalKey] + 2]
  {
    r := entry;
    if fuente != "" && fuente in r {
      r := r[fuente := r[fuente] + 1];
      r := r[TotalKey := r[TotalKey] + 1];
    }
  }

  /** The `clickData` loop: create an entry for each new collective, then,
      when the source is truthy and a key of the entry, bump that counter
      and the total. */
  method ClickData(data: seq<DataRow>) returns (order: seq<string>, m: map<string, map<string, nat>>)
    ensures IsClickData(data, order, m)
  {
    order, m := [], map[];
    var i := 0;
    while i < |data|
      invariant 0 <= i <= |data|
      invariant IsClickData(data[..i], order, m)
    {
      var item := data[i];
      var colectivo := item.colectivo;
      var fuente := item.fuente;
      ClickDataStep(data, i, order, m);
      var entry := if colectivo in m then m[colectivo] else FreshCounters;
      if colectivo !in m {
        order := order + [colectivo];
      }
      assert entry == Counters(data[..i], colectivo) || entry == FreshCounters;
      EntryHasTotal(data[..i], colectivo);
      entry := CountClick(entry, fuente);
      m := m[colectivo := entry];
      i := i + 1;
    }
    assert data[..i] == data;
  }

  /** Each entry's counters: the four sources count their rows exactly. */
  lemma EntryCountsSources(data: seq<DataRow>, order: seq<string>, m: map<string, map<string, nat>>, c: string, s: string)
    requires IsClickData(data, order, m)
    requires c in m && s in Sources
    ensures s in m[c] && m[c][s] == CountEq2(data, Colectivo, c, Fuente, s)
    ensures m[c].Keys == FreshCounters.Keys
  {
  }

  /** There is an entry exactly for each collective that occurs, once. */
  lemma EntriesAreCollectives(data: seq<DataRow>, order: seq<string>, m: map<string, map<string, nat>>, c: string)
    requires IsClickData(data, order, m)
    ensures c in m <==> exists i :: 0 <= i < |data| && data[i].colectivo == c
    ensures NoDup(order)
  {
    DistinctMembership(Colectivos(data), c);
    ColectivosMembership(data, c);
    DistinctNoDup(Colectivos(data));
  }

  /** Without a row whose source is "total", the total of an entry is the
      sum of its four source counters. */
  lemma TotalIsSumOfSources(data: seq<DataRow>, c: string)
    requires CountEq2(data, Colectivo, c, Fuente, TotalKey) == 0
    ensures var e := Counters(data, c);
      e[TotalKey] == e["mail.video"] + e["mail.plus.video"] + e["mail.precios"] + e["mail.plus.precios"]
  {
    assert NoDup(Sources);
    SumCountEq2IsCountIn2(data, Colectivo, c, Fuente, Sources);
    assert AllButLast(Sources) == ["mail.video", "mail.plus.video", "mail.precios"];
    assert AllButLast(AllButLast(Sources)) == ["mail.video", "mail.plus.video"];
    assert AllButLast(AllButLast(AllButLast(Sources))) == ["mail.video"];
    assert AllButLast(["mail.video"]) == [];
  }

  /** A row whose source is "total" breaks that: the total jumps by two
      while the source counters stay at zero. */
  lemma TotalSourceCountsTwice(r: DataRow)
    requires r.fuente == TotalKey
    ensures var e := Counters([r], r.colectivo);
      e[TotalKey] == 2
      && e["mail.video"] + e["mail.plus.video"] + e["mail.precios"] + e["mail.plus.precios"] == 0
  {
    assert AllButLast([r]) == [];
  }

  function SumTotals(data: seq<DataRow>, cs: seq<string>): nat
  {
    if |cs| == 0 then 0 else SumTotals(data, AllButLast(cs)) + TotalCount(data, Last(cs))
  }

  lemma {:induction false} SumTotalsAtMostCounts(data: seq<DataRow>, cs: seq<string>)
    requires forall i :: 0 <= i < |data| ==> data[i].fuente != TotalKey
    ensures SumTotals(data, cs) <= SumCountEq(data, Colectivo, cs)
    decreases |cs|
  {
    if |cs| > 0 {
      SumTotalsAtMostCounts(data, AllButLast(cs));
      CountEqAbsentTotal(data, Last(cs));
    }
  }

  lemma {:induction false} CountEqAbsentTotal(data: seq<DataRow>, c: string)
    requires forall i :: 0 <= i < |data| ==> data[i].fuente != TotalKey
    ensures CountEq2(data, Colectivo, c, Fuente, TotalKey) == 0
    decreases |data|
  {
    if |data| > 0 {
      CountEqAbsentTotal(AllButLast(data), c);
    }
  }

  /** Without "total" as a source, all totals together count at most one
      click per row. */
  lemma AllTotalsAtMostRows(data: seq<DataRow>, order: seq<string>, m: map<string, map<string, nat>>)
    requires IsClickData(data, order, m)
    requires forall i :: 0 <= i < |data| ==> data[i].fuente != TotalKey
    ensures SumTotals(data, order) <= |data|
  {
    SumTotalsAtMostCounts(data, order);
    DistinctNoDup(Colectivos(data));
    SumCountEqAtMost(data, Colectivo, order);
  }
}
