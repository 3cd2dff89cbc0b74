/** The seed data of the analytics dashboard: rows for eleven collectives
    with cyclic click sources. `Math.random()` is a value chosen
    nondeterministically in [0, 1). */
module GenerateData {
  import opened Common
  import opened Text
  import opened Types

  const Colectivos: seq<string> := [
    "Abogados", "Arquitectos", "Asesorías", "Clínicas", "Consulting", "Formación",
    "Ingenieros", "Limpieza", "Odontólogos", "Procuradores", "Servicios"]

  /** `new Date("2024-01-01").getTime()` and `new Date("2024-12-31").getTime()`. */
  const DateStart: int := 1704067200000
  const DateEnd: int := 1735603200000

  /** `a[j]` on a JavaScript array: undefined outside the bounds. */
  function At<T>(a: seq<T>, j: int): Option<T>
  {
    if 0 <= j < |a| then Some(a[j]) else None
  }

  lemma ScaledBelow(r: real, n: nat)
    requires 0.0 <= r < 1.0 && n > 0
    ensures 0.0 <= r * (n as real) < n as real
  {
    assert (1.0 - r) * (n as real) > 0.0;
  }

  /** `Math.floor(Math.random() * n)`, given the random value: an index
      below `n`. */
  function RandomIndex(r: real, n: nat): (idx: int)
    requires 0.0 <= r < 1.0 && n > 0
    ensures 0 <= idx < n
  {
    ScaledBelow(r, n);
    (r * (n as real)).Floor
  }

  /** `generateRandomClicks`, given the random value: a count in 1..4. */
  function GenerateRandomClicks(r: real): (n: int)
    requires 0.0 <= r < 1.0
    ensures 1 <= n <= 4
  {
    RandomIndex(r, 4) + 1
  }

  /** `generateRandomDate`, given the random value: an instant of 2024 up
      to, but excluding, midnight UTC of 31 December. The fractional
      milliseconds are cut off when the `Date` is built. */
  function GenerateRandomDate(r: real): (t: int)
    requires 0.0 <= r < 1.0
    ensures DateStart <= t < DateEnd
  {
    DateStart + (r * (DateEnd - DateStart) as real).Floor
  }

  /** The index `currentSourceIndex` holds at the `i`-th click, from the
      first source's index `k`. */
  function CycleIndex(k: int, i: nat): int
  {
    if i == 0 then k else (k + i) % 4
  }

  lemma CycleStep(k: int, i: nat)
    requires -1 <= k < 4
    ensures (CycleIndex(k, i) + 1) % 4 == CycleIndex(k, i + 1)
  {
    if i > 0 {
      var q := (k + i) / 4;
      assert k + i == 4 * q + (k + i) % 4;
      assert k + i + 1 == 4 * q + ((k + i) % 4 + 1);
    }
  }

  /** `generateClickSources`: `numClicks` sources, cycling through the list
      from `firstSource`. An unknown first source has index -1, which
      reads as undefined and then wraps to index 0. */
  method GenerateClickSources(firstSource: string, numClicks: int) returns (clicks: seq<Option<string>>)
    ensures |clicks| == if numClicks > 0 then numClicks else 0
    ensures forall i :: 0 <= i < |clicks| ==> clicks[i] == At(Sources, CycleIndex(IndexOf(Sources, firstSource), i))
  {
    clicks := [];
    var currentSourceIndex := IndexOf(Sources, firstSource);
    ghost var k := currentSourceIndex;
    var i := 0;
    while i < numClicks
      invariant 0 <= i && |clicks| == i
      invariant (numClicks > 0 ==> i <= numClicks) && (numClicks <= 0 ==> i == 0)
      invariant currentSourceIndex == CycleIndex(k, i)
      invariant forall j :: 0 <= j < i ==> clicks[j] == At(Sources, CycleIndex(k, j))
    {
      clicks := clicks + [At(Sources, currentSourceIndex)];
      CycleStep(k, i);
      // the index is never below -1, so JavaScript's `%` agrees with Dafny's here
      currentSourceIndex := (currentSourceIndex + 1) % |Sources|;
      i := i + 1;
    }
  }

  /** Element `i` is the source `i` places after the first one, cyclically. */
  lemma ClickSourcesCycle(firstSource: string, i: nat)
    requires firstSource in Sources
    ensures var k := IndexOf(Sources, firstSource);
      At(Sources, CycleIndex(k, i)) == Some(Sources[(k + i) % 4])
  {
  }

  /** An unknown first source: undefined first, then the list from its start. */
  lemma ClickSourcesUnknownFirst(firstSource: string, i: nat)
    requires firstSource !in Sources
    ensures At(Sources, CycleIndex(IndexOf(Sources, firstSource), i))
         == if i == 0 then None else Some(Sources[(i - 1) % 4])
  {
  }

  /** A generated lead. `n` is the number printed into its identifiers and
      `i` the loop counter that picks its source and status. */
  function Lead(i: nat, n: nat, colectivo: string, clics: seq<string>, fecha: int): DataRow
  {
    var num := NatToString(n);
    DataRow(
      Sources[i % |Sources|],
      "IC" + num,
      "correo" + num + "@example.com",
      "Asunto " + num,
      fecha,
      if i % 2 == 0 then "Pendiente" else "Resuelto",
      clics,
      colectivo)
  }

  /** What every generated lead satisfies, for loop counter `i`. */
  predicate LeadShape(row: DataRow, i: nat)
  {
    && row.fuente == Sources[i % 4]
    && row.estado == (if i % 2 == 0 then "Pendiente" else "Resuelto")
    && 1 <= |row.clics| <= 4
    && row.clics[0] == row.fuente
    && DateStart <= row.horaFecha < DateEnd
  }

  /** The identifiers of a lead all carry the same number `n`. */
  predicate Numbered(row: DataRow, n: nat)
  {
    var num := NatToString(n);
    && row.icodcli == "IC" + num
    && row.correo == "correo" + num + "@example.com"
    && row.asunto == "Asunto " + num
  }

  /** The row at position `k` of the guaranteed part of the data, built
      over the list `colectivos` of eleven collectives. */
  predicate SeedRow(row: DataRow, k: nat, colectivos: seq<string>)
    requires |colectivos| == 11
  {
    && LeadShape(row, k / 11)
    && row.colectivo == colectivos[k % 11]
    && Numbered(row, k / 11 + 1)
  }

  /** The clicks of one lead: a random count, the cycle starting at the
      lead's source. The source is always in the list, so every click is
      defined. */
  method LeadClicks(firstSource: string) returns (clics: seq<string>)
    requires firstSource in Sources
    ensures 1 <= |clics| <= 4 && clics[0] == firstSource
  {
    var r: real :| 0.0 <= r < 1.0;
    var numClicks := GenerateRandomClicks(r);
    var sources := GenerateClickSources(firstSource, numClicks);
    forall j | 0 <= j < |sources|
      ensures sources[j].Some?
    {
      ClickSourcesCycle(firstSource, j);
    }
    ClickSourcesCycle(firstSource, 0);
    clics := seq(|sources|, j requires 0 <= j < |sources| => sources[j].value);
  }

  /** The object literal pushed by both loops, with its random click
      count and date. */
  method NewLead(i: nat, n: nat, colectivo: string) returns (row: DataRow)
    ensures LeadShape(row, i) && row.colectivo == colectivo
    ensures row.icodcli == "IC" + NatToString(n)
    ensures row.correo == "correo" + NatToString(n) + "@example.com"
    ensures row.asunto == "Asunto " + NatToString(n)
  {
    var firstSource := Sources[i % |Sources|];
    var clicks := LeadClicks(firstSource);
    var r: real :| 0.0 <= r < 1.0;
    row := Lead(i, n, colectivo, clicks, GenerateRandomDate(r));
  }

  lemma DivMod11(i: nat, j: nat)
    requires j < 11
    ensures (11 * i + j) / 11 == i && (11 * i + j) % 11 == j
  {
  }

  lemma CountEqSnoc(data: seq<DataRow>, row: DataRow, c: string)
    ensures CountEq(data + [row], Colectivo, c) == CountEq(data, Colectivo, c) + (if row.colectivo == c then 1 else 0)
  {
    assert AllButLast(data + [row]) == data;
  }

  lemma ColectivosDistinct()
    ensures NoDup(Colectivos)
  {
    forall a, b | 0 <= a < b < |Colectivos|
      ensures Colectivos[a] != Colectivos[b]
    {
      assert Colectivos[a][..2] != Colectivos[b][..2] || Colectivos[a][2..] != Colectivos[b][2..];
    }
  }

  /** `colectivoCounts` agrees with the rows pushed so far. */
  ghost predicate CountsMatch(counts: map<string, int>, data: seq<DataRow>)
  {
    forall c :: c in counts ==> counts[c] == CountEq(data, Colectivo, c)
  }

  /** Pushing a row and bumping its collective's counter keeps them agreeing. */
  lemma CountsMatchStep(counts: map<string, int>, data: seq<DataRow>, row: DataRow)
    requires CountsMatch(counts, data) && row.colectivo in counts
    ensures CountsMatch(counts[row.colectivo := counts[row.colectivo] + 1], data + [row])
  {
    forall c | c in counts
      ensures CountEq(data + [row], Colectivo, c) == CountEq(data, Colectivo, c) + (if row.colectivo == c then 1 else 0)
    {
      CountEqSnoc(data, row, c);
    }
  }

  /** The row pushed for the `j`-th collective in round `i`. */
  predicate RoundRow(row: DataRow, i: nat, j: nat, colectivos: seq<string>)
    requires j < |colectivos|
  {
    && LeadShape(row, i)
    && row.colectivo == colectivos[j]
    && Numbered(row, i + 1)
  }

  /** The state of the `forEach` of round `i` after `j` collectives:
      `pushed` are the rows pushed in this round. */
  ghost predicate RoundState(i: nat, colectivos: seq<string>, data0: seq<DataRow>, counts0: map<string, int>,
                             j: int, data: seq<DataRow>, pushed: seq<DataRow>, counts: map<string, int>)
  {
    && 0 <= j <= |colectivos|
    && data == data0 + pushed && |pushed| == j
    && (forall k :: 0 <= k < |pushed| ==> RoundRow(pushed[k], i, k, colectivos))
    && counts.Keys == counts0.Keys
    && CountsMatch(counts, data)
    && (forall c :: c in counts ==> counts[c] == i + (if c in colectivos[..j] then 1 else 0))
  }

  lemma RoundStep(i: nat, colectivos: seq<string>, data0: seq<DataRow>, counts0: map<string, int>,
                  j: int, data: seq<DataRow>, pushed: seq<DataRow>, counts: map<string, int>, row: DataRow)
    requires NoDup(colectivos) && counts0.Keys == set c | c in colectivos
    requires RoundState(i, colectivos, data0, counts0, j, data, pushed, counts)
    requires j < |colectivos| && RoundRow(row, i, j, colectivos)
    ensures RoundState(i, colectivos, data0, counts0, j + 1, data + [row], pushed + [row],
      counts[row.colectivo := counts[row.colectivo] + 1])
  {
    CountsMatchStep(counts, data, row);
    assert colectivos[..j + 1] == colectivos[..j] + [colectivos[j]];
    assert colectivos[j] !in colectivos[..j];
    assert data + [row] == data0 + (pushed + [row]);
    forall k | 0 <= k < |pushed| + 1
      ensures RoundRow((pushed + [row])[k], i, k, colectivos)
    {
      if k < |pushed| {
        assert (pushed + [row])[k] == pushed[k];
      }
    }
  }

  /** One pass of the first loop's `forEach`: a lead for each collective
      in list order, all with loop counter `i`. */
  method GenerateRound(i: nat, colectivos: seq<string>, data0: seq<DataRow>, counts0: map<string, int>)
    returns (data: seq<DataRow>, counts: map<string, int>)
    requires NoDup(colectivos)
    requires counts0.Keys == set c | c in colectivos
    requires CountsMatch(counts0, data0)
    requires forall c :: c in counts0 ==> counts0[c] == i
    ensures |data| == |data0| + |colectivos| && data[..|data0|] == data0
    ensures forall k :: |data0| <= k < |data| ==> RoundRow(data[k], i, k - |data0|, colectivos)
    ensures counts.Keys == counts0.Keys
    ensures CountsMatch(counts, data)
    ensures forall c :: c in counts ==> counts[c] == i + 1
  {
    data, counts := data0, counts0;
    ghost var pushed: seq<DataRow> := [];
    var j := 0;
    assert data == data0 + pushed;
    while j < |colectivos|
      invariant RoundState(i, colectivos, data0, counts0, j, data, pushed, counts)
    {
      var row := NewLead(i, i + 1, colectivos[j]);
      RoundStep(i, colectivos, data0, counts0, j, data, pushed, counts, row);
      data := data + [row];
      pushed := pushed + [row];
      counts := counts[row.colectivo := counts[row.colectivo] + 1];
      j := j + 1;
    }
    RoundDone(i, colectivos, data0, counts0, j, data, pushed, counts);
  }

  lemma RoundDone(i: nat, colectivos: seq<string>, data0: seq<DataRow>, counts0: map<string, int>,
                  j: int, data: seq<DataRow>, pushed: seq<DataRow>, counts: map<string, int>)
    requires counts0.Keys == set c | c in colectivos
    requires RoundState(i, colectivos, data0, counts0, j, data, pushed, counts) && j == |colectivos|
    ensures |data| == |data0| + |colectivos| && data[..|data0|] == data0
    ensures forall k :: |data0| <= k < |data| ==> RoundRow(data[k], i, k - |data0|, colectivos)
    ensures forall c :: c in counts ==> counts[c] == i + 1
  {
    assert colectivos[..j] == colectivos;
    forall k | |data0| <= k < |data|
      ensures RoundRow(data[k], i, k - |data0|, colectivos)
    {
      assert data[k] == pushed[k - |data0|];
    }
  }

  lemma DivModRound(i: nat, k: nat)
    requires 11 * i <= k < 11 * i + 11
    ensures k / 11 == i && k % 11 == k - 11 * i
  {
    DivMod11(i, k - 11 * i);
  }

  /** `generateData`: ten rounds over the eleven collectives, then the
      extra random leads, of which there are none since the bound is
      50 - 110. The per-collective counter is returned beside the rows. */
  method GenerateData() returns (data: seq<DataRow>, colectivoCounts: map<string, int>)
    ensures |data| == 110
    ensures forall k :: 0 <= k < |data| ==> SeedRow(data[k], k, Colectivos)
    ensures colectivoCounts.Keys == set c | c in Colectivos
    ensures forall c :: c in colectivoCounts ==> colectivoCounts[c] == CountEq(data, Colectivo, c) == 10
  {
    ColectivosDistinct();
    colectivoCounts := map c | c in Colectivos :: 0;
    data := [];
    var i := 0;
    while i < 10
      invariant 0 <= i <= 10
      invariant |data| == 11 * i
      invariant forall k :: 0 <= k < |data| ==> SeedRow(data[k], k, Colectivos)
      invariant colectivoCounts.Keys == set c | c in Colectivos
      invariant CountsMatch(colectivoCounts, data)
      invariant forall c :: c in colectivoCounts ==> colectivoCounts[c] == i
    {
      var before := data;
      data, colectivoCounts := GenerateRound(i, Colectivos, data, colectivoCounts);
      forall k | 0 <= k < |data|
        ensures SeedRow(data[k], k, Colectivos)
      {
        if k < |before| {
          assert data[k] == before[k];
        } else {
          DivModRound(i, k);
        }
      }
      i := i + 1;
    }
    var before := data;
    data, colectivoCounts := AppendRandomLeads(Colectivos, data, colectivoCounts, 50 - |Colectivos| * 10);
    assert data == before;
  }

  /** The row pushed in iteration `i` of the second loop. */
  predicate ExtraRow(row: DataRow, i: nat, colectivos: seq<string>)
  {
    && LeadShape(row, i)
    && row.colectivo in colectivos
    && Numbered(row, i + 111)
  }

  /** The lead of iteration `i` of the second loop, for a random collective. */
  method RandomLead(i: nat, colectivos: seq<string>) returns (row: DataRow)
    requires |colectivos| == 11
    ensures ExtraRow(row, i, colectivos)
  {
    var r: real :| 0.0 <= r < 1.0;
    var randomColectivo := colectivos[RandomIndex(r, |colectivos|)];
    row := NewLead(i, i + |colectivos| * 10 + 1, randomColectivo);
  }

  ghost predicate ExtraState(colectivos: seq<string>, data0: seq<DataRow>, counts0: map<string, int>,
                             i: int, data: seq<DataRow>, pushed: seq<DataRow>, counts: map<string, int>)
  {
    && 0 <= i
    && data == data0 + pushed && |pushed| == i
    && (forall k :: 0 <= k < |pushed| ==> ExtraRow(pushed[k], k, colectivos))
    && counts.Keys == counts0.Keys
    && CountsMatch(counts, data)
  }

  lemma ExtraStep(colectivos: seq<string>, data0: seq<DataRow>, counts0: map<string, int>,
                  i: int, data: seq<DataRow>, pushed: seq<DataRow>, counts: map<string, int>, row: DataRow)
    requires counts0.Keys == set c | c in colectivos
    requires ExtraState(colectivos, data0, counts0, i, data, pushed, counts)
    requires ExtraRow(row, i, colectivos)
    ensures ExtraState(colectivos, data0, counts0, i + 1, data + [row], pushed + [row],
      counts[row.colectivo := counts[row.colectivo] + 1])
  {
    CountsMatchStep(counts, data, row);
    assert data + [row] == data0 + (pushed + [row]);
  }

  /** The second loop of `generateData`: `extra` leads for random
      collectives, numbered after the first 110. */
  method AppendRandomLeads(colectivos: seq<string>, data0: seq<DataRow>, counts0: map<string, int>, extra: int)
    returns (data: seq<DataRow>, counts: map<string, int>)
    requires |colectivos| == 11
    requires counts0.Keys == set c | c in colectivos
    requires CountsMatch(counts0, data0)
    ensures |data| == |data0| + (if extra > 0 then extra else 0)
    ensures data[..|data0|] == data0
    ensures forall k :: |data0| <= k < |data| ==> ExtraRow(data[k], k - |data0|, colectivos)
    ensures counts.Keys == counts0.Keys
    ensures CountsMatch(counts, data)
  {
    data, counts := data0, counts0;
    ghost var pushed: seq<DataRow> := [];
    var i := 0;
    assert data == data0 + pushed;
    while i < extra
      invariant (extra > 0 ==> i <= extra) && (extra <= 0 ==> i == 0)
      invariant ExtraState(colectivos, data0, counts0, i, data, pushed, counts)
    {
      var row := RandomLead(i, colectivos);
      ExtraStep(colectivos, data0, counts0, i, data, pushed, counts, row);
      data := data + [row];
      pushed := pushed + [row];
      counts := counts[row.colectivo := counts[row.colectivo] + 1];
      i := i + 1;
    }
    ExtraDone(colectivos, data0, counts0, i, data, pushed, counts);
  }

  lemma ExtraDone(colectivos: seq<string>, data0: seq<DataRow>, counts0: map<string, int>,
                  i: int, data: seq<DataRow>, pushed: seq<DataRow>, counts: map<string, int>)
    requires ExtraState(colectivos, data0, counts0, i, data, pushed, counts)
    ensures |data| == |data0| + i && data[..|data0|] == data0
    ensures forall k :: |data0| <= k < |data| ==> ExtraRow(data[k], k - |data0|, colectivos)
  {
    forall k | |data0| <= k < |data|
      ensures ExtraRow(data[k], k - |data0|, colectivos)
    {
      assert data[k] == pushed[k - |data0|];
    }
  }
}
