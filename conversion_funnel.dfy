/** The conversion funnel: how many analytics rows reached each of four
    fixed stages, told by their subject line. */
module ConversionFunnel {
  import opened Common
  import opened Types

  const Stages: seq<string> :=
    ["Visto el vídeo", "Formulario completado", "Interesado en precios", "Lead cualificado"]

  datatype FunnelStage = FunnelStage(name: string, value: nat)

  function Asunto(r: DataRow): string { r.asunto }

  function HasSubject(stage: string): DataRow -> bool
  {
    (item: DataRow) => item.asunto == stage
  }

  /** `funnelData`: one entry per stage, in stage order, valued by the
      number of rows whose subject is exactly that stage. */
  function FunnelData(data: seq<DataRow>): (r: seq<FunnelStage>)
    ensures |r| == |Stages|
    ensures forall k :: 0 <= k < |r| ==> r[k].name == Stages[k]
    ensures forall k :: 0 <= k < |r| ==> r[k].value == CountEq(data, Asunto, Stages[k])
  {
    StageCounts(data);
    seq(|Stages|, k requires 0 <= k < |Stages| =>
      FunnelStage(Stages[k], |Filter(data, HasSubject(Stages[k]))|))
  }

  lemma StageCounts(data: seq<DataRow>)
    ensures forall k :: 0 <= k < |Stages| ==>
      |Filter(data, HasSubject(Stages[k]))| == CountEq(data, Asunto, Stages[k])
  {
    forall k | 0 <= k < |Stages|
      ensures |Filter(data, HasSubject(Stages[k]))| == CountEq(data, Asunto, Stages[k])
    {
      FilterLengthIsCount(data, Stages[k]);
    }
  }

  /** `data.filter(item => item.asunto === stage).length` counts the rows
      with that subject. */
  lemma {:induction false} FilterLengthIsCount(data: seq<DataRow>, stage: string)
    ensures |Filter(data, HasSubject(stage))| == CountEq(data, Asunto, stage)
    decreases |data|
  {
    if |data| > 0 {
      FilterLengthIsCount(AllButLast(data), stage);
    }
  }

  function Values(r: seq<FunnelStage>): seq<int>
  {
    if |r| == 0 then [] else Values(AllButLast(r)) + [Last(r).value]
  }

  /** The stages are distinct, so no row is counted at two stages: the
      values add up to at most the number of rows. */
  lemma FunnelSumAtMostRows(data: seq<DataRow>)
    ensures Sum(Values(FunnelData(data))) <= |data|
  {
    var r := FunnelData(data);
    assert NoDup(Stages);
    SumCountEqAtMost(data, Asunto, Stages);
    ValuesAreCounts(data, r, Stages);
  }

  lemma {:induction false} ValuesAreCounts(data: seq<DataRow>, r: seq<FunnelStage>, stages: seq<string>)
    requires |r| == |stages|
    requires forall k :: 0 <= k < |r| ==> r[k].value == CountEq(data, Asunto, stages[k])
    ensures Sum(Values(r)) == SumCountEq(data, Asunto, stages)
    decreases |r|
  {
    if |r| > 0 {
      ValuesAreCounts(data, AllButLast(r), AllButLast(stages));
    }
  }

  /** A row whose subject is no stage changes nothing. */
  lemma OtherSubjectsIgnored(data: seq<DataRow>, x: DataRow)
    requires x.asunto !in Stages
    ensures FunnelData(data + [x]) == FunnelData(data)
  {
    assert AllButLast(data + [x]) == data;
    forall k | 0 <= k < |Stages|
      ensures FunnelData(data + [x])[k] == FunnelData(data)[k]
    {
      assert x.asunto != Stages[k];
    }
  }

  /** No rows, four zero-valued stages. */
  lemma EmptyFunnel()
    ensures FunnelData([]) == [
      FunnelStage("Visto el vídeo", 0), FunnelStage("Formulario completado", 0),
      FunnelStage("Interesado en precios", 0), FunnelStage("Lead cualificado", 0)]
  {
    var r := FunnelData([]);
    assert r[0].value == 0 && r[1].value == 0 && r[2].value == 0 && r[3].value == 0;
  }
}
