/** The aggregation script: the same post-processing as the team statistics
    handler, for one pitcher (`testPitcher`) and for one team
    (`testEquipo`).  Unlike the handler, the script skips the name lookups
    when there is no id to look up, and keeps any non-nullish average. */
module TmpTestStats {
  import opened Wrappers
  import opened JsValues
  import opened Zones
  import opened Stats
  import EquipoController

  /** `resultadoIds.length ? await findMany(...) : []`: the result rows the
      script works with */
  function LookedUpResultados(q: ScopeQueries): (r: seq<(int, string)>)
    ensures RequestedIds(q.byResId) == [] ==> r == []
    ensures RequestedIds(q.byResId) != [] ==> r == q.resultados
  {
    if RequestedIds(q.byResId) != [] then q.resultados else []
  }

  /** `{ total, avgVel, zoneCounts, byResultado }` as the script computes it
      for either scope */
  function ScriptScopeStats(q: ScopeQueries): ScopeStats {
    ScopeStats(q.total, NullishToNull(q.avg), ZoneHistogram(q.byZone),
               ResultCounts(q.byResId, IndexBy(LookedUpResultados(q))))
  }

  /** `perPitcher.map(p => p.pitcherId).filter(v => v != null)` */
  function PitcherIds(groups: seq<PitcherGroup>): (ids: seq<int>)
    ensures forall i :: i in ids <==> exists j :: 0 <= j < |groups| && groups[j].pitcherId == Some(i)
  {
    if groups == [] then []
    else
      var rest := PitcherIds(groups[1..]);
      assert forall j :: 0 < j < |groups| ==> groups[1..][j - 1] == groups[j];
      match groups[0].pitcherId
      case None => rest
      case Some(i) => [i] + rest
  }

  /** `pitcherIds.length ? await findMany(...) : []` */
  function LookedUpPitchers(groups: seq<PitcherGroup>, pitchers: seq<(int, PitcherName)>)
    : (r: seq<(int, PitcherName)>)
    ensures PitcherIds(groups) == [] ==> r == []
    ensures PitcherIds(groups) != [] ==> r == pitchers
  {
    if PitcherIds(groups) != [] then pitchers else []
  }

  /** The post-processing shared by both scopes, in the order the script
      runs it: histogram, result lookup (skipped without ids), tally */
  method ScriptScope(q: ScopeQueries) returns (s: ScopeStats)
    ensures s == ScriptScopeStats(q)
    ensures |s.zoneCounts| == 25
  {
    var avgVel := NullishToNull(q.avg);
    var resultadoIds := RequestedIds(q.byResId);
    var resultados: seq<(int, string)> := [];
    if |resultadoIds| > 0 {
      resultados := q.resultados;
    }
    var zoneCounts, byResultado := ScopeCounts(q.byZone, q.byResId, resultados);
    s := ScopeStats(q.total, avgVel, zoneCounts, byResultado);
  }

  /** `testPitcher`: the scope statistics of one pitcher's pitches */
  method TestPitcher(q: ScopeQueries) returns (s: ScopeStats)
    ensures s == ScriptScopeStats(q)
    ensures s.avgVel != AggUndefined
  {
    s := ScriptScope(q);
  }

  /** `testEquipo`: the scope statistics of a team's pitches and the summary
      per pitcher, the pitcher lookup skipped when no group has an id */
  method TestEquipo(q: ScopeQueries, perPitcher: seq<PitcherGroup>, pitchers: seq<(int, PitcherName)>)
    returns (t: TeamStats)
    ensures t.scope == ScriptScopeStats(q)
    ensures t.pitchers == Summaries(perPitcher, IndexBy(LookedUpPitchers(perPitcher, pitchers)))
  {
    var scope := ScriptScope(q);
    var pitcherIds := PitcherIds(perPitcher);
    var found: seq<(int, PitcherName)> := [];
    if |pitcherIds| > 0 {
      found := pitchers;
    }
    var summary := SummarizePitchers(perPitcher, found);
    t := TeamStats(scope, summary);
  }

  /** With no non-null result id, nothing is looked up and every group is
      tallied under its printed id: the only possible key is "null" */
  lemma NoResultIdsOnlyNullKey(q: ScopeQueries)
    requires RequestedIds(q.byResId) == []
    ensures ScriptScopeStats(q).byResultado.Keys == if q.byResId == [] then {} else {"null"}
  {
    assert IndexBy(LookedUpResultados(q)) == map[];
    NoNamesAllFallback(q.byResId);
    forall i | 0 <= i < |q.byResId|
      ensures q.byResId[i].resultadoId == None
    {
      var ids := RequestedIds(q.byResId);
      assert forall v :: (v in ids <==> exists j :: 0 <= j < |q.byResId| && q.byResId[j].resultadoId == Some(v));
    }
    if q.byResId != [] {
      assert IdString(q.byResId[0].resultadoId) == "null";
    }
  }

  /** The store answers a lookup `where: { id: { in: ids } }` only with rows
      whose id is among `ids` */
  predicate ResultRowsRequested(q: ScopeQueries) {
    forall k :: 0 <= k < |q.resultados| ==> q.resultados[k].0 in RequestedIds(q.byResId)
  }

  predicate PitcherRowsRequested(groups: seq<PitcherGroup>, pitchers: seq<(int, PitcherName)>) {
    forall k :: 0 <= k < |pitchers| ==> pitchers[k].0 in PitcherIds(groups)
  }

  /** The script and the handler agree on the count, the histogram and the
      result tally: skipping an empty lookup changes nothing.  Their averages
      differ only when the aggregate is neither a number nor nullish. */
  lemma ScopesAgree(q: ScopeQueries)
    requires ResultRowsRequested(q)
    ensures ScriptScopeStats(q).total == EquipoController.ControllerScopeStats(q).total
    ensures ScriptScopeStats(q).zoneCounts == EquipoController.ControllerScopeStats(q).zoneCounts
    ensures ScriptScopeStats(q).byResultado == EquipoController.ControllerScopeStats(q).byResultado
    ensures ScriptScopeStats(q).avgVel == EquipoController.ControllerScopeStats(q).avgVel <==> !q.avg.AggOther?
  {
    if q.resultados != [] {
      assert q.resultados[0].0 in RequestedIds(q.byResId);
    }
  }

  /** The script's team summary is the handler's */
  lemma SummariesAgree(perPitcher: seq<PitcherGroup>, pitchers: seq<(int, PitcherName)>)
    requires PitcherRowsRequested(perPitcher, pitchers)
    ensures Summaries(perPitcher, IndexBy(LookedUpPitchers(perPitcher, pitchers)))
            == Summaries(perPitcher, IndexBy(pitchers))
  {
    if pitchers != [] {
      assert pitchers[0].0 in PitcherIds(perPitcher);
    }
  }

  /** A scope without pitches: zero total, null average, all-zero histogram
      and an empty tally */
  lemma EmptyScope(avg: AggValue)
    requires avg.AggNull? || avg.AggUndefined?
    ensures ScriptScopeStats(ScopeQueries(0, avg, [], [], [])) == ScopeStats(0, AggNull, Zeros(25), map[])
  {
    assert ZoneHistogram([]) == Zeros(25);
  }
}
