/** The post-processing of the grouped statistics queries, shared by the
    pitcher scope and the team scope: the 25-bucket zone histogram, the
    result-name tally, the id-to-record maps and the per-pitcher summary.
    Every query result is an input; the store itself is not modelled. */
module Stats {
  import opened Wrappers
  import opened JsValues
  import opened Zones

  // ---------------------------------------------------------------------------
  // Aggregated velocity

  /** `_avg.velocidad` as the store returns it: missing, null, a number, or
      some other value (such as a decimal object) */
  datatype AggValue = AggUndefined | AggNull | AggNumber(v: real) | AggOther

  /** `a ?? null` */
  function NullishToNull(a: AggValue): (r: AggValue)
    ensures r != AggUndefined
    ensures a != AggUndefined ==> r == a
  {
    if a.AggUndefined? then AggNull else a
  }

  /** `typeof a === 'number' ? a : null` */
  function NumberOrNull(a: AggValue): (r: AggValue)
    ensures r.AggNull? || r.AggNumber?
    ensures r.AggNumber? <==> a.AggNumber?
    ensures r.AggNumber? ==> r == a
  {
    if a.AggNumber? then a else AggNull
  }

  // ---------------------------------------------------------------------------
  // Last write wins: `rows.reduce((acc, r) => (acc[r.id] = r.value, acc), {})`

  /** The object built by assigning each row's value under its key, in order */
  function IndexBy<K(==), V>(rows: seq<(K, V)>): map<K, V> {
    if rows == [] then map[]
    else IndexBy(rows[..|rows| - 1])[rows[|rows| - 1].0 := rows[|rows| - 1].1]
  }

  /** The keys are exactly the rows' keys */
  lemma {:induction false} IndexByKeys<K, V>(rows: seq<(K, V)>)
    ensures IndexBy(rows).Keys == set i | 0 <= i < |rows| :: rows[i].0
  {
    if rows != [] {
      var n := |rows|;
      var prefix := rows[..n - 1];
      IndexByKeys(prefix);
      assert forall i :: 0 <= i < n - 1 ==> prefix[i] == rows[i];
      assert (set i | 0 <= i < n :: rows[i].0) == (set i | 0 <= i < n - 1 :: prefix[i].0) + {rows[n - 1].0};
    }
  }

  /** A key holds the value of the last row with that key */
  lemma {:induction false} IndexByLast<K, V>(rows: seq<(K, V)>, i: nat)
    requires i < |rows|
    requires forall j :: i < j < |rows| ==> rows[j].0 != rows[i].0
    ensures rows[i].0 in IndexBy(rows) && IndexBy(rows)[rows[i].0] == rows[i].1
  {
    var n := |rows|;
    if i < n - 1 {
      var prefix := rows[..n - 1];
      assert prefix[i] == rows[i];
      assert forall j :: i < j < |prefix| ==> prefix[j] == rows[j];
      IndexByLast(prefix, i);
      assert rows[n - 1].0 != rows[i].0;
    }
  }

  /** The keys are exactly the rows' keys, and each key holds the value of
      the last row with that key */
  lemma IndexByAt<K, V>(rows: seq<(K, V)>)
    ensures IndexBy(rows).Keys == set i | 0 <= i < |rows| :: rows[i].0
    ensures forall i :: 0 <= i < |rows| && (forall j :: i < j < |rows| ==> rows[j].0 != rows[i].0)
                        ==> rows[i].0 in IndexBy(rows) && IndexBy(rows)[rows[i].0] == rows[i].1
  {
    IndexByKeys(rows);
    forall i | 0 <= i < |rows| && (forall j :: i < j < |rows| ==> rows[j].0 != rows[i].0)
      ensures rows[i].0 in IndexBy(rows) && IndexBy(rows)[rows[i].0] == rows[i].1
    {
      IndexByLast(rows, i);
    }
  }

  /** `reduce` as a loop that assigns into the accumulator */
  method BuildIndex<K(==), V>(rows: seq<(K, V)>) returns (m: map<K, V>)
    ensures m == IndexBy(rows)
  {
    m := map[];
    for i := 0 to |rows|
      invariant m == IndexBy(rows[..i])
    {
      assert rows[..i + 1][..i] == rows[..i];
      m := m[rows[i].0 := rows[i].1];
    }
    assert rows[..|rows|] == rows;
  }

  // ---------------------------------------------------------------------------
  // Zone histogram

  /** A row of the `groupBy(['x', 'y'])` query, with `Number(row.x)` and
      `Number(row.y)` already applied, and its `_count._all` */
  datatype ZoneGroup = ZoneGroup(cell: Coords, count: nat)

  /** `new Array(n).fill(0)` */
  function Zeros(n: nat): (s: seq<nat>)
    ensures |s| == n && forall i :: 0 <= i < n ==> s[i] == 0
  {
    seq(n, _ => 0)
  }

  /** The 25 zone buckets after processing `rows` in order: a row whose cell
      has a bucket sets that bucket to its count; other rows change nothing */
  function ZoneHistogram(rows: seq<ZoneGroup>): (h: seq<nat>)
    ensures |h| == 25
  {
    if rows == [] then Zeros(25)
    else
      var h0 := ZoneHistogram(rows[..|rows| - 1]);
      var last := rows[|rows| - 1];
      match ZoneIndex(last.cell)
      case None => h0
      case Some(k) => h0[k := last.count]
  }

  /** A bucket no row maps to is zero */
  lemma {:induction false} ZoneHistogramUntouched(rows: seq<ZoneGroup>, k: nat)
    requires k < 25
    requires forall i :: 0 <= i < |rows| ==> ZoneIndex(rows[i].cell) != Some(k)
    ensures ZoneHistogram(rows)[k] == 0
  {
    if rows != [] {
      var n := |rows|;
      var prefix := rows[..n - 1];
      assert forall i :: 0 <= i < n - 1 ==> prefix[i] == rows[i];
      ZoneHistogramUntouched(prefix, k);
      assert ZoneIndex(rows[n - 1].cell) != Some(k);
    }
  }

  /** A bucket holds the count of the last row that maps to it */
  lemma {:induction false} ZoneHistogramLast(rows: seq<ZoneGroup>, i: nat)
    requires i < |rows| && ZoneIndex(rows[i].cell).Some?
    requires forall j :: i < j < |rows| ==> ZoneIndex(rows[j].cell) != ZoneIndex(rows[i].cell)
    ensures ZoneHistogram(rows)[ZoneIndex(rows[i].cell).value] == rows[i].count
  {
    var n := |rows|;
    if i < n - 1 {
      var prefix := rows[..n - 1];
      assert prefix[i] == rows[i];
      assert forall j :: i < j < |prefix| ==> prefix[j] == rows[j];
      ZoneHistogramLast(prefix, i);
      assert ZoneIndex(rows[n - 1].cell) != ZoneIndex(rows[i].cell);
    }
  }

  /** A bucket no row maps to is zero; otherwise it holds the count of the
      last row that maps to it */
  lemma ZoneHistogramAt(rows: seq<ZoneGroup>, k: nat)
    requires k < 25
    ensures (forall i :: 0 <= i < |rows| ==> ZoneIndex(rows[i].cell) != Some(k))
            ==> ZoneHistogram(rows)[k] == 0
    ensures forall i :: 0 <= i < |rows| && ZoneIndex(rows[i].cell) == Some(k)
                        && (forall j :: i < j < |rows| ==> ZoneIndex(rows[j].cell) != Some(k))
                        ==> ZoneHistogram(rows)[k] == rows[i].count
  {
    if forall i :: 0 <= i < |rows| ==> ZoneIndex(rows[i].cell) != Some(k) {
      ZoneHistogramUntouched(rows, k);
    }
    forall i | 0 <= i < |rows| && ZoneIndex(rows[i].cell) == Some(k)
               && (forall j :: i < j < |rows| ==> ZoneIndex(rows[j].cell) != Some(k))
      ensures ZoneHistogram(rows)[k] == rows[i].count
    {
      ZoneHistogramLast(rows, i);
    }
  }

  /** No two rows of a `groupBy(['x', 'y'])` share a cell */
  predicate DistinctCells(rows: seq<ZoneGroup>) {
    forall i, j :: 0 <= i < j < |rows| ==> rows[i].cell != rows[j].cell
  }

  /** With one row per cell, as the grouped query returns them, the
      assignment `zoneCounts[idx] = count` loses nothing: each bucketed row's
      count is in its bucket */
  lemma ZoneHistogramOfDistinctCells(rows: seq<ZoneGroup>, i: nat)
    requires DistinctCells(rows)
    requires i < |rows| && ZoneIndex(rows[i].cell).Some?
    ensures ZoneHistogram(rows)[ZoneIndex(rows[i].cell).value] == rows[i].count
  {
    var k := ZoneIndex(rows[i].cell).value;
    forall j | i < j < |rows|
      ensures ZoneIndex(rows[j].cell) != Some(k)
    {
      if ZoneIndex(rows[j].cell) == Some(k) {
        ZoneIndexInjective(rows[i].cell, rows[j].cell);
      }
    }
    ZoneHistogramAt(rows, k);
  }

  /** The rows whose cell has a bucket, in order */
  function InGrid(rows: seq<ZoneGroup>): (r: seq<ZoneGroup>)
    ensures forall g :: g in r ==> g in rows && ZoneIndex(g.cell).Some?
  {
    if rows == [] then []
    else
      var last := rows[|rows| - 1];
      InGrid(rows[..|rows| - 1]) + (if ZoneIndex(last.cell).Some? then [last] else [])
  }

  /** Rows with out-of-range or fractional coordinates leave every bucket
      unchanged: dropping them gives the same histogram */
  lemma {:induction false} OffGridRowsIgnored(rows: seq<ZoneGroup>)
    ensures ZoneHistogram(rows) == ZoneHistogram(InGrid(rows))
  {
    if rows != [] {
      var n := |rows|;
      var last := rows[n - 1];
      OffGridRowsIgnored(rows[..n - 1]);
      var g := InGrid(rows[..n - 1]);
      if ZoneIndex(last.cell).Some? {
        assert InGrid(rows) == g + [last];
        assert (g + [last])[..|g|] == g;
        assert (g + [last])[|g|] == last;
      } else {
        assert InGrid(rows) == g;
      }
    }
  }

  /** A single pitch recorded with an integer zone in [0, 24] is counted in
      that zone's bucket and nowhere else */
  lemma RecordedZoneIsCounted(zona: int, count: nat)
    requires 0 <= zona <= 24
    ensures ZoneHistogram([ZoneGroup(ZonaToXY(Number(FromInt(zona))), count)]) == Zeros(25)[zona := count]
  {
    ZonaRoundTrip(zona);
    var rows := [ZoneGroup(ZonaToXY(Number(FromInt(zona))), count)];
    assert rows[..0] == [];
  }

  /** `zoneCounts = new Array(25).fill(0)` followed by the `forEach` that
      assigns each in-grid row's count to bucket `y * 5 + x` */
  method FillZoneCounts(rows: seq<ZoneGroup>) returns (zoneCounts: seq<nat>)
    ensures zoneCounts == ZoneHistogram(rows)
  {
    var counts := new nat[25](_ => 0);
    assert counts[..] == Zeros(25);
    for i := 0 to |rows|
      invariant counts[..] == ZoneHistogram(rows[..i])
    {
      assert rows[..i + 1][..i] == rows[..i];
      var x, y := rows[i].cell.x, rows[i].cell.y;
      if IsInteger(x) && IsInteger(y) && 0.0 <= x.r < 5.0 && 0.0 <= y.r < 5.0 {
        var idx := AsInt(y) * 5 + AsInt(x);
        counts[idx] := rows[i].count;
      }
    }
    assert rows[..|rows|] == rows;
    zoneCounts := counts[..];
  }

  // ---------------------------------------------------------------------------
  // Result tally

  /** A row of the `groupBy(['resultadoId'])` query */
  datatype ResultGroup = ResultGroup(resultadoId: Option<int>, count: nat)

  /** `String(id)`: "null" for a null id */
  function IdString(id: Option<int>): string {
    match id
    case None => "null"
    case Some(i) => IntToString(i)
  }

  /** `resultadosMap[id] || String(id)`: the looked-up name when it is a
      non-empty string, the printed id otherwise */
  function ResultKey(id: Option<int>, names: map<int, string>): string {
    if id.Some? && id.value in names && names[id.value] != "" then names[id.value]
    else IdString(id)
  }

  /** Fallback keys never collide: two different result ids without a name,
      null included, are tallied under different keys */
  lemma FallbackKeysDistinct(a: Option<int>, b: Option<int>, names: map<int, string>)
    requires a != b
    requires a.None? || a.value !in names || names[a.value] == ""
    requires b.None? || b.value !in names || names[b.value] == ""
    ensures ResultKey(a, names) != ResultKey(b, names)
  {
    if a.Some? && b.Some? {
      if IntToString(a.value) == IntToString(b.value) {
        IntToStringInjective(a.value, b.value);
      }
    } else {
      var i := if a.Some? then a.value else b.value;
      NullIsNoPrintedId(i);
    }
  }

  /** No integer prints as "null": a printed integer starts with a digit or
      a minus sign */
  lemma NullIsNoPrintedId(i: int)
    ensures IntToString(i) != "null"
  {
    var digits := NatToString(if i < 0 then -i else i);
    assert IsDigit(digits[0]);
    assert IntToString(i)[0] != 'n';
  }

  /** Each group as the assignment `byResultado[key] = count` it makes */
  function KeyedCounts(groups: seq<ResultGroup>, names: map<int, string>): (r: seq<(string, nat)>)
    ensures |r| == |groups|
    ensures forall i :: 0 <= i < |groups| ==> r[i] == (ResultKey(groups[i].resultadoId, names), groups[i].count)
  {
    seq(|groups|, i requires 0 <= i < |groups| => (ResultKey(groups[i].resultadoId, names), groups[i].count))
  }

  /** `byResultado` after the `forEach` over the result groups */
  function ResultCounts(groups: seq<ResultGroup>, names: map<int, string>): map<string, nat> {
    IndexBy(KeyedCounts(groups, names))
  }

  /** The tally has one key per group key, holding the count of the last
      group with that key */
  lemma ResultCountsAt(groups: seq<ResultGroup>, names: map<int, string>)
    ensures ResultCounts(groups, names).Keys
            == set i | 0 <= i < |groups| :: ResultKey(groups[i].resultadoId, names)
    ensures forall i :: 0 <= i < |groups|
                        && (forall j :: i < j < |groups| ==>
                              ResultKey(groups[j].resultadoId, names) != ResultKey(groups[i].resultadoId, names))
                        ==> ResultCounts(groups, names)[ResultKey(groups[i].resultadoId, names)] == groups[i].count
  {
    var pairs := KeyedCounts(groups, names);
    IndexByAt(pairs);
    assert (set i | 0 <= i < |pairs| :: pairs[i].0)
           == set i | 0 <= i < |groups| :: ResultKey(groups[i].resultadoId, names);
  }

  /** With no names to look up, every key is the printed id */
  lemma NoNamesAllFallback(groups: seq<ResultGroup>)
    ensures ResultCounts(groups, map[]).Keys == set i | 0 <= i < |groups| :: IdString(groups[i].resultadoId)
  {
    ResultCountsAt(groups, map[]);
    assert forall i :: 0 <= i < |groups| ==>
      ResultKey(groups[i].resultadoId, map[]) == IdString(groups[i].resultadoId);
  }

  /** `byResultado = {}` followed by the `forEach` over the result groups */
  method FillResultCounts(groups: seq<ResultGroup>, names: map<int, string>) returns (byResultado: map<string, nat>)
    ensures byResultado == ResultCounts(groups, names)
  {
    ghost var pairs := KeyedCounts(groups, names);
    byResultado := map[];
    for i := 0 to |groups|
      invariant byResultado == IndexBy(pairs[..i])
    {
      assert pairs[..i + 1][..i] == pairs[..i];
      var key := ResultKey(groups[i].resultadoId, names);
      byResultado := byResultado[key := groups[i].count];
    }
    assert pairs[..|groups|] == pairs;
  }

  /** `byResId.map(r => r.resultadoId).filter(v => v != null)` */
  function RequestedIds(groups: seq<ResultGroup>): (ids: seq<int>)
    ensures forall i :: i in ids <==> exists j :: 0 <= j < |groups| && groups[j].resultadoId == Some(i)
  {
    if groups == [] then []
    else
      var rest := RequestedIds(groups[1..]);
      assert forall j :: 0 < j < |groups| ==> groups[1..][j - 1] == groups[j];
      match groups[0].resultadoId
      case None => rest
      case Some(i) => [i] + rest
  }

  // ---------------------------------------------------------------------------
  // Per-pitcher summary

  /** A row of the `groupBy(['pitcherId'])` query with its count and average */
  datatype PitcherGroup = PitcherGroup(pitcherId: Option<int>, count: nat, avg: AggValue)

  /** The `select { nombre, apellido }` of a pitcher */
  datatype PitcherName = PitcherName(nombre: string, apellido: string)

  /** One entry of `pitchersSummary` */
  datatype PitcherSummary = PitcherSummary(
    id: Option<int>, nombre: Option<string>, apellido: Option<string>, total: nat, avgVel: AggValue)

  /** `s || null` for a string */
  function NonEmpty(s: string): (r: Option<string>)
    ensures r.None? <==> s == ""
    ensures r.Some? ==> r.value == s
  {
    if s == "" then None else Some(s)
  }

  function SummaryOf(g: PitcherGroup, byId: map<int, PitcherName>): PitcherSummary {
    var found := g.pitcherId.Some? && g.pitcherId.value in byId;
    PitcherSummary(
      g.pitcherId,
      if found then NonEmpty(byId[g.pitcherId.value].nombre) else None,
      if found then NonEmpty(byId[g.pitcherId.value].apellido) else None,
      g.count,
      NullishToNull(g.avg))
  }

  /** `perPitcher.map(...)`: one entry per group, in the groups' order; the
      names come from the matching pitcher and are null when none matches */
  function Summaries(groups: seq<PitcherGroup>, byId: map<int, PitcherName>): (r: seq<PitcherSummary>)
    ensures |r| == |groups|
    ensures forall i :: 0 <= i < |groups| ==>
      && r[i].id == groups[i].pitcherId
      && r[i].total == groups[i].count
      && r[i].avgVel == NullishToNull(groups[i].avg)
    ensures forall i :: 0 <= i < |groups| && (groups[i].pitcherId.None? || groups[i].pitcherId.value !in byId)
                        ==> r[i].nombre.None? && r[i].apellido.None?
    ensures forall i :: 0 <= i < |groups| && groups[i].pitcherId.Some? && groups[i].pitcherId.value in byId
                        ==> r[i].nombre == NonEmpty(byId[groups[i].pitcherId.value].nombre)
                            && r[i].apellido == NonEmpty(byId[groups[i].pitcherId.value].apellido)
  {
    seq(|groups|, i requires 0 <= i < |groups| => SummaryOf(groups[i], byId))
  }

  /** `pitcherMap` by `reduce`, then the summary `map` */
  method SummarizePitchers(groups: seq<PitcherGroup>, pitchers: seq<(int, PitcherName)>)
    returns (summary: seq<PitcherSummary>)
    ensures summary == Summaries(groups, IndexBy(pitchers))
  {
    var pitcherMap := BuildIndex(pitchers);
    summary := Summaries(groups, pitcherMap);
  }

  // ---------------------------------------------------------------------------
  // The shared scope statistics

  /** What the store returns for one scope: the count, the velocity
      aggregate, the zone groups, the result groups and the result rows a
      lookup by id returns */
  datatype ScopeQueries = ScopeQueries(
    total: nat, avg: AggValue, byZone: seq<ZoneGroup>, byResId: seq<ResultGroup>,
    resultados: seq<(int, string)>)

  /** `{ total, avgVel, zoneCounts, byResultado }` */
  datatype ScopeStats = ScopeStats(total: nat, avgVel: AggValue, zoneCounts: seq<nat>, byResultado: map<string, nat>)

  /** `{ ..., pitchers: pitchersSummary }` */
  datatype TeamStats = TeamStats(scope: ScopeStats, pitchers: seq<PitcherSummary>)

  /** The zone histogram and the result tally, given the result rows fetched */
  method ScopeCounts(byZone: seq<ZoneGroup>, byResId: seq<ResultGroup>, resultados: seq<(int, string)>)
    returns (zoneCounts: seq<nat>, byResultado: map<string, nat>)
    ensures zoneCounts == ZoneHistogram(byZone)
    ensures byResultado == ResultCounts(byResId, IndexBy(resultados))
  {
    zoneCounts := FillZoneCounts(byZone);
    var resultadosMap := BuildIndex(resultados);
    byResultado := FillResultCounts(byResId, resultadosMap);
  }
}
