/** The game handlers over a store of games: create a game (always
    PROGRAMADO), read one, finalise one, and list the user's games, newest
    first.  A game of another user is answered as a missing one. */
module PartidoController {
  import opened Wrappers
  import opened JsValues
  import opened Http

  /** The lifecycle of a game: PROGRAMADO on creation, FINALIZADO once
      finalised */
  datatype Estado = Programado | Finalizado

  /** A stored game; `fecha` is the instant of the game as a timestamp */
  datatype Partido = Partido(
    id: int, fecha: int, campo: Option<string>, estado: Estado, horario: string, autorId: int,
    equipoLocalId: JsNum, equipoVisitanteId: JsNum, pitcherLocalId: JsNum, pitcherVisitanteId: JsNum)

  /** The body fields `crearPartido` reads */
  datatype PartidoBody = PartidoBody(
    equipoLocalId: JsValue, equipoVisitanteId: JsValue, pitcherLocalId: JsValue,
    pitcherVisitanteId: JsValue, fecha: JsValue, horario: JsValue, campo: JsValue)

  /** The `data` of `prisma.partido.create` */
  datatype PartidoData = PartidoData(
    fecha: int, campo: Option<string>, estado: Estado, horario: string, autorId: int,
    equipoLocalId: JsNum, equipoVisitanteId: JsNum, pitcherLocalId: JsNum, pitcherVisitanteId: JsNum)

  /** The six fields marked as required are all truthy */
  predicate RequiredFieldsPresent(b: PartidoBody) {
    Truthy(b.equipoLocalId) && Truthy(b.equipoVisitanteId) && Truthy(b.pitcherLocalId)
    && Truthy(b.pitcherVisitanteId) && Truthy(b.fecha) && Truthy(b.horario)
  }

  /** `crearPartido` up to the write.  A missing required field is 400; a
      date or time that is not a string makes `split` throw (500); the date
      the strings denote, `fechaHora`, is None for an invalid date (400).
      The game is written PROGRAMADO, by the requester, with the campo
      trimmed or null; a foreign key to no team or pitcher is 404. */
  function CrearPartidoDecision(b: PartidoBody, autorId: int, fechaHora: Option<int>, write: Option<StoreError>)
    : (r: Response<PartidoData>)
    ensures !RequiredFieldsPresent(b) ==> r == Reject(BadRequest)
    ensures RequiredFieldsPresent(b) && !(b.fecha.Str? && b.horario.Str?) ==> r == Reject(InternalError)
    ensures RequiredFieldsPresent(b) && b.fecha.Str? && b.horario.Str? && fechaHora.None? ==> r == Reject(BadRequest)
    ensures (RequiredFieldsPresent(b) && b.fecha.Str? && b.horario.Str? && fechaHora.Some?) ==>
              (if TrimmedOrNull(b.campo).Val? then r.effect.Some? else r == Reject(InternalError))
    ensures r.effect.Some? ==>
              && RequiredFieldsPresent(b)
              && r.effect.value.estado == Programado
              && r.effect.value.autorId == autorId
              && fechaHora == Some(r.effect.value.fecha)
              && b.horario == Str(r.effect.value.horario)
              && TrimmedOrNull(b.campo) == Val(r.effect.value.campo)
              && r.effect.value.equipoLocalId == ToNumber(b.equipoLocalId)
              && r.effect.value.equipoVisitanteId == ToNumber(b.equipoVisitanteId)
              && r.effect.value.pitcherLocalId == ToNumber(b.pitcherLocalId)
              && r.effect.value.pitcherVisitanteId == ToNumber(b.pitcherVisitanteId)
    ensures r.status == Created <==> r.effect.Some? && write.None?
    ensures r.status == NotFound <==> r.effect.Some? && write == Some(P2003)
    ensures r.effect.Some? && write.Some? && write != Some(P2003) ==> r.status == InternalError
  {
    if !RequiredFieldsPresent(b) then Reject(BadRequest)
    else if !b.fecha.Str? || !b.horario.Str? then Reject(InternalError)
    else if fechaHora.None? then Reject(BadRequest)
    else match TrimmedOrNull(b.campo)
      case TypeError => Reject(InternalError)
      case Val(campo) =>
        var data := PartidoData(
          fechaHora.value, campo, Programado, b.horario.s, autorId,
          ToNumber(b.equipoLocalId), ToNumber(b.equipoVisitanteId),
          ToNumber(b.pitcherLocalId), ToNumber(b.pitcherVisitanteId));
        match write
        case None => Response(Created, Some(data))
        case Some(P2003) => Response(NotFound, Some(data))
        case Some(_) => Response(InternalError, Some(data))
  }

  /** `p` holds exactly the written `data`, under some id */
  predicate Records(p: Partido, d: PartidoData) {
    && p.fecha == d.fecha && p.campo == d.campo && p.estado == d.estado && p.horario == d.horario
    && p.autorId == d.autorId
    && p.equipoLocalId == d.equipoLocalId && p.equipoVisitanteId == d.equipoVisitanteId
    && p.pitcherLocalId == d.pitcherLocalId && p.pitcherVisitanteId == d.pitcherVisitanteId
  }

  /** The game `findFirst({ where: { id, autorId } })` returns */
  function OwnedGame(partidos: map<int, Partido>, id: int, autorId: int): (r: Option<Partido>)
    ensures r.Some? <==> id in partidos && partidos[id].autorId == autorId
    ensures r.Some? ==> r.value == partidos[id]
  {
    if id in partidos && partidos[id].autorId == autorId then Some(partidos[id]) else None
  }

  /** A path id checked only with `isNaN` (games and pitches): NaN is
      rejected with 400; a number that is not an integer reaches the store,
      which refuses it (500) */
  function PathIdCheck(idParam: string): (r: Option<Status>)
    ensures r == Some(BadRequest) <==> StringToNumber(idParam).NaN?
    ensures r.None? <==> IsInteger(StringToNumber(idParam))
  {
    var id := StringToNumber(idParam);
    if id.NaN? then Some(BadRequest)
    else if !IsInteger(id) then Some(InternalError)
    else None
  }

  /** The game `id` finalised: only its estado changes */
  function Finalized(partidos: map<int, Partido>, id: int): (m: map<int, Partido>)
    requires id in partidos
    ensures m.Keys == partidos.Keys
    ensures m[id].estado == Finalizado
    ensures forall k :: k in partidos && k != id ==> m[k] == partidos[k]
    ensures m[id] == partidos[id].(estado := Finalizado)
  {
    partidos[id := partidos[id].(estado := Finalizado)]
  }

  /** Finalising twice leaves the store as finalising once */
  lemma FinalizeIdempotent(partidos: map<int, Partido>, id: int)
    requires id in partidos
    ensures Finalized(Finalized(partidos, id), id) == Finalized(partidos, id)
  {
  }

  /** `after` follows `before` in the game lifecycle: no game disappears
      and a finalised game stays finalised */
  predicate LifecycleStep(before: map<int, Partido>, after: map<int, Partido>) {
    forall k :: k in before ==> k in after && (before[k].estado == Finalizado ==> after[k].estado == Finalizado)
  }

  /** Games sorted by `fecha`, newest first */
  predicate NewestFirst(list: seq<Partido>) {
    forall i, j :: 0 <= i < j < |list| ==> list[i].fecha >= list[j].fecha
  }

  predicate DistinctIds(list: seq<Partido>) {
    forall i, j :: 0 <= i < j < |list| ==> list[i].id != list[j].id
  }

  /** `p` put before the first game not newer than it */
  function InsertNewestFirst(p: Partido, list: seq<Partido>): (r: seq<Partido>)
    ensures |r| == |list| + 1
    ensures forall x :: x in r <==> x == p || x in list
  {
    if list == [] || p.fecha >= list[0].fecha then [p] + list
    else
      var rest := InsertNewestFirst(p, list[1..]);
      assert forall x :: x in list <==> x == list[0] || x in list[1..];
      [list[0]] + rest
  }

  /** Inserting into a list sorted newest first keeps it sorted */
  lemma {:induction false} InsertKeepsNewestFirst(p: Partido, list: seq<Partido>)
    requires NewestFirst(list)
    ensures NewestFirst(InsertNewestFirst(p, list))
  {
    if list == [] || p.fecha >= list[0].fecha {
      var r := [p] + list;
      forall i, j | 0 <= i < j < |r| ensures r[i].fecha >= r[j].fecha {
        if i > 0 {
          assert r[i] == list[i - 1] && r[j] == list[j - 1];
        } else {
          assert r[j] == list[j - 1];
        }
      }
    } else {
      var rest := InsertNewestFirst(p, list[1..]);
      assert NewestFirst(list[1..]) by {
        forall i, j | 0 <= i < j < |list[1..]| ensures list[1..][i].fecha >= list[1..][j].fecha {
          assert list[1..][i] == list[i + 1] && list[1..][j] == list[j + 1];
        }
      }
      InsertKeepsNewestFirst(p, list[1..]);
      var r := [list[0]] + rest;
      forall i, j | 0 <= i < j < |r| ensures r[i].fecha >= r[j].fecha {
        if i > 0 {
          assert r[i] == rest[i - 1] && r[j] == rest[j - 1];
        } else {
          assert r[j] in rest;
          if r[j] != p {
            var k :| 0 <= k < |list[1..]| && list[1..][k] == r[j];
            assert list[k + 1] == r[j];
          }
        }
      }
    }
  }

  /** Inserting a game whose id is not yet listed keeps the ids distinct */
  lemma {:induction false} InsertKeepsIdsDistinct(p: Partido, list: seq<Partido>)
    requires DistinctIds(list)
    requires forall x :: x in list ==> x.id != p.id
    ensures DistinctIds(InsertNewestFirst(p, list))
  {
    if list == [] || p.fecha >= list[0].fecha {
      var r := [p] + list;
      forall i, j | 0 <= i < j < |r| ensures r[i].id != r[j].id {
        if i > 0 {
          assert r[i] == list[i - 1] && r[j] == list[j - 1];
        } else {
          assert r[j] in list;
        }
      }
    } else {
      var rest := InsertNewestFirst(p, list[1..]);
      assert forall x :: x in list[1..] ==> x in list;
      assert DistinctIds(list[1..]) by {
        forall i, j | 0 <= i < j < |list[1..]| ensures list[1..][i].id != list[1..][j].id {
          assert list[1..][i] == list[i + 1] && list[1..][j] == list[j + 1];
        }
      }
      InsertKeepsIdsDistinct(p, list[1..]);
      var r := [list[0]] + rest;
      forall i, j | 0 <= i < j < |r| ensures r[i].id != r[j].id {
        if i > 0 {
          assert r[i] == rest[i - 1] && r[j] == rest[j - 1];
        } else {
          assert r[j] in rest;
          assert r[j] == p || r[j] in list[1..];
          if r[j] != p {
            var k :| 0 <= k < |list[1..]| && list[1..][k] == r[j];
            assert list[k + 1] == r[j];
          }
        }
      }
    }
  }

  /** The store of games */
  class PartidoStore {
    var partidos: map<int, Partido>
    var nextId: int

    /** Every game is filed under its own id, and ids are positive and
        below the next id to hand out */
    ghost predicate Valid()
      reads this
    {
      nextId > 0 && forall k :: k in partidos ==> partidos[k].id == k && 0 < k < nextId
    }

    constructor ()
      ensures Valid() && partidos == map[]
    {
      partidos := map[];
      nextId := 1;
    }

    /** `crearPartido`: the decision, then the write; a refused write stores
        nothing */
    method CrearPartido(b: PartidoBody, autorId: int, fechaHora: Option<int>, write: Option<StoreError>)
      returns (status: Status, created: Option<Partido>)
      requires Valid()
      modifies this
      ensures Valid()
      ensures status == CrearPartidoDecision(b, autorId, fechaHora, write).status
      ensures created.Some? <==> status == Created
      ensures created.Some? ==>
                && created.value.id == old(nextId)
                && created.value.id !in old(partidos)
                && created.value.estado == Programado
                && created.value.autorId == autorId
                && Records(created.value, CrearPartidoDecision(b, autorId, fechaHora, write).effect.value)
                && partidos == old(partidos)[created.value.id := created.value]
      ensures created.None? ==> partidos == old(partidos)
      ensures LifecycleStep(old(partidos), partidos)
    {
      var d := CrearPartidoDecision(b, autorId, fechaHora, write);
      status := d.status;
      if status == Created {
        var data := d.effect.value;
        var p := Partido(nextId, data.fecha, data.campo, data.estado, data.horario, data.autorId,
                         data.equipoLocalId, data.equipoVisitanteId, data.pitcherLocalId, data.pitcherVisitanteId);
        partidos := partidos[nextId := p];
        nextId := nextId + 1;
        created := Some(p);
      } else {
        created := None;
      }
    }

    /** `obtenerPartido`: a NaN id is 400; a game that is absent or of
        another user is 404 */
    method ObtenerPartido(idParam: string, autorId: int) returns (status: Status, found: Option<Partido>)
      ensures PathIdCheck(idParam).Some? ==> status == PathIdCheck(idParam).value && found.None?
      ensures PathIdCheck(idParam).None? ==>
                found == OwnedGame(partidos, AsInt(StringToNumber(idParam)), autorId)
                && (status == OK <==> found.Some?)
                && (found.None? ==> status == NotFound)
    {
      var check := PathIdCheck(idParam);
      if check.Some? {
        return check.value, None;
      }
      found := OwnedGame(partidos, AsInt(StringToNumber(idParam)), autorId);
      status := if found.Some? then OK else NotFound;
    }

    /** `finalizarPartido`: the same checks as `obtenerPartido`, then the
        game's estado becomes FINALIZADO and nothing else changes; an update
        the store refuses (`write`) is 500 and changes nothing */
    method FinalizarPartido(idParam: string, autorId: int, write: Option<StoreError>)
      returns (status: Status, updated: Option<Partido>)
      requires Valid()
      modifies this
      ensures Valid()
      ensures nextId == old(nextId)
      ensures PathIdCheck(idParam).Some? ==> status == PathIdCheck(idParam).value
      ensures PathIdCheck(idParam).None? ==>
                (OwnedGame(old(partidos), AsInt(StringToNumber(idParam)), autorId).None? <==> status == NotFound)
      ensures status == OK <==>
                PathIdCheck(idParam).None?
                && OwnedGame(old(partidos), AsInt(StringToNumber(idParam)), autorId).Some?
                && write.None?
      ensures status == OK ==>
                partidos == Finalized(old(partidos), AsInt(StringToNumber(idParam)))
                && updated == Some(partidos[AsInt(StringToNumber(idParam))])
      ensures status != OK ==> partidos == old(partidos) && updated.None?
      ensures PathIdCheck(idParam).None? && status != OK && status != NotFound ==> status == InternalError
      ensures LifecycleStep(old(partidos), partidos)
    {
      var check := PathIdCheck(idParam);
      if check.Some? {
        return check.value, None;
      }
      var id := AsInt(StringToNumber(idParam));
      if OwnedGame(partidos, id, autorId).None? {
        return NotFound, None;
      }
      if write.Some? {
        return InternalError, None;
      }
      partidos := Finalized(partidos, id);
      status, updated := OK, Some(partidos[id]);
    }

    /** `listarPartidos`: the requester's games, each once, newest first */
    method ListarPartidos(autorId: int) returns (list: seq<Partido>)
      requires Valid()
      ensures forall i :: 0 <= i < |list| ==>
                list[i].autorId == autorId && list[i].id in partidos && partidos[list[i].id] == list[i]
      ensures forall k :: k in partidos && partidos[k].autorId == autorId ==> partidos[k] in list
      ensures NewestFirst(list)
      ensures DistinctIds(list)
    {
      list := [];
      for id := 1 to nextId
        invariant forall x :: x in list ==>
                    x.autorId == autorId && x.id in partidos && partidos[x.id] == x && x.id < id
        invariant forall k :: k in partidos && k < id && partidos[k].autorId == autorId ==> partidos[k] in list
        invariant NewestFirst(list)
        invariant DistinctIds(list)
      {
        if id in partidos && partidos[id].autorId == autorId {
          InsertKeepsIdsDistinct(partidos[id], list);
          InsertKeepsNewestFirst(partidos[id], list);
          list := InsertNewestFirst(partidos[id], list);
        }
      }
    }
  }
}
