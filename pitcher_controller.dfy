/** The pitcher handlers: read, create, update and delete a pitcher.  A
    pitcher belongs to a user through its team, and a pitcher the user does
    not own is answered exactly as an absent one. */
module PitcherController {
  import opened Wrappers
  import opened JsValues
  import opened Http
  import opened EquipoController

  /** A stored pitcher with the author of its team */
  datatype Pitcher = Pitcher(id: int, equipoId: int, equipoAutorId: int)

  /** The body fields the pitcher handlers read */
  datatype PitcherBody = PitcherBody(
    nombre: JsValue, apellido: JsValue, edad: JsValue, numeroCamiseta: JsValue, equipoId: JsValue)

  /** The `data` of `prisma.pitcher.create`; `None` is `undefined`, a column
      left unset */
  datatype PitcherData = PitcherData(
    nombre: string, apellido: string, edad: Option<JsNum>, numeroCamiseta: Option<JsNum>, equipoId: int)

  /** The `data` of `prisma.pitcher.update`, built one supplied field at a
      time; `Set(None)` is a key holding `undefined` */
  datatype PitcherPatch = PitcherPatch(
    nombre: Field<Option<string>>, apellido: Field<Option<string>>,
    edad: Field<Option<JsNum>>, numeroCamiseta: Field<Option<JsNum>>, equipoId: Field<JsNum>)

  /** `num(v)`: `undefined` for undefined, null and the empty string,
      `Number(v)` for anything else */
  function Num(v: JsValue): (r: Option<JsNum>)
    ensures r.None? <==> v.Undefined? || v.Null? || v == Str("")
    ensures r.Some? ==> r.value == ToNumber(v)
  {
    if v.Undefined? || v.Null? || v == Str("") then None else Some(ToNumber(v))
  }

  /** `isValidId` applied to the result of `num` */
  predicate IsValidNumId(id: Option<JsNum>) {
    id.Some? && IsValidId(id.value)
  }

  /** `num` changes no id check: the values it maps to `undefined` are the
      ones `Number` maps to NaN or zero, which are neither valid ids nor
      truthy; it matters only for the value a column is given */
  lemma NumKeepsIdChecks(v: JsValue)
    ensures IsValidNumId(Num(v)) <==> IsValidId(ToNumber(v))
    ensures (Num(v).Some? && NumTruthy(Num(v).value)) <==> NumTruthy(ToNumber(v))
    ensures Num(v).None? ==> !NumTruthy(ToNumber(v))
  {
    if v == Str("") {
      assert Trim("") == "";
    }
  }

  /** `findFirst({ where: { id, equipo: { autorId: userId } } })`: the pitcher
      with the requested id, only when the user owns its team */
  function OwnedPitcher(found: Option<Pitcher>, userId: int): (r: Option<Pitcher>)
    ensures r.Some? <==> found.Some? && found.value.equipoAutorId == userId
    ensures r.Some? ==> r == found
  {
    if found.Some? && found.value.equipoAutorId == userId then found else None
  }

  /** `getPitcher`: an invalid id is 400; a pitcher that is absent or on a
      team of another user is 404 */
  function GetPitcher(idParam: string, userId: int, found: Option<Pitcher>): (r: Response<Pitcher>)
    ensures !IsValidNumId(Num(Str(idParam))) ==> r == Reject(BadRequest)
    ensures IsValidNumId(Num(Str(idParam))) && OwnedPitcher(found, userId).None? ==> r == Reject(NotFound)
    ensures r.status == OK <==> IsValidNumId(Num(Str(idParam))) && OwnedPitcher(found, userId).Some?
    ensures r.effect.Some? ==> r.status == OK && r.effect == found
    ensures r.status == OK ==> r.effect == found
  {
    if !IsValidNumId(Num(Str(idParam))) then Reject(BadRequest)
    else match OwnedPitcher(found, userId)
      case None => Reject(NotFound)
      case Some(p) => Response(OK, Some(p))
  }

  /** Another user's pitcher and a missing one get the same answer */
  lemma GetPitcherHidesOwnership(idParam: string, userId: int, foreign: Pitcher)
    requires foreign.equipoAutorId != userId
    ensures GetPitcher(idParam, userId, Some(foreign)) == GetPitcher(idParam, userId, None)
  {
  }

  /** `createPitcher`: missing names are 400, then an invalid team id 400,
      then a team the user does not own 403; a name that is not a string
      makes `.trim()` throw (500); the trimmed names are written */
  function CreatePitcher(body: PitcherBody, userId: int, team: Option<Equipo>, write: Option<StoreError>)
    : (r: Response<PitcherData>)
    ensures !Truthy(body.nombre) || !Truthy(body.apellido) ==> r == Reject(BadRequest)
    ensures Truthy(body.nombre) && Truthy(body.apellido) && !IsValidNumId(Num(body.equipoId))
            ==> r == Reject(BadRequest)
    ensures (Truthy(body.nombre) && Truthy(body.apellido) && IsValidNumId(Num(body.equipoId))
             && !OwnedBy(team, userId)) ==> r == Reject(Forbidden)
    ensures r.effect.Some? ==>
              && OwnedBy(team, userId)
              && body.nombre.Str? && body.apellido.Str?
              && r.effect.value.nombre == Trim(body.nombre.s)
              && r.effect.value.apellido == Trim(body.apellido.s)
              && r.effect.value.edad == Num(body.edad)
              && r.effect.value.numeroCamiseta == Num(body.numeroCamiseta)
              && IsValidNumId(Num(body.equipoId))
              && FromInt(r.effect.value.equipoId) == Num(body.equipoId).value
    ensures (Truthy(body.nombre) && Truthy(body.apellido) && IsValidNumId(Num(body.equipoId))
             && OwnedBy(team, userId)) ==>
              (if body.nombre.Str? && body.apellido.Str? then r.effect.Some? else r == Reject(InternalError))
    ensures r.status == Created <==> r.effect.Some? && write.None?
    ensures r.effect.Some? && write.Some? ==> r.status == InternalError
  {
    if !Truthy(body.nombre) || !Truthy(body.apellido) then Reject(BadRequest)
    else
      var teamId := Num(body.equipoId);
      if !IsValidNumId(teamId) then Reject(BadRequest)
      else if !OwnedBy(team, userId) then Reject(Forbidden)
      else if !body.nombre.Str? || !body.apellido.Str? then Reject(InternalError)
      else
        var data := PitcherData(Trim(body.nombre.s), Trim(body.apellido.s),
                                Num(body.edad), Num(body.numeroCamiseta), AsInt(teamId.value));
        Response(if write.None? then Created else InternalError, Some(data))
  }

  /** The update moves the pitcher to another team: `nuevoEquipoId` is
      truthy and differs from the current team */
  predicate MovesTeam(nuevo: Option<JsNum>, current: Pitcher) {
    nuevo.Some? && NumTruthy(nuevo.value) && nuevo.value != FromInt(current.equipoId)
  }

  /** A field of `data` set when the body supplied it */
  function Supplied<T>(v: JsValue, value: T): (f: Field<T>)
    ensures f.Set? <==> !v.Undefined?
    ensures f.Set? ==> f.value == value
  {
    if v.Undefined? then Absent else Set(value)
  }

  /** `data` of `updatePitcher`: each field the body supplied; the names
      through `?.trim()`, which throws for a non-string */
  function PitcherPatchOf(body: PitcherBody): (p: Js<PitcherPatch>)
    ensures p.TypeError? <==>
              (!body.nombre.Undefined? && OptionalTrim(body.nombre).TypeError?)
              || (!body.apellido.Undefined? && OptionalTrim(body.apellido).TypeError?)
    ensures p.Val? ==>
              && (p.value.nombre.Set? <==> !body.nombre.Undefined?)
              && (p.value.nombre.Set? ==> p.value.nombre.value == OptionalTrim(body.nombre).value)
              && (p.value.apellido.Set? <==> !body.apellido.Undefined?)
              && (p.value.apellido.Set? ==> p.value.apellido.value == OptionalTrim(body.apellido).value)
              && p.value.edad == Supplied(body.edad, Num(body.edad))
              && p.value.numeroCamiseta == Supplied(body.numeroCamiseta, Num(body.numeroCamiseta))
              && (p.value.equipoId.Set? <==> Num(body.equipoId).Some?)
              && (p.value.equipoId.Set? ==> p.value.equipoId.value == Num(body.equipoId).value)
  {
    var nombre: Js<Field<Option<string>>> :=
      if body.nombre.Undefined? then Val(Absent)
      else match OptionalTrim(body.nombre)
        case TypeError => TypeError
        case Val(t) => Val(Set(t));
    var apellido: Js<Field<Option<string>>> :=
      if body.apellido.Undefined? then Val(Absent)
      else match OptionalTrim(body.apellido)
        case TypeError => TypeError
        case Val(t) => Val(Set(t));
    if nombre.TypeError? || apellido.TypeError? then TypeError
    else
      var nuevo := Num(body.equipoId);
      Val(PitcherPatch(nombre.value, apellido.value,
                       Supplied(body.edad, Num(body.edad)),
                       Supplied(body.numeroCamiseta, Num(body.numeroCamiseta)),
                       if nuevo.Some? then Set(nuevo.value) else Absent))
  }

  /** `updatePitcher`: an invalid id is 400; a pitcher the user does not own,
      or a move to a team the user does not own, is 403; then the patch */
  function UpdatePitcher(idParam: string, body: PitcherBody, userId: int, found: Option<Pitcher>,
                         newTeam: Option<Equipo>, write: Option<StoreError>)
    : (r: Response<PitcherPatch>)
    ensures !IsValidNumId(Num(Str(idParam))) ==> r == Reject(BadRequest)
    ensures IsValidNumId(Num(Str(idParam))) && OwnedPitcher(found, userId).None? ==> r == Reject(Forbidden)
    ensures (IsValidNumId(Num(Str(idParam))) && OwnedPitcher(found, userId).Some?
             && MovesTeam(Num(body.equipoId), found.value) && !OwnedBy(newTeam, userId))
            ==> r == Reject(Forbidden)
    ensures r.effect.Some? ==>
              && OwnedPitcher(found, userId).Some?
              && (MovesTeam(Num(body.equipoId), found.value) ==> OwnedBy(newTeam, userId))
              && PitcherPatchOf(body) == Val(r.effect.value)
    ensures (IsValidNumId(Num(Str(idParam))) && OwnedPitcher(found, userId).Some?
             && (MovesTeam(Num(body.equipoId), found.value) ==> OwnedBy(newTeam, userId))) ==>
              (if PitcherPatchOf(body).Val? then r.effect.Some? else r == Reject(InternalError))
    ensures r.status == OK <==> r.effect.Some? && write.None?
    ensures r.effect.Some? && write.Some? ==> r.status == InternalError
  {
    if !IsValidNumId(Num(Str(idParam))) then Reject(BadRequest)
    else match OwnedPitcher(found, userId)
      case None => Reject(Forbidden)
      case Some(current) =>
        if MovesTeam(Num(body.equipoId), current) && !OwnedBy(newTeam, userId) then Reject(Forbidden)
        else match PitcherPatchOf(body)
          case TypeError => Reject(InternalError)
          case Val(patch) => Response(if write.None? then OK else InternalError, Some(patch))
  }

  /** A zero, NaN or empty team id skips the ownership check of the new team,
      and only a non-empty one reaches the patch */
  lemma FalsyTeamIdIsNotAMove(v: JsValue, current: Pitcher)
    requires !NumTruthy(ToNumber(v))
    ensures !MovesTeam(Num(v), current)
  {
  }

  /** `deletePitcher`: an invalid id is 400; a pitcher the user does not own,
      absent or not, is 403; a pitcher still referenced by pitches is 409 */
  function DeletePitcher(idParam: string, userId: int, found: Option<Pitcher>, write: Option<StoreError>)
    : (r: Response<int>)
    ensures !IsValidNumId(Num(Str(idParam))) ==> r == Reject(BadRequest)
    ensures IsValidNumId(Num(Str(idParam))) && OwnedPitcher(found, userId).None? ==> r == Reject(Forbidden)
    ensures r.effect.Some? ==>
              OwnedPitcher(found, userId).Some? && Some(FromInt(r.effect.value)) == Num(Str(idParam))
    ensures IsValidNumId(Num(Str(idParam))) && OwnedPitcher(found, userId).Some? ==> r.effect.Some?
    ensures r.status == NoContent <==> r.effect.Some? && write.None?
    ensures r.status == Conflict <==> r.effect.Some? && (write == Some(P2003) || write == Some(P2014))
    ensures r.effect.Some? && write.Some? && write != Some(P2003) && write != Some(P2014)
            ==> r.status == InternalError
  {
    var id := Num(Str(idParam));
    if !IsValidNumId(id) then Reject(BadRequest)
    else if OwnedPitcher(found, userId).None? then Reject(Forbidden)
    else
      var target := AsInt(id.value);
      match write
      case None => Response(NoContent, Some(target))
      case Some(P2003) => Response(Conflict, Some(target))
      case Some(P2014) => Response(Conflict, Some(target))
      case Some(_) => Response(InternalError, Some(target))
  }
}
