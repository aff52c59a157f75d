/** The pitch handlers: list the pitches of a game, record a pitch, update
    and delete one.  A pitch belongs to a user through its game.  Its
    position is either explicit coordinates or a zone of the 5x5 grid. */
module LanzamientoController {
  import opened Wrappers
  import opened JsValues
  import opened Http
  import opened Zones
  import opened PartidoController

  /** A stored pitch with the author of its game */
  datatype Lanzamiento = Lanzamiento(id: int, partidoId: int, partidoAutorId: int)

  /** The body fields the pitch handlers read */
  datatype PitchBody = PitchBody(
    tipoId: JsValue, resultadoId: JsValue, velocidad: JsValue, comentario: JsValue, zona: JsValue,
    x: JsValue, y: JsValue, inning: JsValue, ladoInning: JsValue, pitcherId: JsValue)

  /** The `data` of `prisma.lanzamiento.create`; `velocidad` None is null */
  datatype PitchData = PitchData(
    tipoId: JsNum, resultadoId: JsNum, velocidad: Option<JsNum>, comentario: Option<string>,
    coords: Coords, inning: JsNum, ladoInning: JsValue, pitcherId: JsNum, partidoId: int)

  /** The `data` of `prisma.lanzamiento.update`, one conditional spread per
      field; `velocidad` is always present, None being null */
  datatype PitchPatch = PitchPatch(
    tipoId: Field<JsNum>, resultadoId: Field<JsNum>, velocidad: Option<JsNum>,
    comentario: Field<Option<string>>, coords: Field<Coords>, inning: Field<JsNum>,
    ladoInning: Field<JsValue>, pitcherId: Field<JsNum>)

  /** The game `findFirst({ where: { id, autorId } })` returns, given the
      game stored under the requested id */
  predicate GameOwned(game: Option<Partido>, autorId: int) {
    game.Some? && game.value.autorId == autorId
  }

  /** `listarPorPartido`: a NaN game id is 400, a game that is absent or of
      another user 404; otherwise the game's pitches as the store orders
      them */
  function ListarPorPartido(partidoParam: string, autorId: int, game: Option<Partido>, pitches: seq<PitchData>)
    : (r: Response<seq<PitchData>>)
    ensures PathIdCheck(partidoParam).Some? ==> r == Reject(PathIdCheck(partidoParam).value)
    ensures PathIdCheck(partidoParam).None? && !GameOwned(game, autorId) ==> r == Reject(NotFound)
    ensures r.status == OK <==> PathIdCheck(partidoParam).None? && GameOwned(game, autorId)
    ensures r.effect.Some? ==> r.status == OK && r.effect.value == pitches
    ensures r.status == OK ==> r.effect == Some(pitches)
  {
    match PathIdCheck(partidoParam)
    case Some(s) => Reject(s)
    case None => if !GameOwned(game, autorId) then Reject(NotFound) else Response(OK, Some(pitches))
  }

  /** The coordinates `crear` stores: `Number(x)` and `Number(y)` as given,
      unclamped, unless either is NaN, in which case those of the zone */
  function CrearCoords(x: JsValue, y: JsValue, zona: JsValue): (c: Coords)
    ensures ToNumber(x).Finite? && ToNumber(y).Finite? ==> c == Coords(ToNumber(x), ToNumber(y))
    ensures ToNumber(x).NaN? || ToNumber(y).NaN? ==> c == ZonaToXY(zona)
  {
    var coords := Coords(ToNumber(x), ToNumber(y));
    if coords.x.NaN? || coords.y.NaN? then ZonaToXY(zona) else coords
  }

  /** A body without coordinates falls back on the zone; `null` counts as
      the coordinate 0, so a body with `x: null, y: null` is stored at the
      corner cell whatever its zone */
  lemma CoordsFallBackOnZone(zona: JsValue)
    ensures CrearCoords(Undefined, Undefined, zona) == ZonaToXY(zona)
    ensures CrearCoords(Null, Null, zona) == CellOf(0)
  {
    assert (0 as real).Floor == 0;
  }

  /** Explicit coordinates are not clamped: a position off the grid is
      stored as given and is counted in no zone */
  lemma ExplicitOffGridIsNeverBucketed(x: int, y: int, zona: JsValue)
    requires !(0 <= x < 5 && 0 <= y < 5)
    ensures CrearCoords(Number(FromInt(x)), Number(FromInt(y)), zona) == Coords(FromInt(x), FromInt(y))
    ensures ZoneIndex(CrearCoords(Number(FromInt(x)), Number(FromInt(y)), zona)).None?
  {
  }

  predicate RequiredPitchFields(b: PitchBody) {
    Truthy(b.tipoId) && Truthy(b.resultadoId) && Truthy(b.pitcherId) && Truthy(b.inning) && Truthy(b.ladoInning)
  }

  /** `velocidad != null ? Number(velocidad) : null` */
  function Velocidad(v: JsValue): (r: Option<JsNum>)
    ensures r.None? <==> IsNullish(v)
    ensures r.Some? ==> r.value == ToNumber(v)
  {
    if IsNullish(v) then None else Some(ToNumber(v))
  }

  /** `crear`: a NaN game id is 400, a game that is absent or of another
      user 404, a missing required field 400; a comment that is not a string
      throws (500); a foreign key to no type, result or pitcher is 400 */
  function Crear(partidoParam: string, autorId: int, game: Option<Partido>, b: PitchBody, write: Option<StoreError>)
    : (r: Response<PitchData>)
    ensures PathIdCheck(partidoParam).Some? ==> r == Reject(PathIdCheck(partidoParam).value)
    ensures PathIdCheck(partidoParam).None? && !GameOwned(game, autorId) ==> r == Reject(NotFound)
    ensures (PathIdCheck(partidoParam).None? && GameOwned(game, autorId) && !RequiredPitchFields(b))
            ==> r == Reject(BadRequest)
    ensures r.effect.Some? ==>
              && PathIdCheck(partidoParam).None? && GameOwned(game, autorId) && RequiredPitchFields(b)
              && FromInt(r.effect.value.partidoId) == StringToNumber(partidoParam)
              && r.effect.value.coords == CrearCoords(b.x, b.y, b.zona)
              && r.effect.value.velocidad == Velocidad(b.velocidad)
              && TrimmedOrNull(b.comentario) == Val(r.effect.value.comentario)
              && r.effect.value.tipoId == ToNumber(b.tipoId)
              && r.effect.value.resultadoId == ToNumber(b.resultadoId)
              && r.effect.value.inning == ToNumber(b.inning)
              && r.effect.value.ladoInning == b.ladoInning
              && r.effect.value.pitcherId == ToNumber(b.pitcherId)
    ensures (PathIdCheck(partidoParam).None? && GameOwned(game, autorId) && RequiredPitchFields(b)) ==>
              (if TrimmedOrNull(b.comentario).Val? then r.effect.Some? else r == Reject(InternalError))
    ensures r.status == Created <==> r.effect.Some? && write.None?
    ensures r.effect.Some? && write.Some? && write != Some(P2003) ==> r.status == InternalError
    ensures r.status == BadRequest && r.effect.Some? <==> r.effect.Some? && write == Some(P2003)
  {
    match PathIdCheck(partidoParam)
    case Some(s) => Reject(s)
    case None =>
      if !GameOwned(game, autorId) then Reject(NotFound)
      else if !RequiredPitchFields(b) then Reject(BadRequest)
      else match TrimmedOrNull(b.comentario)
        case TypeError => Reject(InternalError)
        case Val(comentario) =>
          var data := PitchData(
            ToNumber(b.tipoId), ToNumber(b.resultadoId), Velocidad(b.velocidad), comentario,
            CrearCoords(b.x, b.y, b.zona), ToNumber(b.inning), b.ladoInning, ToNumber(b.pitcherId),
            AsInt(StringToNumber(partidoParam)));
          match write
          case None => Response(Created, Some(data))
          case Some(P2003) => Response(BadRequest, Some(data))
          case Some(_) => Response(InternalError, Some(data))
  }

  /** The checks `actualizar` and `eliminar` run first: a NaN id is 400, an
      absent pitch 404, a pitch of another user's game 403 */
  function PitchGuard(idParam: string, autorId: int, found: Option<Lanzamiento>): (r: Option<Status>)
    ensures r.None? <==>
              PathIdCheck(idParam).None? && found.Some? && found.value.partidoAutorId == autorId
    ensures PathIdCheck(idParam).Some? ==> r == PathIdCheck(idParam)
    ensures PathIdCheck(idParam).None? && found.None? ==> r == Some(NotFound)
    ensures PathIdCheck(idParam).None? && found.Some? && found.value.partidoAutorId != autorId
            ==> r == Some(Forbidden)
  {
    if PathIdCheck(idParam).Some? then PathIdCheck(idParam)
    else if found.None? then Some(NotFound)
    else if found.value.partidoAutorId != autorId then Some(Forbidden)
    else None
  }

  /** The coordinates `actualizar` writes: explicit `x` and `y` when both
      are given, else those of a given zone, else none */
  function ActualizarCoords(x: JsValue, y: JsValue, zona: JsValue): (c: Option<Coords>)
    ensures !IsNullish(x) && !IsNullish(y) ==> c == Some(Coords(ToNumber(x), ToNumber(y)))
    ensures (IsNullish(x) || IsNullish(y)) && !IsNullish(zona) ==> c == Some(ZonaToXY(zona))
    ensures c.None? <==> (IsNullish(x) || IsNullish(y)) && IsNullish(zona)
  {
    if !IsNullish(x) && !IsNullish(y) then Some(Coords(ToNumber(x), ToNumber(y)))
    else if !IsNullish(zona) then Some(ZonaToXY(zona))
    else None
  }

  /** `...(v != null ? { f: Number(v) } : {})` */
  function NumberIfGiven(v: JsValue): (f: Field<JsNum>)
    ensures f.Set? <==> !IsNullish(v)
    ensures f.Set? ==> f.value == ToNumber(v)
  {
    if IsNullish(v) then Absent else Set(ToNumber(v))
  }

  /** The update data of `actualizar`: each field only when given (not
      nullish; the comment when not undefined), except `velocidad`, which is
      null when not given */
  function PitchPatchOf(b: PitchBody): (p: Js<PitchPatch>)
    ensures p.TypeError? <==> !b.comentario.Undefined? && TrimmedOrNull(b.comentario).TypeError?
    ensures p.Val? ==>
              && p.value.tipoId == NumberIfGiven(b.tipoId)
              && p.value.resultadoId == NumberIfGiven(b.resultadoId)
              && p.value.velocidad == Velocidad(b.velocidad)
              && (p.value.comentario.Set? <==> !b.comentario.Undefined?)
              && (p.value.comentario.Set? ==> Val(p.value.comentario.value) == TrimmedOrNull(b.comentario))
              && (p.value.coords.Set? <==> ActualizarCoords(b.x, b.y, b.zona).Some?)
              && (p.value.coords.Set? ==> p.value.coords.value == ActualizarCoords(b.x, b.y, b.zona).value)
              && p.value.inning == NumberIfGiven(b.inning)
              && (p.value.ladoInning.Set? <==> !IsNullish(b.ladoInning))
              && (p.value.ladoInning.Set? ==> p.value.ladoInning.value == b.ladoInning)
              && p.value.pitcherId == NumberIfGiven(b.pitcherId)
  {
    var comentario: Js<Field<Option<string>>> :=
      if b.comentario.Undefined? then Val(Absent)
      else match TrimmedOrNull(b.comentario)
        case TypeError => TypeError
        case Val(c) => Val(Set(c));
    if comentario.TypeError? then TypeError
    else
      var coords := ActualizarCoords(b.x, b.y, b.zona);
      Val(PitchPatch(
        NumberIfGiven(b.tipoId), NumberIfGiven(b.resultadoId), Velocidad(b.velocidad), comentario.value,
        if coords.Some? then Set(coords.value) else Absent,
        NumberIfGiven(b.inning),
        if IsNullish(b.ladoInning) then Absent else Set(b.ladoInning),
        NumberIfGiven(b.pitcherId)))
  }

  /** An update body that leaves out `velocidad` erases the stored speed,
      while every other field left out keeps its stored value */
  lemma OmittedVelocidadIsCleared(b: PitchBody)
    requires b == PitchBody(Undefined, Undefined, Undefined, Undefined, Undefined,
                            Undefined, Undefined, Undefined, Undefined, Undefined)
    ensures PitchPatchOf(b) == Val(PitchPatch(Absent, Absent, None, Absent, Absent, Absent, Absent, Absent))
  {
  }

  /** `actualizar`: the pitch checks, then the update data */
  function Actualizar(idParam: string, autorId: int, found: Option<Lanzamiento>, b: PitchBody, write: Option<StoreError>)
    : (r: Response<PitchPatch>)
    ensures PitchGuard(idParam, autorId, found).Some? ==> r == Reject(PitchGuard(idParam, autorId, found).value)
    ensures r.effect.Some? ==>
              && found.Some? && found.value.partidoAutorId == autorId
              && PitchPatchOf(b) == Val(r.effect.value)
    ensures PitchGuard(idParam, autorId, found).None? ==>
              (if PitchPatchOf(b).Val? then r.effect.Some? else r == Reject(InternalError))
    ensures r.status == OK <==> r.effect.Some? && write.None?
    ensures r.effect.Some? && write.Some? ==> r.status == InternalError
  {
    match PitchGuard(idParam, autorId, found)
    case Some(s) => Reject(s)
    case None =>
      match PitchPatchOf(b)
      case TypeError => Reject(InternalError)
      case Val(patch) => Response(if write.None? then OK else InternalError, Some(patch))
  }

  /** `eliminar`: the pitch checks, then the delete */
  function Eliminar(idParam: string, autorId: int, found: Option<Lanzamiento>, write: Option<StoreError>)
    : (r: Response<int>)
    ensures PitchGuard(idParam, autorId, found).Some? ==> r == Reject(PitchGuard(idParam, autorId, found).value)
    ensures r.effect.Some? ==>
              found.Some? && found.value.partidoAutorId == autorId
              && FromInt(r.effect.value) == StringToNumber(idParam)
    ensures PitchGuard(idParam, autorId, found).None? ==> r.effect.Some?
    ensures r.status == NoContent <==> r.effect.Some? && write.None?
    ensures r.effect.Some? && write.Some? ==> r.status == InternalError
  {
    match PitchGuard(idParam, autorId, found)
    case Some(s) => Reject(s)
    case None =>
      var target := AsInt(StringToNumber(idParam));
      Response(if write.None? then NoContent else InternalError, Some(target))
  }

  /** `actualizar` and `eliminar` refuse exactly the same requests, with the
      same status */
  lemma UpdateAndDeleteShareGuards(idParam: string, autorId: int, found: Option<Lanzamiento>, b: PitchBody,
                                   write: Option<StoreError>)
    ensures Eliminar(idParam, autorId, found, write).effect.None? <==> PitchGuard(idParam, autorId, found).Some?
    ensures PitchGuard(idParam, autorId, found).Some? ==>
              Actualizar(idParam, autorId, found, b, write).status == Eliminar(idParam, autorId, found, write).status
              && Actualizar(idParam, autorId, found, b, write).effect.None?
  {
  }
}
