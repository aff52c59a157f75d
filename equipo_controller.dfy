/** The team handlers: read, create, update and delete a team, and the team
    statistics.  Each handler is a decision over the request, the team the
    store holds under the requested id, and the outcome of its write. */
module EquipoController {
  import opened Wrappers
  import opened JsValues
  import opened Http
  import opened Stats

  /** A stored team */
  datatype Equipo = Equipo(id: int, nombre: string, ciudad: Option<string>, autorId: int)

  /** The `data` of `prisma.equipo.create` */
  datatype EquipoData = EquipoData(nombre: string, ciudad: Option<string>, autorId: int)

  /** `dataToUpdate`: only the fields the body supplied */
  datatype EquipoPatch = EquipoPatch(nombre: Field<string>, ciudad: Field<Option<string>>)

  /** The team that `findUnique({ where: { id } })` returns, if the user owns it */
  predicate OwnedBy(found: Option<Equipo>, userId: int) {
    found.Some? && found.value.autorId == userId
  }

  /** The checks every handler on one team runs first, in this order:
      an invalid id is 400, an absent team 404, a team of another user 403 */
  function TeamGuard(id: JsNum, userId: int, found: Option<Equipo>): (r: Option<Status>)
    ensures r.None? <==> IsValidId(id) && OwnedBy(found, userId)
    ensures !IsValidId(id) ==> r == Some(BadRequest)
    ensures IsValidId(id) && found.None? ==> r == Some(NotFound)
    ensures IsValidId(id) && found.Some? && found.value.autorId != userId ==> r == Some(Forbidden)
  {
    if !IsValidId(id) then Some(BadRequest)
    else if found.None? then Some(NotFound)
    else if found.value.autorId != userId then Some(Forbidden)
    else None
  }

  /** `getEquipo`: the team is returned only to its owner */
  function GetEquipo(idParam: string, userId: int, found: Option<Equipo>): (r: Response<Equipo>)
    ensures TeamGuard(StringToNumber(idParam), userId, found).Some? ==>
              r == Reject(TeamGuard(StringToNumber(idParam), userId, found).value)
    ensures r.status == OK <==> IsValidId(StringToNumber(idParam)) && OwnedBy(found, userId)
    ensures r.effect.Some? ==> r.status == OK && r.effect == found
    ensures r.status == OK ==> r.effect == found
  {
    match TeamGuard(StringToNumber(idParam), userId, found)
    case Some(s) => Reject(s)
    case None => Response(OK, found)
  }

  /** `createEquipo`: a missing name, or one shorter than two characters once
      trimmed, is 400; a non-string name or city makes `.trim()` throw (500);
      otherwise the trimmed name, the city or null, and the user as author
      are written, and a duplicate name is 409 */
  function CreateEquipo(nombre: JsValue, ciudad: JsValue, userId: int, write: Option<StoreError>)
    : (r: Response<EquipoData>)
    ensures !Truthy(nombre) ==> r == Reject(BadRequest)
    ensures Truthy(nombre) && !nombre.Str? ==> r == Reject(InternalError)
    ensures nombre.Str? && Utf16Length(Trim(nombre.s)) < 2 ==> r == Reject(BadRequest)
    ensures nombre.Str? && Utf16Length(Trim(nombre.s)) >= 2 && TrimmedOrNull(ciudad).Val? ==> r.effect.Some?
    ensures r.effect.Some? ==>
              && nombre.Str? && r.effect.value.nombre == Trim(nombre.s)
              && Utf16Length(r.effect.value.nombre) >= 2
              && TrimmedOrNull(ciudad).Val? && r.effect.value.ciudad == TrimmedOrNull(ciudad).value
              && r.effect.value.autorId == userId
    ensures nombre.Str? && Utf16Length(Trim(nombre.s)) >= 2 && TrimmedOrNull(ciudad).TypeError?
            ==> r == Reject(InternalError)
    ensures r.status == Created <==> r.effect.Some? && write.None?
    ensures r.status == Conflict <==> r.effect.Some? && write == Some(P2002)
    ensures r.effect.Some? && write.Some? && write != Some(P2002) ==> r.status == InternalError
  {
    if !Truthy(nombre) then Reject(BadRequest)
    else match TrimValue(nombre)
      case TypeError => Reject(InternalError)
      case Val(name) =>
        if Utf16Length(name) < 2 then Reject(BadRequest)
        else match TrimmedOrNull(ciudad)
          case TypeError => Reject(InternalError)
          case Val(city) =>
            var data := EquipoData(name, city, userId);
            match write
            case None => Response(Created, Some(data))
            case Some(P2002) => Response(Conflict, Some(data))
            case Some(_) => Response(InternalError, Some(data))
  }

  /** A created team's name and city are already trimmed: submitting them
      again passes validation and stores the same values */
  lemma CreatedTeamIsStable(nombre: JsValue, ciudad: JsValue, userId: int)
    requires CreateEquipo(nombre, ciudad, userId, None).status == Created
    ensures var d := CreateEquipo(nombre, ciudad, userId, None).effect.value;
            var c := if d.ciudad.Some? then Str(d.ciudad.value) else Null;
            CreateEquipo(Str(d.nombre), c, userId, None) == Response(Created, Some(d))
  {
    var d := CreateEquipo(nombre, ciudad, userId, None).effect.value;
    TrimIdempotent(nombre.s);
    CreateOfTrimmed(d.nombre, d.ciudad, userId);
  }

  /** A trimmed name of two or more characters and a trimmed non-empty city,
      or none, are written as they are */
  lemma CreateOfTrimmed(name: string, city: Option<string>, userId: int)
    requires Trim(name) == name && Utf16Length(name) >= 2
    requires city.Some? ==> city.value != "" && Trim(city.value) == city.value
    ensures var c := if city.Some? then Str(city.value) else Null;
            CreateEquipo(Str(name), c, userId, None) == Response(Created, Some(EquipoData(name, city, userId)))
  {
    var c := if city.Some? then Str(city.value) else Null;
    if city.Some? {
      TrimmedOrNullOfTrimmed(city.value);
    }
    assert TrimmedOrNull(c) == Val(city);
    var r := CreateEquipo(Str(name), c, userId, None);
    assert r.effect.Some?;
    assert r.effect.value == EquipoData(name, city, userId);
  }

  /** The `nombre` entry of `dataToUpdate`: absent when the body has no
      name, otherwise `nombre.trim()`, which throws for null and non-strings */
  function NameField(nombre: JsValue): (f: Js<Field<string>>)
    ensures nombre.Undefined? ==> f == Val(Absent)
    ensures nombre.Str? ==> f == Val(Set(Trim(nombre.s)))
    ensures !nombre.Undefined? && !nombre.Str? ==> f == TypeError
  {
    if nombre.Undefined? then Val(Absent)
    else match TrimValue(nombre)
      case TypeError => TypeError
      case Val(t) => Val(Set(t))
  }

  /** The `ciudad` entry of `dataToUpdate`: absent when the body has no
      city, otherwise `ciudad?.trim() || null` */
  function CityField(ciudad: JsValue): (f: Js<Field<Option<string>>>)
    ensures ciudad.Undefined? ==> f == Val(Absent)
    ensures !ciudad.Undefined? && TrimmedOrNull(ciudad).Val? ==> f == Val(Set(TrimmedOrNull(ciudad).value))
    ensures !ciudad.Undefined? && TrimmedOrNull(ciudad).TypeError? ==> f == TypeError
  {
    if ciudad.Undefined? then Val(Absent)
    else match TrimmedOrNull(ciudad)
      case TypeError => TypeError
      case Val(c) => Val(Set(c))
  }

  /** What `updateEquipo` does once the team checks pass: 400 when the body
      has neither name nor city, then the name (a null or non-string name
      throws, 500; shorter than two characters once trimmed, 400), then the
      city; the patch holds exactly the supplied fields */
  function UpdatePatch(nombre: JsValue, ciudad: JsValue, write: Option<StoreError>)
    : (r: Response<EquipoPatch>)
    ensures nombre.Undefined? && ciudad.Undefined? ==> r == Reject(BadRequest)
    ensures !nombre.Undefined? && !nombre.Str? ==> r == Reject(InternalError)
    ensures nombre.Str? && Utf16Length(Trim(nombre.s)) < 2 ==> r == Reject(BadRequest)
    ensures r.effect.Some? ==>
              && (r.effect.value.nombre.Set? <==> !nombre.Undefined?)
              && (r.effect.value.ciudad.Set? <==> !ciudad.Undefined?)
              && (r.effect.value.nombre.Set? ==>
                    r.effect.value.nombre.value == Trim(nombre.s)
                    && Utf16Length(r.effect.value.nombre.value) >= 2)
              && (r.effect.value.ciudad.Set? ==> TrimmedOrNull(ciudad).Val? && r.effect.value.ciudad == Set(TrimmedOrNull(ciudad).value))
    ensures (!nombre.Undefined? || !ciudad.Undefined?)
            && (nombre.Undefined? || (nombre.Str? && Utf16Length(Trim(nombre.s)) >= 2))
            && (IsNullish(ciudad) || ciudad.Str?)
            ==> r.effect.Some?
    ensures (!nombre.Undefined? || !ciudad.Undefined?)
            && (nombre.Undefined? || (nombre.Str? && Utf16Length(Trim(nombre.s)) >= 2))
            && !ciudad.Undefined? && TrimmedOrNull(ciudad).TypeError?
            ==> r == Reject(InternalError)
    ensures r.status == OK <==> r.effect.Some? && write.None?
    ensures r.status == Conflict <==> r.effect.Some? && write == Some(P2002)
    ensures r.status == NotFound <==> r.effect.Some? && write == Some(P2025)
    ensures r.effect.Some? && write.Some? && write != Some(P2002) && write != Some(P2025)
            ==> r.status == InternalError
  {
    if nombre.Undefined? && ciudad.Undefined? then Reject(BadRequest)
    else
      var name := NameField(nombre);
      if name.TypeError? then Reject(InternalError)
      else if name.value.Set? && Utf16Length(name.value.value) < 2 then Reject(BadRequest)
      else
        var city := CityField(ciudad);
        if city.TypeError? then Reject(InternalError)
        else
          var patch := EquipoPatch(name.value, city.value);
          match write
          case None => Response(OK, Some(patch))
          case Some(P2002) => Response(Conflict, Some(patch))
          case Some(P2025) => Response(NotFound, Some(patch))
          case Some(_) => Response(InternalError, Some(patch))
  }

  /** `updateEquipo`: the team checks, then the patch; nothing is written to
      a team the user does not own */
  function UpdateEquipo(idParam: string, nombre: JsValue, ciudad: JsValue, userId: int,
                        found: Option<Equipo>, write: Option<StoreError>)
    : (r: Response<EquipoPatch>)
    ensures TeamGuard(StringToNumber(idParam), userId, found).Some? ==>
              r == Reject(TeamGuard(StringToNumber(idParam), userId, found).value)
    ensures TeamGuard(StringToNumber(idParam), userId, found).None? ==>
              r == UpdatePatch(nombre, ciudad, write)
    ensures r.effect.Some? ==> IsValidId(StringToNumber(idParam)) && OwnedBy(found, userId)
  {
    match TeamGuard(StringToNumber(idParam), userId, found)
    case Some(s) => Reject(s)
    case None => UpdatePatch(nombre, ciudad, write)
  }

  /** `deleteEquipo`: the team checks, then the delete; a team that vanished
      meanwhile is 404 and one that still has pitchers is 409 */
  function DeleteEquipo(idParam: string, userId: int, found: Option<Equipo>, write: Option<StoreError>)
    : (r: Response<int>)
    ensures TeamGuard(StringToNumber(idParam), userId, found).Some? ==>
              r == Reject(TeamGuard(StringToNumber(idParam), userId, found).value)
    ensures TeamGuard(StringToNumber(idParam), userId, found).None? ==> r.effect.Some?
    ensures r.effect.Some? ==> OwnedBy(found, userId) && FromInt(r.effect.value) == StringToNumber(idParam)
    ensures r.status == NoContent <==> r.effect.Some? && write.None?
    ensures r.effect.Some? ==> (r.status == NotFound <==> write == Some(P2025))
    ensures r.status == Conflict <==> r.effect.Some? && (write == Some(P2003) || write == Some(P2014))
    ensures r.effect.Some? && write.Some? && write != Some(P2025) && write != Some(P2003) && write != Some(P2014)
            ==> r.status == InternalError
  {
    var id := StringToNumber(idParam);
    match TeamGuard(id, userId, found)
    case Some(s) => Reject(s)
    case None =>
      var target := AsInt(id);
      match write
      case None => Response(NoContent, Some(target))
      case Some(P2025) => Response(NotFound, Some(target))
      case Some(P2014) => Response(Conflict, Some(target))
      case Some(P2003) => Response(Conflict, Some(target))
      case Some(_) => Response(InternalError, Some(target))
  }

  /** `{ total, avgVel, zoneCounts, byResultado }` as `getEquipoStats`
      computes it: the average only when it is a number; the result names
      from the lookup by the non-null ids */
  function ControllerScopeStats(q: ScopeQueries): ScopeStats {
    ScopeStats(q.total, NumberOrNull(q.avg), ZoneHistogram(q.byZone), ResultCounts(q.byResId, IndexBy(q.resultados)))
  }

  /** `getEquipoStats`: statistics are computed only for a team its owner
      asks about, after the same checks as the other team handlers */
  method GetEquipoStats(idParam: string, userId: int, found: Option<Equipo>, q: ScopeQueries,
                        perPitcher: seq<PitcherGroup>, pitchers: seq<(int, PitcherName)>)
    returns (r: Response<TeamStats>)
    ensures TeamGuard(StringToNumber(idParam), userId, found).Some? ==>
              r == Reject(TeamGuard(StringToNumber(idParam), userId, found).value)
    ensures TeamGuard(StringToNumber(idParam), userId, found).None? ==>
              r == Response(OK, Some(TeamStats(ControllerScopeStats(q), Summaries(perPitcher, IndexBy(pitchers)))))
    ensures r.effect.Some? ==> OwnedBy(found, userId)
  {
    var guard := TeamGuard(StringToNumber(idParam), userId, found);
    if guard.Some? {
      return Reject(guard.value);
    }
    var zoneCounts, byResultado := ScopeCounts(q.byZone, q.byResId, q.resultados);
    var avgVel := NumberOrNull(q.avg);
    var summary := SummarizePitchers(perPitcher, pitchers);
    r := Response(OK, Some(TeamStats(ScopeStats(q.total, avgVel, zoneCounts, byResultado), summary)));
  }
}
