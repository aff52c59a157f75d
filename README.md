# scout-backend in Dafny

A model of the request-handling core of scout-backend, a baseball scouting
API. Users own teams (equipos). Teams have pitchers. Users own games
(partidos), and a game's recorded pitches (lanzamientos) belong to its
author. The model covers:

- the guards each handler runs before it reads or writes: id validity, then
  existence, then ownership, then required fields;
- the records the handlers build for the store's create and update calls;
- the lifecycle of a game: PROGRAMADO on creation, FINALIZADO once
  finalised;
- the mapping from a strike zone number to grid coordinates;
- the post-processing of the statistics queries: the 25-cell zone
  histogram, the tally by pitch result, and the per-pitcher summary;
- the registration and login validators.

The database is not modelled. Whatever a query returns is an input to the
model: the record found under an id (`Option`), the grouped rows (`seq`),
and the outcome of a write (`Option<StoreError>`, where `None` is success
and the error codes are P2002, P2003, P2014, P2025 or another). A handler is
a function from the request and those inputs to a `Response(status,
effect)`. `effect` is the write or payload the handler issued, and it is
`None` when a guard answered first.

JavaScript values are modelled as the datatype `JsValue`. `Number(...)`
gives `JsNum`, which is NaN or an exact real. Truthiness, `== null`,
`.trim()` and `.length` are modelled as well; `.length` counts UTF-16 code
units. A call that throws (`.trim()` on a non-string) becomes `TypeError`
and then the handler's 500.

Modules, one file each:

- `Wrappers`: `Option`, and `Field` for an object key that is absent or set.
- `JsValues`: values, coercions, trim, decimal parsing and printing of ids.
- `Http`: statuses, store error codes and `Response`.
- `Zones`: `zonaToXY` and the zone index of a coordinate pair.
- `Stats`: the shared statistics post-processing. The histogram and tally
  loops are methods proved against fold functions.
- `EquipoController`: the team handlers and `getEquipoStats`.
- `TmpTestStats`: the aggregation script and how it relates to the handler.
- `PitcherController`: the pitcher handlers.
- `PartidoController`: the game decisions and `PartidoStore`, a class whose
  map of games the create and finalise methods update.
- `LanzamientoController`: the pitch handlers.
- `Validators`: `validateRegister`, `validateLogin` and the email regex.

## Model

| member | source | states |
|---|---|---|
| JsValues.Trim | controllers/equipoController.js:69 | `.trim()` drops only white space, from both ends, and leaves no white space at either end |
| JsValues.TrimIdempotent | controllers/equipoController.js:75 | trimming a trimmed name changes nothing |
| JsValues.Utf16Length | controllers/equipoController.js:69 | `.length` is at least the number of characters and at most twice it |
| JsValues.IntToStringRoundTrip | controllers/equipoController.js:216 | `Number(String(i)) == i` for every integer id |
| JsValues.IntToStringInjective | controllers/equipoController.js:216 | distinct ids print to distinct keys |
| JsValues.ValidIdsArePositiveIntegers | controllers/equipoController.js:8-10 | `isValidId` holds exactly of the positive integers |
| JsValues.PrintedIdIsValid | controllers/equipoController.js:35-40 | the path segment printed from k is a valid id exactly when k > 0 |
| JsValues.TrimmedOrNull | controllers/equipoController.js:76 | `v?.trim() \|\| null` throws exactly for a value that is neither a string nor nullish; it is null exactly for null, undefined or a string that trims to empty; otherwise it is `Trim` of the string, which is non-empty and already trimmed |
| Zones.ZonaToXY | controllers/lanzamientoController.js:6-12 | the row is an integer in [0,4], the column is in [0,5), and row*5 + column is the clamped zone |
| Zones.ClampedZone | controllers/lanzamientoController.js:8 | the clamped zone lies in [0,24] |
| Zones.ZonaRoundTrip | controllers/lanzamientoController.js:6-12 | an integer zone in [0,24] maps to column zona % 5 and row zona / 5, and is counted in histogram bucket zona |
| Zones.ZonaClamps | controllers/lanzamientoController.js:8 | a zone below 0 gives (0,0), one above 24 gives (4,4), and a missing, zero or non-numeric zone gives (0,0) |
| Zones.ZoneIndex | controllers/equipoController.js:197-200 | only integer coordinates inside the grid have a bucket, and it is below 25 |
| Zones.ZoneIndexBijection | controllers/equipoController.js:199-200 | buckets and grid cells correspond one to one |
| Zones.ZoneIndexInjective | controllers/equipoController.js:200 | two cells with the same bucket are the same cell |
| Zones.FractionalZonaIsNeverBucketed | controllers/lanzamientoController.js:8-11 | a fractional zone inside the grid is stored with a fractional column and is never counted |
| Stats.NullishToNull | tmp_test_stats.js:12 | `?? null` keeps any defined average and never yields undefined |
| Stats.NumberOrNull | controllers/equipoController.js:187 | the team average is the aggregate exactly when that is a number, and null otherwise |
| Stats.IndexByAt | tmp_test_stats.js:24 | the reduced map has exactly the rows' ids as keys, and a later row with the same id overwrites an earlier one |
| Stats.IndexByKeys | controllers/equipoController.js:213 | the keys of the reduced map are the ids of the rows |
| Stats.IndexByLast | controllers/equipoController.js:229 | an id maps to the value of its last row |
| Stats.BuildIndex | tmp_test_stats.js:58 | the accumulator loop builds the last-write-wins map |
| Stats.ZoneHistogram | controllers/equipoController.js:195 | the histogram always has 25 buckets |
| Stats.ZoneHistogramAt | controllers/equipoController.js:195-203 | a bucket no row hits stays 0; otherwise it holds the count of the last row that hits it |
| Stats.ZoneHistogramUntouched | controllers/equipoController.js:195 | a bucket no row hits stays 0 |
| Stats.ZoneHistogramLast | controllers/equipoController.js:201 | a bucket holds the count of the last row that writes it |
| Stats.ZoneHistogramOfDistinctCells | controllers/equipoController.js:196-202 | when the grouped (x,y) rows are distinct, each bucket holds its row's count |
| Stats.OffGridRowsIgnored | tmp_test_stats.js:15-20 | rows with out-of-range or non-integer coordinates touch no bucket |
| Stats.RecordedZoneIsCounted | tmp_test_stats.js:17-18 | a group of pitches recorded by integer zone is counted in that zone's bucket |
| Stats.FillZoneCounts | controllers/equipoController.js:195-203 | the in-place fill of `zoneCounts` computes the histogram |
| Stats.FallbackKeysDistinct | controllers/equipoController.js:216 | two different unnamed result ids, null included, fall back to different keys |
| Stats.NullIsNoPrintedId | controllers/equipoController.js:216 | no integer id prints as "null", so the null group's key never collides with a printed id |
| Stats.ResultCountsAt | controllers/equipoController.js:214-218 | the tally's keys are the groups' keys (the name, or the printed id when the name is missing or empty), each holding the count of its last group |
| Stats.NoNamesAllFallback | tmp_test_stats.js:25-26 | with no names to look up, every key is the printed id |
| Stats.FillResultCounts | tmp_test_stats.js:25-26 | the `forEach` over the groups builds the tally |
| Stats.RequestedIds | controllers/equipoController.js:211 | the ids looked up are exactly the non-null result ids |
| Stats.Summaries | controllers/equipoController.js:230-236 | one summary per group, in order, with the group's id, count and average (or null); both names are null when no pitcher matches, and otherwise each is the matched pitcher's name, or null when that name is empty |
| Stats.SummarizePitchers | controllers/equipoController.js:229-236 | the reduce and map produce the summaries over the last-write-wins pitcher map |
| Stats.ScopeCounts | controllers/equipoController.js:195-218 | the histogram and the tally over the fetched result rows |
| EquipoController.TeamGuard | controllers/equipoController.js:98-106 | an invalid id gives 400, then an absent team 404, then another user's team 403; it passes exactly when the id is valid and the user owns the team |
| EquipoController.GetEquipo | controllers/equipoController.js:34-61 | the team is returned only to its owner, after the guard order; a 200 carries exactly the found team |
| EquipoController.CreateEquipo | controllers/equipoController.js:64-89 | a missing name gives 400 and a trimmed name shorter than 2 gives 400; a string name of two or more characters with a valid city is always written; what is written is the trimmed name, the city trimmed or null, and the user as author; P2002 gives 409; a city that throws gives 500, as does any other write error |
| EquipoController.CreateOfTrimmed | controllers/equipoController.js:69-78 | an already trimmed name of two or more characters and a trimmed city or none are written unchanged, with the user as author |
| EquipoController.CreatedTeamIsStable | controllers/equipoController.js:69-78 | resubmitting a created team's stored name and city passes and stores the same values |
| EquipoController.NameField | controllers/equipoController.js:113-118 | the name key is absent when not supplied, the trimmed string for a string, and a throw otherwise |
| EquipoController.CityField | controllers/equipoController.js:119-121 | the city key is absent when not supplied, and otherwise the city trimmed or null |
| EquipoController.UpdatePatch | controllers/equipoController.js:108-138 | neither field gives 400, a non-string name 500, and a short trimmed name 400; a body with a field, a valid name if any, and a string or nullish city is always written; the patch sets exactly the supplied fields; P2002 gives 409 and P2025 gives 404; a non-string, non-nullish city gives 500, as does any other write error |
| EquipoController.UpdateEquipo | controllers/equipoController.js:92-139 | no patch is issued unless the id is valid and the user owns the team |
| EquipoController.DeleteEquipo | controllers/equipoController.js:142-169 | the delete is issued exactly when the id is valid and the user owns the team; after it, P2025 gives 404, P2014 or P2003 gives 409, and any other write error 500 |
| EquipoController.GetEquipoStats | controllers/equipoController.js:172-243 | statistics only for an owned team: the histogram, the tally, the average only when it is a number, and the summaries |
| TmpTestStats.LookedUpResultados | tmp_test_stats.js:23 | without non-null result ids nothing is looked up |
| TmpTestStats.PitcherIds | tmp_test_stats.js:56 | the pitcher ids looked up are exactly the non-null group ids |
| TmpTestStats.LookedUpPitchers | tmp_test_stats.js:57 | without pitcher ids nothing is looked up |
| TmpTestStats.ScriptScope | tmp_test_stats.js:10-26 | the script's post-processing of one scope gives 25 buckets and the script's statistics |
| TmpTestStats.TestPitcher | tmp_test_stats.js:7-32 | the pitcher-scope statistics, with an average that is never undefined |
| TmpTestStats.TestEquipo | tmp_test_stats.js:34-65 | the team-scope statistics use the same post-processing as the pitcher scope, plus the summaries over the looked-up pitchers |
| TmpTestStats.NoResultIdsOnlyNullKey | tmp_test_stats.js:22-26 | with no non-null result id, the only possible key is "null" |
| TmpTestStats.ScopesAgree | tmp_test_stats.js:49-53 | the script and the handler give the same total, histogram and tally, and the same average unless the aggregate is neither a number nor nullish |
| TmpTestStats.SummariesAgree | tmp_test_stats.js:57-59 | skipping an empty pitcher lookup gives the handler's summaries |
| TmpTestStats.EmptyScope | tmp_test_stats.js:10-26 | a scope without pitches has total 0, a null average, all-zero buckets and an empty tally |
| PitcherController.Num | controllers/pitcherController.js:5 | `num` is undefined exactly for undefined, null and '', and `Number(v)` otherwise |
| PitcherController.NumKeepsIdChecks | controllers/pitcherController.js:5-6 | `num` changes neither `isValidId` nor truthiness compared with `Number` |
| PitcherController.OwnedPitcher | controllers/pitcherController.js:32-35 | the owner-filtered lookup finds the pitcher only when the user owns its team |
| PitcherController.GetPitcher | controllers/pitcherController.js:26-42 | an invalid id gives 400; an absent or foreign pitcher gives 404; a 200 carries exactly the found pitcher |
| PitcherController.GetPitcherHidesOwnership | controllers/pitcherController.js:32-36 | a foreign pitcher and a missing one get identical responses |
| PitcherController.CreatePitcher | controllers/pitcherController.js:45-83 | the order is missing names 400, invalid team id 400, then team not owned 403; past those checks, string names are always written and any other names give 500; names are stored trimmed, and the team and numbers via `num`; any write error gives 500 |
| PitcherController.Supplied | controllers/pitcherController.js:118-119 | a key is present exactly when the body field is not undefined |
| PitcherController.PitcherPatchOf | controllers/pitcherController.js:115-120 | the update data holds exactly the supplied fields, the names through `?.trim()`, and the team when `num` gives a value |
| PitcherController.UpdatePitcher | controllers/pitcherController.js:86-128 | an invalid id gives 400, then a pitcher not owned 403, then a move to a truthy different team not owned 403; past those checks the update data is always written, unless a name throws (500); any write error gives 500 |
| PitcherController.FalsyTeamIdIsNotAMove | controllers/pitcherController.js:105 | a zero, NaN or empty team id skips the ownership check of the new team |
| PitcherController.DeletePitcher | controllers/pitcherController.js:131-155 | an invalid id gives 400 and a pitcher not owned 403; the delete is issued exactly when both checks pass; P2003 or P2014 gives 409 and any other write error 500 |
| PartidoController.CrearPartidoDecision | controllers/partidoController.js:10-78 | a falsy required field gives 400, a non-string date or time 500, and an invalid date 400; past those checks the game is always written unless `campo.trim` throws (500); the written game is PROGRAMADO, by the requester, with the campo trimmed or null; P2003 gives 404 and any other write error 500 |
| PartidoController.OwnedGame | controllers/partidoController.js:131-135 | the owner-filtered lookup finds a game exactly when it exists and the user is its author |
| PartidoController.PathIdCheck | controllers/partidoController.js:123-129 | a NaN id gives 400; a non-integer number reaches the store and fails |
| PartidoController.Finalized | controllers/partidoController.js:224-227 | finalising changes only the estado of that one game |
| PartidoController.FinalizeIdempotent | controllers/partidoController.js:224-227 | finalising twice leaves the same state as finalising once |
| PartidoController.InsertNewestFirst | controllers/partidoController.js:102-104 | insertion adds exactly the new game |
| PartidoController.InsertKeepsNewestFirst | controllers/partidoController.js:102-104 | insertion keeps the list sorted by fecha, descending |
| PartidoController.InsertKeepsIdsDistinct | controllers/partidoController.js:91-105 | insertion of an unlisted game keeps each game listed once |
| PartidoController.PartidoStore.constructor | controllers/partidoController.js:52-66 | the store starts empty |
| PartidoController.PartidoStore.CrearPartido | controllers/partidoController.js:10-78 | on success the game is stored under a fresh id, PROGRAMADO, holding exactly the data written; otherwise the store is unchanged |
| PartidoController.PartidoStore.ObtenerPartido | controllers/partidoController.js:121-195 | a NaN id gives 400; an absent or foreign game gives 404, with no distinction |
| PartidoController.PartidoStore.FinalizarPartido | controllers/partidoController.js:209-234 | only an owned game becomes FINALIZADO, and only when the update succeeds; otherwise 400, 404 or 500 and nothing changes; no game leaves FINALIZADO |
| PartidoController.PartidoStore.ListarPartidos | controllers/partidoController.js:86-113 | exactly the requester's games, each once, newest first |
| LanzamientoController.ListarPorPartido | controllers/lanzamientoController.js:15-41 | a NaN id gives 400 and an absent or foreign game 404; pitches are returned only for an owned game, and a 200 carries exactly the pitches listed |
| LanzamientoController.CrearCoords | controllers/lanzamientoController.js:70-73 | explicit coordinates are stored unclamped when both are numbers; the zone is used when either is NaN |
| LanzamientoController.CoordsFallBackOnZone | controllers/lanzamientoController.js:70-73 | absent coordinates fall back on the zone, while null coordinates count as 0 |
| LanzamientoController.ExplicitOffGridIsNeverBucketed | controllers/lanzamientoController.js:70-73 | explicit off-grid coordinates are kept and counted in no bucket |
| LanzamientoController.Velocidad | controllers/lanzamientoController.js:79 | the speed is null exactly when it is nullish |
| LanzamientoController.Crear | controllers/lanzamientoController.js:44-98 | the order is NaN game id 400, game absent or foreign 404, then missing required field 400; past those checks the pitch is always written unless `comentario.trim` throws (500); P2003 gives 400 and any other write error 500 |
| LanzamientoController.PitchGuard | controllers/lanzamientoController.js:103-112 | a NaN id gives 400, then an absent pitch 404, then a pitch of another user's game 403 |
| LanzamientoController.ActualizarCoords | controllers/lanzamientoController.js:115-120 | explicit x and y take precedence over zona; with neither there are no coordinates |
| LanzamientoController.NumberIfGiven | controllers/lanzamientoController.js:125-126 | a key is present exactly when the field is not nullish |
| LanzamientoController.PitchPatchOf | controllers/lanzamientoController.js:122-133 | each field is set only when supplied, except velocidad, which is always present and null when not supplied |
| LanzamientoController.OmittedVelocidadIsCleared | controllers/lanzamientoController.js:127 | an empty update body erases the stored speed and sets nothing else |
| LanzamientoController.Actualizar | controllers/lanzamientoController.js:101-141 | the update is issued only after the guards pass, and always then unless the data throws (500); it carries the update data; any write error gives 500 |
| LanzamientoController.Eliminar | controllers/lanzamientoController.js:144-162 | the delete is issued exactly for a pitch of an owned game; any write error gives 500 |
| LanzamientoController.UpdateAndDeleteShareGuards | controllers/lanzamientoController.js:103-112 | update and delete refuse the same requests with the same status |
| Validators.ValidEmailMatchesRegex | middleware/validators.js:2 | every address the computed check accepts matches the regex |
| Validators.RegexMatchIsValidEmail | middleware/validators.js:2 | every regex match passes the computed check |
| Validators.EmailCheckMatchesRegex | middleware/validators.js:2 | the computed check and the regex agree on every string |
| Validators.ValidateRegister | middleware/validators.js:4-28 | passes exactly when all checks pass; each error is returned exactly when every earlier check passes and its own check fails, in the order missing field, short name, email, short password, no uppercase |
| Validators.ValidateLogin | middleware/validators.js:30-37 | passes exactly when email and password are present |
| Validators.RegisteredCredentialsPassLogin | middleware/validators.js:4-37 | credentials accepted at registration pass the login check |
| Validators.BlankNameIsTooShort | middleware/validators.js:11-13 | a name of only white space is rejected as too short |
| Validators.AcceptedEmailHasOneAt | middleware/validators.js:2 | an accepted address has exactly one `@` |

## Left out

- The database queries themselves (count, aggregate, groupBy, findMany,
  create, update, delete) are not modelled. Their results are inputs, and
  so is the success or error code of each write.
- A read that throws (`findUnique`, `findFirst` or an aggregate failing)
  answers 500 in every handler's catch. Reads are modelled as always
  answering, so those 500s are not modelled.
- Body values hold no objects or arrays: a field such as `nombre: {}`
  cannot be expressed. A non-string value of another kind
  (number, boolean) covers the same paths for `.trim()`, which throws.
- PartidoController.PartidoStore stands for the games table. Its create
  takes the write outcome as an input: foreign keys to teams and pitchers
  are not checked against stored teams.
- The ordering of `listarPorPartido` by inning, side and id is done by the
  store, so the ordered rows are an input.
- `listEquipos` and `listPitchers` are store queries with no logic of their
  own, and are not modelled.
- PartidoController.CrearPartidoDecision: the `Date` built from the
  "dd/mm/yyyy" and "HH:mm" strings is an input, `fechaHora` (None for an
  invalid date). `split` and `Date` are not modelled.
- JsValues.StringToNumber: exponents, hexadecimal, binary and octal forms
  and "Infinity" are read as NaN. Numbers are exact reals, so IEEE-754
  rounding and 32-bit column limits are not modelled.
- The velocity average computed by the store is an opaque value: number,
  null, undefined or something else.
- LanzamientoController.Crear and LanzamientoController.PitchPatchOf store
  `String(ladoInning)` as the body value itself. The printing of
  non-strings is not modelled.
- Validators.ValidateRegister takes each field as a string or absent. A
  non-string field under `String(...)` is not modelled.
- The user id from the token (`req.user.sub`) is taken as an integer.
  Authentication, cookies, JWT and argon2 are not modelled.
- The route tables, `index.js`, the seed script, the lookup controller, the
  dashboard route and the older routes/equipos.js and routes/pitchers.js
  are not modelled. They hold wiring, I/O, or guards duplicated in the
  controllers.
- Logging and the error messages' text are not modelled. The status codes
  are.
- PitcherController.PitcherPatchOf keeps a key that holds `undefined`
  (`nombre: null` gives `Set(None)`). The store ignores such a key; the
  model does not say so.
