# Bus-stop survey app: the page layer, modelled in Dafny

This project models the page logic of a field-survey app for bus-stop
inspections, written in React/TypeScript. A surveyor goes through three
steps. They pick a stop on a map and tie it to a nearby route (or declare
that there is no route). They fill in a form with the stop's shelters and
photos. The record is kept locally until it is sent to the server. A fourth
page shows stops already in the server's database, filtered by
administrative region or basin.

Five pages are modelled, one Dafny module each:

- `Map` (`map_page.dfy`): the point-selection state machine of `MapPage`. The
  page fields are a class `Map.MapPage` with one method per handler. Each
  method is specified by a pure step function over a `MapState` value.
  Pure functions give the bottom button's action, label and disabled rule and
  the pin and button visibility. A `Run` over event sequences carries the
  invariant every reachable state keeps.
- `Formulario` (`formulario_page.dfy`): reading the URL query, the
  address cleanup, edit-mode prefill (`Init`), and `handleSave`. The save
  covers its ordered checks, the record it builds and the choice between
  add and update.
- `AbrigoList` (`abrigo_list.dfy`): append, remove-at and update-one-field
  on the shelter list, and the photo picker's `handleFile` and `removeImage`.
  Removal is an in-place shift on an array copy, as JavaScript's `splice`
  does.
- `Registros` (`registros_page.dfy`): the record card summary, the status
  fallback, the edit/delete guards and the `handleSync` guard and flag.
- `ParadasBanco` (`paradas_banco_page.dfy`): the endpoint choice of `load`,
  the filter-type change and the second selector's options.

`Pontos` (`ponto.dfy`) holds the record and shelter types and the single
definition of "has a pathology". `Js` (`js.dfy`) holds the bits of
JavaScript semantics the pages depend on. These are JS numbers with NaN and
truthiness, `===` on numbers, and navigation as a recorded `Location`
value. `Flow` (`flow.dfy`) proves properties across pages. These cover what
the map's links make the form read, the form's edit mode not being reachable
through these pages, and how a stored record is summarised in the list.

Collaborators whose code is not part of this model are passed in as
parameters. These are the route interpolator `findInterpolatedPoint`, the
reverse-geocoding `AddressService`, the local store behind `usePonto`
(`addPonto`, `updatePonto`, `syncPontos`, `pendingCount`, `pontos`), the
session's user id, and the remote listing service. Each is either a
function value or the outcome of the call. JavaScript library functions
with no model here are fields of `Js.Runtime`: number printing,
`parseFloat`, `parseInt`, `toISOString` (which may throw) and
`formatDateForInput`. Lemmas that need a fact about them (for example
`parseFloat("0")` is 0) state it as a precondition.

The route interpolator (`src/utils/geoUtils`), the record store and sync
(`src/context/PontoContext`) and the address service
(`src/services/address`) are not part of this model; the pages only call
them. Five behaviours of the pages are worth noting:

- Saving an edit sets the status back to `'pending'`.
- "No route" is recorded as the point (0,0), not as an absent value.
- The top-level `patologia` field is derived from the shelters when saving,
  and the value loaded into the form is ignored.
- After a click, "Confirmar Ponto", the trash button and "Não há Vias" the
  map screen has its route settled with nothing selected. Nothing on the
  page gets out of that state (`Map.NoRouteAfterClearIsDeadEnd`).
- Saving in edit mode takes the coordinates from the URL. A form URL
  holding only `edit` (no page builds one) would store them as 0
  (`Formulario.EditSaveResetsCoordinates`).

## Model

| member | source | states |
|---|---|---|
| `Pontos.AnyPatologia` | src/pages/Formulario/FormularioPage.tsx:110 | "has a pathology" holds iff some shelter has `temPatologia` (the `abrigos.some(...)` used by save and by the list) |
| `Map.BottomAction` | src/pages/Map/MapPage.tsx:236-240 | the bottom button runs register iff the route is settled, confirm-route iff a point is confirmed and the route is not settled, confirm-point otherwise; exactly one applies |
| `Map.LabelNamesAction` | src/pages/Map/MapPage.tsx:236-245 | two states have the same label iff the button runs the same handler in both |
| `Map.BottomLabel` | src/pages/Map/MapPage.tsx:243-245 | the label computed by its own conditional is always the caption of the handler `BottomAction` picks |
| `Map.BottomDisabled` | src/pages/Map/MapPage.tsx:241 | the button is disabled while nothing is selected, and in that state `handleConfirmPonto`'s own guard changes nothing either |
| `Map.ClearOffered` | src/pages/Map/MapPage.tsx:228-230 | the trash button is drawn exactly when the bottom button is enabled |
| `Map.NoViaOffered` | src/pages/Map/MapPage.tsx:248 | "Não há Vias" is drawn exactly while the bottom button runs `handleConfirmVia` |
| `Map.RedPinShown` | src/pages/Map/MapPage.tsx:206-208 | whenever the red pin is drawn the trash button is drawn too and "Não há Vias" is not |
| `Map.DisabledButtonDoesNothing` | src/pages/Map/MapPage.tsx:234-242 | pressing the disabled bottom button changes no state and has no effect |
| `Map.RedPinMeansConfirmPonto` | src/pages/Map/MapPage.tsx:206-208 | in every reachable state the red pin is drawn iff the bottom button is enabled and runs `handleConfirmPonto` |
| `Map.Click` | src/pages/Map/MapPage.tsx:115-127 | a map click selects the clicked point while the route is not settled and changes nothing else; once it is settled the state is unchanged |
| `Map.ConfirmPontoStep` | src/pages/Map/MapPage.tsx:129-141 | without a selected point nothing changes; otherwise the confirmed point becomes the selected one and no other field changes |
| `Map.Clear` | src/pages/Map/MapPage.tsx:155-159 | clearing empties the selection, the settled flag and the routes, and keeps the confirmed point, the interpolated point and the user location |
| `Map.NoVia` | src/pages/Map/MapPage.tsx:248-255 | "Não há Vias" stores the (0,0) sentinel as the interpolated point, settles the route and changes nothing else |
| `Map.Located` | src/pages/Map/MapPage.tsx:93-97 | a geolocation fix sets the user location and nothing else |
| `Map.LocationFailed` | src/pages/Map/MapPage.tsx:99-104 | a geolocation error sets the user location to the Brasília default and nothing else |
| `Map.ViasLoaded` | src/pages/Map/MapPage.tsx:110-113 | loaded routes replace the old ones and nothing else changes |
| `Map.FormLocation` | src/pages/Map/MapPage.tsx:149 | the form link goes to `/formulario` with `lat`/`lng`, plus `ilat`/`ilng` exactly when an interpolated point is passed, and never `edit` |
| `Map.ConfirmViaEffect` | src/pages/Map/MapPage.tsx:143-153 | without a selected point or routes nothing happens; it navigates iff interpolation succeeds, to the form with the selected and interpolated points; it alerts iff interpolation fails |
| `Map.CadastrarEffect` | src/pages/Map/MapPage.tsx:161-164 | without the user's location nothing happens; otherwise the form opens at the user's location with no `ilat`/`ilng` |
| `Map.PressEffect` | src/pages/Map/MapPage.tsx:234-242 | a disabled button (no selected point) does nothing; otherwise the effect is that of the handler `BottomAction` picks |
| `Map.Step` | src/pages/Map/MapPage.tsx:110-164 | one event: only "Não há Vias" settles the route, a bottom press changes at most the confirmed point, and a confirmed point is never replaced |
| `Map.Run` | src/pages/Map/MapPage.tsx:90-113 | events in order; once the user's position is known it is never lost |
| `Map.StepKeepsConsistent` | src/pages/Map/MapPage.tsx:115-164 | every handler, fired only when its button is drawn, keeps the page invariant |
| `Map.RunKeepsConsistent` | src/pages/Map/MapPage.tsx:115-164 | any sequence of events keeps the invariant: a settled route implies a confirmed point and the (0,0) sentinel, and the only stored interpolated point is the sentinel |
| `Map.ReachableIsConsistent` | src/pages/Map/MapPage.tsx:79-84 | every state reachable from the mounted page satisfies the invariant |
| `Map.ConfirmedPointIsSticky` | src/pages/Map/MapPage.tsx:129-159 | once a point is confirmed, no sequence of events unconfirms or replaces it |
| `Map.ClearKeepsStaleConfirmation` | src/pages/Map/MapPage.tsx:155-159 | after clearing a confirmed selection, a new click is not shown by the red pin and the bottom button goes straight to "Confirmar Via" |
| `Map.StuckStaysStuck` | src/pages/Map/MapPage.tsx:115-255 | with the route settled and nothing selected, every event sequence keeps it so and the bottom button never does anything |
| `Map.NoRouteAfterClearIsDeadEnd` | src/pages/Map/MapPage.tsx:129-159 | a click, "Confirmar Ponto", the trash button and "Não há Vias" leave the page settled with nothing selected, from where no event makes the bottom button act |
| `Map.MapPage.constructor` | src/pages/Map/MapPage.tsx:79-84 | the page mounts with nothing selected, confirmed or interpolated, no routes and the route not settled |
| `Map.MapPage.HandleMapClick` | src/pages/Map/MapPage.tsx:115-127 | the new state is `Click` of the old one |
| `Map.MapPage.HandleConfirmPonto` | src/pages/Map/MapPage.tsx:129-141 | the new state is `ConfirmPontoStep` of the old one, whatever the address lookup's outcome |
| `Map.MapPage.HandleConfirmVia` | src/pages/Map/MapPage.tsx:143-153 | changes no field and returns `ConfirmViaEffect` of the state |
| `Map.MapPage.HandleClear` | src/pages/Map/MapPage.tsx:155-159 | the new state is `Clear` of the old one |
| `Map.MapPage.HandleCadastrar` | src/pages/Map/MapPage.tsx:161-164 | changes no field and returns `CadastrarEffect` of the state |
| `Map.MapPage.HandleNoVia` | src/pages/Map/MapPage.tsx:248-255 | callable only while the button is drawn; the new state is `NoVia` of the old one |
| `Map.MapPage.OnPosition` | src/pages/Map/MapPage.tsx:93-97 | the new state is `Located` of the old one |
| `Map.MapPage.OnPositionError` | src/pages/Map/MapPage.tsx:99-104 | the new state is `LocationFailed` of the old one |
| `Map.MapPage.OnViasLoaded` | src/pages/Map/MapPage.tsx:110-113 | the new state is `ViasLoaded` of the old one |
| `Map.MapPage.PressBottomButton` | src/pages/Map/MapPage.tsx:234-242 | the state changes as the bottom-press event prescribes and the effect is `PressEffect` of the old state |
| `AbrigoList.AddAbrigo` | src/pages/Formulario/AbrigoList.tsx:12-19 | the result is one longer, keeps the old entries as its prefix and ends with the default shelter |
| `AbrigoList.RemoveAt` | src/pages/Formulario/AbrigoList.tsx:21-25 | copy-then-splice drops exactly the entry at the index: length minus one, the prefix kept, the tail shifted down by one, the removed element the only one missing |
| `AbrigoList.RemoveAbrigo` | src/pages/Formulario/AbrigoList.tsx:21-25 | removing a shelter yields the old list without the entry at the index |
| `AbrigoList.WithField` | src/pages/Formulario/AbrigoList.tsx:29 | the named field takes the new value and the other three keep theirs |
| `AbrigoList.UpdateAbrigo` | src/pages/Formulario/AbrigoList.tsx:27-31 | the length is kept, entry `index` gets the one field changed, every other entry is unchanged |
| `AbrigoList.PatologiaPickerShown` | src/pages/Formulario/AbrigoList.tsx:83-91 | the pathology picker is drawn iff the box is checked, and editing any other field of the shelter leaves it as it is |
| `AbrigoList.UncheckHidesPatologiaPhotos` | src/pages/Formulario/AbrigoList.tsx:75-91 | unchecking the pathology box hides the picker but keeps the pathology photos, and checking it again restores the entry |
| `AbrigoList.UncheckKeepsPhotosOutOfSight` | src/pages/Formulario/AbrigoList.tsx:78 | unchecking the only pathology leaves a list without pathology that still carries the pathology photos |
| `AbrigoList.CardNumbers` | src/pages/Formulario/AbrigoList.tsx:36-43 | there is one card number per shelter, and card `k` is numbered `k+1` |
| `AbrigoList.NewCardNumberIsCount` | src/pages/Formulario/AbrigoList.tsx:36-43 | the card added by "+ Adicionar Abrigo" carries the new header count |
| `AbrigoList.ObjectUrls.Create` | src/pages/Formulario/AbrigoList.tsx:103 | each new object URL differs from every earlier one, is recorded as issued, and is logged with the file it was made for |
| `AbrigoList.HandleFile` | src/pages/Formulario/AbrigoList.tsx:100-106 | with no file list nothing is reported; otherwise the existing images are kept as the prefix, followed by one new, distinct reference per file, the j-th made for the j-th file |
| `AbrigoList.RemoveImage` | src/pages/Formulario/AbrigoList.tsx:108-112 | removing a photo yields the old list without the one at the index |
| `Formulario.QueryText` | src/pages/Formulario/FormularioPage.tsx:32-35 | a parameter that is present and non-empty is read as is; a missing or empty one reads as "0" |
| `Formulario.ReadQuery` | src/pages/Formulario/FormularioPage.tsx:31-36 | the four coordinates are `parseFloat` of their defaulted texts and the edit id is the raw `edit` parameter, if any |
| `Formulario.MissingCoordinatesAreZero` | src/pages/Formulario/FormularioPage.tsx:32-35 | each coordinate missing from the URL is 0, so a form opened without `ilat`/`ilng` has interpolated point (0,0) |
| `Formulario.DropLeadingSep` | src/pages/Formulario/FormularioPage.tsx:76 | one leading ", " is removed iff the text starts with one |
| `Formulario.DropTrailingSep` | src/pages/Formulario/FormularioPage.tsx:76 | one trailing ", " is removed iff the text ends with one |
| `Formulario.CleanAddress` | src/pages/Formulario/FormularioPage.tsx:75-76 | one ", " is cut from the front of the joined text iff it starts with one, then one from the back of the rest iff that ends with one |
| `Formulario.CleanAddressTrimsEnds` | src/pages/Formulario/FormularioPage.tsx:75-76 | the cleaned address is a contiguous slice of the joined text, cut by two characters at the front iff it starts with ", " and by two (a ", ") at the back iff what is left ends with ", " |
| `Formulario.CompleteAddressUnchanged` | src/pages/Formulario/FormularioPage.tsx:75-76 | with road and city non-empty, the road not starting and the city not ending with ", ", the address is exactly `road, neighbourhood, city` |
| `Formulario.OnlyNeighbourhood` | src/pages/Formulario/FormularioPage.tsx:75-76 | with road and city empty only the neighbourhood is left |
| `Formulario.EmptyLookupGivesEmptyAddress` | src/pages/Formulario/FormularioPage.tsx:75-76 | three empty parts clean to the empty address |
| `Formulario.MissingNeighbourhoodKept` | src/pages/Formulario/FormularioPage.tsx:75-76 | with road and city non-empty, the road not starting and the city not ending with ", ", an empty neighbourhood leaves `road, , city`: the middle ", , " is kept |
| `Formulario.FindIndex` | src/pages/Formulario/FormularioPage.tsx:58 | `find` by id returns the first record whose id is `===` the parsed id, and none iff no record's id is |
| `Formulario.InitialFields` | src/pages/Formulario/FormularioPage.tsx:38-50 | a new form has an empty address, every flag off, no shelters and the current date formatted for the input |
| `Formulario.Prefill` | src/pages/Formulario/FormularioPage.tsx:59-69 | the edit-mode fields equal the record's address, flags and shelters, and the visit date is reformatted for the input |
| `Formulario.InitStep` | src/pages/Formulario/FormularioPage.tsx:53-83 | in edit mode the fields are kept or become the prefill of a record whose id is `===` the parsed id; otherwise only the address can change, to the cleaned lookup result when the lookup succeeds |
| `Formulario.EditCopiesMatchingRecord` | src/pages/Formulario/FormularioPage.tsx:55-69 | in edit mode the fields become those of the first record with the parsed id; with no such record nothing changes |
| `Formulario.NaNEditIdMatchesNothing` | src/pages/Formulario/FormularioPage.tsx:57-58 | an edit id that parses to NaN matches no record |
| `Formulario.BuildPonto` | src/pages/Formulario/FormularioPage.tsx:99-118 | the record carries the form's address, five flags and shelters and the URL's four coordinates, `patologia` iff some shelter has one, status `'pending'`, empty top-level photo lists, and the parsed edit id only when an edit id is given |
| `Formulario.SaveDecision` | src/pages/Formulario/FormularioPage.tsx:85-125 | no address refuses first, then no truthy user id, then an invalid date throws; a record is stored iff all three pass; it goes to `updatePonto` iff the edit id is given and parses to a truthy id |
| `Formulario.NoAddressNoStore` | src/pages/Formulario/FormularioPage.tsx:86-95 | without an address nothing is stored, and the outcome does not depend on the user id |
| `Formulario.StoredRecordIsPending` | src/pages/Formulario/FormularioPage.tsx:115-117 | every stored record, new or edited, is pending with empty top-level photo lists |
| `Formulario.LoadedPatologiaIgnored` | src/pages/Formulario/FormularioPage.tsx:110 | the `patologia` loaded into the form has no influence on what is saved |
| `Formulario.FalsyEditIdIsAdded` | src/pages/Formulario/FormularioPage.tsx:99-125 | an edit id that parses to NaN or 0 is saved through `addPonto`, carrying that id |
| `Formulario.FailedLookupBlocksSave` | src/pages/Formulario/FormularioPage.tsx:72-89 | a new stop whose address lookup failed is refused with "Endereço obrigatório" |
| `Formulario.EditSaveResetsCoordinates` | src/pages/Formulario/FormularioPage.tsx:99-118 | saving a prefilled record from a form URL holding only `edit` (no page builds one) keeps its address, flags and shelters but stores all four coordinates as 0 |
| `Formulario.FormularioPage.constructor` | src/pages/Formulario/FormularioPage.tsx:31-51 | the page reads its query once and starts with empty fields, the current date and no shelters |
| `Formulario.FormularioPage.Init` | src/pages/Formulario/FormularioPage.tsx:53-83 | the new fields are `InitStep` of the old ones |
| `Formulario.FormularioPage.CopyFrom` | src/pages/Formulario/FormularioPage.tsx:59-69 | the edit-mode setters leave every field equal to the record's |
| `Formulario.FormularioPage.HandleSave` | src/pages/Formulario/FormularioPage.tsx:85-133 | the outcome is `SaveDecision`; a refusal alerts and leaves `loading`; an invalid date throws with `loading` left on; a store call ends with `loading` off and navigates to `/registros` on success or alerts on failure |
| `Registros.StatusText` | src/pages/Registros/RegistrosPage.tsx:62 | the status shows `syncStatus`, or "Pending" when it is missing or empty |
| `Registros.SimNao` | src/pages/Registros/RegistrosPage.tsx:58-61 | the answer is "Sim" or "Não", and "Sim" exactly for a true condition |
| `Registros.Summary` | src/pages/Registros/RegistrosPage.tsx:58-62 | each line reads Sim or Não by its condition: "Há Abrigo" is Sim iff there is a shelter, "Patologias" iff some shelter has one, "Acessibilidade" iff tactile floor or ramp, "Linhas" iff STPC |
| `Registros.SummaryIgnoresStoredFlags` | src/pages/Registros/RegistrosPage.tsx:59-61 | the card does not depend on the school-line flag nor on the stored `patologia` |
| `Registros.EditEffect` | src/pages/Registros/RegistrosPage.tsx:66 | the pencil navigates to `/?edit=<id>` iff the record's id is truthy, and does nothing otherwise |
| `Registros.ShowsEmptyState` | src/pages/Registros/RegistrosPage.tsx:42-45 | the empty-state message is shown exactly when there is no record |
| `Registros.SyncDisabled` | src/pages/Registros/RegistrosPage.tsx:78 | the sync button is enabled only when no sync runs and something is pending, and disabled otherwise |
| `Registros.EditLocation` | src/pages/Registros/RegistrosPage.tsx:20-23 | the edit link goes to `/` with `edit` as its only parameter, holding the printed id |
| `Registros.DeleteFires` | src/pages/Registros/RegistrosPage.tsx:67 | the trash button never fires for a record without an id, with id 0 or with NaN, and fires for any other numeric id |
| `Registros.DeleteAndEditShareGuard` | src/pages/Registros/RegistrosPage.tsx:66-67 | the trash button fires exactly for the records the pencil navigates for |
| `Registros.RegistrosPage.HandleDelete` | src/pages/Registros/RegistrosPage.tsx:26-29 | changes no field and only yields the console line "Delete not implemented yet" |
| `Registros.RegistrosPage.constructor` | src/pages/Registros/RegistrosPage.tsx:9 | the page starts not syncing |
| `Registros.RegistrosPage.HandleSync` | src/pages/Registros/RegistrosPage.tsx:12-18 | `syncPontos` is called iff something is pending; the flag ends off iff the call resolved, and a rejection leaves it on and the button disabled |
| `ParadasBanco.ChooseEndpoint` | src/pages/ParadasBanco/ParadasBancoPage.tsx:49-55 | region listing iff type RA with a non-empty choice, basin listing iff type Bacia with a non-empty choice, full listing iff no type or no choice |
| `ParadasBanco.FilterTypeOf` | src/pages/ParadasBanco/ParadasBancoPage.tsx:71 | the empty option is null, "RA" is RA and "Bacia" is Bacia |
| `ParadasBanco.SecondSelector` | src/pages/ParadasBanco/ParadasBancoPage.tsx:81-91 | the second selector exists iff a type is chosen, offering "Selecione..." (value "") followed by the regions for RA or the basins for Bacia |
| `ParadasBanco.ChosenOptionIsRequested` | src/pages/ParadasBanco/ParadasBancoPage.tsx:81-91 | "Selecione..." requests the full listing, and every region or basin option requests its own listing |
| `ParadasBanco.ParadasBancoPage.constructor` | src/pages/ParadasBanco/ParadasBancoPage.tsx:16-36 | the page starts loading, with no points, no type and no choice |
| `ParadasBanco.ParadasBancoPage.OnFilterTypeChange` | src/pages/ParadasBanco/ParadasBancoPage.tsx:70-73 | the type becomes the chosen one (null for the empty option), the choice is reset, and the next request is the full listing |
| `ParadasBanco.ParadasBancoPage.OnFilterChange` | src/pages/ParadasBanco/ParadasBancoPage.tsx:84 | the choice becomes the selected option |
| `ParadasBanco.ParadasBancoPage.Load` | src/pages/ParadasBanco/ParadasBancoPage.tsx:39-58 | exactly the endpoint `ChooseEndpoint` names is requested, its answer replaces the shown points, and loading ends |
| `Flow.ConfirmViaOpensFormAtBothPoints` | src/pages/Map/MapPage.tsx:143-149 | after a successful interpolation the form reads the selected point as `lat`/`lng` and the interpolated one as `ilat`/`ilng`, outside edit mode |
| `Flow.NoRoutePathOpensFormAtZero` | src/pages/Map/MapPage.tsx:248-255 | after "Não há Vias" the button reads "Cadastrar Ponto" and opens the form at the user's own location with interpolated point (0,0), the map's sentinel |
| `Flow.ConfirmFlowFromFreshPage` | src/pages/Map/MapPage.tsx:115-153 | from a fresh page, position, routes, a click and "Confirmar Ponto" confirm the point, and the next press opens the form with the interpolated point |
| `Flow.EditModeNotReachedFromPages` | src/pages/Registros/RegistrosPage.tsx:20-23 | no map link carries `edit`, and the list's edit link goes to the map screen, so these pages never open the form in edit mode |
| `Flow.StoredRecordCard` | src/pages/Registros/RegistrosPage.tsx:58-62 | a stored record is listed as "pending", and its "Patologias" line agrees with its stored `patologia` |

## Left out

- Rendering, Leaflet markers, icons and tiles, the satellite toggle and the map `loading` overlay. They are presentation only.
- The recenter button (📍) on the map screen is not a method of its own. A successful position request from it sets the user location and reloads the routes. It is modelled as a `PositionFound` event followed by a `RoutesArrived` event. It is the only way to get routes back after the trash button empties them.
- Browser geolocation, `alert`, `console` and `navigate`. Geolocation answers are events (`OnPosition`, `OnPositionError`). Alerts and navigations are recorded `Effect` values. Console output is dropped, except the one line `handleDelete` writes.
- The JavaScript library functions in `Js.Runtime`: number printing, `parseFloat`, `parseInt`, `Date`/`toISOString` and `formatDateForInput`. They are parameters with no model. The URL text is not modelled either: a query is the decoded parameter map.
- JS numbers are NaN or a real value. Float rounding and the infinities are not modelled. Coordinates are only stored, compared and printed.
- `findInterpolatedPoint`, `AddressService`, `ViaService`, the local store and sync behind `usePonto`, the session (`useAuth`) and `RemotePointsService`. Their code is not part of this model. Each appears as a parameter: a function value or the outcome of one call.
- The session's user id is modelled as an optional JS number. Its real type is not visible here.
- Async timing, React state batching and effect re-runs. Each handler is one atomic step. `handleSave`'s and `load`'s `loading` flags are modelled by their value after the step. `handleSync`'s flag is modelled as set and then cleared unless the call rejects.
- The re-run of the form's `init` when `pontos` changes, which can overwrite fields the user has typed. Re-runs are not modelled.
- `AbrigoList.RemoveAt` and `AbrigoList.UpdateAbrigo` require the index of a rendered card. `splice` and index assignment with an out-of-range index are not modelled because no caller produces one.
- `ParadasBanco.FilterTypeOf` requires one of the three option values. The selector cannot produce any other.
- `AbrigoList.ObjectUrls.Create`: the text of an object URL is a stand-in. Only that each one differs from every earlier one is modelled.
- Routing (`App.tsx`, `ProtectedRoute`) and the navigation components (sidebar, header, bottom bar, top bar). The only use made of routing is that `/` is the map screen.
- `load`'s request for the user's position on the stops map, and the back button. The position only centres the map. The back button is browser history.
- `handleDelete` on the records list only writes to the console. `Registros.RegistrosPage.HandleDelete` changes nothing and returns that line.
- The shelter-type selector's option list (`ABRIGO_TYPES`). A choice is modelled as the `parseInt` result it stores through `AbrigoList.WithField`.
