/** The map screen (`MapPage`): the user picks a stop on the map, confirms
    it, then either confirms the nearby route (the form opens with the
    interpolated point) or declares that there is no route, and finally
    opens the form from the user's own location. */
module Map {
  import opened Js
  import opened Pontos

  /** A map coordinate as Leaflet reports it. */
  datatype LatLng = LatLng(lat: real, lng: real)

  /** One route near the user, as an ordered line of coordinates. */
  type Polyline = seq<LatLng>

  /** `findInterpolatedPoint`: snaps a point onto the routes, or fails.
      Its geometry is not part of this model. */
  type Interpolator = (LatLng, seq<Polyline>) -> Option<LatLng>

  /** The interpolated point recorded by "Não há Vias": (0,0) means "no route". */
  const NoViaSentinel := LatLng(0.0, 0.0)

  /** Where the map starts when geolocation fails (Brasília). */
  const DefaultLocation := LatLng(-15.7942, -47.8822)

  const InterpolationFailedMessage := "Não foi possível interpolar o ponto na via selecionada."

  /** The page fields that the handlers read and change. */
  datatype MapState = MapState(
    userLocation: Option<LatLng>,
    selectedPoint: Option<LatLng>,
    confirmedPoint: Option<LatLng>,
    interpolatedPoint: Option<LatLng>,
    polylines: seq<Polyline>,
    viaConfirmada: bool)

  /** The state when the page mounts. */
  const Initial := MapState(None, None, None, None, [], false)

  // ---------------------------------------------------------------------
  // What the page shows: pure conditions over its fields.

  /** The handler behind the bottom button. */
  datatype Action = Cadastrar | ConfirmVia | ConfirmPonto

  /** The bottom button's `onClick` choice: register once the route is
      settled, else confirm the route once a point is confirmed, else
      confirm the point. Exactly one case applies. */
  function BottomAction(s: MapState): (a: Action)
    ensures a == Cadastrar <==> s.viaConfirmada
    ensures a == ConfirmVia <==> !s.viaConfirmada && s.confirmedPoint.Some?
    ensures a == ConfirmPonto <==> !s.viaConfirmada && s.confirmedPoint.None?
  {
    if s.viaConfirmada then Cadastrar
    else if s.confirmedPoint.Some? then ConfirmVia
    else ConfirmPonto
  }

  /** The caption that belongs to each handler. */
  function ActionCaption(a: Action): string {
    match a
    case Cadastrar => "Cadastrar Ponto"
    case ConfirmVia => "Confirmar Via"
    case ConfirmPonto => "Confirmar Ponto"
  }

  /** The bottom button's label, computed by its own conditional, always
      names the handler the button runs. */
  function BottomLabel(s: MapState): (l: string)
    ensures l == ActionCaption(BottomAction(s))
  {
    if s.viaConfirmada then "Cadastrar Ponto"
    else if s.confirmedPoint.Some? then "Confirmar Via"
    else "Confirmar Ponto"
  }

  /** Different handlers have different labels, so the label tells the
      user which one runs. */
  lemma LabelNamesAction(s: MapState, t: MapState)
    ensures BottomLabel(s) == BottomLabel(t) <==> BottomAction(s) == BottomAction(t)
  {
  }

  /** The bottom button is disabled while no point is selected; in that
      state the confirm-point handler's own guard would do nothing either. */
  function BottomDisabled(s: MapState): (b: bool)
    ensures b ==> ConfirmPontoStep(s) == s
  {
    s.selectedPoint.None?
  }

  /** The trash button is drawn while a point is selected: exactly when the
      bottom button is enabled. */
  function ClearOffered(s: MapState): (b: bool)
    ensures b <==> !BottomDisabled(s)
  {
    s.selectedPoint.Some?
  }

  /** "Não há Vias" is drawn once a point is confirmed and no route is
      settled: exactly while the bottom button confirms the route. */
  function NoViaOffered(s: MapState): (b: bool)
    ensures b <==> BottomAction(s) == ConfirmVia
  {
    s.confirmedPoint.Some? && !s.viaConfirmada
  }

  /** The red selection pin is drawn only before a point is confirmed; it
      is never drawn beside "Não há Vias", and the trash button is always
      drawn with it. */
  function RedPinShown(s: MapState): (b: bool)
    ensures b ==> ClearOffered(s) && !NoViaOffered(s)
  {
    s.confirmedPoint.None? && s.selectedPoint.Some?
  }

  // ---------------------------------------------------------------------
  // The handlers' effect on the page state, as functions of the old state.

  /** `handleMapClick`: a click selects the clicked point only while no
      route is settled; afterwards clicks change nothing. */
  function Click(s: MapState, p: LatLng): (t: MapState)
    ensures !s.viaConfirmada ==> t.selectedPoint == Some(p)
    ensures !s.viaConfirmada ==> t.(selectedPoint := s.selectedPoint) == s
    ensures s.viaConfirmada ==> t == s
  {
    if !s.viaConfirmada then s.(selectedPoint := Some(p)) else s
  }

  /** `handleConfirmPonto`: confirms the selected point; without one it
      changes nothing. */
  function ConfirmPontoStep(s: MapState): (t: MapState)
    ensures s.selectedPoint.None? ==> t == s
    ensures s.selectedPoint.Some? ==> t.confirmedPoint == s.selectedPoint
    ensures t.(confirmedPoint := s.confirmedPoint) == s
  {
    if s.selectedPoint.None? then s else s.(confirmedPoint := s.selectedPoint)
  }

  /** `handleClear`: drops the selection, the settled route flag and the
      routes, and keeps the confirmed and interpolated points. */
  function Clear(s: MapState): (t: MapState)
    ensures t.selectedPoint.None? && !t.viaConfirmada && t.polylines == []
    ensures t.confirmedPoint == s.confirmedPoint && t.interpolatedPoint == s.interpolatedPoint
    ensures t.userLocation == s.userLocation
  {
    s.(selectedPoint := None, viaConfirmada := false, polylines := [])
  }

  /** The "Não há Vias" handler: records the (0,0) "no route" point and
      settles the route. */
  function NoVia(s: MapState): (t: MapState)
    ensures t.interpolatedPoint == Some(NoViaSentinel) && t.viaConfirmada
    ensures t.(interpolatedPoint := s.interpolatedPoint, viaConfirmada := s.viaConfirmada) == s
  {
    s.(interpolatedPoint := Some(NoViaSentinel), viaConfirmada := true)
  }

  /** Geolocation success: the user's position is known. */
  function Located(s: MapState, loc: LatLng): (t: MapState)
    ensures t.userLocation == Some(loc) && t.(userLocation := s.userLocation) == s
  {
    s.(userLocation := Some(loc))
  }

  /** Geolocation failure: the user's position falls back to Brasília. */
  function LocationFailed(s: MapState): (t: MapState)
    ensures t.userLocation == Some(DefaultLocation) && t.(userLocation := s.userLocation) == s
  {
    s.(userLocation := Some(DefaultLocation))
  }

  /** `loadVias`: the routes near the user replace the old ones. */
  function ViasLoaded(s: MapState, vias: seq<Polyline>): (t: MapState)
    ensures t.polylines == vias && t.(polylines := s.polylines) == s
  {
    s.(polylines := vias)
  }

  // ---------------------------------------------------------------------
  // Where the handlers navigate.

  /** `/formulario?lat=..&lng=..` plus `&ilat=..&ilng=..` when an
      interpolated point is passed; numbers are written as JavaScript
      prints them. */
  function FormLocation(rt: Runtime, p: LatLng, interpolated: Option<LatLng>): (l: Location)
    ensures l.path == "/formulario"
    ensures "lat" in l.query && l.query["lat"] == rt.show(Num(p.lat))
    ensures "lng" in l.query && l.query["lng"] == rt.show(Num(p.lng))
    ensures interpolated.None? ==> l.query.Keys == {"lat", "lng"}
    ensures interpolated.Some? ==> l.query.Keys == {"lat", "lng", "ilat", "ilng"}
    ensures interpolated.Some? ==> l.query["ilat"] == rt.show(Num(interpolated.value.lat))
    ensures interpolated.Some? ==> l.query["ilng"] == rt.show(Num(interpolated.value.lng))
    ensures "edit" !in l.query
  {
    var q := map["lat" := rt.show(Num(p.lat)), "lng" := rt.show(Num(p.lng))];
    match interpolated
    case None => Location("/formulario", q)
    case Some(i) =>
      Location("/formulario", q["ilat" := rt.show(Num(i.lat))]["ilng" := rt.show(Num(i.lng))])
  }

  /** `handleConfirmVia`: needs a selected point and at least one route;
      a successful interpolation opens the form with both points, a failed
      one only alerts. It changes no page state. */
  function ConfirmViaEffect(s: MapState, interpolate: Interpolator, rt: Runtime): (e: Effect)
    ensures s.selectedPoint.None? || s.polylines == [] ==> e == Stay
    ensures e.Navigate? <==>
      s.selectedPoint.Some? && s.polylines != [] && interpolate(s.selectedPoint.value, s.polylines).Some?
    ensures e.Navigate? ==>
      e.to == FormLocation(rt, s.selectedPoint.value, interpolate(s.selectedPoint.value, s.polylines))
    ensures e.Alert? <==>
      s.selectedPoint.Some? && s.polylines != [] && interpolate(s.selectedPoint.value, s.polylines).None?
    ensures e.Alert? ==> e.message == InterpolationFailedMessage
  {
    if s.selectedPoint.None? || s.polylines == [] then Stay
    else
      match interpolate(s.selectedPoint.value, s.polylines)
      case Some(i) => Navigate(FormLocation(rt, s.selectedPoint.value, Some(i)))
      case None => Alert(InterpolationFailedMessage)
  }

  /** `handleCadastrar`: without the user's location nothing happens;
      otherwise the form opens at the user's location with no
      interpolated point. */
  function CadastrarEffect(s: MapState, rt: Runtime): (e: Effect)
    ensures s.userLocation.None? <==> e == Stay
    ensures s.userLocation.Some? ==> e == Navigate(FormLocation(rt, s.userLocation.value, None))
  {
    if s.userLocation.None? then Stay
    else Navigate(FormLocation(rt, s.userLocation.value, None))
  }

  /** Pressing the bottom button: nothing while it is disabled; otherwise
      the handler that `BottomAction` picks. */
  function PressEffect(s: MapState, interpolate: Interpolator, rt: Runtime): (e: Effect)
    ensures BottomDisabled(s) ==> e == Stay
    ensures !BottomDisabled(s) && BottomAction(s) == Cadastrar ==> e == CadastrarEffect(s, rt)
    ensures !BottomDisabled(s) && BottomAction(s) == ConfirmVia ==> e == ConfirmViaEffect(s, interpolate, rt)
    ensures !BottomDisabled(s) && BottomAction(s) == ConfirmPonto ==> e == Stay
  {
    if BottomDisabled(s) then Stay
    else match BottomAction(s)
      case Cadastrar => CadastrarEffect(s, rt)
      case ConfirmVia => ConfirmViaEffect(s, interpolate, rt)
      case ConfirmPonto => Stay
  }

  // ---------------------------------------------------------------------
  // Sequences of user and browser events.

  /** What can happen on the page. Buttons that are not drawn cannot be
      pressed, so a press of a hidden or disabled button changes nothing. */
  datatype Event =
    | MapClicked(p: LatLng)
    | BottomPressed
    | ClearPressed
    | NoViaPressed
    | PositionFound(loc: LatLng)
    | PositionFailed
    | RoutesArrived(vias: seq<Polyline>)

  /** One event. Only "Não há Vias" settles the route, a press of the
      bottom button changes at most the confirmed point, and a confirmed
      point is never replaced. */
  function Step(s: MapState, e: Event): (t: MapState)
    ensures t.viaConfirmada && !s.viaConfirmada ==> e == NoViaPressed
    ensures e == BottomPressed ==> t.(confirmedPoint := s.confirmedPoint) == s
    ensures s.confirmedPoint.Some? ==> t.confirmedPoint == s.confirmedPoint
  {
    match e
    case MapClicked(p) => Click(s, p)
    case BottomPressed =>
      // handleConfirmVia and handleCadastrar leave the page state alone
      if !BottomDisabled(s) && BottomAction(s) == ConfirmPonto then ConfirmPontoStep(s) else s
    case ClearPressed => if ClearOffered(s) then Clear(s) else s
    case NoViaPressed => if NoViaOffered(s) then NoVia(s) else s
    case PositionFound(loc) => Located(s, loc)
    case PositionFailed => LocationFailed(s)
    case RoutesArrived(vias) => ViasLoaded(s, vias)
  }

  /** A sequence of events, in order. Once the user's position is known it
      is never lost. */
  function Run(s: MapState, events: seq<Event>): (t: MapState)
    ensures s.userLocation.Some? ==> t.userLocation.Some?
    decreases |events|
  {
    if events == [] then s else Run(Step(s, events[0]), events[1..])
  }

  /** What holds in every state the page can reach: the route is settled
      only on the "no route" path, after a point was confirmed, and the
      only interpolated point the page ever stores is the (0,0) sentinel
      (a real interpolation goes straight to the form). */
  ghost predicate Consistent(s: MapState) {
    && (s.viaConfirmada ==> s.confirmedPoint.Some? && s.interpolatedPoint == Some(NoViaSentinel))
    && (s.interpolatedPoint.None? || s.interpolatedPoint == Some(NoViaSentinel))
  }

  lemma StepKeepsConsistent(s: MapState, e: Event)
    requires Consistent(s)
    ensures Consistent(Step(s, e))
  {
  }

  lemma {:induction false} RunKeepsConsistent(s: MapState, events: seq<Event>)
    requires Consistent(s)
    ensures Consistent(Run(s, events))
    decreases |events|
  {
    if events != [] {
      StepKeepsConsistent(s, events[0]);
      RunKeepsConsistent(Step(s, events[0]), events[1..]);
    }
  }

  /** Every state reachable from the initial one is consistent. */
  lemma ReachableIsConsistent(events: seq<Event>)
    ensures Consistent(Run(Initial, events))
  {
    RunKeepsConsistent(Initial, events);
  }

  /** Once confirmed, a point stays confirmed and is never replaced: no
      handler clears it, not even the trash button, and "Confirmar Ponto"
      is only offered while nothing is confirmed. */
  lemma {:induction false} ConfirmedPointIsSticky(s: MapState, events: seq<Event>)
    requires s.confirmedPoint.Some?
    ensures Run(s, events).confirmedPoint == s.confirmedPoint
    decreases |events|
  {
    if events != [] {
      ConfirmedPointIsSticky(Step(s, events[0]), events[1..]);
    }
  }

  /** After a point is confirmed and the trash button pressed, a new click
      selects a point that the red pin does not show, and the bottom
      button skips "Confirmar Ponto" and goes straight to "Confirmar Via". */
  lemma ClearKeepsStaleConfirmation(s: MapState, p: LatLng)
    requires s.confirmedPoint.Some? && s.selectedPoint.Some?
    ensures var t := Run(s, [ClearPressed, MapClicked(p)]);
      && t.selectedPoint == Some(p)
      && !RedPinShown(t)
      && BottomAction(t) == ConfirmVia
      && t.confirmedPoint == s.confirmedPoint
  {
    var cleared := Step(s, ClearPressed);
    assert [ClearPressed, MapClicked(p)][1..] == [MapClicked(p)];
    assert Run(s, [ClearPressed, MapClicked(p)]) == Run(cleared, [MapClicked(p)]);
    assert Run(cleared, [MapClicked(p)]) == Run(Step(cleared, MapClicked(p)), []);
  }

  /** A disabled bottom button neither changes the page nor has an effect. */
  lemma DisabledButtonDoesNothing(s: MapState, interpolate: Interpolator, rt: Runtime)
    requires BottomDisabled(s)
    ensures Step(s, BottomPressed) == s
    ensures PressEffect(s, interpolate, rt) == Stay
  {
  }

  /** With the red pin drawn (in a reachable state) the bottom button is
      enabled and confirms the point, and conversely. */
  lemma RedPinMeansConfirmPonto(s: MapState)
    requires Consistent(s)
    ensures RedPinShown(s) <==> !BottomDisabled(s) && BottomAction(s) == ConfirmPonto
  {
  }

  /** The route is settled but nothing is selected: the bottom button is
      disabled, clicks are ignored, and the trash button and "Não há Vias"
      are hidden. */
  predicate Stuck(s: MapState) {
    s.viaConfirmada && s.selectedPoint.None?
  }

  /** A stuck page stays stuck whatever happens, and the bottom button
      never does anything again. */
  lemma {:induction false} StuckStaysStuck(s: MapState, events: seq<Event>, interpolate: Interpolator, rt: Runtime)
    requires Stuck(s)
    ensures Stuck(Run(s, events))
    ensures PressEffect(Run(s, events), interpolate, rt) == Stay
    decreases |events|
  {
    if events != [] {
      StuckStaysStuck(Step(s, events[0]), events[1..], interpolate, rt);
    }
  }

  /** The page gets stuck after a click, "Confirmar Ponto", the trash button
      and "Não há Vias": the trash button clears the selection but keeps the
      confirmation, so "Não há Vias" is still drawn and settles the route
      with nothing selected. Only leaving the page gets out of it. */
  lemma NoRouteAfterClearIsDeadEnd(s: MapState, p: LatLng, events: seq<Event>,
                                   interpolate: Interpolator, rt: Runtime)
    requires s.confirmedPoint.None? && !s.viaConfirmada
    ensures var t := Run(s, [MapClicked(p), BottomPressed, ClearPressed, NoViaPressed]);
      && Stuck(t)
      && PressEffect(Run(t, events), interpolate, rt) == Stay
  {
    var evs := [MapClicked(p), BottomPressed, ClearPressed, NoViaPressed];
    var s1 := Step(s, evs[0]);
    var s2 := Step(s1, evs[1]);
    var s3 := Step(s2, evs[2]);
    var s4 := Step(s3, evs[3]);
    assert evs[1..] == [evs[1], evs[2], evs[3]];
    assert [evs[1], evs[2], evs[3]][1..] == [evs[2], evs[3]];
    assert [evs[2], evs[3]][1..] == [evs[3]];
    assert Run(s3, [evs[3]]) == Run(s4, []);
    assert Run(s2, [evs[2], evs[3]]) == Run(s3, [evs[3]]);
    assert Run(s1, [evs[1], evs[2], evs[3]]) == Run(s2, [evs[2], evs[3]]);
    assert Stuck(s4);
    StuckStaysStuck(s4, events, interpolate, rt);
  }

  // ---------------------------------------------------------------------
  // The page object: its fields and one method per handler.

  class MapPage {
    var userLocation: Option<LatLng>
    var selectedPoint: Option<LatLng>
    var confirmedPoint: Option<LatLng>
    var interpolatedPoint: Option<LatLng>
    var polylines: seq<Polyline>
    var viaConfirmada: bool

    function State(): MapState
      reads this
    {
      MapState(userLocation, selectedPoint, confirmedPoint, interpolatedPoint, polylines, viaConfirmada)
    }

    constructor()
      ensures State() == Initial
    {
      userLocation, selectedPoint, confirmedPoint, interpolatedPoint := None, None, None, None;
      polylines, viaConfirmada := [], false;
    }

    method HandleMapClick(p: LatLng)
      modifies this
      ensures State() == Click(old(State()), p)
    {
      if !viaConfirmada {
        selectedPoint := Some(p);
      }
    }

    /** The address lookup's outcome only reaches the console: success and
        failure leave the same state. */
    method HandleConfirmPonto(addressLookup: Option<Address>)
      modifies this
      ensures State() == ConfirmPontoStep(old(State()))
    {
      if selectedPoint.None? {
        return;
      }
      confirmedPoint := selectedPoint;
    }

    method HandleConfirmVia(interpolate: Interpolator, rt: Runtime) returns (e: Effect)
      ensures e == ConfirmViaEffect(State(), interpolate, rt)
    {
      if selectedPoint.None? || |polylines| == 0 {
        return Stay;
      }
      var interpolated := interpolate(selectedPoint.value, polylines);
      if interpolated.Some? {
        e := Navigate(FormLocation(rt, selectedPoint.value, Some(interpolated.value)));
      } else {
        e := Alert(InterpolationFailedMessage);
      }
    }

    method HandleClear()
      modifies this
      ensures State() == Clear(old(State()))
    {
      selectedPoint := None;
      viaConfirmada := false;
      polylines := [];
    }

    method HandleCadastrar(rt: Runtime) returns (e: Effect)
      ensures e == CadastrarEffect(State(), rt)
    {
      if userLocation.None? {
        return Stay;
      }
      e := Navigate(FormLocation(rt, userLocation.value, None));
    }

    /** The "Não há Vias" button's handler; the button exists only while
        `NoViaOffered` holds. */
    method HandleNoVia()
      requires NoViaOffered(State())
      modifies this
      ensures State() == NoVia(old(State()))
    {
      interpolatedPoint := Some(NoViaSentinel);
      viaConfirmada := true;
    }

    method OnPosition(loc: LatLng)
      modifies this
      ensures State() == Located(old(State()), loc)
    {
      userLocation := Some(loc);
    }

    method OnPositionError()
      modifies this
      ensures State() == LocationFailed(old(State()))
    {
      userLocation := Some(DefaultLocation);
    }

    method OnViasLoaded(vias: seq<Polyline>)
      modifies this
      ensures State() == ViasLoaded(old(State()), vias)
    {
      polylines := vias;
    }

    /** A click on the bottom button: the handler `BottomAction` names,
        unless the button is disabled. */
    method PressBottomButton(interpolate: Interpolator, rt: Runtime, addressLookup: Option<Address>)
      returns (e: Effect)
      modifies this
      ensures State() == Step(old(State()), BottomPressed)
      ensures e == PressEffect(old(State()), interpolate, rt)
    {
      if selectedPoint.None? {
        return Stay;
      }
      if viaConfirmada {
        e := HandleCadastrar(rt);
      } else if confirmedPoint.Some? {
        e := HandleConfirmVia(interpolate, rt);
      } else {
        HandleConfirmPonto(addressLookup);
        e := Stay;
      }
    }
  }
}
