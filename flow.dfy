/** How the pages hand data to each other: the map screen's links open the
    form, the form stores a record, and the records list summarises it. */
module Flow {
  import opened Js
  import opened Pontos
  import Map
  import Formulario
  import Registros

  /** A number the map writes into a link is read back unchanged by the
      form: JavaScript prints a non-empty text that `parseFloat` reads as
      the same number. */
  predicate ReadsBack(rt: Runtime, x: real) {
    rt.show(Num(x)) != "" && rt.parseFloat(rt.show(Num(x))) == Num(x)
  }

  /** "Confirmar Via" with a successful interpolation opens the form on the
      selected point with the interpolated point, outside edit mode. */
  lemma ConfirmViaOpensFormAtBothPoints(s: Map.MapState, interpolate: Map.Interpolator, rt: Runtime)
    requires s.selectedPoint.Some? && s.polylines != []
    requires interpolate(s.selectedPoint.value, s.polylines).Some?
    requires ReadsBack(rt, s.selectedPoint.value.lat) && ReadsBack(rt, s.selectedPoint.value.lng)
    requires var i := interpolate(s.selectedPoint.value, s.polylines).value;
      ReadsBack(rt, i.lat) && ReadsBack(rt, i.lng)
    ensures var e := Map.ConfirmViaEffect(s, interpolate, rt);
      var p := s.selectedPoint.value;
      var i := interpolate(p, s.polylines).value;
      && e.Navigate? && e.to.path == "/formulario"
      && Formulario.ReadQuery(rt, e.to.query)
         == Formulario.Params(Num(p.lat), Num(p.lng), Num(i.lat), Num(i.lng), None)
  {
  }

  /** The "no route" path: after "Não há Vias" the bottom button opens the
      form at the user's own location (not at the confirmed point) and the
      form's interpolated point is (0,0), the same point the map recorded
      as its "no route" sentinel. */
  lemma NoRoutePathOpensFormAtZero(s: Map.MapState, interpolate: Map.Interpolator, rt: Runtime)
    requires Map.NoViaOffered(s) && s.selectedPoint.Some? && s.userLocation.Some?
    requires ReadsBack(rt, s.userLocation.value.lat) && ReadsBack(rt, s.userLocation.value.lng)
    requires rt.parseFloat("0") == Num(0.0)
    ensures var t := Map.Step(s, Map.NoViaPressed);
      var e := Map.PressEffect(t, interpolate, rt);
      var u := s.userLocation.value;
      && t.interpolatedPoint == Some(Map.NoViaSentinel)
      && Map.BottomLabel(t) == "Cadastrar Ponto"
      && e.Navigate? && e.to.path == "/formulario"
      && Formulario.ReadQuery(rt, e.to.query)
         == Formulario.Params(Num(u.lat), Num(u.lng), Num(Map.NoViaSentinel.lat), Num(Map.NoViaSentinel.lng), None)
  {
  }

  /** The whole route-confirmation flow from a fresh page: position, routes,
      a click and "Confirmar Ponto" leave the point confirmed, and the next
      press of the same button interpolates and opens the form. */
  lemma ConfirmFlowFromFreshPage(u: Map.LatLng, vias: seq<Map.Polyline>, p: Map.LatLng,
                                 interpolate: Map.Interpolator, rt: Runtime)
    requires vias != [] && interpolate(p, vias).Some?
    ensures var s := Map.Run(Map.Initial,
        [Map.PositionFound(u), Map.RoutesArrived(vias), Map.MapClicked(p), Map.BottomPressed]);
      && s.confirmedPoint == Some(p) && s.selectedPoint == Some(p)
      && !Map.RedPinShown(s) && Map.NoViaOffered(s)
      && Map.BottomLabel(s) == "Confirmar Via"
      && Map.PressEffect(s, interpolate, rt) == Navigate(Map.FormLocation(rt, p, interpolate(p, vias)))
  {
    var evs := [Map.PositionFound(u), Map.RoutesArrived(vias), Map.MapClicked(p), Map.BottomPressed];
    var s1 := Map.Step(Map.Initial, evs[0]);
    var s2 := Map.Step(s1, evs[1]);
    var s3 := Map.Step(s2, evs[2]);
    var s4 := Map.Step(s3, evs[3]);
    assert evs[1..] == [evs[1], evs[2], evs[3]];
    assert [evs[1], evs[2], evs[3]][1..] == [evs[2], evs[3]];
    assert [evs[2], evs[3]][1..] == [evs[3]];
    assert Map.Run(s3, [evs[3]]) == Map.Run(s4, []);
    assert Map.Run(s2, [evs[2], evs[3]]) == Map.Run(s3, [evs[3]]);
    assert Map.Run(s1, [evs[1], evs[2], evs[3]]) == Map.Run(s2, [evs[2], evs[3]]);
  }

  /** No link of the map screen carries `edit`, and the records list's edit
      link goes to the map screen (`/`), which does not read it: the form's
      edit mode is not reached through these pages. */
  lemma EditModeNotReachedFromPages(s: Map.MapState, interpolate: Map.Interpolator, rt: Runtime, id: Number)
    ensures var e := Map.PressEffect(s, interpolate, rt);
      e.Navigate? ==> Formulario.ReadQuery(rt, e.to.query).editId.None?
    ensures Registros.EditLocation(rt, id).path == "/"
  {
  }

  /** A record the form stores is listed as "pending", and its card's
      "Patologias" line agrees with the stored `patologia` flag. */
  lemma StoredRecordCard(f: Formulario.Fields, params: Formulario.Params, u: Option<Number>, rt: Runtime)
    requires Formulario.SaveDecision(f, params, u, rt).Stored?
    ensures var p := Formulario.SaveDecision(f, params, u, rt).record;
      && Registros.Summary(p).status == Formulario.PendingStatus
      && (Registros.Summary(p).patologias == "Sim" <==> p.patologia)
      && (Registros.Summary(p).haAbrigo == "Sim" <==> |f.abrigos| > 0)
  {
  }
}
