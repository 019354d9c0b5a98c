/** The survey form (`FormularioPage`): reads the coordinates and the edit
    id from the URL, fills the address (reverse geocoding for a new stop,
    the stored record when editing), and saves the record through the
    local store's `addPonto` or `updatePonto`. */
module Formulario {
  import opened Js
  import opened Pontos

  // ---------------------------------------------------------------------
  // The URL query

  /** `query.get(key) || '0'`: a missing or empty parameter reads as "0". */
  function QueryText(q: map<string, string>, key: string): (t: string)
    ensures key in q && q[key] != "" ==> t == q[key]
    ensures key !in q || q[key] == "" ==> t == "0"
  {
    if key in q && q[key] != "" then q[key] else "0"
  }

  /** What the page reads from its URL once, when it is created. */
  datatype Params = Params(lat: Number, lng: Number, ilat: Number, ilng: Number, editId: Option<string>)

  function ReadQuery(rt: Runtime, q: map<string, string>): (p: Params)
    ensures p.lat == rt.parseFloat(QueryText(q, "lat"))
    ensures p.lng == rt.parseFloat(QueryText(q, "lng"))
    ensures p.ilat == rt.parseFloat(QueryText(q, "ilat"))
    ensures p.ilng == rt.parseFloat(QueryText(q, "ilng"))
    ensures p.editId == (if "edit" in q then Some(q["edit"]) else None)
  {
    Params(
      rt.parseFloat(QueryText(q, "lat")), rt.parseFloat(QueryText(q, "lng")),
      rt.parseFloat(QueryText(q, "ilat")), rt.parseFloat(QueryText(q, "ilng")),
      if "edit" in q then Some(q["edit"]) else None)
  }

  /** Each coordinate missing from the URL is 0; in particular a form
      opened without `ilat`/`ilng` has the interpolated point (0,0). */
  lemma MissingCoordinatesAreZero(rt: Runtime, q: map<string, string>)
    requires rt.parseFloat("0") == Num(0.0)
    ensures "lat" !in q ==> ReadQuery(rt, q).lat == Num(0.0)
    ensures "lng" !in q ==> ReadQuery(rt, q).lng == Num(0.0)
    ensures "ilat" !in q ==> ReadQuery(rt, q).ilat == Num(0.0)
    ensures "ilng" !in q ==> ReadQuery(rt, q).ilng == Num(0.0)
  {
  }

  // ---------------------------------------------------------------------
  // The address text

  predicate StartsWithSep(s: string) {
    |s| >= 2 && s[..2] == ", "
  }

  predicate EndsWithSep(s: string) {
    |s| >= 2 && s[|s| - 2..] == ", "
  }

  /** `replace(/^, /, '')`: one leading ", " removed, if there is one. */
  function DropLeadingSep(s: string): (r: string)
    ensures StartsWithSep(s) ==> s == ", " + r
    ensures !StartsWithSep(s) ==> r == s
  {
    if StartsWithSep(s) then s[2..] else s
  }

  /** `replace(/, $/, '')`: one trailing ", " removed, if there is one. */
  function DropTrailingSep(s: string): (r: string)
    ensures EndsWithSep(s) ==> s == r + ", "
    ensures !EndsWithSep(s) ==> r == s
  {
    if EndsWithSep(s) then s[..|s| - 2] else s
  }

  /** `${road}, ${neighbourhood}, ${city}`. */
  function JoinAddress(a: Address): string {
    a.road + ", " + a.neighbourhood + ", " + a.city
  }

  /** The address the form shows after a successful lookup: one ", " is
      cut from the front of the joined text exactly when it starts with
      one, then one from the back of what is left exactly when that ends
      with one. */
  function CleanAddress(a: Address): (r: string)
    ensures |JoinAddress(a)| - 4 <= |r| <= |JoinAddress(a)|
    ensures var full := JoinAddress(a);
      var rest := if StartsWithSep(full) then full[2..] else full;
      && (EndsWithSep(rest) ==> rest == r + ", ")
      && (!EndsWithSep(rest) ==> r == rest)
  {
    DropTrailingSep(DropLeadingSep(JoinAddress(a)))
  }

  /** The cleaned address is the joined text with at most one ", " cut from
      the front (exactly when it starts with one) and at most one cut from
      what is left at the back (exactly when that ends with one); nothing in
      between changes. */
  lemma CleanAddressTrimsEnds(a: Address)
    ensures var full := JoinAddress(a);
      var front := if StartsWithSep(full) then 2 else 0;
      var r := CleanAddress(a);
      && front + |r| <= |full|
      && r == full[front..front + |r|]
      && (|full| - front - |r| == 0 || |full| - front - |r| == 2)
      && (|full| - front - |r| == 2 ==> full[front + |r|..] == ", ")
      && (|full| - front - |r| == 2 <==> EndsWithSep(full[front..]))
  {
    var full := JoinAddress(a);
    var rest := DropLeadingSep(full);
    var front := if StartsWithSep(full) then 2 else 0;
    assert rest == full[front..];
  }

  /** With all three parts present (none itself beginning or ending in
      ", ") the address is the plain join. */
  lemma CompleteAddressUnchanged(a: Address)
    requires a.road != "" && !StartsWithSep(a.road)
    requires a.city != "" && !EndsWithSep(a.city)
    ensures CleanAddress(a) == JoinAddress(a)
  {
    var full := JoinAddress(a);
    assert |a.road| < 2 || full[..2] == a.road[..2];
    if |a.road| == 1 {
      assert full[..2] == [a.road[0], ','];
    }
    assert !StartsWithSep(full);
    assert |a.city| < 2 || full[|full| - 2..] == a.city[|a.city| - 2..];
    if |a.city| == 1 {
      assert full[|full| - 2..] == [' ', a.city[0]];
    }
  }

  /** A missing road and city leave just the neighbourhood. */
  lemma OnlyNeighbourhood(nb: string)
    ensures CleanAddress(Address("", nb, "")) == nb
  {
    var full := JoinAddress(Address("", nb, ""));
    assert full == ", " + nb + ", ";
    assert DropLeadingSep(full) == nb + ", ";
  }

  /** An empty lookup result cleans to the empty address, which save refuses. */
  lemma EmptyLookupGivesEmptyAddress()
    ensures CleanAddress(Address("", "", "")) == ""
  {
    OnlyNeighbourhood("");
  }

  /** A missing neighbourhood is not removed: the middle keeps ", , ". */
  lemma MissingNeighbourhoodKept(road: string, city: string)
    requires road != "" && !StartsWithSep(road)
    requires city != "" && !EndsWithSep(city)
    ensures CleanAddress(Address(road, "", city)) == road + ", , " + city
  {
    CompleteAddressUnchanged(Address(road, "", city));
  }

  // ---------------------------------------------------------------------
  // The form fields

  datatype Fields = Fields(
    endereco: string,
    linhaEscolares: bool,
    linhaStpc: bool,
    baia: bool,
    rampa: bool,
    pisoTatil: bool,
    patologia: bool,
    dataVisita: string,
    abrigos: seq<Abrigo>)

  /** The fields of a new form; `now` is the current date and time. */
  function InitialFields(rt: Runtime, now: string): (f: Fields)
    ensures f.endereco == "" && f.abrigos == [] && f.dataVisita == rt.formatDateForInput(now)
    ensures !f.linhaEscolares && !f.linhaStpc && !f.baia && !f.rampa && !f.pisoTatil && !f.patologia
  {
    Fields("", false, false, false, false, false, false, rt.formatDateForInput(now), [])
  }

  /** `pontos.find(p => p.id === id)`, as the position of the first match. */
  function FindIndex(pontos: seq<Ponto>, id: Number): (r: Option<nat>)
    ensures r.Some? ==> r.value < |pontos| && StrictEquals(pontos[r.value].id, id)
    ensures r.Some? ==> forall j :: 0 <= j < r.value ==> !StrictEquals(pontos[j].id, id)
    ensures r.None? <==> forall j :: 0 <= j < |pontos| ==> !StrictEquals(pontos[j].id, id)
  {
    if pontos == [] then None
    else if StrictEquals(pontos[0].id, id) then Some(0)
    else
      match FindIndex(pontos[1..], id)
      case None => None
      case Some(k) => Some(k + 1)
  }

  /** Edit mode: every field is copied from the stored record, the visit
      date reformatted for the date input. */
  function Prefill(p: Ponto, rt: Runtime): (f: Fields)
    ensures f.endereco == p.endereco && f.abrigos == p.abrigos && f.patologia == p.patologia
    ensures f.linhaEscolares == p.linhaEscolares && f.linhaStpc == p.linhaStpc && f.baia == p.baia
    ensures f.rampa == p.rampa && f.pisoTatil == p.pisoTatil
    ensures f.dataVisita == rt.formatDateForInput(p.dataVisita)
  {
    Fields(p.endereco, p.linhaEscolares, p.linhaStpc, p.baia, p.rampa, p.pisoTatil,
           p.patologia, rt.formatDateForInput(p.dataVisita), p.abrigos)
  }

  /** `init`: with an edit id, copy the record with that id if there is one
      and otherwise change nothing; without one, show the looked-up address
      if the lookup succeeded and otherwise change nothing. */
  function InitStep(f: Fields, params: Params, pontos: seq<Ponto>, addressLookup: Option<Address>, rt: Runtime)
    : (r: Fields)
    ensures TruthyText(params.editId) ==>
      r == f || exists i :: 0 <= i < |pontos| && StrictEquals(pontos[i].id, rt.parseInt(params.editId.value)) && r == Prefill(pontos[i], rt)
    ensures !TruthyText(params.editId) ==> r.(endereco := f.endereco) == f
    ensures !TruthyText(params.editId) && addressLookup.Some? ==> r.endereco == CleanAddress(addressLookup.value)
    ensures !TruthyText(params.editId) && addressLookup.None? ==> r == f
  {
    if TruthyText(params.editId) then
      match FindIndex(pontos, rt.parseInt(params.editId.value))
      case Some(i) => Prefill(pontos[i], rt)
      case None => f
    else
      match addressLookup
      case Some(a) => f.(endereco := CleanAddress(a))
      case None => f
  }

  /** In edit mode the fields are those of the first record whose id is
      the parsed edit id; when no record has that id nothing changes. */
  lemma EditCopiesMatchingRecord(f: Fields, params: Params, pontos: seq<Ponto>, addressLookup: Option<Address>, rt: Runtime)
    requires TruthyText(params.editId)
    ensures var id := rt.parseInt(params.editId.value);
      forall i ::
        (0 <= i < |pontos| && StrictEquals(pontos[i].id, id)
         && forall j :: 0 <= j < i ==> !StrictEquals(pontos[j].id, id)) ==>
          InitStep(f, params, pontos, addressLookup, rt) == Prefill(pontos[i], rt)
    ensures (forall j :: 0 <= j < |pontos| ==> !StrictEquals(pontos[j].id, rt.parseInt(params.editId.value))) ==>
      InitStep(f, params, pontos, addressLookup, rt) == f
  {
  }

  /** An edit id that is not a number matches no record, not even one
      without an id. */
  lemma NaNEditIdMatchesNothing(pontos: seq<Ponto>)
    ensures FindIndex(pontos, NaN) == None
  {
  }

  // ---------------------------------------------------------------------
  // Saving

  const AddressRequired := "Endereço obrigatório"
  const NotLoggedIn := "Usuário não logado"
  const SaveFailed := "Erro ao salvar"
  const PendingStatus := "pending"

  /** The record literal of `handleSave`; `iso` is the visit date as ISO text. */
  function BuildPonto(f: Fields, params: Params, userId: Number, iso: string, rt: Runtime): (p: Ponto)
    ensures p.id == (if TruthyText(params.editId) then Some(rt.parseInt(params.editId.value)) else None)
    ensures p.patologia <==> exists i :: 0 <= i < |f.abrigos| && f.abrigos[i].temPatologia
    ensures p.syncStatus == Some(PendingStatus)
    ensures p.imgBlobPaths == [] && p.imagensPatologiaPaths == []
    ensures p.latitude == params.lat && p.longitude == params.lng
    ensures p.latitudeInterpolado == params.ilat && p.longitudeInterpolado == params.ilng
    ensures p.abrigos == f.abrigos && p.endereco == f.endereco && p.idUsuario == userId
    ensures p.dataVisita == iso
    ensures p.linhaEscolares == f.linhaEscolares && p.linhaStpc == f.linhaStpc && p.baia == f.baia
    ensures p.rampa == f.rampa && p.pisoTatil == f.pisoTatil
  {
    Ponto(
      if TruthyText(params.editId) then Some(rt.parseInt(params.editId.value)) else None,
      userId, f.endereco, params.lat, params.lng,
      f.linhaEscolares, f.linhaStpc, f.baia, f.rampa, f.pisoTatil,
      AnyPatologia(f.abrigos),
      params.ilat, params.ilng, iso, f.abrigos, [], [], Some(PendingStatus))
  }

  datatype StoreCall = AddPonto | UpdatePonto

  /** What a press of "Salvar Parada" leads to. `DateThrew`: the visit date
      is not a valid date, `toISOString` throws before the store is called
      and the handler ends with the exception. */
  datatype SaveOutcome =
    | Refused(message: string)
    | DateThrew
    | Stored(call: StoreCall, record: Ponto)

  /** `handleSave` up to the store call: address check, then user check,
      then the record, then update when the edit id parses to a truthy id
      and add otherwise. */
  function SaveDecision(f: Fields, params: Params, userId: Option<Number>, rt: Runtime): (o: SaveOutcome)
    ensures f.endereco == "" ==> o == Refused(AddressRequired)
    ensures f.endereco != "" && !TruthyId(userId) ==> o == Refused(NotLoggedIn)
    ensures f.endereco != "" && TruthyId(userId) && rt.toIsoString(f.dataVisita).None? ==> o == DateThrew
    ensures o.Stored? <==> f.endereco != "" && TruthyId(userId) && rt.toIsoString(f.dataVisita).Some?
    ensures o.Stored? ==> o.record == BuildPonto(f, params, userId.value, rt.toIsoString(f.dataVisita).value, rt)
    ensures o.Stored? ==> (o.call == UpdatePonto <==> TruthyText(params.editId) && Truthy(rt.parseInt(params.editId.value)))
  {
    if f.endereco == "" then Refused(AddressRequired)
    else if !TruthyId(userId) then Refused(NotLoggedIn)
    else match rt.toIsoString(f.dataVisita)
      case None => DateThrew
      case Some(iso) =>
        var record := BuildPonto(f, params, userId.value, iso, rt);
        Stored(if TruthyText(params.editId) && TruthyId(record.id) then UpdatePonto else AddPonto, record)
  }

  /** The address check comes first: without an address nothing is stored,
      whoever is logged in. */
  lemma NoAddressNoStore(f: Fields, params: Params, u: Option<Number>, v: Option<Number>, rt: Runtime)
    requires f.endereco == ""
    ensures !SaveDecision(f, params, u, rt).Stored?
    ensures SaveDecision(f, params, u, rt) == SaveDecision(f, params, v, rt)
  {
  }

  /** Every stored record, new or edited, is pending, has no top-level
      photos, and carries the form's shelters. */
  lemma StoredRecordIsPending(f: Fields, params: Params, u: Option<Number>, rt: Runtime)
    requires SaveDecision(f, params, u, rt).Stored?
    ensures var p := SaveDecision(f, params, u, rt).record;
      p.syncStatus == Some(PendingStatus) && p.imgBlobPaths == [] && p.imagensPatologiaPaths == []
      && p.abrigos == f.abrigos
  {
  }

  /** The `patologia` loaded into the form is never saved: the stored flag
      depends only on the shelters. */
  lemma LoadedPatologiaIgnored(f: Fields, b: bool, params: Params, u: Option<Number>, rt: Runtime)
    ensures SaveDecision(f.(patologia := b), params, u, rt) == SaveDecision(f, params, u, rt)
  {
  }

  /** An edit id that does not parse, or parses to 0, is saved through
      `addPonto`, carrying that unusable id. */
  lemma FalsyEditIdIsAdded(f: Fields, params: Params, u: Option<Number>, rt: Runtime)
    requires TruthyText(params.editId) && !Truthy(rt.parseInt(params.editId.value))
    requires SaveDecision(f, params, u, rt).Stored?
    ensures SaveDecision(f, params, u, rt).call == AddPonto
    ensures SaveDecision(f, params, u, rt).record.id == Some(rt.parseInt(params.editId.value))
  {
  }

  /** Saving an edited record unchanged keeps its address, flags and
      shelters, but its coordinates come from the URL: a form URL holding
      only `edit` (no page builds one) would store all four as 0. */
  lemma EditSaveResetsCoordinates(p: Ponto, rt: Runtime, q: map<string, string>, u: Option<Number>)
    requires q.Keys == {"edit"} && rt.parseFloat("0") == Num(0.0)
    requires SaveDecision(Prefill(p, rt), ReadQuery(rt, q), u, rt).Stored?
    ensures var r := SaveDecision(Prefill(p, rt), ReadQuery(rt, q), u, rt).record;
      && r.endereco == p.endereco && r.abrigos == p.abrigos
      && r.linhaEscolares == p.linhaEscolares && r.linhaStpc == p.linhaStpc && r.baia == p.baia
      && r.rampa == p.rampa && r.pisoTatil == p.pisoTatil
      && r.latitude == Num(0.0) && r.longitude == Num(0.0)
      && r.latitudeInterpolado == Num(0.0) && r.longitudeInterpolado == Num(0.0)
  {
    MissingCoordinatesAreZero(rt, q);
  }

  /** A new stop whose address lookup failed cannot be saved until an
      address is typed. */
  lemma FailedLookupBlocksSave(rt: Runtime, now: string, params: Params, pontos: seq<Ponto>, u: Option<Number>)
    requires !TruthyText(params.editId)
    ensures SaveDecision(InitStep(InitialFields(rt, now), params, pontos, None, rt), params, u, rt)
      == Refused(AddressRequired)
  {
  }

  // ---------------------------------------------------------------------
  // The page object

  class FormularioPage {
    const params: Params
    var endereco: string
    var linhaEscolares: bool
    var linhaStpc: bool
    var baia: bool
    var rampa: bool
    var pisoTatil: bool
    var patologia: bool
    var dataVisita: string
    var abrigos: seq<Abrigo>
    var loading: bool

    function State(): Fields
      reads this
    {
      Fields(endereco, linhaEscolares, linhaStpc, baia, rampa, pisoTatil, patologia, dataVisita, abrigos)
    }

    /** The page as it mounts on the URL query `q` at time `now`. */
    constructor(rt: Runtime, q: map<string, string>, now: string)
      ensures params == ReadQuery(rt, q)
      ensures State() == InitialFields(rt, now) && !loading
    {
      params := ReadQuery(rt, q);
      endereco := "";
      linhaEscolares, linhaStpc, baia, rampa, pisoTatil, patologia := false, false, false, false, false, false;
      dataVisita := rt.formatDateForInput(now);
      abrigos := [];
      loading := false;
    }

    /** `init`, given the records in the store and, for a new stop, the
        outcome of the address lookup. */
    method Init(rt: Runtime, pontos: seq<Ponto>, addressLookup: Option<Address>)
      modifies this
      ensures State() == InitStep(old(State()), params, pontos, addressLookup, rt)
      ensures loading == old(loading)
    {
      if params.editId.Some? && params.editId.value != "" {
        var id := rt.parseInt(params.editId.value);
        var found := FindIndex(pontos, id);
        if found.Some? {
          CopyFrom(pontos[found.value], rt);
        }
      } else if addressLookup.Some? {
        endereco := CleanAddress(addressLookup.value);
      }
    }

    /** The setters `init` runs in edit mode, one per field. */
    method CopyFrom(p: Ponto, rt: Runtime)
      modifies this
      ensures State() == Prefill(p, rt)
      ensures loading == old(loading)
    {
      endereco := p.endereco;
      linhaEscolares := p.linhaEscolares;
      linhaStpc := p.linhaStpc;
      baia := p.baia;
      rampa := p.rampa;
      pisoTatil := p.pisoTatil;
      patologia := p.patologia;
      dataVisita := rt.formatDateForInput(p.dataVisita);
      abrigos := p.abrigos;
    }

    /** `handleSave`. `userId` is what the session reports and
        `storeSucceeds` whether the store call resolved. */
    method HandleSave(rt: Runtime, userId: Option<Number>, storeSucceeds: bool)
      returns (o: SaveOutcome, e: Effect)
      modifies this`loading
      ensures o == SaveDecision(State(), params, userId, rt)
      ensures o.Refused? ==> e == Alert(o.message) && loading == old(loading)
      ensures o.DateThrew? ==> e == Stay && loading
      ensures o.Stored? ==> !loading
      ensures o.Stored? && storeSucceeds ==> e == Navigate(Location("/registros", map[]))
      ensures o.Stored? && !storeSucceeds ==> e == Alert(SaveFailed)
    {
      if endereco == "" {
        return Refused(AddressRequired), Alert(AddressRequired);
      }
      if !TruthyId(userId) {
        return Refused(NotLoggedIn), Alert(NotLoggedIn);
      }
      loading := true;
      var iso := rt.toIsoString(dataVisita);
      if iso.None? {
        return DateThrew, Stay;
      }
      var ponto := BuildPonto(State(), params, userId.value, iso.value, rt);
      if params.editId.Some? && params.editId.value != "" && TruthyId(ponto.id) {
        o := Stored(UpdatePonto, ponto);
      } else {
        o := Stored(AddPonto, ponto);
      }
      if storeSucceeds {
        e := Navigate(Location("/registros", map[]));
      } else {
        e := Alert(SaveFailed);
      }
      loading := false;
    }
  }
}
