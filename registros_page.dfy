/** The list of locally stored records (`RegistrosPage`): one summary card
    per record, edit and delete buttons, and the button that sends the
    pending records to the server. */
module Registros {
  import opened Js
  import opened Pontos

  function SimNao(b: bool): (t: string)
    ensures t == "Sim" || t == "Não"
    ensures t == "Sim" <==> b
  {
    if b then "Sim" else "Não"
  }

  /** `syncStatus || 'Pending'`. */
  function StatusText(s: Option<string>): (t: string)
    ensures TruthyText(s) ==> t == s.value
    ensures !TruthyText(s) ==> t == "Pending"
  {
    if s.Some? && s.value != "" then s.value else "Pending"
  }

  /** The lines of one record's card. */
  datatype CardSummary = CardSummary(
    haAbrigo: string,
    patologias: string,
    acessibilidade: string,
    linhas: string,
    status: string)

  /** "Há Abrigo" says whether there is a shelter, "Patologias" whether
      some shelter has a pathology, "Acessibilidade" whether there is a
      tactile floor or a ramp, "Linhas" whether STPC lines stop there (the
      school-line flag is not shown), and the status falls back to
      "Pending". */
  function Summary(p: Ponto): (c: CardSummary)
    ensures c.haAbrigo == SimNao(|p.abrigos| > 0)
    ensures c.patologias == SimNao(exists i :: 0 <= i < |p.abrigos| && p.abrigos[i].temPatologia)
    ensures c.acessibilidade == SimNao(p.pisoTatil || p.rampa)
    ensures c.linhas == SimNao(p.linhaStpc)
    ensures c.haAbrigo == "Sim" <==> |p.abrigos| > 0
    ensures c.patologias == "Sim" <==> exists i :: 0 <= i < |p.abrigos| && p.abrigos[i].temPatologia
    ensures c.acessibilidade == "Sim" <==> p.pisoTatil || p.rampa
    ensures c.linhas == "Sim" <==> p.linhaStpc
    ensures c.status == StatusText(p.syncStatus)
  {
    CardSummary(
      SimNao(|p.abrigos| > 0),
      SimNao(AnyPatologia(p.abrigos)),
      SimNao(p.pisoTatil || p.rampa),
      SimNao(p.linhaStpc),
      StatusText(p.syncStatus))
  }

  /** The card ignores the school-line flag and the stored `patologia`
      flag: the pathology line is derived from the shelters. */
  lemma SummaryIgnoresStoredFlags(p: Ponto, escolares: bool, patologia: bool)
    ensures Summary(p.(linhaEscolares := escolares, patologia := patologia)) == Summary(p)
  {
  }

  /** The empty-state message is shown exactly when there is no record,
      so no card is drawn with it. */
  function ShowsEmptyState(pontos: seq<Ponto>): (b: bool)
    ensures b <==> pontos == []
  {
    |pontos| == 0
  }

  /** The sync button is disabled while a sync runs or nothing is pending:
      an enabled button is never pressed during a sync, and `handleSync`
      always calls `syncPontos` when it is pressed. */
  function SyncDisabled(syncing: bool, pendingCount: int): (b: bool)
    ensures !b ==> !syncing && pendingCount != 0
    ensures syncing || pendingCount == 0 ==> b
  {
    syncing || pendingCount == 0
  }

  /** `handleEdit`: `/?edit=<id>`, the map screen's route, carrying only
      the printed id. */
  function EditLocation(rt: Runtime, id: Number): (l: Location)
    ensures l.path == "/" && l.query.Keys == {"edit"} && l.query["edit"] == rt.show(id)
  {
    Location("/", map["edit" := rt.show(id)])
  }

  /** The pencil button: fires only for a record with a truthy id. */
  function EditEffect(rt: Runtime, p: Ponto): (e: Effect)
    ensures TruthyId(p.id) ==> e == Navigate(EditLocation(rt, p.id.value))
    ensures !TruthyId(p.id) ==> e == Stay
  {
    if TruthyId(p.id) then Navigate(EditLocation(rt, p.id.value)) else Stay
  }

  /** The trash button calls `handleDelete` only for a record with a
      truthy id: never for a record without an id, with id 0 or with NaN. */
  function DeleteFires(p: Ponto): (b: bool)
    ensures b ==> p.id.Some? && p.id.value != NaN && p.id.value != Num(0.0)
    ensures p.id.Some? && p.id.value.Num? && p.id.value.value != 0.0 ==> b
  {
    TruthyId(p.id)
  }

  /** The pencil and the trash button share one guard: the trash button
      fires exactly for the records the pencil navigates for. */
  lemma DeleteAndEditShareGuard(rt: Runtime, p: Ponto)
    ensures DeleteFires(p) <==> EditEffect(rt, p) != Stay
  {
  }

  const DeleteNotImplemented := "Delete not implemented yet"

  class RegistrosPage {
    var syncing: bool

    constructor()
      ensures !syncing
    {
      syncing := false;
    }

    /** `handleSync`, with `pendingCount` from the store and whether
        `syncPontos` resolved. Returns whether `syncPontos` was called.
        Nothing is called when nothing is pending; a rejected sync skips
        the reset, so the flag stays set and the button disabled. */
    method HandleSync(pendingCount: int, syncResolves: bool) returns (called: bool)
      modifies this
      ensures called <==> pendingCount != 0
      ensures !called ==> syncing == old(syncing)
      ensures called ==> syncing == !syncResolves
      ensures called && !syncResolves ==> SyncDisabled(syncing, pendingCount)
    {
      if pendingCount == 0 {
        return false;
      }
      syncing := true;
      called := true;
      if syncResolves {
        syncing := false;
      }
    }

    /** `handleDelete` only writes a line to the console, returned here: it
        changes no field (no `modifies`) and deletes no record. */
    method HandleDelete(id: Number) returns (log: string)
      ensures log == DeleteNotImplemented
    {
      log := DeleteNotImplemented;
    }
  }
}
