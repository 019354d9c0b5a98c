/** The map of stops already in the server's database (`ParadasBancoPage`),
    optionally filtered by administrative region (RA) or by basin. */
module ParadasBanco {
  import opened Js

  datatype FilterType = RA | Bacia

  /** The remote listings the page can request. */
  datatype Endpoint = GetAll | GetByRa(ra: string) | GetByBacia(bacia: string)

  /** A stop as the server lists it. */
  datatype RemotePoint = RemotePoint(
    id: int,
    latitude: real,
    longitude: real,
    endereco: Option<string>,
    bacia: Option<string>,
    ra: Option<string>,
    codigo: Option<string>)

  /** The administrative regions offered by the second selector. */
  const Ras: seq<string> := [
    "ÁGUAS CLARAS", "BRASÍLIA", "BRAZLÂNDIA", "CANDANGOLÂNDIA", "CEILÂNDIA", "CRUZEIRO",
    "GAMA", "GUARÁ", "ITAPOÃ", "JARDIM BOTÂNICO", "LAGO NORTE", "LAGO SUL",
    "NÚCLEO BANDEIRANTE", "PARANOÁ", "PARK WAY", "PLANALTINA", "RECANTO DAS EMAS",
    "RIACHO FUNDO", "RIACHO FUNDO II", "SAMAMBAIA", "SANTA MARIA", "SÃO SEBASTIÃO",
    "SCIA", "SIA", "SOBRADINHO", "SOBRADINHO II", "SUDOESTE/OCTOGONAL", "TAGUATINGA",
    "VARJÃO", "VICENTE PIRES"]

  /** The basins offered by the second selector. */
  const Bacias: seq<string> := ["Sem Bacia", "Norte", "Sudeste", "Sudoeste", "Centro-Oeste", "Noroeste"]

  /** The `if`/`else if`/`else` chain of `load`: a region listing when a
      region is chosen, a basin listing when a basin is chosen, and the full
      listing otherwise. */
  function ChooseEndpoint(filterType: Option<FilterType>, selectedFilter: string): (e: Endpoint)
    ensures e == GetByRa(selectedFilter) <==> filterType == Some(RA) && selectedFilter != ""
    ensures e == GetByBacia(selectedFilter) <==> filterType == Some(Bacia) && selectedFilter != ""
    ensures e == GetAll <==> filterType.None? || selectedFilter == ""
  {
    if filterType == Some(RA) && selectedFilter != "" then GetByRa(selectedFilter)
    else if filterType == Some(Bacia) && selectedFilter != "" then GetByBacia(selectedFilter)
    else
      assert filterType.Some? ==> filterType.value.RA? || filterType.value.Bacia?;
      GetAll
  }

  /** The value of the type selector's options: "" (Todos), "RA", "Bacia". */
  predicate IsTypeOption(value: string) {
    value == "" || value == "RA" || value == "Bacia"
  }

  /** `e.target.value as 'RA' | 'Bacia' || null`: the empty option is null. */
  function FilterTypeOf(value: string): (t: Option<FilterType>)
    requires IsTypeOption(value)
    ensures t.None? <==> value == ""
    ensures t == Some(RA) <==> value == "RA"
    ensures t == Some(Bacia) <==> value == "Bacia"
  {
    if value == "RA" then Some(RA) else if value == "Bacia" then Some(Bacia) else None
  }

  /** The second selector's option values: absent without a filter type;
      otherwise "" ("Selecione...") followed by the regions for RA and the
      basins for Bacia. */
  function SecondSelector(filterType: Option<FilterType>): (options: Option<seq<string>>)
    ensures options.None? <==> filterType.None?
    ensures filterType == Some(RA) ==> options == Some([""] + Ras)
    ensures filterType == Some(Bacia) ==> options == Some([""] + Bacias)
  {
    match filterType
    case None => None
    case Some(t) => Some([""] + if t == RA then Ras else Bacias)
  }

  /** "Selecione..." requests the full listing; every region or basin
      option requests its own listing. */
  lemma ChosenOptionIsRequested(filterType: FilterType, k: nat)
    requires k < |SecondSelector(Some(filterType)).value|
    ensures var option := SecondSelector(Some(filterType)).value[k];
      && (k == 0 ==> ChooseEndpoint(Some(filterType), option) == GetAll)
      && (k > 0 ==> ChooseEndpoint(Some(filterType), option)
                      == (if filterType == RA then GetByRa(option) else GetByBacia(option)))
  {
    var option := SecondSelector(Some(filterType)).value[k];
    if k > 0 {
      assert option != "" by {
        if filterType == RA {
          assert option == Ras[k - 1];
        } else {
          assert option == Bacias[k - 1];
        }
      }
    }
  }

  class ParadasBancoPage {
    var points: seq<RemotePoint>
    var loading: bool
    var filterType: Option<FilterType>
    var selectedFilter: string

    constructor()
      ensures points == [] && loading && filterType.None? && selectedFilter == ""
    {
      points, loading, filterType, selectedFilter := [], true, None, "";
    }

    /** The type selector's `onChange`: sets the type and clears the chosen
        value, so the next load requests the full listing. */
    method OnFilterTypeChange(value: string)
      requires IsTypeOption(value)
      modifies this`filterType, this`selectedFilter
      ensures filterType == FilterTypeOf(value) && selectedFilter == ""
      ensures ChooseEndpoint(filterType, selectedFilter) == GetAll
    {
      filterType := FilterTypeOf(value);
      selectedFilter := "";
    }

    /** The second selector's `onChange`. */
    method OnFilterChange(value: string)
      modifies this`selectedFilter
      ensures selectedFilter == value
    {
      selectedFilter := value;
    }

    /** `load`: requests one listing, chosen by the filters, and replaces the
        shown points with its answer. `fetch` stands for the remote service,
        which answers [] on any failure. */
    method Load(fetch: Endpoint -> seq<RemotePoint>) returns (requested: Endpoint)
      modifies this`points, this`loading
      ensures requested == ChooseEndpoint(filterType, selectedFilter)
      ensures points == fetch(requested) && !loading
    {
      loading := true;
      var data: seq<RemotePoint>;
      if filterType == Some(RA) && selectedFilter != "" {
        requested := GetByRa(selectedFilter);
      } else if filterType == Some(Bacia) && selectedFilter != "" {
        requested := GetByBacia(selectedFilter);
      } else {
        requested := GetAll;
      }
      data := fetch(requested);
      points := data;
      loading := false;
    }
  }
}
