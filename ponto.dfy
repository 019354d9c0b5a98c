/** The survey record (`IPonto`) and its shelters (`IAbrigo`) as the pages
    build and read them. */
module Pontos {
  import opened Js

  /** One shelter at a stop. `idTipoAbrigo` is `undefined` until a type is
      chosen, and NaN when the "Selecione..." option is chosen again. */
  datatype Abrigo = Abrigo(
    idTipoAbrigo: Option<Number>,
    temPatologia: bool,
    imgBlobPaths: seq<string>,
    imagensPatologiaPaths: seq<string>)

  /** The reverse-geocoding service's answer (`AddressService.getAddress`). */
  datatype Address = Address(road: string, neighbourhood: string, city: string)

  /** A stop inspection record. */
  datatype Ponto = Ponto(
    id: Option<Number>,
    idUsuario: Number,
    endereco: string,
    latitude: Number,
    longitude: Number,
    linhaEscolares: bool,
    linhaStpc: bool,
    baia: bool,
    rampa: bool,
    pisoTatil: bool,
    patologia: bool,
    latitudeInterpolado: Number,
    longitudeInterpolado: Number,
    dataVisita: string,
    abrigos: seq<Abrigo>,
    imgBlobPaths: seq<string>,
    imagensPatologiaPaths: seq<string>,
    syncStatus: Option<string>)

  /** `abrigos.some(a => a.temPatologia)`: the one definition of "this stop
      has a pathology", shared by the save path and the records list. */
  function AnyPatologia(abrigos: seq<Abrigo>): (r: bool)
    ensures r <==> exists i :: 0 <= i < |abrigos| && abrigos[i].temPatologia
  {
    if abrigos == [] then false
    else if abrigos[0].temPatologia then true
    else
      var rest := AnyPatologia(abrigos[1..]);
      assert forall i :: 1 <= i < |abrigos| ==> abrigos[i] == abrigos[1..][i - 1];
      rest
  }
}
