/** The shelter list of the form (`AbrigoList`) and its photo picker
    (`ImagePicker`). Every edit builds a new list and hands it to the
    parent; the list it was given is never changed. */
module AbrigoList {
  import opened Js
  import opened Pontos

  /** The entry "+ Adicionar Abrigo" appends: no type, no pathology, no photos. */
  const DefaultAbrigo := Abrigo(None, false, [], [])

  /** `addAbrigo`: the old entries, then one default entry. */
  function AddAbrigo(abrigos: seq<Abrigo>): (r: seq<Abrigo>)
    ensures |r| == |abrigos| + 1
    ensures r[..|abrigos|] == abrigos
    ensures r[|abrigos|] == DefaultAbrigo
  {
    abrigos + [DefaultAbrigo]
  }

  /** `[...items]` followed by `splice(index, 1)` on the copy: the item at
      `index` is dropped and the others keep their order. The index is
      always that of a rendered card or thumbnail. */
  method RemoveAt<T>(items: seq<T>, index: nat) returns (r: seq<T>)
    requires index < |items|
    ensures |r| == |items| - 1
    ensures r[..index] == items[..index]
    ensures forall j :: index <= j < |r| ==> r[j] == items[j + 1]
    ensures multiset(r) + multiset{items[index]} == multiset(items)
  {
    var a := new T[|items|](i requires 0 <= i < |items| => items[i]);
    var k := index;
    while k < a.Length - 1
      invariant index <= k <= a.Length - 1
      invariant forall j :: 0 <= j < index ==> a[j] == items[j]
      invariant forall j :: index <= j < k ==> a[j] == items[j + 1]
      invariant forall j :: k <= j < a.Length ==> a[j] == items[j]
    {
      a[k] := a[k + 1];
      k := k + 1;
    }
    r := a[..a.Length - 1];
    assert r == items[..index] + items[index + 1..];
    RemovedSliceMultiset(items, index);
  }

  /** Cutting one entry out of a sequence removes exactly that entry from
      its multiset. */
  lemma RemovedSliceMultiset<T>(items: seq<T>, index: nat)
    requires index < |items|
    ensures multiset(items[..index] + items[index + 1..]) + multiset{items[index]} == multiset(items)
  {
    assert items == items[..index] + [items[index]] + items[index + 1..];
  }

  /** `removeAbrigo`. */
  method RemoveAbrigo(abrigos: seq<Abrigo>, index: nat) returns (r: seq<Abrigo>)
    requires index < |abrigos|
    ensures r == abrigos[..index] + abrigos[index + 1..]
  {
    r := RemoveAt(abrigos, index);
    assert r == abrigos[..index] + abrigos[index + 1..];
  }

  /** The field an edit of one shelter sets, with its new value. The type
      selector passes `parseInt` of the chosen option, so "Selecione..."
      stores NaN. */
  datatype AbrigoField =
    | IdTipoAbrigo(tipo: Number)
    | TemPatologia(flag: bool)
    | ImgBlobPaths(paths: seq<string>)
    | ImagensPatologiaPaths(paths: seq<string>)

  /** `{ ...abrigo, [field]: value }`: the named field takes the value and
      every other field is kept. */
  function WithField(a: Abrigo, f: AbrigoField): (b: Abrigo)
    ensures b.idTipoAbrigo == (if f.IdTipoAbrigo? then Some(f.tipo) else a.idTipoAbrigo)
    ensures b.temPatologia == (if f.TemPatologia? then f.flag else a.temPatologia)
    ensures b.imgBlobPaths == (if f.ImgBlobPaths? then f.paths else a.imgBlobPaths)
    ensures b.imagensPatologiaPaths ==
      (if f.ImagensPatologiaPaths? then f.paths else a.imagensPatologiaPaths)
  {
    match f
    case IdTipoAbrigo(t) => a.(idTipoAbrigo := Some(t))
    case TemPatologia(v) => a.(temPatologia := v)
    case ImgBlobPaths(p) => a.(imgBlobPaths := p)
    case ImagensPatologiaPaths(p) => a.(imagensPatologiaPaths := p)
  }

  /** `updateAbrigo`: a copy of the list whose entry `index` is replaced by
      that entry with one field set; every other entry is unchanged. */
  method UpdateAbrigo(abrigos: seq<Abrigo>, index: nat, f: AbrigoField) returns (r: seq<Abrigo>)
    requires index < |abrigos|
    ensures |r| == |abrigos|
    ensures r[index] == WithField(abrigos[index], f)
    ensures forall j :: 0 <= j < |r| && j != index ==> r[j] == abrigos[j]
  {
    var a := new Abrigo[|abrigos|](i requires 0 <= i < |abrigos| => abrigos[i]);
    a[index] := WithField(a[index], f);
    r := a[..];
  }

  /** The pathology photo picker is drawn only while the box is checked;
      editing any other field of the shelter leaves it as it is. */
  function PatologiaPickerShown(a: Abrigo): (b: bool)
    ensures b <==> a.temPatologia
    ensures forall f: AbrigoField :: !f.TemPatologia? ==> WithField(a, f).temPatologia == b
  {
    a.temPatologia
  }

  /** Unchecking "Possui Patologia?" only hides the pathology photos: they
      are still in the entry, and checking the box again shows them as
      they were. */
  lemma UncheckHidesPatologiaPhotos(a: Abrigo)
    requires a.temPatologia
    ensures !PatologiaPickerShown(WithField(a, TemPatologia(false)))
    ensures WithField(a, TemPatologia(false)).imagensPatologiaPaths == a.imagensPatologiaPaths
    ensures WithField(WithField(a, TemPatologia(false)), TemPatologia(true)) == a
  {
  }

  /** Unchecking the box on one entry can leave a record that says "no
      pathology" while carrying pathology photos. */
  lemma UncheckKeepsPhotosOutOfSight(abrigos: seq<Abrigo>, index: nat, photo: string)
    requires index < |abrigos|
    requires abrigos[index].temPatologia && abrigos[index].imagensPatologiaPaths == [photo]
    requires forall j :: 0 <= j < |abrigos| && j != index ==> !abrigos[j].temPatologia
    ensures var r := abrigos[index := WithField(abrigos[index], TemPatologia(false))];
      !AnyPatologia(r) && r[index].imagensPatologiaPaths == [photo]
  {
  }

  /** Header count and card numbers: "Abrigos (n)" and "Abrigo #k+1" for
      the card at position k. */
  function CardNumbers(abrigos: seq<Abrigo>): (r: seq<nat>)
    ensures |r| == |abrigos|
    ensures forall k :: 0 <= k < |r| ==> r[k] == k + 1
  {
    seq(|abrigos|, k => k + 1)
  }

  /** The card added by "+ Adicionar Abrigo" is numbered like the new
      header count. */
  lemma NewCardNumberIsCount(abrigos: seq<Abrigo>)
    ensures CardNumbers(AddAbrigo(abrigos))[|abrigos|] == |AddAbrigo(abrigos)|
  {
  }

  // ---------------------------------------------------------------------
  // Photos

  /** A file chosen in the browser's picker; its content is not modelled. */
  datatype File = File(name: string)

  /** `URL.createObjectURL`: every call returns a reference that differs
      from all earlier ones. Only that distinctness is modelled; the text
      of a reference is a stand-in. `log` records, in call order, which
      file each reference was made for. */
  class ObjectUrls {
    var issued: set<string>
    var count: nat
    ghost var log: seq<(File, string)>

    ghost predicate Valid()
      reads this
    {
      forall u :: u in issued ==> |u| < 5 + count
    }

    constructor()
      ensures Valid() && issued == {} && log == []
    {
      issued, count := {}, 0;
      log := [];
    }

    method Create(file: File) returns (url: string)
      requires Valid()
      modifies this
      ensures Valid()
      ensures url !in old(issued) && issued == old(issued) + {url}
      ensures |url| == 5 + old(count) && count == old(count) + 1
      ensures log == old(log) + [(file, url)]
    {
      url := "blob:" + seq(count, _ => '#');
      issued := issued + {url};
      count := count + 1;
      log := log + [(file, url)];
    }
  }

  /** `handleFile`: with no file list nothing is reported; otherwise the
      new references come after the existing images, one per file, in file
      order, each new and different from the others. */
  method HandleFile(images: seq<string>, files: Option<seq<File>>, urls: ObjectUrls)
    returns (changed: Option<seq<string>>)
    requires urls.Valid()
    modifies urls
    ensures urls.Valid()
    ensures files.None? ==> changed.None? && urls.issued == old(urls.issued) && urls.log == old(urls.log)
    ensures files.Some? ==> changed.Some?
    ensures files.Some? ==> |changed.value| == |images| + |files.value|
    ensures files.Some? ==> changed.value[..|images|] == images
    ensures files.Some? ==> forall j :: |images| <= j < |changed.value| ==>
      changed.value[j] !in old(urls.issued) && changed.value[j] in urls.issued
    ensures files.Some? ==> forall i, j :: |images| <= i < j < |changed.value| ==>
      changed.value[i] != changed.value[j]
    ensures files.Some? ==> |urls.log| == |old(urls.log)| + |files.value|
    ensures files.Some? ==> urls.log[..|old(urls.log)|] == old(urls.log)
    ensures files.Some? ==> forall j :: 0 <= j < |files.value| ==>
      urls.log[|old(urls.log)| + j] == (files.value[j], changed.value[|images| + j])
  {
    if files.None? {
      return None;
    }
    var fs := files.value;
    var newUrls: seq<string> := [];
    var i := 0;
    while i < |fs|
      invariant 0 <= i <= |fs| && |newUrls| == i
      invariant urls.Valid()
      invariant urls.count == old(urls.count) + i
      invariant forall j :: 0 <= j < i ==> |newUrls[j]| == 5 + old(urls.count) + j
      invariant forall j :: 0 <= j < i ==> newUrls[j] !in old(urls.issued) && newUrls[j] in urls.issued
      invariant |urls.log| == |old(urls.log)| + i && urls.log[..|old(urls.log)|] == old(urls.log)
      invariant forall j :: 0 <= j < i ==> urls.log[|old(urls.log)| + j] == (fs[j], newUrls[j])
      invariant old(urls.issued) <= urls.issued
    {
      var url := urls.Create(fs[i]);
      newUrls := newUrls + [url];
      i := i + 1;
    }
    changed := Some(images + newUrls);
    assert forall j :: |images| <= j < |changed.value| ==> changed.value[j] == newUrls[j - |images|];
  }

  /** `removeImage`: exactly that photo is dropped, the rest keep their order. */
  method RemoveImage(images: seq<string>, idx: nat) returns (r: seq<string>)
    requires idx < |images|
    ensures r == images[..idx] + images[idx + 1..]
  {
    r := RemoveAt(images, idx);
    assert r == images[..idx] + images[idx + 1..];
  }
}
