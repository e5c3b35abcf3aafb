/**
  The shape normalizer of the Behance source plugin.

  The Behance API returns several mappings whose keys are numerals (image
  sizes, dimensions, project covers, owner avatars).  Before a project is
  handed to the content store, every such mapping has each key `K` renamed to
  `"size_" + K`, values kept; the image and media-collection modules of a
  project are normalized the same way, and every other module passes through.

  Objects are records of the fields the normalizer touches plus a `rest`
  mapping holding all their other fields.
 */
module Normalizer {

  /** A JSON value as received from the API.  The normalizer never looks inside
      the values it moves, so only their identity matters here. */
  datatype Json =
    | Null
    | Bool(b: bool)
    | Number(n: int)
    | String(s: string)
    | Array(items: seq<Json>)
    | Object(fields: map<string, Json>)

  /** A JSON object, from field name to value. */
  type Mapping = map<string, Json>

  /** The outcome of a computation that may throw a TypeError: that of
      `Object.assign()` called with no target object, which is what an empty
      numeral-keyed mapping leads to, or that of reading a field that is
      missing or is not an object or an array where one is needed. */
  datatype Result<+T> = Ok(value: T) | TypeError {
    predicate IsFailure() { TypeError? }

    function PropagateFailure<U>(): Result<U>
      requires TypeError?
    {
      TypeError
    }

    function Extract(): T
      requires Ok?
    {
      value
    }
  }

  /** The prefix given to every renamed key. */
  const Prefix: string := "size_"

  // ---------------------------------------------------------------------
  // Key renaming: the specification and the map-level operation
  // ---------------------------------------------------------------------

  /** `r` is `m` with every key `k` renamed to `"size_" + k` and every value
      kept: each entry of `m` appears in `r` under its prefixed key, and
      every key of `r` is the prefixed form of a key of `m`. */
  predicate IsRenaming(m: Mapping, r: Mapping) {
    && (forall k {:trigger k in m} :: k in m ==> Prefix + k in r && r[Prefix + k] == m[k])
    && (forall k' :: k' in r ==> exists k :: k in m && k' == Prefix + k)
  }

  /** Prefixing is injective. */
  lemma PrefixInjective(a: string, b: string)
    requires Prefix + a == Prefix + b
    ensures a == b
  {
    assert a == (Prefix + a)[|Prefix|..];
    assert b == (Prefix + b)[|Prefix|..];
  }

  /** The renamed mapping, built from the keys of `m`. */
  function Renamed(m: Mapping): (r: Mapping)
    ensures IsRenaming(m, r)
  {
    assert forall a, b :: a in m && b in m && Prefix + a == Prefix + b ==> a == b by {
      forall a, b | a in m && b in m && Prefix + a == Prefix + b ensures a == b {
        PrefixInjective(a, b);
      }
    }
    map k | k in m :: Prefix + k := m[k]
  }

  /** A renaming is determined by the mapping it renames. */
  lemma RenamingUnique(m: Mapping, r1: Mapping, r2: Mapping)
    requires IsRenaming(m, r1) && IsRenaming(m, r2)
    ensures r1 == r2
  {
    assert r1.Keys == r2.Keys;
    forall k' | k' in r1 ensures r1[k'] == r2[k'] {
      var k :| k in m && k' == Prefix + k;
    }
  }

  /** Prefixing is injective, so a renaming keeps the number of entries. */
  lemma {:induction false} RenamingSize(m: Mapping, r: Mapping)
    requires IsRenaming(m, r)
    ensures |r| == |m|
  {
    if |m| == 0 {
      assert m == map[];
      assert r.Keys == {};
    } else {
      var k :| k in m;
      var m', r' := m - {k}, r - {Prefix + k};
      assert m'.Keys == m.Keys - {k};
      assert r'.Keys == r.Keys - {Prefix + k};
      assert IsRenaming(m', r') by {
        forall j | j in m' ensures Prefix + j in r' && r'[Prefix + j] == m'[j] {
          if Prefix + j == Prefix + k {
            PrefixInjective(j, k);
          }
        }
        forall k' | k' in r' ensures exists j :: j in m' && k' == Prefix + j {
          var j :| j in m && k' == Prefix + j;
          assert j in m';
        }
      }
      RenamingSize(m', r');
    }
  }

  /** `dict(Object.entries(m))` on a whole mapping: the renamed mapping, or a
      TypeError when `m` has no entries. */
  function RenameKeys(m: Mapping): (r: Result<Mapping>)
    ensures r.Ok? <==> |m| > 0
    ensures r.Ok? ==> IsRenaming(m, r.value) && |r.value| == |m|
  {
    if |m| == 0 then TypeError
    else
      var r := Renamed(m);
      RenamingSize(m, r);
      Ok(r)
  }

  // ---------------------------------------------------------------------
  // `dict` as written: Object.assign over one-entry objects
  // ---------------------------------------------------------------------

  /** `r` is what copying the entries of `objs[0]`, ..., `objs[n-1]`, in
      that order, into one object gives: the keys of all of them, each with
      the value it has in the last object that holds it. */
  ghost predicate IsMergeOf(objs: seq<Mapping>, r: Mapping) {
    && (forall k :: k in r <==> exists i :: 0 <= i < |objs| && k in objs[i])
    && (forall i, k ::
          (0 <= i < |objs| && k in objs[i] && forall j :: i < j < |objs| ==> k !in objs[j])
          ==> k in r && r[k] == objs[i][k])
  }

  /** Copying one more object into a merge extends the merge. */
  lemma MergeStep(objs: seq<Mapping>, done: Mapping)
    requires |objs| > 1
    requires IsMergeOf(objs[..|objs| - 1], done)
    ensures IsMergeOf(objs, done + objs[|objs| - 1])
  {
    var n := |objs|;
    var init, last := objs[..n - 1], objs[n - 1];
    var r := done + last;
    assert forall i :: 0 <= i < n - 1 ==> init[i] == objs[i];
    forall k | k in r ensures exists i :: 0 <= i < n && k in objs[i] {
      if k in last {
        assert k in objs[n - 1];
      } else {
        var i :| 0 <= i < n - 1 && k in init[i];
        assert k in objs[i];
      }
    }
    forall i, k | 0 <= i < n && k in objs[i] ensures k in r {
      if i < n - 1 {
        assert k in init[i];
      }
    }
    forall i, k | 0 <= i < n && k in objs[i] && forall j :: i < j < n ==> k !in objs[j]
      ensures k in r && r[k] == objs[i][k]
    {
      if i < n - 1 {
        assert k !in last;
        assert k in init[i];
        assert forall j :: i < j < n - 1 ==> k !in init[j];
      }
    }
  }

  /** The objects `objs[0]`, ..., `objs[n-1]` merged left to right, later
      entries overwriting earlier ones, as `Object.assign(objs[0], ...)` does
      to its first argument. */
  function Merge(objs: seq<Mapping>): (r: Mapping)
    requires |objs| > 0
    ensures IsMergeOf(objs, r)
  {
    if |objs| == 1 then objs[0]
    else
      var done := Merge(objs[..|objs| - 1]);
      MergeStep(objs, done);
      done + objs[|objs| - 1]
  }

  /** `Object.assign(...objs)`: with no object there is no target, and it
      throws. */
  function Assign(objs: seq<Mapping>): (r: Result<Mapping>)
    ensures r.Ok? <==> |objs| > 0
    ensures r.Ok? ==> forall k :: k in r.value <==> exists i :: 0 <= i < |objs| && k in objs[i]
  {
    if |objs| == 0 then TypeError else Ok(Merge(objs))
  }

  /** `arr.map(([k, v]) => ({['size_' + k]: v}))`: one single-entry object
      per entry, under the prefixed key. */
  function EntryObjects(es: seq<(string, Json)>): seq<Mapping> {
    seq(|es|, i requires 0 <= i < |es| => map[Prefix + es[i].0 := es[i].1])
  }

  /** `dict(arr)` on an entry list `arr`: the one-entry objects of its
      entries merged with `Object.assign`. */
  function Dict(es: seq<(string, Json)>): (r: Result<Mapping>)
    ensures r.Ok? <==> |es| > 0
  {
    Assign(EntryObjects(es))
  }

  /** `es` lists the entries of `m`, each once, in some order: what
      `Object.entries(m)` returns. */
  predicate IsEntriesOf(es: seq<(string, Json)>, m: Mapping) {
    && (forall i, j :: 0 <= i < j < |es| ==> es[i].0 != es[j].0)
    && (forall i :: 0 <= i < |es| ==> es[i].0 in m && m[es[i].0] == es[i].1)
    && (forall k :: k in m ==> exists i :: 0 <= i < |es| && es[i].0 == k)
  }

  /** Merging the one-entry objects of an enumeration of `m` renames `m`. */
  lemma MergeEntriesRenames(es: seq<(string, Json)>, m: Mapping)
    requires |es| > 0 && IsEntriesOf(es, m)
    ensures IsRenaming(m, Merge(EntryObjects(es)))
  {
    var objs := EntryObjects(es);
    var r := Merge(objs);
    forall k | k in m ensures Prefix + k in r && r[Prefix + k] == m[k] {
      var i :| 0 <= i < |es| && es[i].0 == k;
      assert Prefix + k in objs[i];
      forall j | i < j < |objs| ensures Prefix + k !in objs[j] {
        if Prefix + k in objs[j] {
          PrefixInjective(k, es[j].0);
        }
      }
    }
    forall k' | k' in r ensures exists k :: k in m && k' == Prefix + k {
      var i :| 0 <= i < |objs| && k' in objs[i];
      assert es[i].0 in m;
    }
  }

  /** Whatever order `Object.entries` lists the entries in, `dict` of them is
      the map-level renaming, and fails exactly on an empty mapping. */
  lemma DictIsRenameKeys(es: seq<(string, Json)>, m: Mapping)
    requires IsEntriesOf(es, m)
    ensures Dict(es) == RenameKeys(m)
  {
    if |es| == 0 {
      assert m == map[];
    } else {
      assert es[0].0 in m;
      MergeEntriesRenames(es, m);
      RenamingUnique(m, Merge(EntryObjects(es)), Renamed(m));
    }
  }

  // ---------------------------------------------------------------------
  // The objects of a project
  // ---------------------------------------------------------------------

  /** An image-bearing object (an image module, or a component of a media
      collection): its numeral-keyed `sizes` and `dimensions` mappings and
      all its other fields. */
  datatype Image = Image(sizes: Mapping, dimensions: Mapping, rest: Mapping)

  /** An owner of a project: its numeral-keyed `images` mapping (avatar
      variants) and all its other fields. */
  datatype Owner = Owner(images: Mapping, rest: Mapping)

  /** One content block of a project.  `ImageModule` is a module whose `type`
      is "image", `MediaCollection` one whose `type` is "media_collection";
      `Other` holds, field for field, a module of any other `type`. */
  datatype Module =
    | ImageModule(image: Image)
    | MediaCollection(components: seq<Image>, rest: Mapping)
    | Other(fields: Mapping)

  /** A detailed project: its numeral-keyed `covers`, its owners and modules
      in order, and all its other fields. */
  datatype Project = Project(covers: Mapping, owners: seq<Owner>, modules: seq<Module>, rest: Mapping)

  // ---------------------------------------------------------------------
  // What normalizing means, object by object
  // ---------------------------------------------------------------------

  /** The normalizer can handle `img`: neither of its mappings is empty. */
  predicate ImageNormalizable(img: Image) {
    |img.sizes| > 0 && |img.dimensions| > 0
  }

  /** `out` is `img` normalized: both mappings renamed, all else kept. */
  predicate ImageNormalized(img: Image, out: Image) {
    && IsRenaming(img.sizes, out.sizes)
    && IsRenaming(img.dimensions, out.dimensions)
    && out.rest == img.rest
  }

  predicate OwnerNormalizable(o: Owner) {
    |o.images| > 0
  }

  /** `out` is `o` normalized: its image mapping renamed, all else kept. */
  predicate OwnerNormalized(o: Owner, out: Owner) {
    IsRenaming(o.images, out.images) && out.rest == o.rest
  }

  predicate ModuleNormalizable(m: Module) {
    match m
    case ImageModule(img) => ImageNormalizable(img)
    case MediaCollection(cs, _) => forall i :: 0 <= i < |cs| ==> ImageNormalizable(cs[i])
    case Other(_) => true
  }

  /** `out` is `m` normalized: an image module as an image; a media collection
      with the same other fields and its components normalized one for one,
      in order; any other module unchanged. */
  predicate ModuleNormalized(m: Module, out: Module) {
    match m
    case ImageModule(img) =>
      out.ImageModule? && ImageNormalized(img, out.image)
    case MediaCollection(cs, rest) =>
      && out.MediaCollection?
      && out.rest == rest
      && |out.components| == |cs|
      && forall i :: 0 <= i < |cs| ==> ImageNormalized(cs[i], out.components[i])
    case Other(_) =>
      out == m
  }

  predicate ProjectNormalizable(p: Project) {
    && |p.covers| > 0
    && (forall i :: 0 <= i < |p.owners| ==> OwnerNormalizable(p.owners[i]))
    && (forall i :: 0 <= i < |p.modules| ==> ModuleNormalizable(p.modules[i]))
  }

  /** `out` is `p` normalized: covers renamed, owners and modules normalized
      one for one and in order, all other fields kept. */
  predicate ProjectNormalized(p: Project, out: Project) {
    && IsRenaming(p.covers, out.covers)
    && out.rest == p.rest
    && |out.owners| == |p.owners|
    && (forall i :: 0 <= i < |p.owners| ==> OwnerNormalized(p.owners[i], out.owners[i]))
    && |out.modules| == |p.modules|
    && (forall i :: 0 <= i < |p.modules| ==> ModuleNormalized(p.modules[i], out.modules[i]))
  }

  // ---------------------------------------------------------------------
  // The normalizer
  // ---------------------------------------------------------------------

  /** `transformImage`: renames the keys of `sizes` and `dimensions` and keeps
      every other field; throws when either mapping is empty. */
  function TransformImage(img: Image): (r: Result<Image>)
    ensures r.Ok? <==> ImageNormalizable(img)
    ensures r.Ok? ==> ImageNormalized(img, r.value)
  {
    var sizes :- RenameKeys(img.sizes);
    var dimensions :- RenameKeys(img.dimensions);
    Ok(Image(sizes, dimensions, img.rest))
  }

  /** `xs.map(f)` where `f` may throw: the results of `f` on every element,
      in order, or the exception of the first element on which it throws. */
  function MapResults<A, B>(f: A -> Result<B>, xs: seq<A>): (r: Result<seq<B>>)
    ensures r.Ok? <==> forall i :: 0 <= i < |xs| ==> f(xs[i]).Ok?
    ensures r.Ok? ==> |r.value| == |xs| &&
                      forall i :: 0 <= i < |xs| ==> f(xs[i]) == Ok(r.value[i])
  {
    if |xs| == 0 then Ok([])
    else
      var head :- f(xs[0]);
      var tail :- MapResults(f, xs[1..]);
      assert forall i :: 1 <= i < |xs| ==> xs[i] == xs[1..][i - 1];
      Ok([head] + tail)
  }

  /** Mapping `f` and then mapping `g` over the results is mapping their
      composition: it throws iff some element makes `f` or `g` throw. */
  lemma {:induction false} MapResultsFuse<A, B, C>(f: A -> Result<B>, g: B -> Result<C>, h: A -> Result<C>, xs: seq<A>)
    requires forall x :: h(x) == (if f(x).Ok? then g(f(x).value) else TypeError)
    ensures MapResults(h, xs) ==
            (var ys := MapResults(f, xs); if ys.Ok? then MapResults(g, ys.value) else TypeError)
  {
    if |xs| > 0 {
      MapResultsFuse(f, g, h, xs[1..]);
      var ys := MapResults(f, xs);
      if ys.Ok? {
        assert ys.value[1..] == MapResults(f, xs[1..]).value;
      }
    }
  }

  /** Mapping a function that returns every element as it is returns the
      sequence as it is. */
  lemma MapResultsIdentity<A>(f: A -> Result<A>, xs: seq<A>)
    requires forall i :: 0 <= i < |xs| ==> f(xs[i]) == Ok(xs[i])
    ensures MapResults(f, xs) == Ok(xs)
  {
    assert MapResults(f, xs).value == xs;
  }

  /** The module branch of `transformProject`, dispatching on the module's
      type; a media collection's components go through `transformImage`
      one by one. */
  function TransformModule(m: Module): (r: Result<Module>)
    ensures r.Ok? <==> ModuleNormalizable(m)
    ensures r.Ok? ==> ModuleNormalized(m, r.value)
  {
    match m
    case ImageModule(img) =>
      var out :- TransformImage(img);
      Ok(ImageModule(out))
    case MediaCollection(cs, rest) =>
      var out :- MapResults(TransformImage, cs);
      Ok(MediaCollection(out, rest))
    case Other(_) =>
      Ok(m)
  }

  /** The owner branch of `transformProject`: `images` renamed, every other
      field kept. */
  function TransformOwner(o: Owner): (r: Result<Owner>)
    ensures r.Ok? <==> OwnerNormalizable(o)
    ensures r.Ok? ==> OwnerNormalized(o, r.value)
  {
    var images :- RenameKeys(o.images);
    Ok(Owner(images, o.rest))
  }

  /** `transformProject`: renames `covers`, normalizes every owner and every
      module, keeps every other field; throws when any numeral-keyed mapping
      it reaches is empty. */
  function TransformProject(p: Project): (r: Result<Project>)
    ensures r.Ok? <==> ProjectNormalizable(p)
    ensures r.Ok? ==> ProjectNormalized(p, r.value)
  {
    var covers :- RenameKeys(p.covers);
    var owners :- MapResults(TransformOwner, p.owners);
    var modules :- MapResults(TransformModule, p.modules);
    Ok(Project(covers, owners, modules, p.rest))
  }

  // ---------------------------------------------------------------------
  // Properties of the normalizer
  // ---------------------------------------------------------------------

  /** The normalized image is the only one the specification allows. */
  lemma ImageNormalizedUnique(img: Image, o1: Image, o2: Image)
    requires ImageNormalized(img, o1) && ImageNormalized(img, o2)
    ensures o1 == o2
  {
    RenamingUnique(img.sizes, o1.sizes, o2.sizes);
    RenamingUnique(img.dimensions, o1.dimensions, o2.dimensions);
  }

  lemma ModuleNormalizedUnique(m: Module, o1: Module, o2: Module)
    requires ModuleNormalized(m, o1) && ModuleNormalized(m, o2)
    ensures o1 == o2
  {
    match m
    case ImageModule(img) =>
      ImageNormalizedUnique(img, o1.image, o2.image);
    case MediaCollection(cs, rest) =>
      forall i | 0 <= i < |cs| ensures o1.components[i] == o2.components[i] {
        ImageNormalizedUnique(cs[i], o1.components[i], o2.components[i]);
      }
      assert o1.components == o2.components;
    case Other(_) =>
  }

  /** The normalized project is the only one the specification allows, so
      `ProjectNormalized` pins down the normalizer's output completely. */
  lemma ProjectNormalizedUnique(p: Project, o1: Project, o2: Project)
    requires ProjectNormalized(p, o1) && ProjectNormalized(p, o2)
    ensures o1 == o2
  {
    RenamingUnique(p.covers, o1.covers, o2.covers);
    forall i | 0 <= i < |p.owners| ensures o1.owners[i] == o2.owners[i] {
      RenamingUnique(p.owners[i].images, o1.owners[i].images, o2.owners[i].images);
    }
    forall i | 0 <= i < |p.modules| ensures o1.modules[i] == o2.modules[i] {
      ModuleNormalizedUnique(p.modules[i], o1.modules[i], o2.modules[i]);
    }
    assert o1.owners == o2.owners;
    assert o1.modules == o2.modules;
  }

  /** Every renamed mapping in a normalized project keeps its number of
      entries: covers, and each owner's images. */
  lemma ProjectNormalizedSizes(p: Project, out: Project)
    requires ProjectNormalized(p, out)
    ensures |out.covers| == |p.covers|
    ensures forall i :: 0 <= i < |p.owners| ==> |out.owners[i].images| == |p.owners[i].images|
  {
    RenamingSize(p.covers, out.covers);
    forall i | 0 <= i < |p.owners| ensures |out.owners[i].images| == |p.owners[i].images| {
      RenamingSize(p.owners[i].images, out.owners[i].images);
    }
  }

  /** A project with no image or media-collection module comes back with
      the same modules and other fields; only covers and owners' images are
      renamed. */
  lemma NoImageModulesKept(p: Project)
    requires forall i :: 0 <= i < |p.modules| ==> p.modules[i].Other?
    requires |p.covers| > 0
    requires forall i :: 0 <= i < |p.owners| ==> |p.owners[i].images| > 0
    ensures TransformProject(p).Ok?
    ensures TransformProject(p).value.modules == p.modules
    ensures TransformProject(p).value.rest == p.rest
  {
    forall i | 0 <= i < |p.modules| ensures TransformModule(p.modules[i]) == Ok(p.modules[i]) {
      var m := p.modules[i];
      assert m.Other?;
    }
    MapResultsIdentity(TransformModule, p.modules);
    assert MapResults(TransformOwner, p.owners).Ok?;
  }

  /** The `sizes` of the example below, and their renaming. */
  lemma SizesExample()
    ensures RenameKeys(map["276" := String("u1"), "max_1920" := String("u2")])
            == Ok(map["size_276" := String("u1"), "size_max_1920" := String("u2")])
  {
    var m := map["276" := String("u1"), "max_1920" := String("u2")];
    var r := map["size_276" := String("u1"), "size_max_1920" := String("u2")];
    assert Prefix + "276" == "size_276";
    assert Prefix + "max_1920" == "size_max_1920";
    assert IsRenaming(m, r);
    RenamingUnique(m, Renamed(m), r);
  }

  /** The `dimensions` of the example below, and their renaming. */
  lemma DimensionsExample(dim: Json)
    ensures RenameKeys(map["276" := dim]) == Ok(map["size_276" := dim])
  {
    var m, r := map["276" := dim], map["size_276" := dim];
    assert Prefix + "276" == "size_276";
    assert IsRenaming(m, r);
    RenamingUnique(m, Renamed(m), r);
  }

  /** Normalizing an image whose `sizes` are {"276": "u1", "max_1920": "u2"}
      and whose `dimensions` are {"276": {w: 1, h: 1}}. */
  lemma TransformImageExample(rest: Mapping)
    ensures var dim := Object(map["w" := Number(1), "h" := Number(1)]);
            TransformImage(Image(map["276" := String("u1"), "max_1920" := String("u2")],
                                 map["276" := dim], rest))
            == Ok(Image(map["size_276" := String("u1"), "size_max_1920" := String("u2")],
                        map["size_276" := dim], rest))
  {
    SizesExample();
    DimensionsExample(Object(map["w" := Number(1), "h" := Number(1)]));
  }

  // ---------------------------------------------------------------------
  // Records and the JSON objects they stand for
  // ---------------------------------------------------------------------

  /** The `type` values that `transformProject` tests modules against. */
  const ImageType: Json := String("image")
  const MediaCollectionType: Json := String("media_collection")

  /** `fields.type === t`. */
  predicate HasType(fields: Mapping, t: Json) {
    "type" in fields && fields["type"] == t
  }

  /** `fields[name]` is present and is a JSON object. */
  predicate IsObjectField(fields: Mapping, name: string) {
    name in fields && fields[name].Object?
  }

  /** `fields[name]` is present and is a JSON array. */
  predicate IsArrayField(fields: Mapping, name: string) {
    name in fields && fields[name].Array?
  }

  /** An image record stands for one JSON object: `rest` does not repeat
      the fields the record holds apart. */
  predicate WfImage(img: Image) {
    "sizes" !in img.rest && "dimensions" !in img.rest
  }

  predicate WfOwner(o: Owner) {
    "images" !in o.rest
  }

  /** The arm of a module agrees with its `type`: "image" for an image
      module, "media_collection" for a media collection, anything else
      (or none) for the other modules. */
  predicate WfModule(m: Module) {
    match m
    case ImageModule(img) =>
      WfImage(img) && HasType(img.rest, ImageType)
    case MediaCollection(cs, rest) =>
      && "components" !in rest
      && HasType(rest, MediaCollectionType)
      && forall i :: 0 <= i < |cs| ==> WfImage(cs[i])
    case Other(fields) =>
      !HasType(fields, ImageType) && !HasType(fields, MediaCollectionType)
  }

  predicate WfProject(p: Project) {
    && "covers" !in p.rest && "owners" !in p.rest && "modules" !in p.rest
    && (forall i :: 0 <= i < |p.owners| ==> WfOwner(p.owners[i]))
    && (forall i :: 0 <= i < |p.modules| ==> WfModule(p.modules[i]))
  }

  /** The JSON object an image record stands for. */
  function ImageFields(img: Image): Mapping {
    img.rest["sizes" := Object(img.sizes)]["dimensions" := Object(img.dimensions)]
  }

  /** The JSON array of the components of a media collection. */
  function ImageObjects(cs: seq<Image>): seq<Json> {
    seq(|cs|, i requires 0 <= i < |cs| => Object(ImageFields(cs[i])))
  }

  /** The JSON object a module record stands for. */
  function ModuleFields(m: Module): Mapping {
    match m
    case ImageModule(img) => ImageFields(img)
    case MediaCollection(cs, rest) => rest["components" := Array(ImageObjects(cs))]
    case Other(fields) => fields
  }

  /** Reads an image-bearing JSON object as a record; fails when `sizes` or
      `dimensions` is missing or not an object. */
  function DecodeImage(fields: Mapping): (r: Result<Image>)
    ensures r.Ok? <==> IsObjectField(fields, "sizes") && IsObjectField(fields, "dimensions")
    ensures r.Ok? ==> WfImage(r.value) && ImageFields(r.value) == fields
  {
    if IsObjectField(fields, "sizes") && IsObjectField(fields, "dimensions") then
      var img := Image(fields["sizes"].fields, fields["dimensions"].fields, fields - {"sizes", "dimensions"});
      assert ImageFields(img) == fields;
      Ok(img)
    else
      TypeError
  }

  /** Reads a media-collection component; fails when it is not an object. */
  function DecodeComponent(j: Json): (r: Result<Image>)
    ensures r.Ok? ==> WfImage(r.value) && j == Object(ImageFields(r.value))
  {
    if j.Object? then DecodeImage(j.fields) else TypeError
  }

  /** Classifies a module by its `type`, as `transformProject` does, and
      reads it as a record; fails when a field its kind needs is missing or
      of the wrong shape. */
  function DecodeModule(fields: Mapping): (r: Result<Module>)
    ensures r.Ok? ==> WfModule(r.value) && ModuleFields(r.value) == fields
    ensures !HasType(fields, ImageType) && !HasType(fields, MediaCollectionType) ==>
              r == Ok(Other(fields))
  {
    if HasType(fields, ImageType) then
      var img :- DecodeImage(fields);
      Ok(ImageModule(img))
    else if HasType(fields, MediaCollectionType) then
      DecodeMediaCollection(fields)
    else
      Ok(Other(fields))
  }

  /** Reads a module of type "media_collection" as a record; fails when its
      `components` are missing, not an array, or hold a non-object. */
  function DecodeMediaCollection(fields: Mapping): (r: Result<Module>)
    requires HasType(fields, MediaCollectionType)
    ensures r.Ok? ==> r.value.MediaCollection? && WfModule(r.value) && ModuleFields(r.value) == fields
  {
    if IsArrayField(fields, "components") then
      var items := fields["components"].items;
      var cs :- MapResults(DecodeComponent, items);
      assert ImageObjects(cs) == items;
      assert (fields - {"components"})["components" := Array(items)] == fields;
      Ok(MediaCollection(cs, fields - {"components"}))
    else
      TypeError
  }

  /** Every well-formed module record is read back from the JSON object it
      stands for. */
  lemma DecodeModuleFields(m: Module)
    requires WfModule(m)
    ensures DecodeModule(ModuleFields(m)) == Ok(m)
  {
    match m
    case ImageModule(img) =>
      assert ImageFields(img) - {"sizes", "dimensions"} == img.rest;
    case MediaCollection(cs, rest) =>
      var fields := ModuleFields(m);
      var items := ImageObjects(cs);
      forall i | 0 <= i < |cs| ensures DecodeComponent(items[i]) == Ok(cs[i]) {
        assert ImageFields(cs[i]) - {"sizes", "dimensions"} == cs[i].rest;
      }
      var r := MapResults(DecodeComponent, items);
      assert r.value == cs;
      assert fields - {"components"} == rest;
    case Other(_) =>
  }

  // ---------------------------------------------------------------------
  // The normalizer on JSON objects
  // ---------------------------------------------------------------------

  /** `transformImage` on a JSON object: `sizes` and `dimensions` renamed,
      every other field kept; throws when either is missing, not an object
      or empty. */
  function NormalizeImage(fields: Mapping): (r: Result<Mapping>)
    ensures r.Ok? <==> && IsObjectField(fields, "sizes") && |fields["sizes"].fields| > 0
                       && IsObjectField(fields, "dimensions") && |fields["dimensions"].fields| > 0
    ensures r.Ok? ==>
              && r.value.Keys == fields.Keys
              && (forall k :: k in fields && k != "sizes" && k != "dimensions" ==> r.value[k] == fields[k])
              && IsObjectField(r.value, "sizes")
              && IsRenaming(fields["sizes"].fields, r.value["sizes"].fields)
              && IsObjectField(r.value, "dimensions")
              && IsRenaming(fields["dimensions"].fields, r.value["dimensions"].fields)
  {
    if IsObjectField(fields, "sizes") && IsObjectField(fields, "dimensions") then
      var sizes :- RenameKeys(fields["sizes"].fields);
      var dimensions :- RenameKeys(fields["dimensions"].fields);
      Ok(fields["sizes" := Object(sizes)]["dimensions" := Object(dimensions)])
    else
      TypeError
  }

  /** `transformImage` on a media-collection component, which throws when
      the component is not an object. */
  function NormalizeComponent(j: Json): (r: Result<Json>)
    ensures r.Ok? <==> j.Object? && NormalizeImage(j.fields).Ok?
    ensures r.Ok? ==> r.value.Object? && r.value.fields.Keys == j.fields.Keys
  {
    if j.Object? then
      var fields :- NormalizeImage(j.fields);
      Ok(Object(fields))
    else
      TypeError
  }

  /** The module branch of `transformProject` on a JSON object: a module of
      type "image" goes through `transformImage`, one of type
      "media_collection" has its `components` mapped through it, any other
      is returned as it is.  The module keeps its fields and its type. */
  function NormalizeModule(fields: Mapping): (r: Result<Mapping>)
    ensures !HasType(fields, ImageType) && !HasType(fields, MediaCollectionType) ==> r == Ok(fields)
    ensures HasType(fields, ImageType) ==>
              (r.Ok? <==> && IsObjectField(fields, "sizes") && |fields["sizes"].fields| > 0
                          && IsObjectField(fields, "dimensions") && |fields["dimensions"].fields| > 0)
    ensures HasType(fields, MediaCollectionType) ==>
              (r.Ok? <==> && IsArrayField(fields, "components")
                          && forall i :: 0 <= i < |fields["components"].items| ==>
                               NormalizeComponent(fields["components"].items[i]).Ok?)
    ensures r.Ok? ==> r.value.Keys == fields.Keys
    ensures r.Ok? ==> (HasType(r.value, ImageType) <==> HasType(fields, ImageType))
    ensures r.Ok? ==> (HasType(r.value, MediaCollectionType) <==> HasType(fields, MediaCollectionType))
  {
    // The two tested types differ, so at most one branch applies.
    assert ImageType.s[0] != MediaCollectionType.s[0];
    if HasType(fields, ImageType) then
      NormalizeImage(fields)
    else if HasType(fields, MediaCollectionType) then
      NormalizeMediaCollection(fields)
    else
      Ok(fields)
  }

  /** A media collection's `components` mapped through `transformImage`,
      every other field kept; throws when `components` is missing or not an
      array, or when some component throws. */
  function NormalizeMediaCollection(fields: Mapping): (r: Result<Mapping>)
    ensures r.Ok? <==> && IsArrayField(fields, "components")
                       && forall i :: 0 <= i < |fields["components"].items| ==>
                            NormalizeComponent(fields["components"].items[i]).Ok?
    ensures r.Ok? ==>
              && r.value.Keys == fields.Keys
              && (forall k :: k in fields && k != "components" ==> r.value[k] == fields[k])
              && IsArrayField(r.value, "components")
              && |r.value["components"].items| == |fields["components"].items|
              && forall i :: 0 <= i < |fields["components"].items| ==>
                   NormalizeComponent(fields["components"].items[i]) == Ok(r.value["components"].items[i])
  {
    if IsArrayField(fields, "components") then
      var cs :- MapResults(NormalizeComponent, fields["components"].items);
      Ok(fields["components" := Array(cs)])
    else
      TypeError
  }

  /** An image object normalized by way of its record: read it, normalize
      the record, and write the record back. */
  function ImageViaRecord(fields: Mapping): Result<Mapping> {
    var img :- DecodeImage(fields);
    var out :- TransformImage(img);
    Ok(ImageFields(out))
  }

  /** An image record normalized and written back as a JSON object. */
  function WrittenBack(img: Image): Result<Json> {
    var out :- TransformImage(img);
    Ok(Object(ImageFields(out)))
  }

  /** A media-collection component normalized by way of its record. */
  function ComponentViaRecord(j: Json): Result<Json> {
    var img :- DecodeComponent(j);
    WrittenBack(img)
  }

  /** A module object normalized by way of its record. */
  function ModuleViaRecord(fields: Mapping): Result<Mapping> {
    var m :- DecodeModule(fields);
    var out :- TransformModule(m);
    Ok(ModuleFields(out))
  }

  /** The components of a media collection normalized by way of their
      records. */
  function ComponentsViaRecords(items: seq<Json>): Result<seq<Json>> {
    var cs :- MapResults(DecodeComponent, items);
    var outs :- MapResults(TransformImage, cs);
    Ok(ImageObjects(outs))
  }

  /** On an image object, the record-level `TransformImage` computes what
      `NormalizeImage` does, and both throw on the same objects. */
  lemma NormalizeImageAgrees(fields: Mapping)
    ensures NormalizeImage(fields) == ImageViaRecord(fields)
  {
    if DecodeImage(fields).Ok? && NormalizeImage(fields).Ok? {
      var img := DecodeImage(fields).value;
      var out := TransformImage(img).value;
      assert ImageFields(out) == NormalizeImage(fields).value;
    }
  }

  /** On a component, `NormalizeComponent` and the record-level
      `TransformImage` agree, and both throw on the same values. */
  lemma NormalizeComponentAgrees(j: Json)
    ensures NormalizeComponent(j) == ComponentViaRecord(j)
  {
    if j.Object? {
      NormalizeImageAgrees(j.fields);
    }
  }

  /** On the components of a media collection, mapping `NormalizeComponent`
      agrees with reading, normalizing and writing back the records. */
  lemma NormalizeComponentsAgree(items: seq<Json>)
    ensures MapResults(NormalizeComponent, items) == ComponentsViaRecords(items)
  {
    forall j ensures NormalizeComponent(j) ==
                     (if DecodeComponent(j).Ok? then WrittenBack(DecodeComponent(j).value) else TypeError) {
      NormalizeComponentAgrees(j);
    }
    MapResultsFuse(DecodeComponent, WrittenBack, NormalizeComponent, items);
    var dec := MapResults(DecodeComponent, items);
    if dec.Ok? {
      WrittenBackAll(dec.value);
    }
  }

  /** Writing normalized records back one by one is normalizing them and
      writing the sequence back. */
  lemma WrittenBackAll(cs: seq<Image>)
    ensures MapResults(WrittenBack, cs) ==
            (var outs :- MapResults(TransformImage, cs); Ok(ImageObjects(outs)))
  {
    var wb := MapResults(WrittenBack, cs);
    var tr := MapResults(TransformImage, cs);
    if wb.Ok? {
      assert forall i :: 0 <= i < |cs| ==> TransformImage(cs[i]).Ok?;
      assert ImageObjects(tr.value) == wb.value;
    } else {
      var i :| 0 <= i < |cs| && WrittenBack(cs[i]).TypeError?;
      assert TransformImage(cs[i]).TypeError?;
    }
  }

  /** The record-level `TransformModule` computes what `NormalizeModule`
      does on every module the code can classify, and both throw on the
      same objects. */
  lemma NormalizeModuleAgrees(fields: Mapping)
    ensures NormalizeModule(fields) == ModuleViaRecord(fields)
  {
    if HasType(fields, ImageType) {
      NormalizeImageAgrees(fields);
    } else if HasType(fields, MediaCollectionType) {
      MediaCollectionAgrees(fields);
    }
  }

  /** `NormalizeMediaCollection` and the record-level `TransformModule`
      agree on media collections. */
  lemma MediaCollectionAgrees(fields: Mapping)
    requires HasType(fields, MediaCollectionType)
    ensures NormalizeMediaCollection(fields) ==
            (var m :- DecodeMediaCollection(fields);
             var out :- TransformModule(m);
             Ok(ModuleFields(out)))
  {
    if IsArrayField(fields, "components") {
      var items := fields["components"].items;
      var rest := fields - {"components"};
      NormalizeComponentsAgree(items);
      var dec := MapResults(DecodeComponent, items);
      if dec.Ok? {
        var tr := MapResults(TransformImage, dec.value);
        if tr.Ok? {
          var norm := ImageObjects(tr.value);
          assert TransformModule(MediaCollection(dec.value, rest)) == Ok(MediaCollection(tr.value, rest));
          assert rest["components" := Array(norm)] == fields["components" := Array(norm)];
        }
      }
    }
  }

  /** Every well-formed module record of a project is normalized as the
      code normalizes the JSON object it stands for. */
  lemma WfModuleCommutes(m: Module)
    requires WfModule(m)
    ensures NormalizeModule(ModuleFields(m)) == (var out :- TransformModule(m); Ok(ModuleFields(out)))
  {
    DecodeModuleFields(m);
    NormalizeModuleAgrees(ModuleFields(m));
  }

  /** Normalizing keeps a module record well formed: its arm still agrees
      with its type. */
  lemma ModuleNormalizedKeepsWf(m: Module, out: Module)
    requires WfModule(m) && ModuleNormalized(m, out)
    ensures WfModule(out)
  {
  }

  /** Normalizing keeps a project record well formed. */
  lemma ProjectNormalizedKeepsWf(p: Project, out: Project)
    requires WfProject(p) && ProjectNormalized(p, out)
    ensures WfProject(out)
  {
    forall i | 0 <= i < |p.modules| ensures WfModule(out.modules[i]) {
      ModuleNormalizedKeepsWf(p.modules[i], out.modules[i]);
    }
  }
}
