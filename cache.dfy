/** The image converter of cat/models.py, `Cat.__new__`, with its module-level identity cache
    `cat_cache`, here an explicit registry object. A conversion reads `data['id']`; a cached
    id returns the cached instance at once and reads nothing else; otherwise it reads `url`,
    `width`, `height` and `breeds` strictly, converts every breed and every category, marks
    a missing `categories` key with None, and only then inserts the new instance. */
module Cache {
  import opened Values
  import opened Models

  /** The attributes of an image record. `categories` is None when the JSON has no
      `categories` key, which is not the same as an empty list. */
  datatype CatData = CatData(
    id: Value,
    url: Value,
    width: Value,
    height: Value,
    breeds: seq<Breed>,
    categories: Option<seq<Category>>)

  /** An image record. Its attributes are set once, when it is built. */
  class Cat {
    const id: Value
    const url: Value
    const width: Value
    const height: Value
    const breeds: seq<Breed>
    const categories: Option<seq<Category>>

    function Data(): CatData {
      CatData(id, url, width, height, breeds, categories)
    }

    constructor (d: CatData)
      ensures Data() == d
    {
      id := d.id;
      url := d.url;
      width := d.width;
      height := d.height;
      breeds := d.breeds;
      categories := d.categories;
    }
  }

  /** `[Breed(b) for b in v]`. A dict iterates over its keys and a string over its
      characters; both are strings, which `Breed` refuses. */
  function BreedsOf(v: Value): Result<seq<Breed>> {
    match v
    case VList(items) => Traverse(BreedOf, items)
    case VTuple(items) => Traverse(BreedOf, items)
    case VStr(s) => Traverse(BreedOf, Chars(s))
    case VDict(m) => if m == map[] then Success([]) else Failure(AttributeError)
    case _ => Failure(TypeError)
  }

  /** `[Category(c) for c in v]`, iterating as `BreedsOf` does. */
  function CategoriesOf(v: Value): Result<seq<Category>> {
    match v
    case VList(items) => Traverse(CategoryOf, items)
    case VTuple(items) => Traverse(CategoryOf, items)
    case VStr(s) => Traverse(CategoryOf, Chars(s))
    case VDict(m) => if m == map[] then Success([]) else Failure(TypeError)
    case _ => Failure(TypeError)
  }

  /** The cache key of `data['id']`: the lookup fails on a non-dict or a missing `id`, and the
      dict lookup on an unhashable id. */
  function IdKey(data: Value): Result<Key> {
    var id :- Subscript(data, "id");
    match KeyOf(id)
    case None => Failure(TypeError)
    case Some(k) => Success(k)
  }

  /** The attributes a cache miss builds, read in the order of lines 222-235. */
  function CatDataOf(data: Value): Result<CatData> {
    var id :- Subscript(data, "id");
    var url :- Subscript(data, "url");
    var width :- Subscript(data, "width");
    var height :- Subscript(data, "height");
    var breedsValue :- Subscript(data, "breeds");
    var breeds :- BreedsOf(breedsValue);
    var categories :-
      match Subscript(data, "categories")
      case Failure(_) => Success(None)
      case Success(cs) =>
        (match CategoriesOf(cs)
         case Failure(e) => Failure(e)
         case Success(list) => Success(Some(list)));
    Success(CatData(id, url, width, height, breeds, categories))
  }

  /** Converting the breeds the iteration visits gives `BreedsOf`. */
  lemma BreedsOfIterates(v: Value, xs: seq<Value>)
    requires Iterates(v, xs)
    ensures Traverse(BreedOf, xs) == BreedsOf(v)
  {
    if v.VDict? {
      forall i | 0 <= i < |xs| ensures BreedOf(xs[i]) == Failure(AttributeError) {
        ConvertersRefuseStrings(xs[i].s);
      }
      TraverseUniformFailure(BreedOf, xs, AttributeError);
      assert xs == [] <==> v.m == map[];
    }
  }

  /** Converting the categories the iteration visits gives `CategoriesOf`. */
  lemma CategoriesOfIterates(v: Value, xs: seq<Value>)
    requires Iterates(v, xs)
    ensures Traverse(CategoryOf, xs) == CategoriesOf(v)
  {
    if v.VDict? {
      forall i | 0 <= i < |xs| ensures CategoryOf(xs[i]) == Failure(TypeError) {
        ConvertersRefuseStrings(xs[i].s);
      }
      TraverseUniformFailure(CategoryOf, xs, TypeError);
      assert xs == [] <==> v.m == map[];
    }
  }

  /** A cache miss that succeeds copies `id`, `url`, `width` and `height`; `categories` is
      None exactly when the key is absent, and otherwise holds one category per element of
      the JSON list, in order, copying its `id` and `name`; `breeds` holds one breed per
      element of the JSON list, in order. */
  lemma CatDataFields(m: map<string, Value>)
    requires CatDataOf(VDict(m)).Success?
    ensures var d := CatDataOf(VDict(m)).value;
      && d.id == m["id"] && d.url == m["url"] && d.width == m["width"] && d.height == m["height"]
    ensures var d := CatDataOf(VDict(m)).value;
      d.categories.None? <==> "categories" !in m
    ensures var d := CatDataOf(VDict(m)).value;
      "categories" in m && m["categories"].VList? ==>
        var items := m["categories"].items;
        && |d.categories.value| == |items|
        && forall i :: 0 <= i < |items| ==>
             items[i].VDict? && d.categories.value[i] == Category(items[i].m["id"], items[i].m["name"])
    ensures var d := CatDataOf(VDict(m)).value;
      m["breeds"].VList? ==>
        var items := m["breeds"].items;
        && |d.breeds| == |items|
        && forall i :: 0 <= i < |items| ==> BreedOf(items[i]) == Success(d.breeds[i])
  {
    var d := CatDataOf(VDict(m)).value;
    if "categories" in m && m["categories"].VList? {
      var items := m["categories"].items;
      forall i | 0 <= i < |items|
        ensures items[i].VDict? && d.categories.value[i] == Category(items[i].m["id"], items[i].m["name"])
      {
        CategoryOfMeaning(items[i]);
      }
    }
  }

  /** A cache miss fails exactly when `data` is not a dict, lacks one of `id`, `url`, `width`,
      `height` and `breeds` (the first missing one is reported), a breed does not convert, or
      `categories` is present and a category does not convert. */
  lemma CatDataFailures(data: Value)
    ensures CatDataOf(data).Failure? <==>
      || !data.VDict?
      || !("id" in data.m && "url" in data.m && "width" in data.m && "height" in data.m && "breeds" in data.m)
      || BreedsOf(data.m["breeds"]).Failure?
      || ("categories" in data.m && CategoriesOf(data.m["categories"]).Failure?)
    ensures !data.VDict? ==> CatDataOf(data) == Failure(TypeError)
    ensures data.VDict? ==>
      var m := data.m;
      && ("id" !in m ==> CatDataOf(data) == Failure(KeyError("id")))
      && ("id" in m && "url" !in m ==> CatDataOf(data) == Failure(KeyError("url")))
      && ("id" in m && "url" in m && "width" !in m ==> CatDataOf(data) == Failure(KeyError("width")))
      && ("id" in m && "url" in m && "width" in m && "height" !in m ==> CatDataOf(data) == Failure(KeyError("height")))
      && ("id" in m && "url" in m && "width" in m && "height" in m && "breeds" !in m ==>
            CatDataOf(data) == Failure(KeyError("breeds")))
  {
  }

  /** A category without `id`, after breeds that convert and categories before it that
      convert, fails the whole conversion with `KeyError('id')`. */
  lemma CategoryWithoutIdFails(m: map<string, Value>, k: nat)
    requires "id" in m && "url" in m && "width" in m && "height" in m && "breeds" in m
    requires BreedsOf(m["breeds"]).Success?
    requires "categories" in m && m["categories"].VList? && k < |m["categories"].items|
    requires forall j :: 0 <= j < k ==> CategoryOf(m["categories"].items[j]).Success?
    requires m["categories"].items[k].VDict? && "id" !in m["categories"].items[k].m
    ensures CatDataOf(VDict(m)) == Failure(KeyError("id"))
  {
    var items := m["categories"].items;
    CategoryOfMeaning(items[k]);
    TraverseFirstFailure(CategoryOf, items, k);
  }

  /** A missing `categories` key and an empty `categories` list give different records. */
  lemma AbsentVersusEmptyCategories(m: map<string, Value>)
    requires "categories" !in m
    requires CatDataOf(VDict(m)).Success?
    ensures CatDataOf(VDict(m)).value.categories == None
    ensures CatDataOf(VDict(m[("categories") := VList([])])).Success?
    ensures CatDataOf(VDict(m[("categories") := VList([])])).value.categories == Some([])
  {
    var m' := m[("categories") := VList([])];
    assert forall k :: k in m && k != "categories" ==> k in m' && m'[k] == m[k];
  }

  /** Example: `{id: "y", url: "u", width: 1}` fails for want of `height`. */
  lemma MissingHeightExample()
    ensures CatDataOf(VDict(map["id" := VStr("y"), "url" := VStr("u"), "width" := VInt(1)])) == Failure(KeyError("height"))
  {
    CatDataFailures(VDict(map["id" := VStr("y"), "url" := VStr("u"), "width" := VInt(1)]));
  }

  /** The process-wide identity cache, as an object. */
  class Registry {
    var cache: map<Key, Cat>

    /** Every cached instance sits under the key of its own id. */
    ghost predicate Valid()
      reads this
    {
      forall k :: k in cache ==> KeyOf(cache[k].id) == Some(k)
    }

    constructor ()
      ensures Valid() && cache == map[]
    {
      cache := map[];
    }

    /** `Cat(data)`. */
    method Convert(data: Value) returns (r: Result<Cat>)
      requires Valid()
      modifies this
      ensures Valid()
      // the id cannot be read or hashed: the exception, and the cache is unchanged
      ensures IdKey(data).Failure? ==> r == Failure(IdKey(data).error) && cache == old(cache)
      // a hit: the cached instance itself, nothing else read, the cache unchanged
      ensures IdKey(data).Success? && IdKey(data).value in old(cache) ==>
        r == Success(old(cache)[IdKey(data).value]) && cache == old(cache)
      // a miss that fails: the exception of the first failing read, the cache unchanged
      ensures IdKey(data).Success? && IdKey(data).value !in old(cache) && CatDataOf(data).Failure? ==>
        r == Failure(CatDataOf(data).error) && cache == old(cache)
      // a miss that succeeds: a new instance holding the data, added under its id and nothing else
      ensures IdKey(data).Success? && IdKey(data).value !in old(cache) && CatDataOf(data).Success? ==>
        && r.Success? && fresh(r.value) && r.value.Data() == CatDataOf(data).value
        && cache == old(cache)[IdKey(data).value := r.value]
      // on a hit as on a miss, the instance's id is `data['id']` up to Python's `==`
      ensures r.Success? ==> IdKey(data).Success? && KeyOf(r.value.id) == Some(IdKey(data).value)
      ensures r.Success? ==> PyEq(r.value.id, Subscript(data, "id").value)
    {
      var id :- Subscript(data, "id");
      var key := KeyOf(id);
      if key.None? {
        return Failure(TypeError);
      }
      if key.value in cache {
        KeyOfIsEquality(cache[key.value].id, id);
        return Success(cache[key.value]);
      }
      var url :- Subscript(data, "url");
      var width :- Subscript(data, "width");
      var height :- Subscript(data, "height");
      var breedsValue :- Subscript(data, "breeds");
      var breedItems :- Iterate(breedsValue);
      var breeds :- Collect(BreedOf, breedItems);
      BreedsOfIterates(breedsValue, breedItems);
      var categories: Option<seq<Category>>;
      var categoriesValue := Subscript(data, "categories");
      if categoriesValue.Failure? {
        categories := None;
      } else {
        var categoryItems :- Iterate(categoriesValue.value);
        var list :- Collect(CategoryOf, categoryItems);
        CategoriesOfIterates(categoriesValue.value, categoryItems);
        categories := Some(list);
      }
      KeyOfIsEquality(id, id);
      var cat := new Cat(CatData(id, url, width, height, breeds, categories));
      cache := cache[key.value := cat];
      return Success(cat);
    }
  }

  /** Converting two payloads with the same id gives the same instance, with the attributes
      of the first conversion: the second payload is not read past its id. */
  method ConvertSameIdTwice(registry: Registry, first: Value, second: Value)
    returns (r1: Result<Cat>, r2: Result<Cat>)
    requires registry.Valid()
    requires IdKey(first).Success? && IdKey(second) == IdKey(first)
    modifies registry
    ensures registry.Valid()
    ensures r1.Success? ==> r2 == r1
    ensures r1.Success? && IdKey(first).value !in old(registry.cache) ==>
      CatDataOf(first).Success? && r2.value.Data() == CatDataOf(first).value
  {
    r1 := registry.Convert(first);
    r2 := registry.Convert(second);
  }
}
