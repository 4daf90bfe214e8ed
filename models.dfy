/** The Breed and Category converters of cat/models.py. A Breed reads every field leniently
    with `.get` (a missing key is None), coerces the flag fields with `bool(...)`, splits the
    comma lists, parses the life span, and keeps the temperament and the metric weight as
    lines 139 and 147 actually compute them. A Category reads `id` and `name` strictly. */
module Models {
  import opened Values
  import opened Ranges
  import opened Lists

  /** A breed record: the fields the converter computes; values copied from the JSON stay
      Python values, the `bool(...)` fields are booleans. */
  datatype Breed = Breed(
    adaptability: Value,
    affectionLevel: Value,
    altNames: Value,
    countryCodes: Value,
    experimental: bool,
    hairless: bool,
    hypoallergenic: bool,
    id: Value,
    indoor: bool,
    lifeSpan: Value,
    name: Value,
    natural: bool,
    rare: bool,
    rex: bool,
    shortLegs: bool,
    suppressedTail: Value,
    temperament: Value,
    weight: Value)

  datatype Category = Category(id: Value, name: Value)

  /** `weight.get('metric')`. */
  function MetricCall(w: Value): Result<Value> {
    DictGet(w, "metric")
  }

  /** `Breed(breeds)` on a dict, statement by statement; the first statement that raises
      decides the exception. */
  function BreedFromDict(m: map<string, Value>): Result<Breed> {
    var altNames :- And(Get(m, "alt_names"), SplitCall);
    var countryCodes :- And(Get(m, "country_codes"), SplitCall);
    var lifeSpan :- And(Get(m, "life_span"), ParseCall);
    var temperament :- Or(Get(m, "temperament"), SplitCall);
    var metric :- And(Get(m, "weight"), MetricCall);
    var weight :- Or(metric, ParseCall);
    Success(Breed(
      Get(m, "adaptability"),
      Get(m, "affection_level"),
      altNames,
      countryCodes,
      Truthy(Get(m, "experimental")),
      Truthy(Get(m, "hairless")),
      Truthy(Get(m, "hypoallergenic")),
      Get(m, "id"),
      Truthy(Get(m, "indoor")),
      lifeSpan,
      Get(m, "name"),
      Truthy(Get(m, "natural")),
      Truthy(Get(m, "rare")),
      Truthy(Get(m, "rex")),
      Truthy(Get(m, "short_legs")),
      Get(m, "suppressed_tail"),
      temperament,
      weight))
  }

  /** `Breed(v)`: anything but a dict has no `.get`. */
  function BreedOf(v: Value): Result<Breed> {
    match v
    case VDict(m) => BreedFromDict(m)
    case _ => Failure(AttributeError)
  }

  /** `Category(v)`: strict `v['id']`, then `v['name']`. */
  function CategoryOf(v: Value): Result<Category> {
    var id :- Subscript(v, "id");
    var name :- Subscript(v, "name");
    Success(Category(id, name))
  }

  // ---- When a breed converts ------------------------------------------------------------

  /** A comma-list field that `x and x.split(', ')` accepts. */
  predicate ListFieldOk(v: Value) { !Truthy(v) || v.VStr? }

  /** A life span that `life and parse(life)` accepts. */
  ghost predicate RangeFieldOk(v: Value) { !Truthy(v) || (v.VStr? && IsRange(v.s)) }

  /** A temperament that line 139, `temperament or temperament.split(', ')`, accepts: a
      truthy value, or the one falsy value that has `.split`, the empty string. */
  predicate TemperamentOk(v: Value) { Truthy(v) || v == VStr("") }

  /** A weight that lines 146-147, `metric = weight and weight.get('metric')` and
      `metric or parse(metric)`, accept: only a dict with a truthy `metric`, since every falsy
      metric reaches `parse`, which refuses it. */
  predicate WeightOk(w: Value) { w.VDict? && Truthy(Get(w.m, "metric")) }

  ghost predicate BreedDictOk(m: map<string, Value>) {
    && ListFieldOk(Get(m, "alt_names"))
    && ListFieldOk(Get(m, "country_codes"))
    && RangeFieldOk(Get(m, "life_span"))
    && TemperamentOk(Get(m, "temperament"))
    && WeightOk(Get(m, "weight"))
  }

  lemma EmptyIsNotRange()
    ensures !IsRange("")
  {
    ParseFailsOutsideForm("");
  }

  /** `parse` accepts no falsy value. */
  lemma ParseRefusesFalsy(v: Value)
    requires !Truthy(v)
    ensures ParseCall(v).Failure?
  {
    EmptyIsNotRange();
  }

  /** A breed dict converts exactly when each compound field has a shape its statement
      accepts; anything but a dict is refused. */
  lemma BreedSucceedsIff(v: Value)
    ensures BreedOf(v).Success? <==> v.VDict? && BreedDictOk(v.m)
    ensures !v.VDict? ==> BreedOf(v) == Failure(AttributeError)
  {
    if v.VDict? {
      var m := v.m;
      var metric := And(Get(m, "weight"), MetricCall);
      if metric.Success? && !Truthy(metric.value) {
        ParseRefusesFalsy(metric.value);
      }
    }
  }

  /** What a converted breed holds: the lenient fields are the dict's values, None when
      missing; each `bool(...)` field is the truthiness of the dict's value, False when
      missing. */
  lemma BreedCopiesFields(m: map<string, Value>)
    requires BreedOf(VDict(m)).Success?
    ensures var b := BreedOf(VDict(m)).value;
      && b.id == Get(m, "id") && b.name == Get(m, "name")
      && b.adaptability == Get(m, "adaptability") && b.affectionLevel == Get(m, "affection_level")
      && b.suppressedTail == Get(m, "suppressed_tail")
      && b.experimental == Truthy(Get(m, "experimental")) && b.hairless == Truthy(Get(m, "hairless"))
      && b.hypoallergenic == Truthy(Get(m, "hypoallergenic")) && b.indoor == Truthy(Get(m, "indoor"))
      && b.natural == Truthy(Get(m, "natural")) && b.rare == Truthy(Get(m, "rare"))
      && b.rex == Truthy(Get(m, "rex")) && b.shortLegs == Truthy(Get(m, "short_legs"))
    ensures var b := BreedOf(VDict(m)).value;
      && ("id" !in m ==> b.id == VNone) && ("name" !in m ==> b.name == VNone)
      && ("hairless" !in m ==> !b.hairless) && ("indoor" !in m ==> !b.indoor)
      && ("rex" !in m ==> !b.rex) && ("short_legs" !in m ==> !b.shortLegs)
  {
  }

  /** The compound fields of a converted breed are the results of their statements. */
  lemma BreedParts(m: map<string, Value>)
    requires BreedOf(VDict(m)).Success?
    ensures var b := BreedOf(VDict(m)).value;
      && And(Get(m, "alt_names"), SplitCall) == Success(b.altNames)
      && And(Get(m, "country_codes"), SplitCall) == Success(b.countryCodes)
      && And(Get(m, "life_span"), ParseCall) == Success(b.lifeSpan)
      && Or(Get(m, "temperament"), SplitCall) == Success(b.temperament)
      && And(Get(m, "weight"), MetricCall).Success?
      && Or(And(Get(m, "weight"), MetricCall).value, ParseCall) == Success(b.weight)
  {
  }

  /** A non-empty comma list of a converted breed becomes pieces free of `", "` that join
      back to it; an empty or missing one is kept as it is. */
  lemma BreedListFields(m: map<string, Value>)
    requires BreedOf(VDict(m)).Success?
    ensures var b := BreedOf(VDict(m)).value; var alt := Get(m, "alt_names");
      && (!Truthy(alt) ==> b.altNames == alt)
      && (Truthy(alt) ==> exists ps :: b.altNames == VList(Strs(ps)) && Join(ps) == alt.s
                                       && forall i :: 0 <= i < |ps| ==> !ContainsSep(ps[i]))
    ensures var b := BreedOf(VDict(m)).value; var codes := Get(m, "country_codes");
      && (!Truthy(codes) ==> b.countryCodes == codes)
      && (Truthy(codes) ==> exists ps :: b.countryCodes == VList(Strs(ps)) && Join(ps) == codes.s
                                         && forall i :: 0 <= i < |ps| ==> !ContainsSep(ps[i]))
  {
    BreedParts(m);
    BreedSucceedsIff(VDict(m));
    SplitFieldMeaning(Get(m, "alt_names"));
    SplitFieldMeaning(Get(m, "country_codes"));
  }

  /** A non-empty life span of a converted breed is of the form digits, spaces, hyphen,
      spaces, digits and becomes the tuple of its two digit runs, as strings. */
  lemma BreedLifeSpan(m: map<string, Value>)
    requires BreedOf(VDict(m)).Success?
    ensures var b := BreedOf(VDict(m)).value; var life := Get(m, "life_span");
      && (!Truthy(life) ==> b.lifeSpan == life)
      && (Truthy(life) ==> exists lo, n: nat, k: nat, hi ::
            IsNumeral(lo) && IsNumeral(hi) && life.s == Format(lo, n, k, hi)
            && b.lifeSpan == VTuple([VStr(lo), VStr(hi)]))
  {
    BreedParts(m);
    var life := Get(m, "life_span");
    if Truthy(life) {
      BreedSucceedsIff(VDict(m));
      ParseFailsOutsideForm(life.s);
      var lo, hi := Parse(life.s).value.0, Parse(life.s).value.1;
      ParseSound(life.s, lo, hi);
      var n: nat, k: nat :| life.s == Format(lo, n, k, hi);
    }
  }

  /** As lines 139 and 147 are written, a truthy temperament is kept unsplit (the empty
      string becomes `['']`) and the weight is the metric string, unparsed. */
  lemma BreedTemperamentAndWeight(m: map<string, Value>)
    requires BreedOf(VDict(m)).Success?
    ensures var b := BreedOf(VDict(m)).value; var t := Get(m, "temperament");
      b.temperament == if Truthy(t) then t else VList([VStr("")])
    ensures var b := BreedOf(VDict(m)).value;
      Get(m, "weight").VDict? && b.weight == Get(Get(m, "weight").m, "metric")
  {
    BreedParts(m);
    BreedSucceedsIff(VDict(m));
    var t := Get(m, "temperament");
    if !Truthy(t) {
      assert Split("") == [""];
      assert Strs([""]) == [VStr("")];
    }
  }

  /** Line 139 as written: a breed without a temperament does not convert, because `None`
      reaches `.split`, while a temperament string is stored whole. */
  lemma TemperamentAsWritten(m: map<string, Value>, s: string)
    requires BreedDictOk(m[("temperament") := VStr(s)])
    ensures Get(m, "temperament") == VNone ==> BreedOf(VDict(m)) == Failure(AttributeError)
    ensures s != "" ==> BreedOf(VDict(m[("temperament") := VStr(s)])).value.temperament == VStr(s)
  {
    var m' := m[("temperament") := VStr(s)];
    BreedSucceedsIff(VDict(m'));
    assert Get(m', "alt_names") == Get(m, "alt_names");
    assert Get(m', "country_codes") == Get(m, "country_codes");
    assert Get(m', "life_span") == Get(m, "life_span");
    if s != "" {
      BreedTemperamentAndWeight(m');
    }
  }

  /** Line 139 as written, whatever the weight: once the fields read before it convert, a
      missing or None temperament reaches `None.split` and the breed does not convert. */
  lemma TemperamentMissingFails(m: map<string, Value>)
    requires ListFieldOk(Get(m, "alt_names")) && ListFieldOk(Get(m, "country_codes"))
    requires RangeFieldOk(Get(m, "life_span"))
    requires Get(m, "temperament") == VNone
    ensures BreedOf(VDict(m)) == Failure(AttributeError)
  {
  }

  /** Line 147 as written: a breed without a weight does not convert, because `None` reaches
      `parse`, and neither does one whose metric is missing. */
  lemma WeightAsWritten(m: map<string, Value>)
    requires "weight" !in m || m["weight"] == VNone || (m["weight"].VDict? && "metric" !in m["weight"].m)
    ensures BreedOf(VDict(m)).Failure?
  {
    BreedSucceedsIff(VDict(m));
  }

  /** A category converts exactly when it is a dict with both keys, and copies them; a
      missing `id` is reported before a missing `name`. */
  lemma CategoryOfMeaning(v: Value)
    ensures CategoryOf(v).Success? <==> v.VDict? && "id" in v.m && "name" in v.m
    ensures CategoryOf(v).Success? ==> CategoryOf(v).value == Category(v.m["id"], v.m["name"])
    ensures !v.VDict? ==> CategoryOf(v) == Failure(TypeError)
    ensures v.VDict? && "id" !in v.m ==> CategoryOf(v) == Failure(KeyError("id"))
    ensures v.VDict? && "id" in v.m && "name" !in v.m ==> CategoryOf(v) == Failure(KeyError("name"))
  {
  }

  /** Both converters refuse every string: a string has no `.get` and accepts no string
      subscript. */
  lemma ConvertersRefuseStrings(s: string)
    ensures BreedOf(VStr(s)) == Failure(AttributeError)
    ensures CategoryOf(VStr(s)) == Failure(TypeError)
  {
  }
}
