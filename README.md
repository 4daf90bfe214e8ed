# cat.py models, in Dafny

This project models the conversion layer of the `cat.py` client for "The Cat API"
(`cat/models.py`). The layer turns the JSON dictionaries the API returns into image (`Cat`),
`Breed` and `Category` objects. It has three parts:

- **The range parser `parse`.** It full-matches `(\d+) *- *(\d+)` and returns the two digit
  runs as strings (`Ranges`).
- **Comma lists.** `x and x.split(', ')` keeps a falsy value and splits a non-empty string on
  the two-character separator `", "` (`Lists`).
- **The converters.**
  - `Breed` reads leniently with `.get`, coerces the flag fields with `bool(...)`, and parses
    or splits its compound fields (`Models`).
  - `Category` reads `id` and `name` strictly (`Models`).
  - `Cat.__new__` has an identity cache. A known id returns the cached instance without
    reading anything else. An unknown id reads `url`, `width`, `height` and `breeds` strictly,
    converts every breed and category, and inserts the new instance only after every read
    succeeded (`Cache`).

Python values as the code sees them are `Values.Value`: None, bool, int, str, list, tuple and
dict. An exception the code can raise is a `Values.Error` carried in a `Result`:
`KeyError(key)`, `TypeError` or `AttributeError`. Python's built-ins are defined, not
claimed about, in `Values`:
- strict `d[key]` is `Values.Subscript`: `KeyError(key)` on a dict without the key,
  `TypeError` on a non-dict;
- lenient `d.get(key)` is `Values.Get`, and `v.get(key)` on any value is `Values.DictGet`,
  which gives `AttributeError` on a non-dict;
- the short-circuit `x and f(x)` and `x or f(x)` are `Values.And` and `Values.Or`.

Dict lookup by a hashable value goes through `Values.KeyOf`. `Values.KeyOfIsEquality`
proves that two hashable values share a key exactly when Python's `==` (`Values.PyEq`,
defined on its own) says they are equal, so `True` and `1` find the same cache entry.

The operations of `cat/models.py` are these members. Each is a definition, and the rows below
name the lemmas that state what it means.
- **`parse` (lines 6-7):** `Ranges.Parse` on a string, and `Ranges.ParseCall` on any value.
  Their meaning is stated by `ParseFormat`, `ParseSound`, `ParseFailsOutsideForm` and
  `ParseCall`'s own contract.
- **`s.split(', ')` (lines 102, 109 and 139):** `Lists.Split` on a string, and `Lists.SplitCall`
  on any value. Their meaning is stated by `JoinSplit`, `SplitJoin`, `SplitPiecesClean` and
  `SplitFieldMeaning`.
- **`Breed(v)` (lines 89-148):** `Models.BreedOf`, which runs `Models.BreedFromDict` on a dict.
  Its meaning is stated by `BreedSucceedsIff`, `BreedCopiesFields`, `BreedListFields`,
  `BreedLifeSpan`, `BreedTemperamentAndWeight`, `TemperamentMissingFails` and
  `WeightAsWritten`.
- **`Category(v)` (lines 168-178):** `Models.CategoryOf`. Its meaning is stated by
  `CategoryOfMeaning`.
- **The id lookup (lines 215-217):** `Cache.IdKey`.
- **The build on a cache miss (lines 221-235):** `Cache.CatDataOf`. It converts `breeds` with
  `Cache.BreedsOf` and `categories` with `Cache.CategoriesOf`. Its meaning is stated by
  `CatDataFields`, `CatDataFailures`, `BreedsOfIterates` and `CategoriesOfIterates`.
- **The whole of `Cat.__new__` (lines 206-239):** `Cache.Registry.Convert`, whose contract
  builds on all of the above.

The module-level dict `cat_cache` is an explicit `Cache.Registry` object. It holds a
`map<Key, Cat>`, and `Cat` is a class, so "the same instance" is reference equality.
`Registry.Convert` is `Cat(data)`.

The model follows the code as written:

- `parse` returns the two digit runs as **strings**, not integers.
- `Breed` reads its fields with `.get`: a missing key gives None, never a missing-field error.
- Line 139 (`temperament or temperament.split(', ')`) stores a truthy temperament **unsplit**.
  A missing temperament reaches `.split` on None and fails. The empty string becomes `['']`.
  The class docstring (`cat/models.py:75`) calls `temperament` a `list`.
- Line 147 (`metric or parse(metric)`) stores a truthy metric weight **unparsed**. A missing
  or empty one reaches `parse` and fails. The class docstring (`cat/models.py:83`) calls
  `weight` a `tuple`.
- `breeds` is a required key of the image dict (`data['breeds']`), not an optional one.

Lines 139 and 147 are modelled as written. No "intended" version of them is modelled.

Lines 99 and 114 are not valid Python: line 99 lacks a `)` and line 114 has a stray `]`. The
model reads them as `breeds.get('affection_level')` and `bool(breeds.get('experimental'))`.

## Model

| member | source | states |
|---|---|---|
| `Values.KeyOf` | cat/models.py:217 | a list or dict id is unhashable; None, bools, ints and strings are hashable |
| `Values.KeyOfIsEquality` | cat/models.py:217 | two hashable ids share a cache entry exactly when Python's `==` holds between them (`True == 1`, equal strings, element-wise equal tuples) |
| `Values.KeyExamples` | cat/models.py:217 | `True` and `1` are the same key, `False` and `0` too, `"1"` and `1` are not, and `(True, "a")` is `(1, "a")` |
| `Values.Iterate` | cat/models.py:226 | `for x in v` fails with `TypeError` exactly on None, bools and ints; it visits a list's items, a string's characters, and every key of a dict exactly once |
| `Values.Traverse` | cat/models.py:226 | a comprehension succeeds iff every element converts; the result has the same length and order, element by element |
| `Values.TraverseFirstFailure` | cat/models.py:233 | a failing comprehension raises the exception of its first failing element |
| `Values.TraverseUniformFailure` | cat/models.py:226 | if every element raises the same exception, the comprehension succeeds only on an empty iteration |
| `Values.Collect` | cat/models.py:233 | the comprehension loop computes exactly `Traverse` |
| `Ranges.ParseFormat` | cat/models.py:5-7 | every text of the form digits, spaces, `-`, spaces, digits parses to exactly its two digit runs, in order |
| `Ranges.ParseSound` | cat/models.py:5-7 | whatever parses is of that form, built from the two returned runs |
| `Ranges.ParseFailsOutsideForm` | cat/models.py:5-7 | `parse` fails exactly on the texts outside the pattern's language |
| `Ranges.ParseCall` | cat/models.py:6-7 | a non-string raises `TypeError`; a non-matching string raises `AttributeError` (from `None.groups()`); a match gives a pair |
| `Ranges.ParseCallFormat` | cat/models.py:6-7 | on a well-formed text, `parse` gives the tuple of the two digit strings |
| `Ranges.ParseAcceptsExamples` | cat/models.py:5-7 | `"9 - 15"` and `"9-15"` both give `("9", "15")` |
| `Ranges.ParseRefusesWords` | cat/models.py:5-7 | `"nine-fifteen"` is refused |
| `Ranges.ParseRefusesTab` | cat/models.py:5-7 | a tab in place of a space is refused |
| `Ranges.ParseRefusesTrailing` | cat/models.py:5-7 | trailing text after the second run is refused |
| `Lists.JoinSplit` | cat/models.py:101-102 | joining the pieces of `s.split(', ')` with `", "` gives back `s` |
| `Lists.SplitPiecesClean` | cat/models.py:101-102 | no piece of `s.split(', ')` contains `", "` |
| `Lists.SplitJoin` | cat/models.py:108-109 | splitting a join of pieces free of `", "` gives back exactly those pieces |
| `Lists.SplitExamples` | cat/models.py:101-102 | `"Friendly, Gentle, Intelligent"` splits into its three words; `""` splits into one empty piece |
| `Lists.SplitFieldMeaning` | cat/models.py:101-109 | `x and x.split(', ')` keeps a falsy value; a non-empty string becomes pieces free of `", "` that join back to it; other truthy values raise `AttributeError` |
| `Models.EmptyIsNotRange` | cat/models.py:5-7 | the empty string is outside the pattern's language |
| `Models.ParseRefusesFalsy` | cat/models.py:146-147 | `parse` fails on every falsy value, so line 147 fails on every falsy metric |
| `Models.BreedSucceedsIff` | cat/models.py:89-148 | `Breed(v)` succeeds iff `v` is a dict whose lists are falsy or strings, whose life span is falsy or of the range form, whose temperament is truthy or `""`, and whose weight is a dict with a truthy `metric`; a non-dict raises `AttributeError` |
| `Models.BreedCopiesFields` | cat/models.py:98-136 | the lenient fields equal the dict's values, None when missing; each `bool(...)` flag is the value's truthiness, False when missing |
| `Models.BreedListFields` | cat/models.py:101-109 | a truthy `alt_names` or `country_codes` becomes pieces free of `", "` that join back to it; a falsy one is kept |
| `Models.BreedLifeSpan` | cat/models.py:123-124 | a truthy life span is of the range form and becomes the tuple of its two digit runs; a falsy one is kept |
| `Models.BreedTemperamentAndWeight` | cat/models.py:138-147 | as written, a truthy temperament is stored unsplit (`""` becomes `['']`), and the weight is the metric string unparsed |
| `Models.TemperamentAsWritten` | cat/models.py:138-139 | a missing or None temperament makes the conversion fail with `AttributeError`; a non-empty temperament string is stored whole |
| `Models.TemperamentMissingFails` | cat/models.py:138-139 | whatever the weight, once the fields read before line 139 convert, a missing or None temperament makes the conversion fail with `AttributeError` |
| `Models.WeightAsWritten` | cat/models.py:145-147 | a breed with no weight, a None weight, or a weight without `metric` does not convert |
| `Models.CategoryOfMeaning` | cat/models.py:177-178 | `Category(v)` succeeds iff `v` is a dict with `id` and `name`, and copies both; a missing `id` is reported before a missing `name`; a non-dict raises `TypeError` |
| `Models.ConvertersRefuseStrings` | cat/models.py:98-177 | `Breed` refuses every string at its first `.get` (line 98) with `AttributeError`, and `Category` at `category['id']` (line 177) with `TypeError` |
| `Cache.BreedsOfIterates` | cat/models.py:226 | converting whatever `data['breeds']` iterates over, in any dict-key order, gives the same result |
| `Cache.CategoriesOfIterates` | cat/models.py:233 | the same for `categories` |
| `Cache.CatDataFields` | cat/models.py:221-235 | a successful miss copies `id`, `url`, `width` and `height`; `categories` is None exactly when the key is absent, otherwise the same length and order with `id`/`name` copied; `breeds` matches its list in length and order |
| `Cache.CatDataFailures` | cat/models.py:215-235 | a miss fails exactly on a non-dict, a missing `id`/`url`/`width`/`height`/`breeds` (the first one missing is reported), a breed that does not convert, or present categories that do not convert |
| `Cache.CategoryWithoutIdFails` | cat/models.py:233 | a category element lacking `id` fails the whole conversion with `KeyError('id')` |
| `Cache.AbsentVersusEmptyCategories` | cat/models.py:228-235 | a missing `categories` key gives None; adding `categories: []` gives an empty list instead |
| `Cache.MissingHeightExample` | cat/models.py:225 | `{id, url, width}` without `height` fails with `KeyError('height')` |
| `Cache.Cat.constructor` | cat/models.py:221-235 | a new image record holds exactly the attributes it is given |
| `Cache.Registry.constructor` | cat/models.py:3 | the cache starts empty |
| `Cache.Registry.Convert` | cat/models.py:206-239 | an unreadable or unhashable id raises and leaves the cache unchanged; a hit returns the cached instance and leaves the cache unchanged; a failing miss raises and leaves the cache unchanged; a successful miss returns a fresh instance holding the data and adds exactly that entry; every entry stays under its own id's key; on a hit as on a miss, the returned instance's id `==` `data['id']` |
| `Cache.ConvertSameIdTwice` | cat/models.py:215-219 | two payloads with the same id give the same instance, with the first payload's attributes |

## Left out

- `cat/client.py`, `cat/test.py` and `setup.py` are not part of this model. They contain the
  HTTP calls, the JSON decoding of responses, the two three-way argument mappings and the
  packaging metadata: network and file I/O around `Cat(...)`.
- The `__repr__` methods (`cat/models.py:150-154`, `180-184`, `241-245`) are output formatting
  and are not modelled. The commented-out classes (`cat/models.py:247-264`) are not modelled
  either.
- Breed fields copied straight through with `.get` and not in `Models.Breed`: `cfa_url`,
  `child_friendly`, `country_code`, `description`, `dog_friendly`, `energy_level`, `grooming`,
  `health_issues`, `intelligence`, `origin`, `reference_image_id`, `shedding_level`,
  `social_needs`, `stranger_friendly`, `vcahospitals_url`, `vetstreet_url`, `vocalisation`,
  `wikipedia_url`. Each one behaves like the modelled `adaptability`: the dict's value, or
  None.
- JSON floats are not modelled, so neither are their truthiness and hashing (`1.0 == 1`).
- Exception messages are not modelled, only the exception class and, for `KeyError`, the key.
- Breed and Category objects are values, not objects with identity. The source neither
  caches them nor compares them by identity.
- `Cat` attributes are constants. The source never reassigns them after `__new__`.
- Concurrency is not modelled: two conversions racing on the same id. The conversion does no
  I/O and runs to completion.
- Ranges.IsDigit: `\d` in a Python string pattern also matches non-ASCII decimal digits. The
  model accepts only `0`-`9`, so it does not capture, for example, Arabic-Indic digits.
- Values.Iterate: on a dict, the order in which keys are visited is left unspecified. Python
  uses insertion order, and a dict in this model (a Dafny `map`) does not record it. This
  order never changes a result: every key is a string, and `Breed` and `Category` refuse every
  string alike.
