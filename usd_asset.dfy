/**
 * `UsdAsset` (`grill/cook/__init__.py` and `grill/write/__init__.py`): the
 * pipeline identifier of a USD layer.
 *
 * The class builds on a naming library that is not part of this model;
 * what is modelled is the convention its docstring spells out:
 * `{code}-{media}-{kingdom}-{cluster}-{area}-{stream}-{item}-{step}-{variant}-{part}`
 * (each field `\w+`), then the pipe `(.output)?.version(.index)?` and
 * `.suffix`, with the suffix limited to the registered file formats that
 * start with `usd`.  An identifier is held as the map of its field values.
 */
module UsdAsset {
  import opened Chars
  import opened Wrappers
  import opened Texts
  import NameSchema

  /** `\w` on ASCII text. */
  predicate IsWordChar(c: char) { IsAlnum(c) || c == '_' }

  /** `\w+`. */
  predicate WordRun(s: string) {
    |s| > 0 && forall i :: 0 <= i < |s| ==> IsWordChar(s[i])
  }

  /** The fields of the convention, in the order of its pattern list. */
  const AssetFields: seq<string> :=
    ["code", "media", "kingdom", "cluster", "area", "stream", "item", "step", "variant", "part"]

  /** Every key an identifier can hold: the fields, the pipe's parts and the suffix. */
  const AssetKeys: set<string> :=
    {"code", "media", "kingdom", "cluster", "area", "stream", "item", "step", "variant", "part",
     "output", "version", "index", "suffix"}

  /** The file formats starting with `usd`. */
  const UsdSuffixes: set<string> := {"usd", "usda", "usdc", "usdz"}

  type Fields = map<string, string>

  /** The values of a valid identifier. */
  predicate AssetOk(f: Fields) {
    && (forall k :: k in f ==> k in AssetKeys)
    && (forall i :: 0 <= i < |AssetFields| ==> AssetFields[i] in f && WordRun(f[AssetFields[i]]))
    && "version" in f && DigitRun(f["version"])
    && "suffix" in f && f["suffix"] in UsdSuffixes
    && ("output" in f ==> WordRun(f["output"]))
    && ("index" in f ==> DigitRun(f["index"]))
  }

  /** The identifier's text: the fields joined by `-`, the pipe and the suffix. */
  function AssetText(f: Fields): string
    requires AssetOk(f)
  {
    NameSchema.Join("-", seq(|AssetFields|, i requires 0 <= i < |AssetFields| && AssetOk(f) => f[AssetFields[i]]))
    + (if "output" in f then "." + f["output"] else "")
    + "." + f["version"]
    + (if "index" in f then "." + f["index"] else "")
    + "." + f["suffix"]
  }

  /** `UsdAsset.get_default()`, as its docstring shows it. */
  const DefaultAsset: Fields := map[
    "code" := "demo", "media" := "3d", "kingdom" := "abc", "cluster" := "entity", "area" := "rnd",
    "stream" := "main", "item" := "atom", "step" := "lead", "variant" := "base", "part" := "whole",
    "version" := "1", "suffix" := "usda"]

  datatype AssetError = InvalidName(values: Fields)

  /** The values after overriding those of `f` with the given keyword values that name a key. */
  function Overridden(f: Fields, overrides: Fields): (r: Fields)
    ensures forall k :: k in overrides && k in AssetKeys ==> k in r && r[k] == overrides[k]
    ensures forall k :: k in f && k !in overrides ==> k in r && r[k] == f[k]
    ensures forall k :: k in r ==> k in f || (k in overrides && k in AssetKeys)
  {
    map k | k in f.Keys + (overrides.Keys * AssetKeys) :: if k in overrides then overrides[k] else f[k]
  }

  /** `UsdAsset(name.get(**overrides))`: the overridden values, or `ValueError` when they do not form a valid identifier. */
  function Get(f: Fields, overrides: Fields): (r: Result<Fields, AssetError>)
    ensures r.Ok? <==> AssetOk(Overridden(f, overrides))
    ensures r.Ok? ==> r.value == Overridden(f, overrides)
  {
    var g := Overridden(f, overrides);
    if AssetOk(g) then Ok(g) else Err(InvalidName(g))
  }

  lemma FieldsAreKeys()
    ensures forall k :: k in AssetFields ==> k in AssetKeys
    ensures "version" !in AssetFields && "suffix" !in AssetFields && "output" !in AssetFields && "index" !in AssetFields
  {
  }

  /** Overriding the fields of a valid identifier with `\w+` values gives a valid identifier. */
  lemma GetFieldsOk(f: Fields, overrides: Fields)
    requires AssetOk(f)
    requires forall k :: k in overrides ==> k in AssetFields && WordRun(overrides[k])
    ensures Get(f, overrides).Ok?
    ensures forall k :: k in overrides ==> Get(f, overrides).value[k] == overrides[k]
  {
    FieldsAreKeys();
    var g := Overridden(f, overrides);
    assert forall k :: k in g ==> k in AssetKeys;
    forall i | 0 <= i < |AssetFields|
      ensures AssetFields[i] in g && WordRun(g[AssetFields[i]])
    {
    }
    assert g["version"] == f["version"] && g["suffix"] == f["suffix"];
    assert "output" in g ==> g["output"] == f["output"];
    assert "index" in g ==> g["index"] == f["index"];
  }

  lemma DefaultAssetOk()
    ensures AssetOk(DefaultAsset)
  {
    forall i | 0 <= i < |AssetFields|
      ensures AssetFields[i] in DefaultAsset && WordRun(DefaultAsset[AssetFields[i]])
    {
      assert IsWordChar('3') && IsWordChar('d');
    }
  }

  // ---------------------------------------------------------------------
  // get_anonymous

  /** `dict(zip(keys, itertools.cycle(uuid.fields)))`: field `i` takes the `i mod 6`-th integer of the uuid. */
  function AnonymousFields(uuid: seq<nat>): (r: Fields)
    requires |uuid| == 6
    ensures forall i :: 0 <= i < |AssetFields| ==> AssetFields[i] in r && r[AssetFields[i]] == Decimal(uuid[i % 6])
    ensures forall k :: k in r ==> k in AssetFields
  {
    map i | 0 <= i < |AssetFields| :: AssetFields[i] := Decimal(uuid[i % 6])
  }

  /** The keyword values `get_anonymous` passes on: `ChainMap(values, anonymous)`, explicit values first. */
  function Chained(values: Fields, anon: Fields): (r: Fields)
    ensures forall k :: k in values ==> k in r && r[k] == values[k]
    ensures forall k :: k in anon && k !in values ==> k in r && r[k] == anon[k]
    ensures forall k :: k in r ==> k in values || k in anon
  {
    map k | k in values.Keys + anon.Keys :: if k in values then values[k] else anon[k]
  }

  /**
   * `UsdAsset.get_anonymous(**values)`, given the integer fields of the
   * uuid it draws (`uuid.uuid4().fields` is always six integers).
   */
  function GetAnonymous(values: Fields, uuid: seq<nat>): Result<Fields, AssetError>
    requires |uuid| == 6
  {
    Get(DefaultAsset, Chained(values, AnonymousFields(uuid)))
  }

  /**
   * Every explicitly passed value that names a key is kept, every other
   * field comes cyclically from the uuid, the pipe and suffix keep their
   * defaults, and an invalid value (a suffix outside the `usd` formats)
   * is `ValueError`.
   */
  lemma AnonymousValues(values: Fields, uuid: seq<nat>)
    requires |uuid| == 6
    ensures var r := GetAnonymous(values, uuid);
      && (r.Ok? ==> forall k :: k in values && k in AssetKeys ==> r.value[k] == values[k])
      && (r.Ok? ==> forall i :: 0 <= i < |AssetFields| && AssetFields[i] !in values ==> r.value[AssetFields[i]] == Decimal(uuid[i % 6]))
      && (r.Ok? ==> "suffix" !in values ==> r.value["suffix"] == "usda")
      && ("suffix" in values && values["suffix"] !in UsdSuffixes ==> r.Err?)
  {
    var c := Chained(values, AnonymousFields(uuid));
    AnonymousDrawn(values, uuid);
    AnonymousSuffix(values, c);
  }

  /** A field not passed explicitly is the one drawn from the uuid. */
  lemma AnonymousDrawn(values: Fields, uuid: seq<nat>)
    requires |uuid| == 6
    ensures var g := Overridden(DefaultAsset, Chained(values, AnonymousFields(uuid)));
      forall i :: 0 <= i < |AssetFields| && AssetFields[i] !in values ==> g[AssetFields[i]] == Decimal(uuid[i % 6])
  {
    FieldsAreKeys();
    var c := Chained(values, AnonymousFields(uuid));
    forall i | 0 <= i < |AssetFields| && AssetFields[i] !in values
      ensures AssetFields[i] in c && c[AssetFields[i]] == Decimal(uuid[i % 6]) && AssetFields[i] in AssetKeys
    {
      assert AssetFields[i] in AssetFields;
    }
  }

  /** The suffix is the default one unless the values pass one, which is then kept. */
  lemma AnonymousSuffix(values: Fields, c: Fields)
    requires forall k :: k in c ==> k in values || k in AssetFields
    requires forall k :: k in values ==> k in c && c[k] == values[k]
    ensures "suffix" !in values ==> Overridden(DefaultAsset, c)["suffix"] == "usda"
    ensures "suffix" in values ==> Overridden(DefaultAsset, c)["suffix"] == values["suffix"]
  {
    FieldsAreKeys();
    assert "suffix" in DefaultAsset && "suffix" in AssetKeys;
  }

  /** Without explicit values the anonymous identifier is always valid. */
  lemma AnonymousOk(uuid: seq<nat>)
    requires |uuid| == 6
    ensures GetAnonymous(map[], uuid).Ok?
  {
    DefaultAssetOk();
    var a := AnonymousFields(uuid);
    assert Chained(map[], a) == a;
    forall k | k in a
      ensures k in AssetFields && WordRun(a[k])
    {
      var i :| 0 <= i < |AssetFields| && AssetFields[i] == k;
      var d := Decimal(uuid[i % 6]);
      assert forall j :: 0 <= j < |d| ==> IsWordChar(d[j]);
    }
    GetFieldsOk(DefaultAsset, a);
  }
}
