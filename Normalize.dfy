/**
 * `normalizePlant`: maps a loosely shaped plant record from the API onto the
 * canonical plant the cards, the detail view and the cart use. Every field
 * is a first-truthy-wins chain over alternate property names with a fixed
 * default; the price goes through `Number(...)`.
 */
module Normalize {
  import opened JsValues

  /** A normalised plant. The text fields keep the JSON value they were
      taken from (the API may send a number where a string is expected). */
  datatype Plant = Plant(
    id: Value,
    name: Value,
    image: Value,
    description: Value,
    category: Value,
    price: JsNumber)

  const UnknownName := Str("Unknown Tree")
  const NoText := Str("")

  /** The candidates for the id, in the order they are tried. */
  function IdFields(p: Value): seq<Value>
    requires !Nullish(p)
  {
    [Get(p, "id"), Get(p, "plantId"), Get(p, "_id"), Get(p, "plant_id")]
  }

  /** None of the four id fields is truthy, so the id falls back to
      `String(p?.name || Math.random())`. */
  predicate Unidentified(p: Value)
    requires !Nullish(p)
  {
    !Truthy(Get(p, "id")) && !Truthy(Get(p, "plantId")) && !Truthy(Get(p, "_id")) && !Truthy(Get(p, "plant_id"))
  }

  /** `String(p?.name || Math.random())`, which throws when the name cannot
      be converted. */
  function IdFallback(p: Value, random: string): Completion<Value>
    requires !Nullish(p)
  {
    var t := ToStr(Or(Get(p, "name"), Str(random)));
    if t.Throw? then Throw else Normal(Str(t.value))
  }

  /** `p.id || p.plantId || p._id || p?.plant_id || String(p?.name || Math.random())`. */
  function PlantId(p: Value, random: string): Completion<Value>
    requires !Nullish(p)
  {
    var field := Or(Get(p, "id"), Or(Get(p, "plantId"), Or(Get(p, "_id"), Get(p, "plant_id"))));
    if Truthy(field) then Normal(field) else IdFallback(p, random)
  }

  /** `p[key] || p[alt] || fallback`. */
  function TextField(p: Value, key: string, alt: string, fallback: Value): Value
    requires !Nullish(p)
  {
    Or(Get(p, key), Or(Get(p, alt), fallback))
  }

  /** `normalizePlant(p)`. `random` is the text of the `Math.random()`
      value used when the record has no id and no name. It throws when
      reading `p.id` on `null` or `undefined`, when `Number(...)` cannot
      convert the price, and when the id falls back to a name that
      `String(...)` cannot convert. Otherwise it yields a plant whose name
      is never falsy. */
  function NormalizePlant(p: Value, random: string): (r: Completion<Plant>)
    ensures r.Throw? <==>
              || Nullish(p)
              || !Convertible(Get(p, "price"))
              || (Unidentified(p) && !Convertible(Get(p, "name")))
    ensures r.Normal? ==> Truthy(r.value.name)
  {
    if Nullish(p) then Throw
    else
      FalsyConverts(Get(p, "name"));
      FalsyConverts(Get(p, "price"));
      var id := PlantId(p, random);
      var price := ToNumber(Or(Get(p, "price"), Num(0)));
      if id.Throw? || price.Throw? then Throw
      else
        Normal(Plant(
          id := id.value,
          name := TextField(p, "name", "title", UnknownName),
          image := TextField(p, "image", "img", NoText),
          description := TextField(p, "description", "desc", NoText),
          category := TextField(p, "category", "type", NoText),
          price := price.value))
  }

  /** Every field of a normalised plant is the first truthy of its
      candidate properties, in the order they are written, else its default. */
  lemma NormalizedFields(p: Value, random: string)
    requires NormalizePlant(p, random).Normal?
    ensures var q := NormalizePlant(p, random).value;
      && (!Unidentified(p) ==> q.id == FirstTruthy(IdFields(p), Null))
      && (Unidentified(p) ==> q.id.Str? && ToStr(FirstTruthy([Get(p, "name")], Str(random))) == Normal(q.id.s))
      && q.name == FirstTruthy([Get(p, "name"), Get(p, "title")], UnknownName)
      && q.image == FirstTruthy([Get(p, "image"), Get(p, "img")], NoText)
      && q.description == FirstTruthy([Get(p, "description"), Get(p, "desc")], NoText)
      && q.category == FirstTruthy([Get(p, "category"), Get(p, "type")], NoText)
      && Normal(q.price) == ToNumber(FirstTruthy([Get(p, "price")], Num(0)))
  {
    PlantIdIsFirstTruthy(p, random);
    FirstTruthyCons(Get(p, "name"), [], Str(random));
    TextFieldIsFirstTruthy(p, "name", "title", UnknownName);
    TextFieldIsFirstTruthy(p, "image", "img", NoText);
    TextFieldIsFirstTruthy(p, "description", "desc", NoText);
    TextFieldIsFirstTruthy(p, "category", "type", NoText);
    FirstTruthyCons(Get(p, "price"), [], Num(0));
  }

  lemma PlantIdIsFirstTruthy(p: Value, random: string)
    requires !Nullish(p)
    ensures !Unidentified(p) ==> PlantId(p, random) == Normal(FirstTruthy(IdFields(p), Null))
  {
    FirstTruthyCons(Get(p, "id"), IdFields(p)[1..], Null);
    FirstTruthyCons(Get(p, "plantId"), IdFields(p)[2..], Null);
    FirstTruthyCons(Get(p, "_id"), IdFields(p)[3..], Null);
    FirstTruthyCons(Get(p, "plant_id"), [], Null);
  }

  lemma TextFieldIsFirstTruthy(p: Value, key: string, alt: string, fallback: Value)
    requires !Nullish(p)
    ensures TextField(p, key, alt, fallback) == FirstTruthy([Get(p, key), Get(p, alt)], fallback)
  {
    FirstTruthyCons(Get(p, key), [Get(p, alt)], fallback);
    FirstTruthyCons(Get(p, alt), [], fallback);
  }

  /** The normalised plant does not depend on `Math.random()` as soon as
      one of the id fields or the name is truthy. */
  lemma IdIgnoresRandomWhenIdentified(p: Value, r1: string, r2: string)
    requires !Nullish(p)
    requires !Unidentified(p) || Truthy(Get(p, "name"))
    ensures NormalizePlant(p, r1) == NormalizePlant(p, r2)
  {
    assert PlantId(p, r1) == PlantId(p, r2);
  }

  /** Without any id field, a truthy name supplies the id as `String(name)`,
      and a name that cannot be converted makes normalisation throw. */
  lemma IdFromName(p: Value, random: string)
    requires !Nullish(p) && Unidentified(p)
    requires Truthy(Get(p, "name"))
    ensures var r := NormalizePlant(p, random);
      && (r.Normal? <==> Convertible(Get(p, "name")) && Convertible(Get(p, "price")))
      && (r.Normal? ==> r.value.id.Str? && ToStr(Get(p, "name")) == Normal(r.value.id.s))
  {
  }

  /** When every id field and the name are falsy, the id is the random text. */
  lemma IdFromRandom(p: Value, random: string)
    requires !Nullish(p) && Unidentified(p)
    requires !Truthy(Get(p, "name"))
    ensures var r := NormalizePlant(p, random);
      && (r.Normal? <==> Convertible(Get(p, "price")))
      && (r.Normal? ==> r.value.id == Str(random))
  {
    FalsyConverts(Get(p, "name"));
  }

  /** A numeric price is kept as it is (a price of 0 stays 0). */
  lemma PriceFromNumber(p: Value, random: string, n: int)
    requires !Nullish(p) && Get(p, "price") == Num(n)
    ensures NormalizePlant(p, random).Normal? ==> NormalizePlant(p, random).value.price == Finite(n)
  {
  }

  /** A price sent as the decimal text of an integer reads back as that integer. */
  lemma PriceFromDecimalText(p: Value, random: string, n: int)
    requires !Nullish(p) && Get(p, "price") == Str(DecimalText(n))
    ensures NormalizePlant(p, random).Normal? ==> NormalizePlant(p, random).value.price == Finite(n)
  {
    NumberOfDecimalText(n);
  }

  /** An absent or falsy price becomes 0. */
  lemma PriceDefaultsToZero(p: Value, random: string)
    requires !Nullish(p) && !Truthy(Get(p, "price"))
    ensures NormalizePlant(p, random).Normal? ==> NormalizePlant(p, random).value.price == Finite(0)
  {
  }

  /** A price that is not numeric text, such as "abc", becomes `NaN`,
      not 0. */
  lemma PriceFromLettersIsNaN(p: Value, random: string, s: string)
    requires !Nullish(p) && Get(p, "price") == Str(s)
    requires |s| > 0 && forall i :: 0 <= i < |s| ==> 'a' <= s[i] <= 'z'
    ensures NormalizePlant(p, random).Normal? ==> NormalizePlant(p, random).value.price == NaN
  {
    NumberOfLetters(s);
  }

  /** A price object carrying its own `toString` field makes
      normalisation throw, even when the record has an id. */
  lemma OwnToStringPriceThrows(random: string)
    ensures NormalizePlant(Obj(map["id" := Str("p1"), "price" := Obj(map["toString" := Num(1)])]), random) == Throw
  {
  }

  /** The empty record normalises to every default. */
  lemma EmptyRecordDefaults(random: string)
    ensures NormalizePlant(Obj(map[]), random)
         == Normal(Plant(Str(random), UnknownName, NoText, NoText, NoText, Finite(0)))
  {
  }
}
