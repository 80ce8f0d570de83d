/**
 * The catalog side of the page: which endpoint a category selection fetches,
 * how the plant list, the category list and the detail record are picked out
 * of a response, and what `renderCards` puts in the card grid.
 */
module Catalog {
  import opened JsValues
  import opened Normalize

  /** The two plant-list endpoints: `/api/plants` and `/api/category/{id}`. */
  datatype Endpoint = AllPlants | ByCategory(categoryId: Value)

  /** The card region: not yet drawn, the empty-state indicator, a list of
      cards (one normalised plant each) or the inline "Failed to load trees."
      message. */
  datatype CardRegion = Blank | EmptyState | Cards(plants: seq<Plant>) | LoadFailed

  /** `categoryId ? API.byCategory(categoryId) : API.allPlants`. */
  function ChooseEndpoint(categoryId: Value): (e: Endpoint)
    ensures e == AllPlants <==> !Truthy(categoryId)
    ensures e.ByCategory? ==> e.categoryId == categoryId
  {
    if Truthy(categoryId) then ByCategory(categoryId) else AllPlants
  }

  /** The request `loadTrees` sends: building the per-category URL
      converts the id into the URL text, which throws before anything is
      fetched when the id cannot be converted. */
  function RequestFor(categoryId: Value): (r: Completion<Endpoint>)
    ensures r.Throw? <==> !Convertible(categoryId)
    ensures r.Normal? ==> r.value == ChooseEndpoint(categoryId)
  {
    FalsyConverts(categoryId);
    if Truthy(categoryId) && !Convertible(categoryId) then Throw else Normal(ChooseEndpoint(categoryId))
  }

  /** "All Trees" (a `null` selection) fetches every plant. */
  lemma AllTreesFetchesAllPlants()
    ensures RequestFor(Null) == Normal(AllPlants)
  {
  }

  /** A category whose id is falsy (`0` or `""`) also fetches every plant,
      although its own button is the highlighted one. */
  lemma FalsyCategoryIdFetchesAllPlants(id: Value)
    requires id == Num(0) || id == Str("")
    ensures RequestFor(id) == Normal(AllPlants)
  {
  }

  /** `data?.data || data?.plants || data?.category || []`. */
  function ExtractPlantList(data: Value): (r: Value)
    ensures r == FirstTruthy([OptGet(data, "data"), OptGet(data, "plants"), OptGet(data, "category")], Arr([]))
    ensures Truthy(r)
  {
    FirstTruthyCons(OptGet(data, "data"), [OptGet(data, "plants"), OptGet(data, "category")], Arr([]));
    FirstTruthyCons(OptGet(data, "plants"), [OptGet(data, "category")], Arr([]));
    FirstTruthyCons(OptGet(data, "category"), [], Arr([]));
    Or(OptGet(data, "data"), Or(OptGet(data, "plants"), Or(OptGet(data, "category"), Arr([]))))
  }

  /** An empty array is truthy: a present but empty `data` list is the
      result even when `plants` holds entries. */
  lemma EmptyDataListWins(fields: map<string, Value>)
    requires "data" in fields && fields["data"] == Arr([])
    ensures ExtractPlantList(Obj(fields)) == Arr([])
  {
  }

  /** `data?.categories || []`. */
  function ExtractCategories(data: Value): (r: Value)
    ensures r == FirstTruthy([OptGet(data, "categories")], Arr([]))
    ensures Truthy(r)
  {
    FirstTruthyCons(OptGet(data, "categories"), [], Arr([]));
    Or(OptGet(data, "categories"), Arr([]))
  }

  /** `data?.plant || data?.data || {}`: the record the detail view normalises. */
  function ExtractDetail(data: Value): (r: Value)
    ensures r == FirstTruthy([OptGet(data, "plant"), OptGet(data, "data")], Obj(map[]))
    ensures Truthy(r)
  {
    FirstTruthyCons(OptGet(data, "plant"), [OptGet(data, "data")], Obj(map[]));
    FirstTruthyCons(OptGet(data, "data"), [], Obj(map[]));
    Or(OptGet(data, "plant"), Or(OptGet(data, "data"), Obj(map[])))
  }

  /** The texts the detail view and a card display convert without
      throwing: `name`, `image || ''`, `description || ...` and
      `category || 'Tree'` (a falsy value always converts). */
  predicate TextsConvert(q: Plant) {
    Convertible(q.name) && Convertible(q.image) && Convertible(q.description) && Convertible(q.category)
  }

  /** The card template, which also writes the id into `data-id`, converts
      without throwing. */
  predicate CardRenders(q: Plant) {
    Convertible(q.id) && TextsConvert(q)
  }

  /** What the detail view shows for a parsed detail response: the
      normalised record, or `Throw` when normalising it or converting one
      of the displayed texts throws, in which case the modal falls back to
      its failure texts. */
  function DetailView(data: Value, random: string): (r: Completion<Plant>)
    ensures r.Normal? <==>
              NormalizePlant(ExtractDetail(data), random).Normal?
              && TextsConvert(NormalizePlant(ExtractDetail(data), random).value)
    ensures r.Normal? ==> NormalizePlant(ExtractDetail(data), random) == Normal(r.value)
  {
    var p := NormalizePlant(ExtractDetail(data), random);
    if p.Normal? && TextsConvert(p.value) then p else Throw
  }

  /** A response without `plant` or `data` shows every default. */
  lemma DetailOfEmptyResponse(data: Value, random: string)
    requires !Truthy(OptGet(data, "plant")) && !Truthy(OptGet(data, "data"))
    ensures DetailView(data, random) == Normal(Plant(Str(random), UnknownName, NoText, NoText, NoText, Finite(0)))
  {
    EmptyRecordDefaults(random);
  }

  /** A detail record whose name is an object with its own `toString`
      normalises, but the title cannot be written: the failure texts show. */
  lemma DetailWithOwnToStringNameFails(random: string)
    ensures DetailView(Obj(map["plant" := Obj(map["id" := Str("p1"), "name" := Obj(map["toString" := Num(1)])])]), random) == Throw
  {
  }

  /** Every element normalises, the `i`-th using `random(i)`. */
  predicate AllNormalize(es: seq<Value>, random: nat -> string) {
    forall i :: 0 <= i < |es| ==> NormalizePlant(es[i], random(i)).Normal?
  }

  /** The normalised plants of `es`, the `i`-th using `random(i)`. */
  function NormalizeAll(es: seq<Value>, random: nat -> string): (r: seq<Plant>)
    requires AllNormalize(es, random)
    ensures |r| == |es|
    decreases |es|
  {
    if es == [] then []
    else
      var init := es[..|es| - 1];
      assert forall i :: 0 <= i < |init| ==> init[i] == es[i];
      NormalizeAll(init, random) + [NormalizePlant(es[|es| - 1], random(|es| - 1)).value]
  }

  lemma {:induction false} NormalizeAllAt(es: seq<Value>, random: nat -> string, i: int)
    requires AllNormalize(es, random) && 0 <= i < |es|
    ensures NormalizePlant(es[i], random(i)) == Normal(NormalizeAll(es, random)[i])
    decreases |es|
  {
    var init := es[..|es| - 1];
    if i < |init| {
      assert forall k :: 0 <= k < |init| ==> init[k] == es[k];
      NormalizeAllAt(init, random, i);
    }
  }

  /** Plant `i` is the normalisation of element `i`, using `random(i)`. */
  lemma NormalizeAllElements(es: seq<Value>, random: nat -> string)
    requires AllNormalize(es, random)
    ensures forall i :: 0 <= i < |es| ==> NormalizePlant(es[i], random(i)) == Normal(NormalizeAll(es, random)[i])
  {
    forall i | 0 <= i < |es| {
      NormalizeAllAt(es, random, i);
    }
  }

  /** Element `e` becomes a card: it normalises and its card template
      converts. */
  predicate CardDraws(e: Value, rnd: string) {
    NormalizePlant(e, rnd).Normal? && CardRenders(NormalizePlant(e, rnd).value)
  }

  predicate AllDraw(es: seq<Value>, random: nat -> string) {
    forall i :: 0 <= i < |es| ==> CardDraws(es[i], random(i))
  }

  /** What `renderCards(plants)` leaves in the card grid. `random(i)` is the
      `Math.random()` text for the `i`-th plant. */
  function CardGridOf(plants: Value, random: nat -> string): (r: CardRegion)
    ensures r != Blank
    ensures plants.Arr? ==> (r == EmptyState <==> plants.elems == [])
    ensures plants.Arr? && plants.elems != [] ==>
              (r == LoadFailed <==> exists i :: 0 <= i < |plants.elems| && !CardDraws(plants.elems[i], random(i)))
    ensures r.Cards? ==> plants.Arr? && |r.plants| == |plants.elems| > 0
    ensures r.Cards? ==> forall i :: 0 <= i < |r.plants| ==>
              NormalizePlant(plants.elems[i], random(i)) == Normal(r.plants[i]) && CardRenders(r.plants[i])
  {
    if !Truthy(plants) || !Truthy(Get(plants, "length")) then EmptyState
    else match plants
      case Arr(es) =>
        if AllDraw(es, random) then
          assert AllNormalize(es, random);
          NormalizeAllElements(es, random);
          Cards(NormalizeAll(es, random))
        else LoadFailed
      case _ => LoadFailed
  }

  /** `renderCards`: one card per element in a loop. Normalising an element
      or filling in its card template may throw, which `loadTrees` turns
      into the failure message. */
  method RenderCards(plants: Value, random: nat -> string) returns (r: CardRegion)
    ensures r == CardGridOf(plants, random)
  {
    if !Truthy(plants) || !Truthy(Get(plants, "length")) {
      return EmptyState;
    }
    if !plants.Arr? {
      return LoadFailed;
    }
    var es := plants.elems;
    var cards: seq<Plant> := [];
    var i := 0;
    while i < |es|
      invariant 0 <= i <= |es|
      invariant |cards| == i
      invariant forall k :: 0 <= k < i ==> CardDraws(es[k], random(k)) && NormalizePlant(es[k], random(k)) == Normal(cards[k])
    {
      var card := NormalizePlant(es[i], random(i));
      if card.Throw? || !CardRenders(card.value) {
        FailedCardFailsGrid(es, random, i);
        return LoadFailed;
      }
      cards := cards + [card.value];
      i := i + 1;
    }
    GridOfDrawnCards(es, random, cards);
    r := Cards(cards);
  }

  lemma FailedCardFailsGrid(es: seq<Value>, random: nat -> string, i: int)
    requires 0 <= i < |es| && !CardDraws(es[i], random(i))
    ensures CardGridOf(Arr(es), random) == LoadFailed
  {
  }

  lemma GridOfDrawnCards(es: seq<Value>, random: nat -> string, cards: seq<Plant>)
    requires |es| > 0 && |cards| == |es|
    requires forall k :: 0 <= k < |es| ==> CardDraws(es[k], random(k)) && NormalizePlant(es[k], random(k)) == Normal(cards[k])
    ensures CardGridOf(Arr(es), random) == Cards(cards)
  {
    GridOfAllDraw(es, random);
    NormalizedCards(es, random, cards);
  }

  lemma GridOfAllDraw(es: seq<Value>, random: nat -> string)
    requires |es| > 0 && AllDraw(es, random)
    ensures AllNormalize(es, random)
    ensures CardGridOf(Arr(es), random) == Cards(NormalizeAll(es, random))
  {
  }

  lemma NormalizedCards(es: seq<Value>, random: nat -> string, cards: seq<Plant>)
    requires |cards| == |es|
    requires forall k :: 0 <= k < |es| ==> NormalizePlant(es[k], random(k)) == Normal(cards[k])
    ensures AllNormalize(es, random)
    ensures cards == NormalizeAll(es, random)
  {
    NormalizeAllElements(es, random);
  }

  /** A `null` or `undefined` entry makes the whole grid fail. */
  lemma NullishEntryFails(es: seq<Value>, random: nat -> string, k: int)
    requires 0 <= k < |es| && Nullish(es[k])
    ensures CardGridOf(Arr(es), random) == LoadFailed
  {
    assert !CardDraws(es[k], random(k));
  }

  /** A plant that has an id but whose name is an object with its own
      `toString` normalises, yet its card template throws. */
  lemma OwnToStringNameFailsGrid(random: nat -> string)
    ensures CardGridOf(Arr([Obj(map["id" := Str("p1"), "name" := Obj(map["toString" := Num(1)])])]), random) == LoadFailed
  {
    var e := Obj(map["id" := Str("p1"), "name" := Obj(map["toString" := Num(1)])]);
    assert !CardDraws(e, random(0));
  }

  /** A list that is a non-empty string, or an object with a truthy
      `length`, passes the emptiness test but has no `forEach`, so the
      grid shows the failure message. */
  lemma NonArrayListFails(plants: Value, random: nat -> string)
    requires (plants.Str? && plants.s != "")
             || (plants.Obj? && "length" in plants.fields && Truthy(plants.fields["length"]))
    ensures CardGridOf(plants, random) == LoadFailed
  {
  }

  /** A number, a boolean, or an object without a truthy `length` reads
      as having no length, so the grid shows the empty state. */
  lemma LengthlessListShowsEmptyState(plants: Value, random: nat -> string)
    requires plants.Num? || plants.Bool? || (plants.Obj? && !Truthy(OptGet(plants, "length")))
    ensures CardGridOf(plants, random) == EmptyState
  {
  }

  /** The card grid after `loadTrees` receives `response` (`Throw` when the
      fetch or the JSON parse failed). */
  function GridAfterLoad(response: Completion<Value>, random: nat -> string): (r: CardRegion)
    ensures response.Throw? ==> r == LoadFailed
    ensures response.Normal? ==> r == CardGridOf(ExtractPlantList(response.value), random)
  {
    match response
    case Throw => LoadFailed
    case Normal(data) => CardGridOf(ExtractPlantList(data), random)
  }

  /** A response whose list is absent or empty shows the empty state and no cards. */
  lemma EmptyListShowsEmptyState(data: Value, random: nat -> string)
    requires ExtractPlantList(data) == Arr([])
    ensures GridAfterLoad(Normal(data), random) == EmptyState
  {
  }
}
