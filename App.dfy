/**
 * The page's `state` object and the regions of the page drawn from it, as
 * one object whose methods are the event handlers: loading the categories,
 * selecting a category, loading the trees, and adding to and removing from
 * the cart. Network responses arrive as parameters.
 */
module App {
  import opened JsValues
  import opened Normalize
  import opened Cart
  import opened Catalog
  import opened CategoryPanel

  /** The category list region: not yet drawn, the buttons, or the inline
      "Failed to load categories." message. */
  datatype Panel = Unrendered | Buttons(buttons: seq<Button>) | CategoriesFailed

  class ViewState {
    // `state`
    var categories: Value
    var activeCategoryId: Value
    var cart: seq<CartItem>

    // the regions of the page drawn from it
    var categoryPanel: Panel
    var cardGrid: CardRegion
    var cartLines: seq<CartLine>
    var cartTotal: int

    /** What is on the page agrees with `state`: drawn category buttons
        reflect the categories and the active id, and the cart region shows
        one line per entry and the sum of their prices. */
    ghost predicate Valid()
      reads this
    {
      PanelInSync() && CartInSync()
    }

    ghost predicate PanelInSync()
      reads this
    {
      categoryPanel.Buttons? ==> CategoryButtons(categories, activeCategoryId) == Normal(categoryPanel.buttons)
    }

    ghost predicate CartInSync()
      reads this
    {
      cartLines == LinesOf(cart) && cartTotal == Total(cart)
    }

    /** The initial state: no categories, "All Trees" selected, an empty cart. */
    constructor ()
      ensures Valid()
      ensures categories == Arr([]) && activeCategoryId == Null && cart == []
      ensures categoryPanel == Unrendered && cardGrid == Blank
    {
      categories := Arr([]);
      activeCategoryId := Null;
      cart := [];
      categoryPanel := Unrendered;
      cardGrid := Blank;
      cartLines := [];
      cartTotal := 0;
    }

    /** `renderCategories()` when it does not throw. */
    method RenderCategories()
      requires CartInSync() && Renderable(categories)
      modifies this`categoryPanel
      ensures Valid()
      ensures categoryPanel == Buttons(CategoryButtons(categories, activeCategoryId).value)
    {
      var r := BuildCategoryButtons(categories, activeCategoryId);
      categoryPanel := Buttons(r.value);
    }

    /** `loadCategories()`: `response` is the parsed body, or `Throw` when the
        fetch or the parse failed. A failure anywhere, including a
        `renderCategories` that throws, leaves the failure message. */
    method LoadCategories(response: Completion<Value>)
      requires Valid()
      modifies this`categories, this`categoryPanel
      ensures Valid()
      ensures response.Normal? ==> categories == ExtractCategories(response.value)
      ensures response.Throw? ==> categories == old(categories)
      ensures if response.Normal? && Renderable(categories)
              then categoryPanel == Buttons(CategoryButtons(categories, activeCategoryId).value)
              else categoryPanel == CategoriesFailed
    {
      if response.Throw? {
        categoryPanel := CategoriesFailed;
        return;
      }
      categories := ExtractCategories(response.value);
      var r := BuildCategoryButtons(categories, activeCategoryId);
      if r.Throw? {
        categoryPanel := CategoriesFailed;
      } else {
        categoryPanel := Buttons(r.value);
      }
    }

    /** `loadTrees(categoryId)`: the request it sends (`Throw` when building
        the URL throws, so nothing is fetched), and the card grid once
        `response` (the parsed body, or `Throw`) has arrived. */
    method LoadTrees(categoryId: Value, response: Completion<Value>, random: nat -> string) returns (request: Completion<Endpoint>)
      requires Valid()
      modifies this`cardGrid
      ensures Valid()
      ensures request == RequestFor(categoryId)
      ensures cardGrid == if request.Throw? then LoadFailed else GridAfterLoad(response, random)
    {
      request := RequestFor(categoryId);
      if request.Throw? || response.Throw? {
        cardGrid := LoadFailed;
      } else {
        var plants := ExtractPlantList(response.value);
        cardGrid := RenderCards(plants, random);
      }
    }

    /** `init()`: load the categories, then every plant. */
    method Init(categoriesResponse: Completion<Value>, plantsResponse: Completion<Value>, random: nat -> string)
      returns (request: Completion<Endpoint>)
      requires Valid()
      modifies this`categories, this`categoryPanel, this`cardGrid
      ensures Valid()
      ensures request == Normal(AllPlants)
      ensures categoriesResponse.Normal? ==> categories == ExtractCategories(categoriesResponse.value)
      ensures categoriesResponse.Throw? ==> categories == old(categories)
      ensures if categoriesResponse.Normal? && Renderable(categories)
              then categoryPanel == Buttons(CategoryButtons(categories, activeCategoryId).value)
              else categoryPanel == CategoriesFailed
      ensures cardGrid == GridAfterLoad(plantsResponse, random)
    {
      LoadCategories(categoriesResponse);
      request := LoadTrees(Null, plantsResponse, random);
    }

    /** `setActiveCategory(id)`, called from a drawn button: record the
        selection, redraw the buttons, then load that category's trees. */
    method SetActiveCategory(id: Value, response: Completion<Value>, random: nat -> string)
      returns (request: Completion<Endpoint>)
      requires Valid() && categoryPanel.Buttons?
      modifies this`activeCategoryId, this`categoryPanel, this`cardGrid
      ensures Valid()
      ensures activeCategoryId == id
      ensures categoryPanel == Buttons(CategoryButtons(categories, id).value)
      ensures request == RequestFor(id)
      ensures cardGrid == if request.Throw? then LoadFailed else GridAfterLoad(response, random)
      ensures (exists j :: 0 <= j < |old(categoryPanel).buttons| && old(categoryPanel).buttons[j].target == id)
              ==> ActiveIsLoaded(categories.elems, activeCategoryId)
    {
      ghost var clicked := categoryPanel.buttons;
      activeCategoryId := id;
      RenderCategories();
      request := LoadTrees(id, response, random);
      if j :| 0 <= j < |clicked| && clicked[j].target == id {
        ClickedTargetIsLoaded(categories, old(activeCategoryId), j);
      }
    }

    /** `renderCart()`: redraw the cart lines and the total. */
    method RenderCartRegion()
      requires PanelInSync()
      modifies this`cartLines, this`cartTotal
      ensures Valid()
    {
      cartLines, cartTotal := RenderCart(cart);
    }

    /** `addToCart(item)`: the item becomes a new last line even when an
        equal item is already in the cart; every earlier line is unchanged. */
    method AddToCart(item: CartItem)
      requires Valid()
      modifies this`cart, this`cartLines, this`cartTotal
      ensures Valid()
      ensures cart == old(cart) + [item]
      ensures cartTotal == old(cartTotal) + LinePrice(item.price)
    {
      cart := cart + [item];
      RenderCartRegion();
      TotalAfterAdd(old(cart), item);
    }

    /** `removeFromCart(index)`: `splice(index, 1)`. The index a drawn line
        passes is its own position, which removes exactly that line. */
    method RemoveFromCart(index: int)
      requires Valid()
      modifies this`cart, this`cartLines, this`cartTotal
      ensures Valid()
      ensures cart == Splice(old(cart), index)
      ensures 0 <= index < |old(cart)| ==>
                |cart| == |old(cart)| - 1 && cartTotal == old(cartTotal) - LinePrice(old(cart)[index].price)
    {
      cart := Splice(cart, index);
      RenderCartRegion();
      if 0 <= index < |old(cart)| {
        SpliceInRange(old(cart), index);
        TotalAfterRemove(old(cart), index);
      }
    }
  }

  /** The "Add to Cart" button of card `i` pushes the id, name and price of
      the normalisation of list element `i`. */
  lemma AddButtonPushesNormalizedPlant(response: Completion<Value>, random: nat -> string, i: int)
    requires GridAfterLoad(response, random).Cards?
    requires 0 <= i < |GridAfterLoad(response, random).plants|
    ensures var q := NormalizePlant(ExtractPlantList(response.value).elems[i], random(i));
            && q.Normal?
            && ItemOf(GridAfterLoad(response, random).plants[i]) == CartItem(q.value.id, q.value.name, q.value.price)
  {
  }

  const MangoPlant := Plant(Str("p1"), Str("Mango"), NoText, NoText, NoText, Finite(50))
  const MangoRecord := Obj(map["id" := Str("p1"), "name" := Str("Mango"), "price" := Num(50)])
  const FruitRecord := Obj(map["id" := Str("1"), "category" := Str("Fruit")])
  const MangoItem := CartItem(Str("p1"), Str("Mango"), Finite(50))

  /** `{id:"p1", name:"Mango", price:50}` normalises to the Mango plant priced 50. */
  lemma MangoNormalizes(random: string)
    ensures NormalizePlant(MangoRecord, random) == Normal(MangoPlant)
  {
    assert Get(MangoRecord, "id") == Str("p1");
    assert Get(MangoRecord, "name") == Str("Mango");
    assert Get(MangoRecord, "price") == Num(50);
    assert Get(MangoRecord, "image") == Undefined;
  }

  /** The plants response `{data:[{id:"p1", name:"Mango", price:50}]}`
      draws a single card, for the Mango plant. */
  lemma MangoCard(random: nat -> string)
    ensures GridAfterLoad(Normal(Obj(map["data" := Arr([MangoRecord])])), random) == Cards([MangoPlant])
  {
    var plants := Arr([MangoRecord]);
    assert ExtractPlantList(Obj(map["data" := plants])) == plants;
    MangoNormalizes(random(0));
    assert CardRenders(MangoPlant);
    assert AllNormalize([MangoRecord], random);
    NormalizeAllElements([MangoRecord], random);
    assert NormalizeAll([MangoRecord], random) == [MangoPlant];
  }

  /** The cart holding the Mango item draws one line, totals 50, and
      removing that line's index empties it. */
  lemma MangoCart()
    ensures ItemOf(MangoPlant) == MangoItem
    ensures LinesOf([MangoItem]) == [CartLine(Str("Mango"), Finite(50), 0)]
    ensures Total([MangoItem]) == 50
    ensures Splice([MangoItem], 0) == []
  {
  }

  /** A page session: categories `[{id:"1", category:"Fruit"}]`, the Mango
      plants response, then "Add to Cart" on the one card and the removal of
      that line. */
  method MangoSession(random: nat -> string) returns (request: Completion<Endpoint>, shownTotal: int, finalCart: seq<CartItem>)
    ensures request == Normal(AllPlants)
    ensures shownTotal == 50
    ensures finalCart == []
  {
    var page := new ViewState();
    MangoCard(random);
    MangoCart();
    request := page.Init(Normal(Obj(map["categories" := Arr([FruitRecord])])),
                         Normal(Obj(map["data" := Arr([MangoRecord])])), random);
    page.AddToCart(ItemOf(page.cardGrid.plants[0]));
    shownTotal := page.cartTotal;
    page.RemoveFromCart(page.cartLines[0].removeIndex);
    finalCart := page.cart;
  }
}
