/**
 * The category panel `renderCategories` draws: a synthetic "All Trees"
 * button followed by one button per loaded category, the one whose id is
 * the active id highlighted. `null` as the active id stands for "All Trees".
 */
module CategoryPanel {
  import opened JsValues

  /** One category button: its text, whether it is highlighted, and the id
      its click passes to `setActiveCategory`. */
  datatype Button = Button(text: Value, active: bool, target: Value)

  const AllTreesText := Str("All Trees")

  /** `cat.id` of a loaded category entry. */
  function CategoryId(cat: Value): Value {
    OptGet(cat, "id")
  }

  /** The button drawn for category entry `cat`: labelled `cat.category`,
      highlighted when `activeId === cat.id`. */
  function CategoryButton(cat: Value, activeId: Value): Button {
    Button(OptGet(cat, "category"), activeId == CategoryId(cat), CategoryId(cat))
  }

  /** An entry whose button can be drawn: `cat.id` can be read, and
      writing `cat.category` into `textContent` converts without throwing. */
  predicate EntryRenders(cat: Value) {
    !Nullish(cat) && Convertible(OptGet(cat, "category"))
  }

  /** True when `forEach` can walk `cats` and draw a button for every entry. */
  predicate Renderable(cats: Value) {
    cats.Arr? && forall k :: 0 <= k < |cats.elems| ==> EntryRenders(cats.elems[k])
  }

  /** The button list for `state.categories` and `state.activeCategoryId`,
      or `Throw` when `renderCategories` would throw (the categories are not
      an array, an entry is `null`, or a label cannot be converted). */
  function CategoryButtons(cats: Value, activeId: Value): (r: Completion<seq<Button>>)
    ensures r.Normal? <==> Renderable(cats)
    ensures r.Normal? ==> |r.value| == |cats.elems| + 1
    ensures r.Normal? ==> r.value[0].text == AllTreesText && r.value[0].target == Null
    ensures r.Normal? ==> forall k :: 0 <= k < |cats.elems| ==>
              r.value[k + 1].text == OptGet(cats.elems[k], "category") && r.value[k + 1].target == CategoryId(cats.elems[k])
    ensures r.Normal? ==> forall j :: 0 <= j < |r.value| ==> (r.value[j].active <==> r.value[j].target == activeId)
  {
    if Renderable(cats) then
      Normal([Button(AllTreesText, activeId == Null, Null)]
             + seq(|cats.elems|, k requires 0 <= k < |cats.elems| => CategoryButton(cats.elems[k], activeId)))
    else Throw
  }

  /** `renderCategories`: the "All Trees" button, then one button per
      category appended in a loop. */
  method BuildCategoryButtons(cats: Value, activeId: Value) returns (r: Completion<seq<Button>>)
    ensures r == CategoryButtons(cats, activeId)
  {
    if !cats.Arr? {
      return Throw;
    }
    var es := cats.elems;
    var buttons := [Button(AllTreesText, activeId == Null, Null)];
    var k := 0;
    while k < |es|
      invariant 0 <= k <= |es|
      invariant forall j :: 0 <= j < k ==> EntryRenders(es[j])
      invariant |buttons| == k + 1
      invariant buttons[0] == Button(AllTreesText, activeId == Null, Null)
      invariant forall j :: 0 <= j < k ==> buttons[j + 1] == CategoryButton(es[j], activeId)
    {
      if !EntryRenders(es[k]) {
        return Throw;
      }
      buttons := buttons + [CategoryButton(es[k], activeId)];
      k := k + 1;
    }
    assert buttons == [buttons[0]] + seq(|es|, j requires 0 <= j < |es| => CategoryButton(es[j], activeId));
    r := Normal(buttons);
  }

  /** A category whose label is an object with its own `toString` makes
      the whole panel fail. */
  lemma OwnToStringLabelFails(activeId: Value)
    ensures CategoryButtons(Arr([Obj(map["id" := Num(1), "category" := Obj(map["toString" := Num(1)])])]), activeId) == Throw
  {
    var cat := Obj(map["id" := Num(1), "category" := Obj(map["toString" := Num(1)])]);
    assert OptGet(cat, "category") == Obj(map["toString" := Num(1)]);
    assert !EntryRenders(Arr([cat]).elems[0]);
  }

  /** No two loaded categories share an id, and none has the id `null`. */
  predicate DistinctIds(es: seq<Value>) {
    && (forall k :: 0 <= k < |es| ==> CategoryId(es[k]) != Null)
    && (forall i, j :: 0 <= i < j < |es| ==> CategoryId(es[i]) != CategoryId(es[j]))
  }

  /** The active id is "All Trees" or the id of a loaded category. */
  predicate ActiveIsLoaded(es: seq<Value>, activeId: Value) {
    activeId == Null || exists k :: 0 <= k < |es| && CategoryId(es[k]) == activeId
  }

  /** The ids a button click can select are exactly "All Trees" and the
      loaded ids, so clicking a button keeps the active id loaded. */
  lemma ClickedTargetIsLoaded(cats: Value, activeId: Value, j: int)
    requires Renderable(cats)
    requires 0 <= j < |CategoryButtons(cats, activeId).value|
    ensures ActiveIsLoaded(cats.elems, CategoryButtons(cats, activeId).value[j].target)
  {
    if j > 0 {
      assert CategoryId(cats.elems[j - 1]) == CategoryButtons(cats, activeId).value[j].target;
    }
  }

  /** With distinct, non-null ids and a loaded active id, exactly one
      button is highlighted. */
  lemma ExactlyOneHighlighted(cats: Value, activeId: Value)
    requires Renderable(cats) && DistinctIds(cats.elems)
    requires ActiveIsLoaded(cats.elems, activeId)
    ensures var b := CategoryButtons(cats, activeId).value;
            exists j :: 0 <= j < |b| && b[j].active && forall j' :: 0 <= j' < |b| && b[j'].active ==> j' == j
  {
    var b := CategoryButtons(cats, activeId).value;
    var es := cats.elems;
    if activeId == Null {
      assert b[0].active;
      forall j' | 1 <= j' < |b| ensures !b[j'].active {
        assert b[j'].target == CategoryId(es[j' - 1]);
      }
    } else {
      var k :| 0 <= k < |es| && CategoryId(es[k]) == activeId;
      assert b[k + 1].active;
      forall j' | 0 <= j' < |b| && j' != k + 1 ensures !b[j'].active {
        if j' == 0 {
          assert b[0].target == Null;
        } else {
          assert b[j'].target == CategoryId(es[j' - 1]);
          if j' - 1 < k {
            assert CategoryId(es[j' - 1]) != CategoryId(es[k]);
          } else {
            assert CategoryId(es[k]) != CategoryId(es[j' - 1]);
          }
        }
      }
    }
  }

  /** Selecting "All Trees" highlights the synthetic entry and none of the
      real categories, whatever was selected before. */
  lemma AllTreesHighlightsOnlyItself(cats: Value)
    requires Renderable(cats)
    requires forall k :: 0 <= k < |cats.elems| ==> CategoryId(cats.elems[k]) != Null
    ensures var b := CategoryButtons(cats, Null).value;
            b[0].active && forall j :: 1 <= j < |b| ==> !b[j].active
  {
    var b := CategoryButtons(cats, Null).value;
    forall j | 1 <= j < |b| ensures !b[j].active {
      assert b[j].target == CategoryId(cats.elems[j - 1]);
    }
  }

  /** An active id that is neither `null` nor a loaded id highlights nothing. */
  lemma UnloadedIdHighlightsNothing(cats: Value, activeId: Value)
    requires Renderable(cats)
    requires !ActiveIsLoaded(cats.elems, activeId)
    ensures var b := CategoryButtons(cats, activeId).value;
            forall j :: 0 <= j < |b| ==> !b[j].active
  {
    var b := CategoryButtons(cats, activeId).value;
    forall j | 1 <= j < |b| ensures !b[j].active {
      assert b[j].target == CategoryId(cats.elems[j - 1]);
    }
  }
}
