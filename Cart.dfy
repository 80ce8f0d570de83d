/**
 * The shopping cart: a list of lines with no quantity merging, changed by
 * `push` (add) and `splice(index, 1)` (remove), and the running total that
 * `renderCart` accumulates over it.
 */
module Cart {
  import opened JsValues
  import opened Normalize

  /** What an "Add to Cart" button pushes: `{ id, name, price }`. */
  datatype CartItem = CartItem(id: Value, name: Value, price: JsNumber)

  /** One rendered cart line: name, unit price (shown "× 1") and the index
      its remove button passes to `removeFromCart`. */
  datatype CartLine = CartLine(name: Value, price: JsNumber, removeIndex: nat)

  /** The item the add button of a card for plant `p` pushes. */
  function ItemOf(p: Plant): CartItem
  {
    CartItem(p.id, p.name, p.price)
  }

  /** `Number(it.price || 0)`: what one line adds to the total. A falsy price
      (`0` or `NaN`) adds 0. */
  function LinePrice(price: JsNumber): (r: int)
    ensures r == 0 <==> price == NaN || price == Finite(0)
    ensures r != 0 ==> price == Finite(r)
  {
    match price
    case NaN => 0
    case Finite(n) => n
  }

  /** The sum of the line prices of `cart`, accumulated front to back. */
  function Total(cart: seq<CartItem>): (r: int)
    ensures (forall i :: 0 <= i < |cart| ==> LinePrice(cart[i].price) == 0) ==> r == 0
    ensures |cart| == 1 ==> r == LinePrice(cart[0].price)
  {
    if cart == [] then 0
    else Total(cart[..|cart| - 1]) + LinePrice(cart[|cart| - 1].price)
  }

  /** The lines `renderCart` draws, one per entry, each removing its own position. */
  function LinesOf(cart: seq<CartItem>): (lines: seq<CartLine>)
    ensures |lines| == |cart|
    ensures forall i :: 0 <= i < |cart| ==>
              lines[i].name == cart[i].name && lines[i].price == cart[i].price && lines[i].removeIndex == i
  {
    seq(|cart|, i requires 0 <= i < |cart| => CartLine(cart[i].name, cart[i].price, i))
  }

  /** `renderCart`: draws one line per entry and accumulates the total in a loop. */
  method RenderCart(cart: seq<CartItem>) returns (lines: seq<CartLine>, total: int)
    ensures lines == LinesOf(cart)
    ensures total == Total(cart)
  {
    lines, total := [], 0;
    var idx := 0;
    while idx < |cart|
      invariant 0 <= idx <= |cart|
      invariant total == Total(cart[..idx])
      invariant lines == LinesOf(cart[..idx])
    {
      var it := cart[idx];
      total := total + LinePrice(it.price);
      lines := lines + [CartLine(it.name, it.price, idx)];
      assert cart[..idx + 1][..idx] == cart[..idx];
      idx := idx + 1;
    }
    assert cart[..idx] == cart;
  }

  // ---------------------------------------------------------------------
  // Array.prototype.splice(index, 1)

  /** The position `splice(index, 1)` starts at: a negative index counts
      from the end, and the result is clamped to `[0, |s|]`. */
  function SpliceStart(len: nat, index: int): (start: nat)
    ensures start <= len
  {
    if index < 0 then (if len + index < 0 then 0 else len + index)
    else if index > len then len
    else index
  }

  /** `s.splice(index, 1)`: the sequence left after removing at most one element. */
  function Splice<T>(s: seq<T>, index: int): (r: seq<T>)
    ensures |r| == |s| - 1 <==> s != [] && index < |s|
    ensures |r| != |s| - 1 ==> r == s
  {
    var start := SpliceStart(|s|, index);
    if start < |s| then s[..start] + s[start + 1..] else s
  }

  lemma RemovedAt<T>(s: seq<T>, i: int)
    requires 0 <= i < |s|
    ensures Splice(s, i) == s[..i] + s[i + 1..]
  {
  }

  /** An index in range removes exactly that entry: one fewer line, the
      entries before it in place, the entries after it shifted down by one,
      and nothing else lost. */
  lemma SpliceInRange<T>(s: seq<T>, i: int)
    requires 0 <= i < |s|
    ensures |Splice(s, i)| == |s| - 1
    ensures forall j :: 0 <= j < i ==> Splice(s, i)[j] == s[j]
    ensures forall j :: i <= j < |s| - 1 ==> Splice(s, i)[j] == s[j + 1]
    ensures multiset(Splice(s, i)) + multiset{s[i]} == multiset(s)
  {
    assert s == s[..i] + [s[i]] + s[i + 1..];
  }

  /** A negative index `-k` with `k <= |s|` removes the `k`-th entry from the end. */
  lemma SpliceNegativeIndex<T>(s: seq<T>, k: int)
    requires 0 < k <= |s|
    ensures Splice(s, -k) == Splice(s, |s| - k)
  {
  }

  /** An index below minus the length clamps to 0 and removes the first entry. */
  lemma SpliceBelowRange<T>(s: seq<T>, i: int)
    requires s != [] && i < -|s|
    ensures Splice(s, i) == s[1..]
  {
  }

  /** An index at or past the end removes nothing. */
  lemma SpliceOutOfRange<T>(s: seq<T>, i: int)
    requires i >= |s|
    ensures Splice(s, i) == s
  {
  }

  /** Removing the line just added restores the cart. */
  lemma RemoveUndoesAdd<T>(s: seq<T>, x: T)
    ensures Splice(s + [x], |s|) == s
  {
    assert (s + [x])[..|s|] == s;
  }

  // ---------------------------------------------------------------------
  // The total as a sum

  lemma {:induction false} TotalAppend(a: seq<CartItem>, b: seq<CartItem>)
    ensures Total(a + b) == Total(a) + Total(b)
    decreases |b|
  {
    if b != [] {
      var b' := b[..|b| - 1];
      assert (a + b)[..|a + b| - 1] == a + b';
      TotalAppend(a, b');
    } else {
      assert a + b == a;
    }
  }

  /** Adding a line raises the total by that line's price. */
  lemma TotalAfterAdd(cart: seq<CartItem>, item: CartItem)
    ensures Total(cart + [item]) == Total(cart) + LinePrice(item.price)
  {
    assert (cart + [item])[..|cart|] == cart;
  }

  /** Taking one line out of the middle lowers the total by that line's price. */
  lemma TotalWithout(before: seq<CartItem>, x: CartItem, after: seq<CartItem>)
    ensures Total(before + [x] + after) == Total(before + after) + LinePrice(x.price)
  {
    TotalAppend(before + [x], after);
    TotalAfterAdd(before, x);
    TotalAppend(before, after);
  }

  lemma TotalWithoutLine(cart: seq<CartItem>, i: int)
    requires 0 <= i < |cart|
    ensures Total(cart) == Total(cart[..i] + cart[i + 1..]) + LinePrice(cart[i].price)
  {
    Reassembled(cart, i);
    TotalWithout(cart[..i], cart[i], cart[i + 1..]);
  }

  lemma Reassembled<T>(s: seq<T>, i: int)
    requires 0 <= i < |s|
    ensures s[..i] + [s[i]] + s[i + 1..] == s
  {
    assert s[..i] + [s[i]] == s[..i + 1];
  }

  /** Removing line `i` lowers the total by exactly that line's price. */
  lemma TotalAfterRemove(cart: seq<CartItem>, i: int)
    requires 0 <= i < |cart|
    ensures Total(Splice(cart, i)) == Total(cart) - LinePrice(cart[i].price)
  {
    RemovedAt(cart, i);
    TotalWithoutLine(cart, i);
  }

  /** The total depends only on which lines are in the cart, not on the
      order in which they were added or removed. */
  lemma {:induction false} TotalOfPermutation(a: seq<CartItem>, b: seq<CartItem>)
    requires multiset(a) == multiset(b)
    ensures Total(a) == Total(b)
    decreases |a|
  {
    if a == [] {
      assert |b| == |multiset(b)| == 0;
    } else {
      var x := a[|a| - 1];
      var a' := a[..|a| - 1];
      assert a == a' + [x];
      assert x in multiset(b);
      var j :| 0 <= j < |b| && b[j] == x;
      var b' := b[..j] + b[j + 1..];
      MultisetWithout(a', x, b, j);
      TotalOfPermutation(a', b');
      TotalAfterAdd(a', x);
      TotalWithoutLine(b, j);
    }
  }

  lemma MultisetWithout<T>(a: seq<T>, x: T, b: seq<T>, j: int)
    requires multiset(a + [x]) == multiset(b)
    requires 0 <= j < |b| && b[j] == x
    ensures multiset(a) == multiset(b[..j] + b[j + 1..])
  {
    var b' := b[..j] + b[j + 1..];
    Reassembled(b, j);
    assert multiset(b) == multiset(b') + multiset{x} by {
      assert multiset(b) == multiset(b[..j]) + multiset{x} + multiset(b[j + 1..]);
    }
    assert multiset(a) + multiset{x} == multiset(b') + multiset{x};
    assert multiset(a) == multiset(a) + multiset{x} - multiset{x};
  }

  /** With no negative price in the cart, the total is not negative. */
  lemma {:induction false} TotalNonNegative(cart: seq<CartItem>)
    requires forall i :: 0 <= i < |cart| ==> LinePrice(cart[i].price) >= 0
    ensures Total(cart) >= 0
  {
    if cart != [] {
      TotalNonNegative(cart[..|cart| - 1]);
    }
  }
}
