/** The cart as a value: an ordered list of line items, the two queries the page
    shows (the badge count and the total) and the two transitions the page
    performs on it (add a product, change a quantity). */
module Cart {

  /** One line of the cart. `price` is the unit price in minor currency units,
      so that totals are exact; nothing validates it, so it may be negative. */
  datatype LineItem = LineItem(id: string, title: string, price: int, qty: int)

  /** What a quantity button asks for. Each button carries a `data-action`
      value, "increase" or "decrease"; any other value asks for nothing. */
  datatype Action = Increase | Decrease | Other

  function ParseAction(s: string): (a: Action)
    ensures a == Increase <==> s == "increase"
    ensures a == Decrease <==> s == "decrease"
  {
    if s == "increase" then Increase else if s == "decrease" then Decrease else Other
  }

  // ---------------------------------------------------------------------------
  // Queries
  // ---------------------------------------------------------------------------

  function Qty(x: LineItem): (q: int) { x.qty }

  /** What one line contributes to the total: quantity times unit price. */
  function Subtotal(x: LineItem): (s: int) { x.qty * x.price }

  /** Left-to-right accumulation of `w` over the cart, starting from 0. */
  function Sum(c: seq<LineItem>, w: LineItem -> int): (s: int)
  {
    if c == [] then 0 else Sum(c[..|c| - 1], w) + w(c[|c| - 1])
  }

  /** The number shown on the cart badge: the sum of all quantities. */
  function Count(c: seq<LineItem>): (n: int) { Sum(c, Qty) }

  /** The cart total: the sum over lines of quantity times price. */
  function Total(c: seq<LineItem>): (t: int) { Sum(c, Subtotal) }

  // ---------------------------------------------------------------------------
  // The cart invariant
  // ---------------------------------------------------------------------------

  predicate Contains(c: seq<LineItem>, id: string)
  {
    exists k :: 0 <= k < |c| && c[k].id == id
  }

  predicate UniqueIds(c: seq<LineItem>)
  {
    forall j, k :: 0 <= j < k < |c| ==> c[j].id != c[k].id
  }

  predicate AllPositive(c: seq<LineItem>)
  {
    forall k :: 0 <= k < |c| ==> c[k].qty >= 1
  }

  /** At most one line per id, and no line with a quantity below 1. */
  predicate WellFormed(c: seq<LineItem>)
  {
    UniqueIds(c) && AllPositive(c)
  }

  // ---------------------------------------------------------------------------
  // Shapes of change, used to state what the transitions do
  // ---------------------------------------------------------------------------

  /** `y` is `x` with its quantity moved by `d` and nothing else changed. */
  predicate Bumped(x: LineItem, y: LineItem, d: int)
  {
    y.id == x.id && y.title == x.title && y.price == x.price && y.qty == x.qty + d
  }

  /** `r` has the same length as `c` and agrees with it everywhere except at `i`. */
  predicate SameExceptAt(c: seq<LineItem>, r: seq<LineItem>, i: int)
  {
    |r| == |c| && forall j :: 0 <= j < |c| && j != i ==> r[j] == c[j]
  }

  /** `r` is `c` with the line at `i` taken out and the others kept in order. */
  predicate RemovedAt(c: seq<LineItem>, r: seq<LineItem>, i: int)
    requires 0 <= i < |c|
  {
    && |r| == |c| - 1
    && (forall j :: 0 <= j < i ==> r[j] == c[j])
    && (forall j :: i <= j < |r| ==> r[j] == c[j + 1])
  }

  /** `r` is `c` followed by exactly one more line, `x`. */
  predicate AppendedTo(c: seq<LineItem>, r: seq<LineItem>, x: LineItem)
  {
    |r| == |c| + 1 && r[..|c|] == c && r[|c|] == x
  }

  // ---------------------------------------------------------------------------
  // Lookup and transitions
  // ---------------------------------------------------------------------------

  /** The position of the first line with this id, or -1 when there is none. */
  function IndexOf(c: seq<LineItem>, id: string): (r: int)
    ensures -1 <= r < |c|
    ensures r == -1 <==> !Contains(c, id)
    ensures r >= 0 ==> c[r].id == id && forall k :: 0 <= k < r ==> c[k].id != id
  {
    if c == [] then -1
    else if c[0].id == id then 0
    else
      var t := IndexOf(c[1..], id);
      if t == -1 then -1 else t + 1
  }

  /** Adding a product: a line already holding the id gets one more of it and
      keeps its stored title and price; otherwise a new line of quantity 1 goes
      at the end. */
  function Add(c: seq<LineItem>, id: string, title: string, price: int): (r: seq<LineItem>)
    ensures |r| == if Contains(c, id) then |c| else |c| + 1
  {
    var i := IndexOf(c, id);
    if i > -1 then c[i := c[i].(qty := c[i].qty + 1)]
    else c + [LineItem(id, title, price, 1)]
  }

  /** Pressing a quantity button on the line with this id. */
  function Update(c: seq<LineItem>, id: string, action: Action): (r: seq<LineItem>)
  {
    var i := IndexOf(c, id);
    if i == -1 then c
    else if action == Increase then c[i := c[i].(qty := c[i].qty + 1)]
    else if action == Decrease then
      var q := c[i].qty - 1;
      if q <= 0 then c[..i] + c[i + 1..] else c[i := c[i].(qty := q)]
    else c
  }

  /** The unit price that adding `id` contributes to the total: the stored one
      when the id is already in the cart, the offered one otherwise. */
  function UnitPrice(c: seq<LineItem>, id: string, price: int): (p: int)
  {
    var i := IndexOf(c, id);
    if i >= 0 then c[i].price else price
  }

  /** How far one press of a quantity button moves the count. */
  function Step(action: Action): (d: int)
  {
    match action
    case Increase => 1
    case Decrease => -1
    case Other => 0
  }

  /** `n` adds of the same product in a row. */
  function AddTimes(c: seq<LineItem>, id: string, title: string, price: int, n: nat): (r: seq<LineItem>)
  {
    if n == 0 then c else Add(AddTimes(c, id, title, price, n - 1), id, title, price)
  }

  /** `n` presses of the decrease button of the same line in a row. */
  function DecreaseTimes(c: seq<LineItem>, id: string, n: nat): (r: seq<LineItem>)
  {
    if n == 0 then c else Update(DecreaseTimes(c, id, n - 1), id, Decrease)
  }

  /** What an add does: a known id gets one more, with its title, its price,
      every other line and the order unchanged; a new id is appended at the end
      with quantity 1 and the earlier lines untouched. */
  lemma AddEffect(c: seq<LineItem>, id: string, title: string, price: int)
    ensures var r := Add(c, id, title, price);
      && (Contains(c, id) ==>
            var i := IndexOf(c, id); SameExceptAt(c, r, i) && Bumped(c[i], r[i], 1))
      && (!Contains(c, id) ==> AppendedTo(c, r, LineItem(id, title, price, 1)))
  {
  }

  /** What a press does: nothing for an unknown id or an action other than
      increase and decrease; "increase" adds one to that line only; "decrease"
      takes one from it, or removes it, keeping the rest in order, when its
      quantity was at most 1. */
  lemma UpdateEffect(c: seq<LineItem>, id: string, action: Action)
    ensures var r := Update(c, id, action);
      && (!Contains(c, id) || action == Other ==> r == c)
      && (Contains(c, id) && action == Increase ==>
            var i := IndexOf(c, id); SameExceptAt(c, r, i) && Bumped(c[i], r[i], 1))
      && (Contains(c, id) && action == Decrease && c[IndexOf(c, id)].qty > 1 ==>
            var i := IndexOf(c, id); SameExceptAt(c, r, i) && Bumped(c[i], r[i], -1))
      && (Contains(c, id) && action == Decrease && c[IndexOf(c, id)].qty <= 1 ==>
            RemovedAt(c, r, IndexOf(c, id)))
  {
    var i := IndexOf(c, id);
    if i >= 0 && action == Decrease && c[i].qty <= 1 {
      DecreaseRemoves(c, id);
    }
  }

  /** "decrease" on a line of quantity at most 1 takes that line out and keeps
      the others in order. */
  lemma DecreaseRemoves(c: seq<LineItem>, id: string)
    requires Contains(c, id) && c[IndexOf(c, id)].qty <= 1
    ensures RemovedAt(c, Update(c, id, Decrease), IndexOf(c, id))
  {
    var i := IndexOf(c, id);
    var r := Update(c, id, Decrease);
    var a, b := c[..i], c[i + 1..];
    assert r == a + b;
    forall j | 0 <= j < i ensures r[j] == c[j] {
      assert r[j] == a[j];
    }
    forall j | i <= j < |r| ensures r[j] == c[j + 1] {
      assert r[j] == b[j - i];
    }
  }

  // ---------------------------------------------------------------------------
  // Sums
  // ---------------------------------------------------------------------------

  lemma {:induction false} SumConcat(a: seq<LineItem>, b: seq<LineItem>, w: LineItem -> int)
    ensures Sum(a + b, w) == Sum(a, w) + Sum(b, w)
  {
    if b == [] {
      assert a + b == a;
    } else {
      assert (a + b)[..|a + b| - 1] == a + b[..|b| - 1];
      SumConcat(a, b[..|b| - 1], w);
    }
  }

  lemma SumSingle(x: LineItem, w: LineItem -> int)
    ensures Sum([x], w) == w(x)
  {
    assert [x][..0] == [];
  }

  /** Changing one line moves a sum by the difference that line makes. */
  lemma SumUpdate(c: seq<LineItem>, r: seq<LineItem>, i: int, w: LineItem -> int)
    requires 0 <= i < |c| && SameExceptAt(c, r, i)
    ensures Sum(r, w) == Sum(c, w) - w(c[i]) + w(r[i])
  {
    var a, b := c[..i], c[i + 1..];
    calc {
      Sum(r, w);
    == { assert r == (a + [r[i]]) + b; }
      Sum((a + [r[i]]) + b, w);
    == { SumConcat(a + [r[i]], b, w); SumAppend(a, r[i], w); }
      Sum(a, w) + w(r[i]) + Sum(b, w);
    == { SumConcat(a + [c[i]], b, w); SumAppend(a, c[i], w); }
      Sum((a + [c[i]]) + b, w) - w(c[i]) + w(r[i]);
    == { assert c == (a + [c[i]]) + b; }
      Sum(c, w) - w(c[i]) + w(r[i]);
    }
  }

  /** Taking one line out lowers a sum by what that line contributed. */
  lemma SumRemove(c: seq<LineItem>, r: seq<LineItem>, i: int, w: LineItem -> int)
    requires 0 <= i < |c| && RemovedAt(c, r, i)
    ensures Sum(r, w) == Sum(c, w) - w(c[i])
  {
    var a, b := c[..i], c[i + 1..];
    calc {
      Sum(r, w);
    == { assert r == a + b; }
      Sum(a + b, w);
    == { SumConcat(a, b, w); }
      Sum(a, w) + Sum(b, w);
    == { SumConcat(a + [c[i]], b, w); SumAppend(a, c[i], w); }
      Sum((a + [c[i]]) + b, w) - w(c[i]);
    == { assert c == (a + [c[i]]) + b; }
      Sum(c, w) - w(c[i]);
    }
  }

  lemma SumAppend(c: seq<LineItem>, x: LineItem, w: LineItem -> int)
    ensures Sum(c + [x], w) == Sum(c, w) + w(x)
  {
    SumConcat(c, [x], w);
    SumSingle(x, w);
  }

  /** Appending one line raises a sum by what that line contributes. */
  lemma SumAppended(c: seq<LineItem>, r: seq<LineItem>, x: LineItem, w: LineItem -> int)
    requires AppendedTo(c, r, x)
    ensures Sum(r, w) == Sum(c, w) + w(x)
  {
    assert r == c + [x];
    SumAppend(c, x, w);
  }

  /** Moving one quantity by d moves the count by d and the total by d prices. */
  lemma ShiftSums(c: seq<LineItem>, r: seq<LineItem>, i: int, d: int)
    requires 0 <= i < |c| && SameExceptAt(c, r, i) && Bumped(c[i], r[i], d)
    ensures Count(r) == Count(c) + d
    ensures Total(r) == Total(c) + d * c[i].price
  {
    SumUpdate(c, r, i, Qty);
    SumUpdate(c, r, i, Subtotal);
    assert (c[i].qty + d) * c[i].price == c[i].qty * c[i].price + d * c[i].price;
  }

  /** Taking out a line of quantity 1 lowers the count by 1 and the total by its price. */
  lemma RemoveSums(c: seq<LineItem>, r: seq<LineItem>, i: int)
    requires 0 <= i < |c| && RemovedAt(c, r, i) && c[i].qty == 1
    ensures Count(r) == Count(c) - 1
    ensures Total(r) == Total(c) - c[i].price
  {
    SumRemove(c, r, i, Qty);
    SumRemove(c, r, i, Subtotal);
  }

  /** The badge count of a cart with no empty lines is at least its number of lines,
      so it is 0 (the badge is hidden) exactly when the cart is empty. */
  lemma {:induction false} CountPositive(c: seq<LineItem>)
    requires AllPositive(c)
    ensures Count(c) >= |c|
    ensures Count(c) == 0 <==> c == []
  {
    if c != [] {
      var p := c[..|c| - 1];
      assert AllPositive(p) by {
        forall k | 0 <= k < |p| ensures p[k].qty >= 1 { assert p[k] == c[k]; }
      }
      CountPositive(p);
    }
  }

  // ---------------------------------------------------------------------------
  // Adding a product
  // ---------------------------------------------------------------------------

  /** Every add raises the badge count by exactly one. */
  lemma AddCount(c: seq<LineItem>, id: string, title: string, price: int)
    ensures Count(Add(c, id, title, price)) == Count(c) + 1
  {
    AddSums(c, id, title, price);
  }

  /** Every add raises the total by one unit price, the stored one for a known id. */
  lemma AddTotal(c: seq<LineItem>, id: string, title: string, price: int)
    ensures Total(Add(c, id, title, price)) == Total(c) + UnitPrice(c, id, price)
  {
    AddSums(c, id, title, price);
  }

  lemma AddSums(c: seq<LineItem>, id: string, title: string, price: int)
    ensures var r := Add(c, id, title, price);
      Count(r) == Count(c) + 1 && Total(r) == Total(c) + UnitPrice(c, id, price)
  {
    var r := Add(c, id, title, price);
    AddEffect(c, id, title, price);
    if Contains(c, id) {
      ShiftSums(c, r, IndexOf(c, id), 1);
    } else {
      SumAppended(c, r, LineItem(id, title, price, 1), Qty);
      SumAppended(c, r, LineItem(id, title, price, 1), Subtotal);
    }
  }

  lemma AddWellFormed(c: seq<LineItem>, id: string, title: string, price: int)
    requires WellFormed(c)
    ensures WellFormed(Add(c, id, title, price))
  {
    var r := Add(c, id, title, price);
    if !Contains(c, id) {
      forall j, k | 0 <= j < k < |r| ensures r[j].id != r[k].id {
        if k == |c| {
          assert r[j] == c[j];
        } else {
          assert r[j] == c[j] && r[k] == c[k];
        }
      }
    }
  }

  /** Which ids are in the cart after an add: the old ones and the added one. */
  lemma AddContains(c: seq<LineItem>, id: string, title: string, price: int, other: string)
    ensures Contains(Add(c, id, title, price), other) <==> Contains(c, other) || other == id
  {
    var r := Add(c, id, title, price);
    if Contains(c, other) {
      var k := IndexOf(c, other);
      assert r[k].id == other;
    }
    if Contains(r, other) && other != id {
      var k := IndexOf(r, other);
      if Contains(c, id) {
        assert c[k].id == other;
      } else {
        assert k < |c| && r[k] == c[k];
      }
    }
    if other == id {
      var k := if Contains(c, id) then IndexOf(c, id) else |c|;
      assert r[k].id == id;
    }
  }

  /** Adding one id does not change where another id is found. */
  lemma AddKeepsIndex(c: seq<LineItem>, id: string, title: string, price: int, other: string)
    requires id != other
    ensures IndexOf(Add(c, id, title, price), other) == IndexOf(c, other)
  {
    var r := Add(c, id, title, price);
    AddContains(c, id, title, price, other);
    if Contains(c, other) {
      var k, m := IndexOf(c, other), IndexOf(r, other);
      forall j | 0 <= j < |c| ensures r[j].id == c[j].id {
        if Contains(c, id) {
          assert j == IndexOf(c, id) || r[j] == c[j];
        } else {
          assert r[..|c|][j] == c[j];
        }
      }
      assert r[k].id == other;
    }
  }

  /** The total does not depend on the order in which two different products
      are added. */
  lemma AddCommutes(c: seq<LineItem>, a: string, ta: string, pa: int, b: string, tb: string, pb: int)
    requires a != b
    ensures Total(Add(Add(c, a, ta, pa), b, tb, pb)) == Total(Add(Add(c, b, tb, pb), a, ta, pa))
    ensures Count(Add(Add(c, a, ta, pa), b, tb, pb)) == Count(Add(Add(c, b, tb, pb), a, ta, pa))
  {
    var ca, cb := Add(c, a, ta, pa), Add(c, b, tb, pb);
    AddTotal(c, a, ta, pa);
    AddTotal(c, b, tb, pb);
    AddTotal(ca, b, tb, pb);
    AddTotal(cb, a, ta, pa);
    AddCount(c, a, ta, pa);
    AddCount(c, b, tb, pb);
    AddCount(ca, b, tb, pb);
    AddCount(cb, a, ta, pa);
    UnitPriceAfterAdd(c, a, ta, pa, b, pb);
    UnitPriceAfterAdd(c, b, tb, pb, a, pa);
  }

  lemma UnitPriceAfterAdd(c: seq<LineItem>, id: string, title: string, price: int, other: string, p: int)
    requires id != other
    ensures UnitPrice(Add(c, id, title, price), other, p) == UnitPrice(c, other, p)
  {
    var r := Add(c, id, title, price);
    AddKeepsIndex(c, id, title, price, other);
    var k := IndexOf(c, other);
    if k >= 0 {
      if Contains(c, id) {
        assert k != IndexOf(c, id);
      }
      assert r[k] == c[k];
    }
  }

  /** An add of an id contributes, on a later add of the same id, the unit
      price it stored, or the one already stored before it. */
  lemma UnitPriceAfterSameAdd(c: seq<LineItem>, id: string, title: string, price: int, q: int)
    ensures UnitPrice(Add(c, id, title, price), id, q) == UnitPrice(c, id, price)
  {
    var r := Add(c, id, title, price);
    AddEffect(c, id, title, price);
    if Contains(c, id) {
      OneChangeKeepsIndex(c, r, IndexOf(c, id), id);
    } else {
      assert r[|c|].id == id;
    }
  }

  // ---------------------------------------------------------------------------
  // The order of adds
  // ---------------------------------------------------------------------------

  /** What an add is given: the product's id, title and price. */
  datatype Product = Product(id: string, title: string, price: int)

  /** The adds of a run of products, first to last. */
  function AddAll(c: seq<LineItem>, ps: seq<Product>): (r: seq<LineItem>)
    decreases |ps|
  {
    if ps == [] then c else AddAll(Add(c, ps[0].id, ps[0].title, ps[0].price), ps[1..])
  }

  /** Two carts no later add can tell apart by total: they have the same total,
      and every id would contribute the same unit price to it. */
  ghost predicate SameForAdds(c1: seq<LineItem>, c2: seq<LineItem>)
  {
    Total(c1) == Total(c2) && forall x, p :: UnitPrice(c1, x, p) == UnitPrice(c2, x, p)
  }

  /** An add keeps two carts indistinguishable. */
  lemma AddKeepsSame(c1: seq<LineItem>, c2: seq<LineItem>, id: string, title: string, price: int)
    requires SameForAdds(c1, c2)
    ensures SameForAdds(Add(c1, id, title, price), Add(c2, id, title, price))
  {
    var r1, r2 := Add(c1, id, title, price), Add(c2, id, title, price);
    AddTotal(c1, id, title, price);
    AddTotal(c2, id, title, price);
    forall x, p ensures UnitPrice(r1, x, p) == UnitPrice(r2, x, p) {
      if x == id {
        UnitPriceAfterSameAdd(c1, id, title, price, p);
        UnitPriceAfterSameAdd(c2, id, title, price, p);
      } else {
        UnitPriceAfterAdd(c1, id, title, price, x, p);
        UnitPriceAfterAdd(c2, id, title, price, x, p);
      }
    }
  }

  /** Any run of adds keeps two carts indistinguishable. */
  lemma {:induction false} AddAllKeepsSame(c1: seq<LineItem>, c2: seq<LineItem>, ps: seq<Product>)
    requires SameForAdds(c1, c2)
    ensures SameForAdds(AddAll(c1, ps), AddAll(c2, ps))
    decreases |ps|
  {
    if ps != [] {
      AddKeepsSame(c1, c2, ps[0].id, ps[0].title, ps[0].price);
      AddAllKeepsSame(Add(c1, ps[0].id, ps[0].title, ps[0].price), Add(c2, ps[0].id, ps[0].title, ps[0].price), ps[1..]);
    }
  }

  /** A run of adds split in two is the first part followed by the second. */
  lemma {:induction false} AddAllConcat(c: seq<LineItem>, ps: seq<Product>, qs: seq<Product>)
    ensures AddAll(c, ps + qs) == AddAll(AddAll(c, ps), qs)
    decreases |ps|
  {
    if ps != [] {
      assert (ps + qs)[0] == ps[0] && (ps + qs)[1..] == ps[1..] + qs;
      AddAllConcat(Add(c, ps[0].id, ps[0].title, ps[0].price), ps[1..], qs);
    } else {
      assert ps + qs == qs;
    }
  }

  /** Adding two different products in either order leaves carts no later add
      can tell apart. */
  lemma SwapSame(c: seq<LineItem>, a: Product, b: Product)
    requires a.id != b.id
    ensures SameForAdds(Add(Add(c, a.id, a.title, a.price), b.id, b.title, b.price),
                        Add(Add(c, b.id, b.title, b.price), a.id, a.title, a.price))
  {
    var ca, cb := Add(c, a.id, a.title, a.price), Add(c, b.id, b.title, b.price);
    var rab, rba := Add(ca, b.id, b.title, b.price), Add(cb, a.id, a.title, a.price);
    AddCommutes(c, a.id, a.title, a.price, b.id, b.title, b.price);
    forall x, p ensures UnitPrice(rab, x, p) == UnitPrice(rba, x, p) {
      if x == a.id {
        UnitPriceAfterAdd(ca, b.id, b.title, b.price, x, p);
        UnitPriceAfterSameAdd(c, a.id, a.title, a.price, p);
        UnitPriceAfterSameAdd(cb, a.id, a.title, a.price, p);
        UnitPriceAfterAdd(c, b.id, b.title, b.price, x, a.price);
      } else if x == b.id {
        UnitPriceAfterAdd(cb, a.id, a.title, a.price, x, p);
        UnitPriceAfterSameAdd(c, b.id, b.title, b.price, p);
        UnitPriceAfterSameAdd(ca, b.id, b.title, b.price, p);
        UnitPriceAfterAdd(c, a.id, a.title, a.price, x, b.price);
      } else {
        UnitPriceAfterAdd(ca, b.id, b.title, b.price, x, p);
        UnitPriceAfterAdd(c, a.id, a.title, a.price, x, p);
        UnitPriceAfterAdd(cb, a.id, a.title, a.price, x, p);
        UnitPriceAfterAdd(c, b.id, b.title, b.price, x, p);
      }
    }
  }

  lemma AddTwo(c: seq<LineItem>, a: Product, b: Product)
    ensures AddAll(c, [a, b]) == Add(Add(c, a.id, a.title, a.price), b.id, b.title, b.price)
  {
    var ca := Add(c, a.id, a.title, a.price);
    assert [a, b][1..] == [b];
    assert AddAll(c, [a, b]) == AddAll(ca, [b]);
    assert AddAll(ca, [b]) == AddAll(Add(ca, b.id, b.title, b.price), []);
  }

  /** Swapping two neighbouring adds of different products anywhere in a run
      does not change the total; chained, any reordering made of such swaps
      keeps it. */
  lemma SwapInRun(c: seq<LineItem>, ps: seq<Product>, a: Product, b: Product, qs: seq<Product>)
    requires a.id != b.id
    ensures Total(AddAll(c, ps + [a, b] + qs)) == Total(AddAll(c, ps + [b, a] + qs))
  {
    var p := AddAll(c, ps);
    AddAllConcat(c, ps + [a, b], qs);
    AddAllConcat(c, ps + [b, a], qs);
    AddAllConcat(c, ps, [a, b]);
    AddAllConcat(c, ps, [b, a]);
    AddTwo(p, a, b);
    AddTwo(p, b, a);
    SwapSame(p, a, b);
    AddAllKeepsSame(AddAll(p, [a, b]), AddAll(p, [b, a]), qs);
  }

  /** Adding the same new product n times gives one line for it, at the end,
      whose quantity is n, and leaves the earlier lines untouched. */
  lemma {:induction false} RepeatedAdd(c: seq<LineItem>, id: string, title: string, price: int, n: nat)
    requires !Contains(c, id)
    requires n >= 1
    ensures var r := AddTimes(c, id, title, price, n);
      AppendedTo(c, r, LineItem(id, title, price, n)) && IndexOf(r, id) == |c|
  {
    if n == 1 {
      AddFirst(c, id, title, price);
    } else {
      RepeatedAdd(c, id, title, price, n - 1);
      AddAgain(c, id, title, price, n);
    }
  }

  /** n adds raise the badge count by n, whatever the cart held. */
  lemma {:induction false} AddTimesCount(c: seq<LineItem>, id: string, title: string, price: int, n: nat)
    ensures Count(AddTimes(c, id, title, price, n)) == Count(c) + n
  {
    if n == 0 {
      assert AddTimes(c, id, title, price, n) == c;
    } else {
      AddTimesCount(c, id, title, price, n - 1);
      AddCountStep(c, id, title, price, n);
      assert Count(AddTimes(c, id, title, price, n)) == Count(c) + n;
    }
  }

  lemma AddCountStep(c: seq<LineItem>, id: string, title: string, price: int, n: nat)
    requires n >= 1
    ensures Count(AddTimes(c, id, title, price, n)) == Count(AddTimes(c, id, title, price, n - 1)) + 1
  {
    AddTimesStep(c, id, title, price, n);
    AddCount(AddTimes(c, id, title, price, n - 1), id, title, price);
  }

  lemma AddTimesStep(c: seq<LineItem>, id: string, title: string, price: int, n: nat)
    requires n >= 1
    ensures AddTimes(c, id, title, price, n) == Add(AddTimes(c, id, title, price, n - 1), id, title, price)
  {
  }

  /** The first add of a new id puts its line at the end. */
  lemma AddFirst(c: seq<LineItem>, id: string, title: string, price: int)
    requires !Contains(c, id)
    ensures var r := AddTimes(c, id, title, price, 1);
      AppendedTo(c, r, LineItem(id, title, price, 1)) && IndexOf(r, id) == |c|
  {
    var r := AddTimes(c, id, title, price, 1);
    AddTimesStep(c, id, title, price, 1);
    assert AddTimes(c, id, title, price, 0) == c;
    assert forall k :: 0 <= k < |c| ==> r[k] == r[..|c|][k] == c[k];
  }

  /** One more add of an id that was appended at the end. */
  lemma AddAgain(c: seq<LineItem>, id: string, title: string, price: int, n: nat)
    requires n >= 2
    requires var p := AddTimes(c, id, title, price, n - 1);
      AppendedTo(c, p, LineItem(id, title, price, n - 1)) && IndexOf(p, id) == |c|
    ensures var r := AddTimes(c, id, title, price, n);
      AppendedTo(c, r, LineItem(id, title, price, n)) && IndexOf(r, id) == |c|
  {
    var p := AddTimes(c, id, title, price, n - 1);
    var r := AddTimes(c, id, title, price, n);
    AddTimesStep(c, id, title, price, n);
    assert SameExceptAt(p, r, |c|) && Bumped(p[|c|], r[|c|], 1);
    assert r[..|c|] == c by {
      forall j | 0 <= j < |c| ensures r[j] == c[j] {
        assert r[j] == p[j] == p[..|c|][j];
      }
    }
    SameIdsSameIndex(p, r, id);
  }

  // ---------------------------------------------------------------------------
  // Changing a quantity
  // ---------------------------------------------------------------------------

  /** On a cart without empty lines, one press moves the badge count by one
      step: up for "increase", down for "decrease" (whether the line is
      decremented or removed), not at all otherwise or for an unknown id. */
  lemma UpdateCount(c: seq<LineItem>, id: string, action: Action)
    requires AllPositive(c)
    ensures Count(Update(c, id, action)) == Count(c) + (if Contains(c, id) then Step(action) else 0)
  {
    if Contains(c, id) {
      match action
      case Increase => IncreaseSums(c, id);
      case Decrease => DecreaseSums(c, id);
      case Other =>
    }
  }

  /** Likewise the total moves by one unit price of the pressed line. */
  lemma UpdateTotal(c: seq<LineItem>, id: string, action: Action)
    requires AllPositive(c)
    ensures Total(Update(c, id, action)) ==
              Total(c) + (if Contains(c, id) then Step(action) * c[IndexOf(c, id)].price else 0)
  {
    if Contains(c, id) {
      match action
      case Increase => IncreaseSums(c, id);
      case Decrease => DecreaseSums(c, id);
      case Other =>
    }
  }

  lemma IncreaseSums(c: seq<LineItem>, id: string)
    requires Contains(c, id)
    ensures var i, r := IndexOf(c, id), Update(c, id, Increase);
      Count(r) == Count(c) + 1 && Total(r) == Total(c) + c[i].price
  {
    UpdateEffect(c, id, Increase);
    ShiftSums(c, Update(c, id, Increase), IndexOf(c, id), 1);
  }

  lemma DecreaseSums(c: seq<LineItem>, id: string)
    requires Contains(c, id) && c[IndexOf(c, id)].qty >= 1
    ensures var i, r := IndexOf(c, id), Update(c, id, Decrease);
      Count(r) == Count(c) - 1 && Total(r) == Total(c) - c[i].price
  {
    var i, r := IndexOf(c, id), Update(c, id, Decrease);
    UpdateEffect(c, id, Decrease);
    if c[i].qty == 1 {
      RemoveSums(c, r, i);
    } else {
      ShiftSums(c, r, i, -1);
    }
  }

  lemma UpdateWellFormed(c: seq<LineItem>, id: string, action: Action)
    requires WellFormed(c)
    ensures WellFormed(Update(c, id, action))
  {
    var r := Update(c, id, action);
    if Contains(c, id) && action == Decrease && c[IndexOf(c, id)].qty <= 1 {
      var i := IndexOf(c, id);
      forall j, k | 0 <= j < k < |r| ensures r[j].id != r[k].id {
        var j', k' := if j < i then j else j + 1, if k < i then k else k + 1;
        assert r[j] == c[j'] && r[k] == c[k'];
      }
      forall k | 0 <= k < |r| ensures r[k].qty >= 1 {
        assert r[k] == c[if k < i then k else k + 1];
      }
    }
  }

  /** Decreasing a line of quantity 1 removes its id from a well-formed cart. */
  lemma DecreaseLastRemoves(c: seq<LineItem>, id: string)
    requires WellFormed(c)
    requires Contains(c, id) && c[IndexOf(c, id)].qty == 1
    ensures !Contains(Update(c, id, Decrease), id)
    ensures |Update(c, id, Decrease)| == |c| - 1
  {
    DecreaseRemoves(c, id);
    RemovedIdGone(c, Update(c, id, Decrease), IndexOf(c, id));
  }

  /** With unique ids, taking out the line at `i` takes out its id. */
  lemma RemovedIdGone(c: seq<LineItem>, r: seq<LineItem>, i: int)
    requires UniqueIds(c) && 0 <= i < |c|
    requires RemovedAt(c, r, i)
    ensures !Contains(r, c[i].id)
  {
    forall k | 0 <= k < |r| ensures r[k].id != c[i].id {
      if k < i {
        assert r[k] == c[k];
      } else {
        assert r[k] == c[k + 1];
      }
    }
  }

  /** Before the last press, n presses of "decrease" leave the line in place
      with n fewer, and change nothing else. */
  lemma {:induction false} DecreaseTimesBefore(c: seq<LineItem>, id: string, n: nat)
    requires Contains(c, id)
    requires n < c[IndexOf(c, id)].qty
    ensures var i, r := IndexOf(c, id), DecreaseTimes(c, id, n);
      SameExceptAt(c, r, i) && Bumped(c[i], r[i], -(n as int))
  {
    if n > 0 {
      DecreaseTimesBefore(c, id, n - 1);
      var p := DecreaseTimes(c, id, n - 1);
      DecreaseTimesStep(c, id, n);
      DecreaseAgain(c, p, DecreaseTimes(c, id, n), id, n - 1);
    }
  }

  /** One more press of "decrease" on a line still above 1 lowers only that line. */
  lemma DecreaseAgain(c: seq<LineItem>, p: seq<LineItem>, r: seq<LineItem>, id: string, m: nat)
    requires Contains(c, id)
    requires var i := IndexOf(c, id); m + 1 < c[i].qty && SameExceptAt(c, p, i) && Bumped(c[i], p[i], -(m as int))
    requires r == Update(p, id, Decrease)
    ensures var i := IndexOf(c, id); SameExceptAt(c, r, i) && Bumped(c[i], r[i], -(m as int) - 1)
  {
    var i := IndexOf(c, id);
    assert forall k :: 0 <= k < |p| ==> p[k].id == c[k].id;
    SameIdsSameIndex(c, p, id);
    assert SameExceptAt(p, r, i) && Bumped(p[i], r[i], -1);
  }

  /** Changing anything but the ids does not move where an id is found. */
  lemma SameIdsSameIndex(c: seq<LineItem>, r: seq<LineItem>, id: string)
    requires |r| == |c|
    requires forall k :: 0 <= k < |c| ==> r[k].id == c[k].id
    ensures IndexOf(r, id) == IndexOf(c, id)
  {
    var i, m := IndexOf(c, id), IndexOf(r, id);
    if i >= 0 {
      assert r[i].id == id;
    }
    if m >= 0 {
      assert c[m].id == id;
    }
  }

  /** Pressing "decrease" as many times as a line's quantity removes the line;
      one more press changes nothing, the id being gone. */
  lemma RepeatedDecrease(c: seq<LineItem>, id: string, n: nat)
    requires WellFormed(c)
    requires Contains(c, id) && n == c[IndexOf(c, id)].qty
    ensures n >= 1
    ensures var r := DecreaseTimes(c, id, n);
      !Contains(r, id) && Update(r, id, Decrease) == r && |r| == |c| - 1
    ensures RemovedAt(c, DecreaseTimes(c, id, n), IndexOf(c, id))
  {
    var r := DecreaseTimes(c, id, n);
    DecreaseTimesKeepOthers(c, id, n);
    RemovedIdGone(c, r, IndexOf(c, id));
  }

  /** The lines other than the removed one are those of the original cart, in
      their order. */
  lemma DecreaseTimesKeepOthers(c: seq<LineItem>, id: string, n: nat)
    requires Contains(c, id) && n == c[IndexOf(c, id)].qty && n >= 1
    ensures RemovedAt(c, DecreaseTimes(c, id, n), IndexOf(c, id))
  {
    var i := IndexOf(c, id);
    var p := DecreaseTimes(c, id, n - 1);
    DecreaseTimesBefore(c, id, n - 1);
    OneChangeKeepsIndex(c, p, i, id);
    LastPressKeepsOthers(c, p, id, i);
    DecreaseTimesStep(c, id, n);
  }

  /** The last press on a line that alone differs from `c` takes out that line. */
  lemma LastPressKeepsOthers(c: seq<LineItem>, p: seq<LineItem>, id: string, i: int)
    requires 0 <= i < |c|
    requires SameExceptAt(c, p, i) && IndexOf(p, id) == i && p[i].qty == 1
    ensures RemovedAt(c, Update(p, id, Decrease), i)
  {
    DecreaseRemoves(p, id);
    RemovedAfterChange(c, p, Update(p, id, Decrease), i);
  }

  /** Removing the line that was the only one changed gives `c` without that line. */
  lemma RemovedAfterChange(c: seq<LineItem>, p: seq<LineItem>, r: seq<LineItem>, i: int)
    requires 0 <= i < |c|
    requires SameExceptAt(c, p, i) && RemovedAt(p, r, i)
    ensures RemovedAt(c, r, i)
  {
    assert forall j :: i <= j < |r| ==> r[j] == p[j + 1] == c[j + 1];
  }

  lemma DecreaseTimesStep(c: seq<LineItem>, id: string, n: nat)
    requires n >= 1
    ensures DecreaseTimes(c, id, n) == Update(DecreaseTimes(c, id, n - 1), id, Decrease)
  {
  }

  /** One press short of the quantity, the line is still there with quantity 1,
      where it was, and the cart is still well formed. */
  lemma DecreaseToLast(c: seq<LineItem>, id: string, n: nat)
    requires WellFormed(c)
    requires Contains(c, id) && n + 1 == c[IndexOf(c, id)].qty
    ensures var i, p := IndexOf(c, id), DecreaseTimes(c, id, n);
      WellFormed(p) && |p| == |c| && IndexOf(p, id) == i && p[i].qty == 1
  {
    var i := IndexOf(c, id);
    var p := DecreaseTimes(c, id, n);
    DecreaseTimesBefore(c, id, n);
    QuantityChangeKeepsWellFormed(c, p, i, id);
  }

  lemma QuantityChangeKeepsWellFormed(c: seq<LineItem>, p: seq<LineItem>, i: int, id: string)
    requires WellFormed(c) && 0 <= i < |c|
    requires SameExceptAt(c, p, i) && p[i].id == c[i].id && p[i].qty >= 1
    ensures WellFormed(p)
    ensures IndexOf(p, id) == IndexOf(c, id)
  {
    OneChangeKeepsIndex(c, p, i, id);
    assert forall k :: 0 <= k < |p| ==> p[k].id == c[k].id;
  }

  /** Changing one line but not its id does not move where any id is found. */
  lemma OneChangeKeepsIndex(c: seq<LineItem>, p: seq<LineItem>, i: int, id: string)
    requires 0 <= i < |c|
    requires SameExceptAt(c, p, i) && p[i].id == c[i].id
    ensures IndexOf(p, id) == IndexOf(c, id)
  {
    assert forall k :: 0 <= k < |p| ==> p[k].id == c[k].id;
    SameIdsSameIndex(c, p, id);
  }
}
