/** The cart store: one slot of the browser's local storage, under the key
    "cheffood_cart_v1". Reading the cart reads the slot and saving it
    overwrites the slot; adding a product and pressing a quantity button read
    the slot at their start and overwrite it at their end, except that a press
    for an unknown id writes nothing. */
module CartStorage {
  import opened Cart

  /** What the storage slot holds: nothing, text that does not decode, or the
      encoding of a list of line items. Encoding and decoding are abstracted:
      a stored list decodes to exactly itself. */
  datatype Slot = Absent | Corrupt | Stored(items: seq<LineItem>)

  /** The cart a slot stands for: an empty cart unless it holds a stored list. */
  function Load(s: Slot): (cart: seq<LineItem>)
  {
    if s.Stored? then s.items else []
  }

  class Store {
    /** The persisted slot, the only state the store has. */
    var slot: Slot

    /** The store as a page finds it, with whatever the slot already holds. */
    constructor (initial: Slot)
      ensures slot == initial
    {
      slot := initial;
    }

    /** Reads the slot. An absent or undecodable slot gives an empty cart
        instead of a failure; the slot itself is always readable here. */
    method GetCart() returns (cart: seq<LineItem>)
      ensures slot.Stored? ==> cart == slot.items
      ensures !slot.Stored? ==> cart == []
    {
      match slot
      case Absent => cart := [];
      case Corrupt => cart := [];
      case Stored(items) => cart := items;
    }

    /** Overwrites the slot with the given cart; nothing is validated. */
    method SaveCart(cart: seq<LineItem>)
      modifies this
      ensures slot == Stored(cart)
      ensures Load(slot) == cart
    {
      slot := Stored(cart);
    }

    /** Adds one of a product and returns the text of the notification shown
        for it. */
    method AddToCart(id: string, title: string, price: int) returns (toast: string)
      modifies this
      ensures slot == Stored(Add(Load(old(slot)), id, title, price))
      ensures Count(Load(slot)) == Count(Load(old(slot))) + 1
      ensures Total(Load(slot)) == Total(Load(old(slot))) + UnitPrice(Load(old(slot)), id, price)
      ensures WellFormed(Load(old(slot))) ==> WellFormed(Load(slot))
      ensures toast == "Added \"" + title + "\" to cart"
    {
      var cart := GetCart();
      ghost var before := cart;
      var index := IndexOf(cart, id);
      if index > -1 {
        cart := cart[index := cart[index].(qty := cart[index].qty + 1)];
      } else {
        cart := cart + [LineItem(id, title, price, 1)];
      }
      assert cart == Add(before, id, title, price);
      SaveCart(cart);
      AddCount(before, id, title, price);
      AddTotal(before, id, title, price);
      if WellFormed(before) {
        AddWellFormed(before, id, title, price);
      }
      toast := "Added \"" + title + "\" to cart";
    }

    /** Applies a quantity button's action to the line with this id. An unknown
        id leaves the slot as it was, without writing it; a known id always
        rewrites the slot, whatever the action. */
    method UpdateQuantity(id: string, action: string)
      modifies this
      ensures !Contains(Load(old(slot)), id) ==> slot == old(slot)
      ensures Contains(Load(old(slot)), id) ==> slot == Stored(Update(Load(old(slot)), id, ParseAction(action)))
      ensures AllPositive(Load(old(slot))) ==>
                Count(Load(slot)) == Count(Load(old(slot))) + (if Contains(Load(old(slot)), id) then Step(ParseAction(action)) else 0)
      ensures AllPositive(Load(old(slot))) ==>
                Total(Load(slot)) == Total(Load(old(slot))) +
                  (if Contains(Load(old(slot)), id) then Step(ParseAction(action)) * Load(old(slot))[IndexOf(Load(old(slot)), id)].price else 0)
      ensures WellFormed(Load(old(slot))) ==> WellFormed(Load(slot))
    {
      var cart := GetCart();
      ghost var before := cart;
      var index := IndexOf(cart, id);
      if index == -1 {
        return;
      }
      if action == "increase" {
        cart := cart[index := cart[index].(qty := cart[index].qty + 1)];
      } else if action == "decrease" {
        cart := cart[index := cart[index].(qty := cart[index].qty - 1)];
        if cart[index].qty <= 0 {
          cart := cart[..index] + cart[index + 1..];
          assert cart == before[..index] + before[index + 1..];
        }
      }
      assert cart == Update(before, id, ParseAction(action));
      SaveCart(cart);
      if AllPositive(before) {
        UpdateCount(before, id, ParseAction(action));
        UpdateTotal(before, id, ParseAction(action));
      }
      if WellFormed(before) {
        UpdateWellFormed(before, id, ParseAction(action));
      }
    }

    /** The number on the cart badge. */
    method CartCount() returns (count: int)
      ensures count == Count(Load(slot))
      ensures AllPositive(Load(slot)) ==> (count == 0 <==> Load(slot) == [])
    {
      var cart := GetCart();
      count := Count(cart);
      if AllPositive(cart) {
        CountPositive(cart);
      }
    }

    /** The cart total, accumulated line by line as the cart page renders it;
        an empty cart totals 0. */
    method CartTotal() returns (total: int)
      ensures total == Total(Load(slot))
      ensures Load(slot) == [] ==> total == 0
    {
      var cart := GetCart();
      if |cart| == 0 {
        return 0;
      }
      total := 0;
      var i := 0;
      while i < |cart|
        invariant 0 <= i <= |cart|
        invariant total == Total(cart[..i])
      {
        assert cart[..i + 1][..i] == cart[..i];
        var subtotal := cart[i].qty * cart[i].price;
        total := total + subtotal;
        i := i + 1;
      }
      assert cart[..i] == cart;
    }
  }
}

/** Sessions a page could run against the store, checked from the store's
    contracts and the lemmas of the cart module. */
module CartScenarios {
  import opened Cart
  import opened CartStorage

  method SaveThenGet(cart: seq<LineItem>)
  {
    var s := new Store(Corrupt);
    s.SaveCart(cart);
    var back := s.GetCart();
    assert back == cart;
  }

  method CorruptSlot()
  {
    var s := new Store(Corrupt);
    var cart := s.GetCart();
    assert cart == [];
    var count := s.CartCount();
    assert count == 0;
    s.UpdateQuantity("a", "decrease");
    assert s.slot == Corrupt;
  }

  method AddOnce()
  {
    var s := new Store(Absent);
    var _ := s.AddToCart("a", "Pizza", 100);
    var cart := s.GetCart();
    assert cart == [LineItem("a", "Pizza", 100, 1)] by {
      assert |cart| == 1 && cart[0] == LineItem("a", "Pizza", 100, 1);
    }
    var count := s.CartCount();
    var total := s.CartTotal();
    assert count == 1 && total == 100;
  }

  method AddTwice()
  {
    var s := new Store(Absent);
    var _ := s.AddToCart("a", "Pizza", 100);
    var _ := s.AddToCart("a", "Pizza", 100);
    var cart := s.GetCart();
    assert |cart| == 1 && cart[0].qty == 2;
    var total := s.CartTotal();
    assert total == 200;
  }

  method RemoveFirst()
  {
    var both := [LineItem("a", "Pizza", 100, 1), LineItem("b", "Salad", 50, 1)];
    var s := new Store(Stored(both));
    assert IndexOf(both, "a") == 0;
    assert ParseAction("decrease") == Decrease;
    s.UpdateQuantity("a", "decrease");
    var cart := s.GetCart();
    UpdateEffect(both, "a", Decrease);
    assert RemovedAt(both, cart, 0);
    assert cart == [both[1]] by {
      assert |cart| == 1 && cart[0] == both[1];
    }
    SumSingle(both[1], Subtotal);
    var total := s.CartTotal();
    assert total == 50;
  }
}
