/** The storefront's cart store: the list of line items that the page's
    add, remove, quantity, checkout and clear handlers change, and the
    running total and order summary computed from it. */
module CartStore {
  import opened CartSpec

  class Cart {
    /** The line items in the order they were added. */
    var items: seq<LineItem>

    /** At most one line per title, and every quantity at least 1. */
    ghost predicate Valid()
      reads this
    {
      WellFormed(items)
    }

    /** The cart starts empty. */
    constructor ()
      ensures Valid()
      ensures items == []
    {
      items := [];
    }

    /** Adds a product. A title already in the cart is refused and nothing
        changes; otherwise a line with quantity 1 is appended. */
    method AddItem(title: string, price: int, imgSrc: string) returns (r: Result<()>)
      requires Valid()
      modifies this
      ensures Valid()
      ensures r == Err(DuplicateItem) <==> HasTitle(old(items), title)
      ensures r == Ok(()) <==> !HasTitle(old(items), title)
      ensures r.Err? ==> items == old(items)
      ensures r.Ok? ==> items == old(items) + [LineItem(title, price, imgSrc, 1)]
    {
      var newToAdd := LineItem(title, price, imgSrc, 1);
      if Find(items, newToAdd.title).Some? {
        return Err(DuplicateItem);
      }
      AppendNewPreservesWellFormed(items, newToAdd);
      items := items + [newToAdd];
      r := Ok(());
    }

    /** Drops every line with the given title, keeping the others in order;
        an absent title is not an error. */
    method RemoveItem(title: string)
      requires Valid()
      modifies this
      ensures Valid()
      ensures items == RemoveTitle(old(items), title)
      ensures !HasTitle(items, title)
      ensures !HasTitle(old(items), title) ==> items == old(items)
    {
      RemovePreservesUnique(items, title);
      RemovePreservesQuantities(items, title);
      if !HasTitle(items, title) {
        RemoveAbsent(items, title);
      }
      items := RemoveTitle(items, title);
    }

    /** Sanitises the raw value typed into a line's quantity field, stores
        it as that line's quantity and returns it. */
    method ChangeQuantity(title: string, raw: RawQuantity) returns (q: int)
      requires Valid()
      modifies this
      ensures Valid()
      ensures q == Sanitize(raw) && q >= 1
      ensures items == SetQuantity(old(items), title, q)
    {
      var value := raw;
      if value.NotANumber? || BelowOne(value) {
        value := Whole(1);
      }
      q := value.digits / Pow10(value.scale);
      SetQuantityPreservesWellFormed(items, title, q);
      items := SetQuantity(items, title, q);
    }

    /** Places the order: refused on an empty cart, which stays as it is;
        otherwise the cart is emptied. */
    method BuyOrder() returns (r: Result<()>)
      requires Valid()
      modifies this
      ensures Valid()
      ensures r == Err(EmptyCart) <==> old(items) == []
      ensures r.Ok? <==> old(items) != []
      ensures items == []
    {
      if |items| == 0 {
        return Err(EmptyCart);
      }
      items := [];
      r := Ok(());
    }

    /** Empties the cart unconditionally. */
    method ClearCart()
      requires Valid()
      modifies this
      ensures Valid()
      ensures items == []
    {
      items := [];
    }

    /** The running total shown under the cart: unit price times quantity,
        summed over the lines. */
    method UpdateTotal() returns (total: int)
      ensures total == CartTotal(items)
      ensures items == [] ==> total == 0
      ensures PositiveQuantities(items) && (forall i :: 0 <= i < |items| ==> items[i].price >= 0) ==> total >= 0
    {
      total := 0;
      var i := 0;
      while i < |items|
        invariant 0 <= i <= |items|
        invariant total == CartTotal(items[..i])
      {
        TotalAppend(items[..i], items[i]);
        assert items[..i + 1] == items[..i] + [items[i]];
        total := total + items[i].price * items[i].quantity;
        i := i + 1;
      }
      assert items[..i] == items;
      if PositiveQuantities(items) && (forall i :: 0 <= i < |items| ==> items[i].price >= 0) {
        TotalNonNegative(items);
      }
    }

    /** The order summary shown on checkout: one line per cart line with its
        own total, and the grand total; refused on an empty cart. */
    method Summary() returns (r: Result<OrderSummary>)
      ensures r.Err? <==> items == []
      ensures r.Err? ==> r.error == EmptyCart
      ensures r.Ok? ==> |r.value.lines| == |items|
      ensures r.Ok? ==> forall k :: 0 <= k < |items| ==> r.value.lines[k] == Summarize(items[k])
      ensures r.Ok? ==> r.value.totalPrice == SumLineTotals(r.value.lines)
      ensures r.Ok? ==> r.value.totalPrice == CartTotal(items)
    {
      if |items| == 0 {
        return Err(EmptyCart);
      }
      var lines: seq<SummaryLine> := [];
      var totalPrice := 0;
      var i := 0;
      while i < |items|
        invariant 0 <= i <= |items|
        invariant |lines| == i
        invariant forall k :: 0 <= k < i ==> lines[k] == Summarize(items[k])
        invariant totalPrice == CartTotal(items[..i])
      {
        var item := items[i];
        var totalItemPrice := item.price * item.quantity;
        lines := lines + [SummaryLine(item.title, item.price, item.quantity, totalItemPrice)];
        TotalAppend(items[..i], item);
        assert items[..i + 1] == items[..i] + [item];
        totalPrice := totalPrice + totalItemPrice;
        i := i + 1;
      }
      assert items[..i] == items;
      SummaryTotalIsCartTotal(lines, items);
      r := Ok(OrderSummary(lines, totalPrice));
    }
  }

  /** A session on one cart: a duplicate add is refused, a removed title can
      be added again, quantities feed the total, and checkout empties the cart. */
  method CartSession()
  {
    var cart := new Cart();
    var r := cart.AddItem("A", 1000, "a.png");
    assert r == Ok(());
    assert cart.items[0].title == "A";
    r := cart.AddItem("A", 1000, "a.png");
    assert r == Err(DuplicateItem) && |cart.items| == 1;
    assert "A"[0] != "B"[0];
    r := cart.AddItem("B", 550, "b.png");
    assert r == Ok(());

    var q := cart.ChangeQuantity("A", Decimal(29, 1));
    assert q == 2;
    var total := cart.UpdateTotal();
    assert cart.items == [LineItem("A", 1000, "a.png", 2), LineItem("B", 550, "b.png", 1)];
    assert CartTotal(cart.items[1..]) == 550;
    assert total == 2550;

    cart.RemoveItem("C");
    assert |cart.items| == 2;
    cart.RemoveItem("A");
    assert cart.items == [LineItem("B", 550, "b.png", 1)];
    r := cart.AddItem("A", 1000, "a.png");
    assert r == Ok(());

    assert cart.items == [LineItem("B", 550, "b.png", 1), LineItem("A", 1000, "a.png", 1)];
    assert CartTotal(cart.items[1..]) == 1000;
    var s := cart.Summary();
    assert s.Ok? && s.value.totalPrice == 1550;
    r := cart.BuyOrder();
    assert r.Ok? && cart.items == [];
    r := cart.BuyOrder();
    assert r == Err(EmptyCart);
    s := cart.Summary();
    assert s == Err(EmptyCart);
  }
}
