/**
 * The application state of src/components/AppState.ts: catalog, preview
 * pointer, basket, order in progress and form errors, updated in place.
 * Every `emitChanges` / `events.emit` appends one entry to `log`.
 * The getters `catalog`, `basket`, `order` and `currentBasket` are the
 * fields themselves.
 */
module AppStateModel {
  import opened Wrappers
  import opened Types
  import opened Events
  import opened Lookup
  import opened Totals
  import opened Validation

  class AppState {
    var catalog: seq<ProductItem>
    var preview: string
    var basket: seq<ProductItem>
    var order: Order
    var formErrors: FormErrors
    var log: seq<Event>

    /** The basket never holds two products with the same id. */
    ghost predicate Valid()
      reads this`basket
    {
      DistinctIds(basket)
    }

    constructor ()
      ensures Valid()
      ensures catalog == [] && preview == "" && basket == []
      ensures order == InitialOrder && formErrors == map[] && log == []
    {
      catalog := [];
      preview := "";
      basket := [];
      order := InitialOrder;
      formErrors := map[];
      log := [];
    }

    /** The `isBasketEmpty` getter. */
    function IsBasketEmpty(): (r: bool)
      reads this`basket
      ensures r <==> basket == []
    {
      |basket| == 0
    }

    /** `getTotal`: the fold over the order's item ids, equal to the sum of their prices. */
    function GetTotal(): (r: int)
      reads this`catalog, this`order
      ensures r == SumPrices(catalog, order.items)
      ensures r >= 0
    {
      FoldTotal(catalog, 0, order.items)
    }

    /** The `total` setter: stores the value and announces it. */
    method SetTotal(value: int)
      modifies this`order, this`log
      ensures order == old(order).(total := value)
      ensures log == old(log) + [Event(TotalUpdated, TotalPayload(value))]
    {
      order := order.(total := value);
      log := log + [Event(TotalUpdated, TotalPayload(value))];
    }

    /** `clearBasket`: empties the basket and the order's item ids; the stored total stays. */
    method ClearBasket()
      modifies this`basket, this`order, this`log
      ensures basket == [] && Valid() && IsBasketEmpty()
      ensures order == old(order).(items := [])
      ensures GetTotal() == 0
      ensures log == old(log) + [Event(BasketCleared, NoPayload)]
    {
      basket := [];
      order := order.(items := []);
      log := log + [Event(BasketCleared, NoPayload)];
    }

    /** `addToOrder`: always appends the id, duplicates included. */
    method AddToOrder(product: ProductItem)
      modifies this`order, this`log
      ensures order == old(order).(items := old(order.items) + [product.id])
      ensures |order.items| == |old(order.items)| + 1
      ensures GetTotal() == old(GetTotal()) + ItemPrice(catalog, product.id)
      ensures log == old(log) + [Event(OrderItemAdded, IdPayload(product.id))]
    {
      SumAppend(catalog, order.items, [product.id]);
      assert SumPrices(catalog, [product.id]) == ItemPrice(catalog, product.id) by {
        assert [product.id][1..] == [];
      }
      order := order.(items := order.items + [product.id]);
      log := log + [Event(OrderItemAdded, IdPayload(product.id))];
    }

    /** `removeFromOrder`: drops the first occurrence of the id; a no-op when it is absent. */
    method RemoveFromOrder(product: ProductItem)
      modifies this`order, this`log
      ensures product.id !in old(order.items) ==> order == old(order) && log == old(log)
      ensures product.id in old(order.items) ==>
        && order == old(order).(items := RemoveAt(old(order.items), IndexOf(old(order.items), product.id)))
        && log == old(log) + [Event(OrderItemRemoved, IdPayload(product.id))]
      ensures multiset(order.items) == multiset(old(order.items)) - multiset{product.id}
      ensures GetTotal() == old(GetTotal()) - if product.id in old(order.items) then ItemPrice(catalog, product.id) else 0
    {
      var index := IndexOf(order.items, product.id);
      if index != -1 {
        SumRemoveAt(catalog, order.items, index);
        order := order.(items := RemoveAt(order.items, index));
        log := log + [Event(OrderItemRemoved, IdPayload(product.id))];
      }
    }

    /** `setCatalog`: replaces the catalog wholesale. */
    method SetCatalog(items: seq<ProductItem>)
      modifies this`catalog, this`log
      ensures catalog == items
      ensures log == old(log) + [Event(CatalogUpdated, CatalogPayload(items))]
    {
      catalog := items;
      log := log + [Event(CatalogUpdated, CatalogPayload(catalog))];
    }

    /** `setPreview`: points the preview at the product's id. */
    method SetPreview(product: ProductItem)
      modifies this`preview, this`log
      ensures preview == product.id
      ensures log == old(log) + [Event(PreviewUpdated, ProductPayload(product))]
    {
      preview := product.id;
      log := log + [Event(PreviewUpdated, ProductPayload(product))];
    }

    /** `addProductToBasket`: appends the product unless one with its id is already there. */
    method AddProductToBasket(product: ProductItem)
      requires Valid()
      modifies this`basket, this`log
      ensures Valid()
      ensures FindIndexById(old(basket), product.id) == -1 ==>
        && basket == old(basket) + [product]
        && log == old(log) + [Event(BasketItemAdded, ProductPayload(product))]
      ensures FindIndexById(old(basket), product.id) != -1 ==> basket == old(basket) && log == old(log)
      ensures FindIndexById(basket, product.id) != -1 && !IsBasketEmpty()
    {
      if FindById(basket, product.id) == None {
        AppendAbsentKeepsDistinct(basket, product);
        basket := basket + [product];
        assert basket[|basket| - 1].id == product.id;
        log := log + [Event(BasketItemAdded, ProductPayload(product))];
      }
    }

    /** `removeProductFromBasket`: deletes the first product with the same id; a no-op when there is none. */
    method RemoveProductFromBasket(product: ProductItem)
      requires Valid()
      modifies this`basket, this`log
      ensures Valid()
      ensures FindIndexById(old(basket), product.id) == -1 ==> basket == old(basket) && log == old(log)
      ensures FindIndexById(old(basket), product.id) != -1 ==>
        && basket == RemoveAt(old(basket), FindIndexById(old(basket), product.id))
        && log == old(log) + [Event(BasketItemRemoved, ProductPayload(product))]
      ensures FindIndexById(basket, product.id) == -1
    {
      var index := FindIndexById(basket, product.id);
      if index != -1 {
        RemoveAtKeepsDistinct(basket, index);
        RemoveFoundLeavesNone(basket, product.id);
        basket := RemoveAt(basket, index);
        log := log + [Event(BasketItemRemoved, ProductPayload(product))];
      }
    }

    /** `setOrderPayment`: sets the payment method only. */
    method SetOrderPayment(paymentMethod: string)
      modifies this`order, this`log
      ensures order == old(order).(payment := paymentMethod)
      ensures log == old(log) + [Event(PaymentUpdated, PaymentPayload(paymentMethod))]
    {
      order := order.(payment := paymentMethod);
      log := log + [Event(PaymentUpdated, PaymentPayload(paymentMethod))];
    }

    /** `setOrderField`: writes one delivery-form field, revalidates, and signals readiness. */
    method SetOrderField(field: OrderFormField, value: string)
      modifies this`order, this`formErrors, this`log
      ensures order == WithFormField(old(order), field, value)
      ensures formErrors == OrderErrors(order)
      ensures log == old(log) + [Event(FormErrorsChange, ErrorsPayload(formErrors))]
                    + if order.address != "" && order.payment != ""
                      then [Event(OrderReady, OrderPayload(order))] else []
    {
      order := WithFormField(order, field, value);
      var ok := ValidateOrder();
      if ok {
        log := log + [Event(OrderReady, OrderPayload(order))];
      }
    }

    /** `setContactsField`: writes the phone or the email, nothing for any other name, then revalidates. */
    method SetContactsField(field: string, value: string)
      modifies this`order, this`formErrors, this`log
      ensures field == "phone" ==> order == old(order).(phone := value)
      ensures field == "email" ==> order == old(order).(email := value)
      ensures field != "phone" && field != "email" ==> order == old(order)
      ensures formErrors == ContactsErrors(order)
      ensures log == old(log) + [Event(FormErrorsChange, ErrorsPayload(formErrors))]
                    + if order.email != "" && order.phone != ""
                      then [Event(OrderReady, OrderPayload(order))] else []
    {
      if field == "phone" {
        order := order.(phone := value);
      } else if field == "email" {
        order := order.(email := value);
      }
      var ok := ValidateContacts();
      if ok {
        log := log + [Event(OrderReady, OrderPayload(order))];
      }
    }

    /** `validateOrder`: rebuilds the errors from scratch; true iff address and payment are both set. */
    method ValidateOrder() returns (ok: bool)
      modifies this`formErrors, this`log
      ensures formErrors == OrderErrors(order)
      ensures formErrors.Keys == (if order.address == "" then {Address} else {})
                               + (if order.payment == "" then {Payment} else {})
      ensures ok <==> order.address != "" && order.payment != ""
      ensures log == old(log) + [Event(FormErrorsChange, ErrorsPayload(formErrors))]
    {
      var errors := OrderErrors(order);
      formErrors := errors;
      log := log + [Event(FormErrorsChange, ErrorsPayload(formErrors))];
      ok := |errors| == 0;
    }

    /** `validateContacts`: rebuilds the errors from scratch; true iff email and phone are both set. */
    method ValidateContacts() returns (ok: bool)
      modifies this`formErrors, this`log
      ensures formErrors == ContactsErrors(order)
      ensures formErrors.Keys == (if order.email == "" then {Email} else {})
                               + (if order.phone == "" then {Phone} else {})
      ensures ok <==> order.email != "" && order.phone != ""
      ensures log == old(log) + [Event(FormErrorsChange, ErrorsPayload(formErrors))]
    {
      var errors := ContactsErrors(order);
      formErrors := errors;
      log := log + [Event(FormErrorsChange, ErrorsPayload(formErrors))];
      ok := |errors| == 0;
    }
  }

  /** Validating twice with no edit in between gives the same answer and the same errors. */
  method RevalidateIsStable(s: AppState) returns (first: bool, second: bool)
    modifies s`formErrors, s`log
    ensures first == second
    ensures s.formErrors == OrderErrors(old(s.order))
  {
    first := s.ValidateOrder();
    var afterFirst := s.formErrors;
    second := s.ValidateOrder();
    assert s.formErrors == afterFirst;
  }

  /** Setting the address and then clearing it leaves the errors an empty address gives. */
  method AddressRoundTrip(s: AppState, x: string)
    modifies s`order, s`formErrors, s`log
    ensures s.order == old(s.order).(address := "")
    ensures Address in s.formErrors
    ensures s.formErrors == OrderErrors(old(s.order).(address := ""))
  {
    s.SetOrderField(Address, x);
    s.SetOrderField(Address, "");
  }

  /** A catalog with a priced and a priceless product: the state itself does not reject the
      priceless one, it just adds 0, and clearing resets the computed total but not the stored one. */
  method PricelessScenario() returns (withA: int, withB: int, cleared: int, stored: int)
    ensures withA == 100 && withB == 100 && cleared == 0 && stored == 100
  {
    var a := ProductItem("a", "A", "other", "/a.svg", Some(100), "");
    var b := ProductItem("b", "B", "other", "/b.svg", None, "");
    var s := new AppState();
    s.SetCatalog([a, b]);
    s.AddProductToBasket(a);
    s.AddToOrder(a);
    assert ItemPrice([a, b], "a") == 100 by { ItemPriceIsFirstMatch([a, b], "a", 0); }
    withA := s.GetTotal();
    s.AddProductToBasket(b);
    s.AddToOrder(b);
    assert ItemPrice([a, b], "b") == 0 by { ItemPriceIsFirstMatch([a, b], "b", 1); }
    withB := s.GetTotal();
    s.SetTotal(withB);
    s.ClearBasket();
    cleared := s.GetTotal();
    stored := s.order.total;
  }
}
