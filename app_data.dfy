/**
 * The earlier draft of the application state, src/components/Appdata.ts:
 * class AppData over a catalog and basket of Product objects, and class
 * Product, which copies the fields of a catalog entry. Unlike AppState, the
 * basket takes duplicates, removal goes by object identity, the delivery
 * form checks only the address, and half of the mutations emit nothing.
 */
module AppDataModel {
  import opened Wrappers
  import opened Types
  import opened Events
  import opened Lookup
  import opened Totals
  import opened Validation

  /** A catalog product as an object; its fields are set once, from the raw entry. */
  class Product {
    const id: string
    const title: string
    const description: string
    const category: string
    const image: string
    const price: Option<nat>

    constructor (data: ProductItem)
      ensures Item() == data
    {
      id := data.id;
      title := data.title;
      description := data.description;
      category := data.category;
      image := data.image;
      price := data.price;
    }

    /** The fields of this product, as a catalog entry. */
    function Item(): ProductItem
    {
      ProductItem(id, title, category, image, price, description)
    }
  }

  /** The entries the products carry, position by position. */
  function Entries(s: seq<Product>): seq<ProductItem>
  {
    seq(|s|, i requires 0 <= i < |s| => s[i].Item())
  }

  class AppData {
    var catalog: seq<Product>
    var preview: string
    var basket: seq<Product>
    var order: Order
    var formErrors: FormErrors
    var log: seq<Event>

    constructor ()
      ensures catalog == [] && preview == "" && basket == []
      ensures order == InitialOrder && formErrors == map[] && log == []
    {
      catalog := [];
      preview := "";
      basket := [];
      order := InitialOrder;
      formErrors := map[];
      log := [];
    }

    /** `clearBasket`: empties the basket and the order's item ids, silently. */
    method ClearBasket()
      modifies this`basket, this`order
      ensures basket == [] && StatusBasket()
      ensures order == old(order).(items := [])
      ensures GetTotal() == 0
    {
      basket := [];
      order := order.(items := []);
    }

    /** `addToOrder`: always appends the id. */
    method AddToOrder(product: Product)
      modifies this`order
      ensures order == old(order).(items := old(order.items) + [product.id])
      ensures GetTotal() == old(GetTotal()) + ItemPrice(Entries(catalog), product.id)
    {
      SumAppend(Entries(catalog), order.items, [product.id]);
      assert SumPrices(Entries(catalog), [product.id]) == ItemPrice(Entries(catalog), product.id) by {
        assert [product.id][1..] == [];
      }
      order := order.(items := order.items + [product.id]);
    }

    /** `removeFromOrder`: drops the first occurrence of the id; a no-op when it is absent. */
    method RemoveFromOrder(product: Product)
      modifies this`order
      ensures product.id !in old(order.items) ==> order == old(order)
      ensures product.id in old(order.items) ==>
        order == old(order).(items := RemoveAt(old(order.items), IndexOf(old(order.items), product.id)))
      ensures multiset(order.items) == multiset(old(order.items)) - multiset{product.id}
      ensures GetTotal() == old(GetTotal()) - if product.id in old(order.items) then ItemPrice(Entries(catalog), product.id) else 0
    {
      var index := IndexOf(order.items, product.id);
      if index != -1 {
        SumRemoveAt(Entries(catalog), order.items, index);
        order := order.(items := RemoveAt(order.items, index));
      }
    }

    /** `setCatalog`: wraps every raw entry in a new Product with the same fields, in order. */
    method SetCatalog(items: seq<ProductItem>)
      modifies this`catalog, this`log
      ensures Entries(catalog) == items
      ensures forall i :: 0 <= i < |catalog| ==> fresh(catalog[i])
      ensures forall i, j :: 0 <= i < j < |catalog| ==> catalog[i] != catalog[j]
      ensures log == old(log) + [Event(ItemsChanged, CatalogPayload(items))]
    {
      var built: seq<Product> := [];
      var i := 0;
      while i < |items|
        invariant 0 <= i <= |items|
        invariant Entries(built) == items[..i]
        invariant forall j :: 0 <= j < |built| ==> fresh(built[j])
        invariant forall j, k :: 0 <= j < k < |built| ==> built[j] != built[k]
        invariant log == old(log)
      {
        var p := new Product(items[i]);
        built := built + [p];
        i := i + 1;
      }
      assert items[..i] == items;
      catalog := built;
      log := log + [Event(ItemsChanged, CatalogPayload(Entries(catalog)))];
    }

    /** `setPreview`: points the preview at the product's id. */
    method SetPreview(product: Product)
      modifies this`preview, this`log
      ensures preview == product.id
      ensures log == old(log) + [Event(PreviewChanged, ProductPayload(product.Item()))]
    {
      preview := product.id;
      log := log + [Event(PreviewChanged, ProductPayload(product.Item()))];
    }

    /** `addProductToBasket`: appends, even when the product is already there. */
    method AddProductToBasket(product: Product)
      modifies this`basket
      ensures basket == old(basket) + [product]
      ensures multiset(basket)[product] == multiset(old(basket))[product] + 1
    {
      basket := basket + [product];
    }

    /** `removeProductFromBasket`: removes the first element that IS this object; a no-op otherwise. */
    method RemoveProductFromBasket(product: Product)
      modifies this`basket
      ensures product !in old(basket) ==> basket == old(basket)
      ensures product in old(basket) ==> basket == RemoveAt(old(basket), IndexOf(old(basket), product))
      ensures multiset(basket) == multiset(old(basket)) - multiset{product}
    {
      var index := IndexOf(basket, product);
      if index != -1 {
        basket := RemoveAt(basket, index);
      }
    }

    /** The `statusBasket` getter: whether the basket is empty. */
    function StatusBasket(): (r: bool)
      reads this`basket
      ensures r <==> basket == []
    {
      |basket| == 0
    }

    /** The `total` setter: stores the value, silently. */
    method SetTotal(value: int)
      modifies this`order
      ensures order == old(order).(total := value)
    {
      order := order.(total := value);
    }

    /** `getTotal`: the fold over the order's item ids against the products' prices. */
    function GetTotal(): (r: int)
      reads this`catalog, this`order
      ensures r == SumPrices(Entries(catalog), order.items)
      ensures r >= 0
    {
      FoldTotal(Entries(catalog), 0, order.items)
    }

    /** `setOrderField`: writes one delivery-form field, revalidates the address, signals readiness. */
    method SetOrderField(field: OrderFormField, value: string)
      modifies this`order, this`formErrors, this`log
      ensures order == WithFormField(old(order), field, value)
      ensures formErrors == AddressErrors(order)
      ensures log == old(log) + [Event(FormErrorsChange, ErrorsPayload(formErrors))]
                    + if order.address != "" then [Event(OrderReady, OrderPayload(order))] else []
    {
      order := WithFormField(order, field, value);
      var ok := ValidateOrder();
      if ok {
        log := log + [Event(OrderReady, OrderPayload(order))];
      }
    }

    /** `setContactsField`: declared over the delivery-form keys, it writes that field and then
        runs the contacts check. */
    method SetContactsField(field: OrderFormField, value: string)
      modifies this`order, this`formErrors, this`log
      ensures order == WithFormField(old(order), field, value)
      ensures order.email == old(order.email) && order.phone == old(order.phone)
      ensures formErrors == ContactsErrors(order)
      ensures log == old(log) + [Event(FormErrorsChange, ErrorsPayload(formErrors))]
                    + if order.email != "" && order.phone != ""
                      then [Event(OrderReady, OrderPayload(order))] else []
    {
      order := WithFormField(order, field, value);
      var ok := ValidateContacts();
      if ok {
        log := log + [Event(OrderReady, OrderPayload(order))];
      }
    }

    /** `validateOrder`: rebuilds the errors from scratch; true iff the address is set. */
    method ValidateOrder() returns (ok: bool)
      modifies this`formErrors, this`log
      ensures formErrors == AddressErrors(order)
      ensures formErrors.Keys == if order.address == "" then {Address} else {}
      ensures ok <==> order.address != ""
      ensures log == old(log) + [Event(FormErrorsChange, ErrorsPayload(formErrors))]
    {
      var errors := AddressErrors(order);
      formErrors := errors;
      log := log + [Event(FormErrorsChange, ErrorsPayload(formErrors))];
      ok := |errors| == 0;
    }

    /** `validateContacts`: rebuilds the errors from scratch; true iff email and phone are both set. */
    method ValidateContacts() returns (ok: bool)
      modifies this`formErrors, this`log
      ensures formErrors == ContactsErrors(order)
      ensures formErrors.Keys == (if order.email == "" then {Email} else {})
                               + (if order.phone == "" then {Phone} else {})
      ensures ok <==> order.email != "" && order.phone != ""
      ensures log == old(log) + [Event(FormErrorsChange, ErrorsPayload(formErrors))]
    {
      var errors := ContactsErrors(order);
      formErrors := errors;
      log := log + [Event(FormErrorsChange, ErrorsPayload(formErrors))];
      ok := |errors| == 0;
    }
  }

  /** The draft basket keeps duplicates, and removal goes by identity: a different object
      with the same fields is not removed, the same object is removed once. */
  method DraftBasketScenario() returns (afterTwoAdds: nat, afterCopyRemoved: nat, afterRemoved: nat)
    ensures afterTwoAdds == 2 && afterCopyRemoved == 2 && afterRemoved == 1
  {
    var entry := ProductItem("a", "A", "other", "/a.svg", Some(100), "");
    var d := new AppData();
    d.SetCatalog([entry]);
    var p := d.catalog[0];
    d.AddProductToBasket(p);
    d.AddProductToBasket(p);
    afterTwoAdds := |d.basket|;
    var copy := new Product(p.Item());
    d.RemoveProductFromBasket(copy);
    afterCopyRemoved := |d.basket|;
    d.RemoveProductFromBasket(p);
    afterRemoved := |d.basket|;
  }

  /** The draft delivery form accepts an empty payment: only the address is required. */
  method DraftPaymentNotChecked() returns (ready: bool, paymentError: bool)
    ensures ready && !paymentError
  {
    var d := new AppData();
    d.SetOrderField(Payment, "");
    d.SetOrderField(Address, "Addr");
    ready := d.ValidateOrder();
    paymentError := Payment in d.formErrors;
  }
}
