/**
 * The shapes of src/types/index.ts: a catalog product, the order being
 * assembled and the form-errors mapping.
 */
module Types {
  import opened Wrappers

  /** A catalog entry (IProductItem). A price of `None` is the JSON `null`
      of a "priceless" product; prices are whole numbers here. */
  datatype ProductItem = ProductItem(
    id: string,
    title: string,
    category: string,
    image: string,
    price: Option<nat>,
    description: string)

  /** The keys of an order (keyof IOrder); the keys a FormErrors map may hold. */
  datatype OrderKey = Payment | Address | Email | Phone | Items | Total

  /** The keys of the delivery form (keyof IOrderForm). */
  type OrderFormField = k: OrderKey | k == Payment || k == Address witness Payment

  /** The order in progress (IOrder): the two form parts, the item ids and the total. */
  datatype Order = Order(
    payment: string,
    address: string,
    email: string,
    phone: string,
    items: seq<string>,
    total: int)

  /** Partial<Record<keyof IOrder, string>>: field name to message. */
  type FormErrors = map<OrderKey, string>

  /** The order both state classes start with: payment "card", everything else empty. */
  const InitialOrder: Order := Order("card", "", "", "", [], 0)

  /** `order[field] = value` for a delivery-form field. */
  function WithFormField(o: Order, field: OrderFormField, value: string): (r: Order)
    ensures field == Address ==> r.address == value && r.payment == o.payment
    ensures field == Payment ==> r.payment == value && r.address == o.address
    ensures r.email == o.email && r.phone == o.phone
    ensures r.items == o.items && r.total == o.total
  {
    if field == Address then o.(address := value) else o.(payment := value)
  }
}
