/**
 * What the state objects hand to the event bus. The bus itself lives in
 * files outside this model; each emit becomes one entry appended to a log.
 */
module Events {
  import opened Types

  /** The payload shapes the state objects send. */
  datatype Payload =
    | NoPayload
    | ProductPayload(product: ProductItem)
    | IdPayload(id: string)
    | CatalogPayload(catalog: seq<ProductItem>)
    | PaymentPayload(payment: string)
    | TotalPayload(total: int)
    | ErrorsPayload(errors: FormErrors)
    | OrderPayload(order: Order)

  /** One emitted event: its name and its payload. */
  datatype Event = Event(name: string, payload: Payload)

  const TotalUpdated := "order:totalUpdated"
  const BasketCleared := "basket:cleared"
  const OrderItemAdded := "order:itemAdded"
  const OrderItemRemoved := "order:itemRemoved"
  const CatalogUpdated := "catalog:updated"
  const PreviewUpdated := "preview:updated"
  const BasketItemAdded := "basket:itemAdded"
  const BasketItemRemoved := "basket:itemRemoved"
  const PaymentUpdated := "order:paymentUpdated"
  const OrderReady := "order:ready"
  const FormErrorsChange := "formErrors:change"
  // names used only by the earlier AppData draft
  const ItemsChanged := "items:changed"
  const PreviewChanged := "preview:changed"
}
