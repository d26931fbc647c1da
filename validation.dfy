/**
 * The validation passes. Each builds a fresh errors map from the current
 * order: a key is present exactly when its field is the empty string.
 * The message texts are fixed constants; only the keys carry meaning.
 */
module Validation {
  import opened Types

  const AddressRequired := "Необходимо указать адрес"
  const PaymentRequired := "Необходимо выбрать способ оплаты"
  const EmailRequired := "Необходимо указать email"
  const PhoneRequired := "Необходимо указать телефон"

  /** The errors of the delivery form: address and payment are required. */
  function OrderErrors(o: Order): (errors: FormErrors)
    ensures errors.Keys <= {Address, Payment}
    ensures Address in errors <==> o.address == ""
    ensures Payment in errors <==> o.payment == ""
    ensures Address in errors ==> errors[Address] == AddressRequired
    ensures Payment in errors ==> errors[Payment] == PaymentRequired
    ensures |errors| == 0 <==> o.address != "" && o.payment != ""
  {
    var a: FormErrors := if o.address == "" then map[Address := AddressRequired] else map[];
    var e := if o.payment == "" then a[Payment := PaymentRequired] else a;
    assert Address in e ==> |e| > 0;
    assert Payment in e ==> |e| > 0;
    e
  }

  /** The errors of the contacts form: email and phone are required. */
  function ContactsErrors(o: Order): (errors: FormErrors)
    ensures errors.Keys <= {Email, Phone}
    ensures Email in errors <==> o.email == ""
    ensures Phone in errors <==> o.phone == ""
    ensures Email in errors ==> errors[Email] == EmailRequired
    ensures Phone in errors ==> errors[Phone] == PhoneRequired
    ensures |errors| == 0 <==> o.email != "" && o.phone != ""
  {
    var m: FormErrors := if o.email == "" then map[Email := EmailRequired] else map[];
    var e := if o.phone == "" then m[Phone := PhoneRequired] else m;
    assert Email in e ==> |e| > 0;
    assert Phone in e ==> |e| > 0;
    e
  }

  /** The draft's delivery-form errors: only the address is checked. */
  function AddressErrors(o: Order): (errors: FormErrors)
    ensures errors.Keys <= {Address}
    ensures Address in errors <==> o.address == ""
    ensures Address in errors ==> errors[Address] == AddressRequired
    ensures |errors| == 0 <==> o.address != ""
  {
    var e: FormErrors := if o.address == "" then map[Address := AddressRequired] else map[];
    assert Address in e ==> |e| > 0;
    e
  }

  /** The delivery-form errors read only the address and the payment: edits elsewhere
      (contacts, items, total) leave them as they were. */
  lemma OrderErrorsReadOnlyFormFields(o: Order, o': Order)
    requires o.address == o'.address && o.payment == o'.payment
    ensures OrderErrors(o) == OrderErrors(o')
  {
  }
}
