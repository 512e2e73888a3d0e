/** The company's token purchase dialog: the quantity field, the checks before
    a payment intent is requested, the intent id taken from Stripe's client
    secret, and the two steps "select" and "payment".  Stripe's own widgets
    and calls are inputs: the intent the server created, the result of
    confirming the card. */
module TokenPurchase {
  import opened Wrappers
  import opened Text

  const PricePerTokenCop: int := 12000
  const MinTokens: int := 1
  const MaxTokens: int := 100
  const SecretMarker: string := "_secret_"

  /** The quantity field: the empty string or a parsed number. */
  datatype QuantityField = Blank | Number(n: int)

  /** `onChange`: "" and "0" empty the field; any other text that `parseInt`
      reads replaces the number; text it cannot read is ignored. */
  function OnQuantityChange(field: QuantityField, value: string): (f: QuantityField)
    ensures value == "" || value == "0" ==> f == Blank
    ensures value != "" && value != "0" && ParseInt(value).Int? ==> f == Number(ParseInt(value).value)
    ensures value != "" && value != "0" && ParseInt(value).NaN? ==> f == field
  {
    if value == "" || value == "0" then Blank
    else match ParseInt(value)
      case Int(n) => Number(n)
      case NaN => field
  }

  /** `onBlur`: an empty or "0" field becomes 1. */
  function OnQuantityBlur(field: QuantityField, value: string): (f: QuantityField)
    ensures value == "" || value == "0" ==> f == Number(1)
    ensures value != "" && value != "0" ==> f == field
  {
    if value == "" || value == "0" then Number(1) else field
  }

  /** `parseInt(cantidadTokens) || 0`: an empty field counts as 0. */
  function QuantityOf(field: QuantityField): (q: int)
    ensures field.Blank? ==> q == 0
    ensures field.Number? ==> q == field.n
  {
    match field
    case Blank => 0
    case Number(n) => n
  }

  /** The quantity accepted before requesting an intent. */
  predicate ValidQuantity(q: int) {
    MinTokens <= q <= MaxTokens
  }

  /** The displayed total in COP, an empty field counting as 0. */
  function TotalCop(field: QuantityField): (total: int)
    ensures total == QuantityOf(field) * PricePerTokenCop
  {
    QuantityOf(field) * PricePerTokenCop
  }

  /** Every quantity that passes the check costs between 12 000 and
      1 200 000 COP; a blank field shows a total of 0 and never passes. */
  lemma ValidQuantityTotals(field: QuantityField)
    ensures ValidQuantity(QuantityOf(field)) ==> 12000 <= TotalCop(field) <= 1200000
    ensures field.Blank? ==> TotalCop(field) == 0 && !ValidQuantity(QuantityOf(field))
  {
  }

  /** Typing "" or "0" and leaving the field always leaves a valid quantity of 1. */
  lemma ZeroThenBlurIsOne(field: QuantityField, typed: string)
    requires typed == "" || typed == "0"
    ensures var f := OnQuantityBlur(OnQuantityChange(field, typed), "");
            f == Number(1) && ValidQuantity(QuantityOf(f))
  {
  }

  /** Typing a number in range keeps it as the quantity. */
  lemma TypedNumberKept(field: QuantityField, n: nat)
    requires 1 <= n <= 100
    ensures OnQuantityChange(field, NatToString(n)) == Number(n)
  {
    ParseIntOfNatToString(n);
  }

  /** `clientSecret.split("_secret_")[0]`: the text before the first marker,
      or the whole secret when it has none. */
  function IntentIdOf(clientSecret: string): (id: string)
    ensures id <= clientSecret
    ensures !Contains(clientSecret, SecretMarker) ==> id == clientSecret
  {
    BeforeFirst(clientSecret, SecretMarker)
  }

  /** A client secret of the form `<id>_secret_<rest>` gives back `<id>`,
      provided no marker starts inside `<id>` (which only an id holding
      "_secret_", or ending in "_secret", would allow). */
  lemma IntentIdOfSecret(id: string, rest: string)
    requires !Contains(id + "_secret", SecretMarker)
    ensures IntentIdOf(id + SecretMarker + rest) == id
  {
    var s := id + SecretMarker + rest;
    var p := id + "_secret";
    assert OccursAt(s, SecretMarker, |id|) by {
      assert s[|id|..] == SecretMarker + rest;
    }
    forall j | 0 <= j < |id|
      ensures !OccursAt(s, SecretMarker, j)
    {
      assert !OccursAt(p, SecretMarker, j);
      assert j + |SecretMarker| <= |p|;
      assert p[j..j + |SecretMarker|] == s[j..j + |SecretMarker|];
    }
    assert IndexOf(s, SecretMarker) == Some(|id|);
  }

  datatype Step = Select | Payment

  /** What the server returned for the intent request; `None` when it failed. */
  datatype IntentResponse = IntentResponse(clientSecret: string, monto: int)

  const InvalidQuantity: string := "Cantidad de tokens inválida (1-100)"
  const RequestFailed: string := "Error al procesar la solicitud"

  class PurchaseDialog {
    var cantidadTokens: QuantityField
    var clientSecret: string
    var paymentIntentId: string
    var monto: int
    var loading: bool
    var step: Step

    constructor ()
      ensures cantidadTokens == Number(1) && clientSecret == "" && paymentIntentId == ""
      ensures monto == 0 && !loading && step == Select
    {
      cantidadTokens, clientSecret, paymentIntentId := Number(1), "", "";
      monto, loading, step := 0, false, Select;
    }

    method ChangeQuantity(value: string)
      modifies this
      ensures cantidadTokens == OnQuantityChange(old(cantidadTokens), value)
      ensures clientSecret == old(clientSecret) && paymentIntentId == old(paymentIntentId)
      ensures monto == old(monto) && loading == old(loading) && step == old(step)
    {
      if value == "" || value == "0" {
        cantidadTokens := Blank;
      } else {
        var num := ParseInt(value);
        if num.Int? {
          cantidadTokens := Number(num.value);
        }
      }
    }

    method BlurQuantity(value: string)
      modifies this
      ensures cantidadTokens == OnQuantityBlur(old(cantidadTokens), value)
      ensures clientSecret == old(clientSecret) && paymentIntentId == old(paymentIntentId)
      ensures monto == old(monto) && loading == old(loading) && step == old(step)
    {
      if value == "" || value == "0" {
        cantidadTokens := Number(1);
      }
    }

    /** `handleContinue`: the quantity check, then the intent request;
        `response` is the server's answer to it.  Returns the quantity
        requested, if any, and the alert shown, if any. */
    method Continue(response: Option<IntentResponse>) returns (requested: Option<int>, alert: Option<string>)
      modifies this
      ensures requested.Some? <==> ValidQuantity(QuantityOf(old(cantidadTokens)))
      ensures requested.Some? ==> requested.value == QuantityOf(old(cantidadTokens))
      ensures requested.None? ==> alert == Some(InvalidQuantity)
      ensures requested.Some? && response.None? ==> alert == Some(RequestFailed)
      ensures if requested.Some? && response.Some? then
                alert.None? && step == Payment &&
                clientSecret == response.value.clientSecret &&
                paymentIntentId == IntentIdOf(response.value.clientSecret) &&
                monto == response.value.monto
              else
                step == old(step) && clientSecret == old(clientSecret) &&
                paymentIntentId == old(paymentIntentId) && monto == old(monto)
      ensures loading == (if requested.Some? then false else old(loading))
      ensures cantidadTokens == old(cantidadTokens)
    {
      var cantidad := QuantityOf(cantidadTokens);
      if cantidad < MinTokens || cantidad > MaxTokens {
        return None, Some(InvalidQuantity);
      }
      loading := true;
      requested := Some(cantidad);
      if response.Some? {
        clientSecret := response.value.clientSecret;
        paymentIntentId := BeforeFirst(response.value.clientSecret, SecretMarker);
        monto := response.value.monto;
        step := Payment;
        alert := None;
      } else {
        alert := Some(RequestFailed);
      }
      loading := false;
    }

    /** The checkout form's "Cancelar". */
    method Cancel()
      modifies this
      ensures step == Select
      ensures cantidadTokens == old(cantidadTokens) && clientSecret == old(clientSecret)
      ensures paymentIntentId == old(paymentIntentId) && monto == old(monto) && loading == old(loading)
    {
      step := Select;
    }
  }

  // ---------------------------------------------------------------------
  // CheckoutForm.handleSubmit

  /** What `stripe.confirmPayment` resolved to. */
  datatype CardResult =
    | CardError(message: string)
    | CardIntent(id: string, status: string)
    | NoIntent

  const PaidMessage: string := "¡Pago exitoso! Tus tokens han sido acreditados."
  const PaidNotCredited: string := "Pago exitoso pero hubo un error al acreditar tokens. Contáctanos."

  /** The backend confirmation requested (the intent id), the message shown
      and whether the form stays busy. */
  datatype CheckoutOutcome = CheckoutOutcome(confirm: Option<string>, message: Option<string>, loading: bool)

  /** With Stripe not loaded nothing happens; otherwise the backend is asked
      to confirm only an intent Stripe reports as "succeeded".  After a
      success the form stays busy until the dialog closes. */
  function CheckoutSubmit(ready: bool, loading: bool, message: Option<string>, card: CardResult, backendOk: bool): (o: CheckoutOutcome)
    ensures o.confirm.Some? <==> ready && card.CardIntent? && card.status == "succeeded"
    ensures o.confirm.Some? ==> o.confirm.value == card.id
    ensures ready && card.CardError? ==> o == CheckoutOutcome(None, Some(card.message), false)
    ensures o.confirm.Some? ==> o.message == Some(if backendOk then PaidMessage else PaidNotCredited) && o.loading == backendOk
    ensures !ready ==> o == CheckoutOutcome(None, message, loading)
  {
    if !ready then CheckoutOutcome(None, message, loading)
    else match card
      case CardError(m) => CheckoutOutcome(None, Some(m), false)
      case CardIntent(id, status) =>
        if status == "succeeded" then
          CheckoutOutcome(Some(id), Some(if backendOk then PaidMessage else PaidNotCredited), backendOk)
        else CheckoutOutcome(None, None, true)
      case NoIntent => CheckoutOutcome(None, None, true)
  }
}
