/** The payment-processor adapters as one tagged union, with the operations
    each adapter object offers, and the `PAYMENT_PROCESSORS` constant that
    names them.  The constants module is not part of this model: its
    `PAYMENT_PROCESSORS` is taken to map `STRIPE`, `BRAINTREE` and `HEROKU`
    to the slot names the processor schema uses. */
module Adapters {
  import opened Errors
  import opened Utils

  /** one variant per file under payment-processor-adapters/ */
  datatype Variant = Stripe | Braintree | Heroku

  /** the properties of an adapter object that are functions */
  datatype Operation =
    | Register | Delete | Cancel | Validate | AddPaymentMethod | Charge
    | DefaultPaymentMethod | PaymentMethods | SerializeData | ParseData | Add

  /** what each adapter object exports; calling anything else is a TypeError.
      Only Stripe can delete, cancel or validate, and no adapter parses
      stored data back. */
  function Operations(v: Variant): (ops: set<Operation>)
    ensures Delete in ops || Cancel in ops || Validate in ops ==> v == Stripe
    ensures ParseData !in ops
    ensures ops != {}
  {
    match v
    case Stripe =>
      {Register, Delete, Cancel, Validate, AddPaymentMethod, Charge, DefaultPaymentMethod, PaymentMethods}
    case Heroku => {Register, SerializeData}
    case Braintree => {Add}
  }

  /** Only the Stripe adapter can delete, cancel or validate; no adapter can
      parse stored data; Braintree offers `add` and nothing else. */
  lemma OperationsByVariant(v: Variant, op: Operation)
    ensures op in {Delete, Cancel, Validate} && op in Operations(v) ==> v == Stripe
    ensures ParseData !in Operations(v)
    ensures Operations(Braintree) == {Add}
    ensures op in Operations(Heroku) <==> op == Register || op == SerializeData
  {
  }

  /** Stripe and Heroku export a factory that binds a processor; Braintree
      exports its adapter object itself.  The adapters exported through a
      factory are the ones that can register a customer, and the one
      exported directly offers nothing but `add`. */
  function HasFactory(v: Variant): (b: bool)
    ensures b <==> Register in Operations(v)
    ensures !b ==> Operations(v) == {Add}
  {
    v != Braintree
  }

  const PaymentProcessors: JsObject<string> :=
    JsObject(["STRIPE", "BRAINTREE", "HEROKU"],
             map["STRIPE" := "stripe", "BRAINTREE" := "braintree", "HEROKU" := "heroku"])

  /** the `PAYMENT_PROCESSORS` value naming a variant */
  function Name(v: Variant): string {
    match v
    case Stripe => PaymentProcessors.props["STRIPE"]
    case Braintree => PaymentProcessors.props["BRAINTREE"]
    case Heroku => PaymentProcessors.props["HEROKU"]
  }

  /** the variant a `PAYMENT_PROCESSORS` value names */
  function VariantNamed(name: string): (r: Option<Variant>)
    ensures r.Some? ==> Name(r.value) == name
    ensures r.None? ==> forall v :: Name(v) != name
  {
    if name == "stripe" then Some(Stripe)
    else if name == "braintree" then Some(Braintree)
    else if name == "heroku" then Some(Heroku)
    else None
  }

  /** The values of `PAYMENT_PROCESSORS`, listed by `keysOf`, are exactly the
      variants' names. */
  lemma ProcessorNamesAreVariants()
    ensures PaymentProcessors.Valid()
    ensures forall name :: name in KeysOf(PaymentProcessors) <==> VariantNamed(name).Some?
  {
    var values := KeysOf(PaymentProcessors);
    assert values == [Name(Stripe), Name(Braintree), Name(Heroku)];
  }
}
