/** The payment-processor record: a stored document with one slot per
    provider, a `default` provider name checked against `PAYMENT_PROCESSORS`,
    a creation time, the `toObject` transform, and the record methods that
    delegate to the bound adapter.  The adapter a record uses (`this.adapter`)
    is not defined in the file, so its answers are passed in as outcomes.
    `Raw` stands for the schema's `Mixed` slot values. */
module PaymentProcessor {
  import opened Errors
  import opened Utils
  import opened Adapters
  import StripeAdapter

  /** a stored document; each provider slot is an array, as the schema declares it */
  datatype Document<Raw> = Document(
    id: string,
    stripe: seq<Raw>,
    braintree: seq<Raw>,
    heroku: seq<Raw>,
    defaultName: string,
    created: int)

  /** a value the schema accepts, or the validation error it refuses it with */
  datatype Checked<+T> = Accepted(value: T) | Refused(error: Failure)

  // ---------------------------------------------------------------------
  // Slots
  // ---------------------------------------------------------------------

  /** the slot getter `v => v[0]`; reading an empty array gives `undefined` */
  function UnwrapSlot<Raw>(stored: seq<Raw>): (r: Option<Raw>)
    ensures r.Some? <==> |stored| > 0
    ensures r.Some? ==> r.value == stored[0]
  {
    if |stored| > 0 then Some(stored[0]) else None
  }

  /** the slot setter `v => [v]`: what it stores reads back as `v` */
  function WrapSlot<Raw>(v: Raw): (stored: seq<Raw>)
    ensures |stored| == 1
    ensures UnwrapSlot(stored) == Some(v)
  {
    [v]
  }

  function Slot<Raw>(doc: Document<Raw>, v: Variant): seq<Raw> {
    match v
    case Stripe => doc.stripe
    case Braintree => doc.braintree
    case Heroku => doc.heroku
  }

  /** reading `doc.stripe`, `doc.braintree` or `doc.heroku` */
  function Get<Raw>(doc: Document<Raw>, v: Variant): Option<Raw> {
    UnwrapSlot(Slot(doc, v))
  }

  /** assigning `doc.stripe`, `doc.braintree` or `doc.heroku`: the slot read
      back gives the value, and nothing else of the document changes */
  function Set<Raw>(doc: Document<Raw>, v: Variant, value: Raw): (r: Document<Raw>)
    ensures Get(r, v) == Some(value)
    ensures forall w :: w != v ==> Slot(r, w) == Slot(doc, w)
    ensures r.id == doc.id && r.defaultName == doc.defaultName && r.created == doc.created
  {
    var stored := WrapSlot(value);
    match v
    case Stripe => doc.(stripe := stored)
    case Braintree => doc.(braintree := stored)
    case Heroku => doc.(heroku := stored)
  }

  // ---------------------------------------------------------------------
  // The `default` path and new documents
  // ---------------------------------------------------------------------

  /** the enum of the `default` path: the values of `PAYMENT_PROCESSORS` */
  function DefaultEnum(): seq<string> {
    ProcessorNamesAreVariants();
    KeysOf(PaymentProcessors)
  }

  /** The `default` path: `PAYMENT_PROCESSORS.STRIPE` when omitted, otherwise
      the given value if the enum lists it, else the enum validator's error. */
  function DefaultName(given: Option<string>): (r: Checked<string>)
    ensures given.None? ==> r == Accepted(Name(Stripe))
    ensures given.Some? ==> (r.Accepted? <==> VariantNamed(given.value).Some?)
    ensures given.Some? && r.Accepted? ==> r.value == given.value
    ensures r.Accepted? ==> VariantNamed(r.value).Some?
    ensures r.Refused? ==> r.error == EnumValidationError("default", given.value)
  {
    ProcessorNamesAreVariants();
    match given
    case None => Accepted(PaymentProcessors.props["STRIPE"])
    case Some(name) =>
      if name in DefaultEnum() then Accepted(name) else Refused(EnumValidationError("default", name))
  }

  /** A new document as the schema builds it: empty slots, `default` as
      given or `PAYMENT_PROCESSORS.STRIPE` when omitted, and `created` set to
      the clock's `now`.  Building checks nothing; the enum is checked when
      the document is validated. */
  function NewDocument<Raw>(id: string, given: Option<string>, now: int): (doc: Document<Raw>)
    ensures doc.id == id && doc.created == now
    ensures forall v :: Get(doc, v) == None
    ensures given.None? ==> doc.defaultName == Name(Stripe)
    ensures given.Some? ==> doc.defaultName == given.value
  {
    var name := match given
      case None => PaymentProcessors.props["STRIPE"]
      case Some(n) => n;
    Document(id, [], [], [], name, now)
  }

  /** Validating a document (on `validate` or `save`): the enum validator of
      the `default` path refuses a value `PAYMENT_PROCESSORS` does not list. */
  function ValidationError<Raw>(doc: Document<Raw>): (r: Option<Failure>)
    ensures r.None? <==> VariantNamed(doc.defaultName).Some?
    ensures r.Some? ==> r.value == EnumValidationError("default", doc.defaultName)
  {
    match DefaultName(Some(doc.defaultName))
    case Accepted(_) => None
    case Refused(e) => Some(e)
  }

  /** A new document passes validation exactly when its `default` path
      accepts what was given; an omitted `default` always passes. */
  lemma NewDocumentValidates<Raw>(id: string, given: Option<string>, now: int)
    ensures ValidationError(NewDocument<Raw>(id, given, now)).None? <==> DefaultName(given).Accepted?
    ensures given.None? ==> ValidationError(NewDocument<Raw>(id, given, now)).None?
  {
    ProcessorNamesAreVariants();
  }

  // ---------------------------------------------------------------------
  // toObject
  // ---------------------------------------------------------------------

  /** the keys the `toObject` transform deletes */
  const InternalKeys: set<string> := {"__v", "_id", "rawData", "data", "adapter"}

  /** the plain object the transform works on */
  class PlainObject<V> {
    var fields: map<string, V>

    constructor (fields: map<string, V>)
      ensures this.fields == fields
    {
      this.fields := fields;
    }
  }

  /** the fields that survive the transform */
  function WithoutInternalKeys<V>(fields: map<string, V>): (r: map<string, V>)
    ensures forall k :: k in r <==> k in fields && k !in InternalKeys
    ensures forall k :: k in r ==> r[k] == fields[k]
  {
    fields - InternalKeys
  }

  /** The transform is idempotent: a second pass removes nothing more. */
  lemma WithoutInternalKeysIdempotent<V>(fields: map<string, V>)
    ensures WithoutInternalKeys(WithoutInternalKeys(fields)) == WithoutInternalKeys(fields)
  {
  }

  /** the `toObject` transform: delete the internal keys from `ret`, one after another */
  method TransformToObject<V>(ret: PlainObject<V>)
    modifies ret
    ensures ret.fields == WithoutInternalKeys(old(ret.fields))
  {
    ret.fields := ret.fields - {"__v"};
    ret.fields := ret.fields - {"_id"};
    ret.fields := ret.fields - {"rawData"};
    ret.fields := ret.fields - {"data"};
    ret.fields := ret.fields - {"adapter"};
  }

  // ---------------------------------------------------------------------
  // Record methods
  // ---------------------------------------------------------------------

  /** how the store answers `remove` */
  datatype StoreReply = Stored | StoreFailed(message: string)

  /** the stored documents, by `_id` */
  class Collection<Raw> {
    var documents: map<string, Document<Raw>>

    constructor ()
      ensures documents == map[]
    {
      documents := map[];
    }

    /** `delete`: ask the adapter to delete first; only once that succeeds
        is the document removed, and the promise ends as `remove` does.  An
        adapter failure is passed on and the document stays. */
    method Delete<X>(doc: Document<Raw>, adapterDelete: Outcome<X>, removal: StoreReply)
      returns (r: Outcome<Document<Raw>>)
      modifies this
      ensures r.Resolved? <==> adapterDelete.Resolved? && removal.Stored?
      ensures r.Resolved? ==> r.value == doc && documents == old(documents) - {doc.id}
      ensures !r.Resolved? ==> documents == old(documents)
      ensures adapterDelete.Rejected? ==> r == Rejected(adapterDelete.reason)
      ensures adapterDelete.Pending? ==> r == Pending(adapterDelete.escaped)
      ensures adapterDelete.Resolved? && removal.StoreFailed? ==> r == Rejected(StoreError(removal.message))
    {
      match adapterDelete
      case Rejected(reason) => r := Rejected(reason);
      case Pending(escaped) => r := Pending(escaped);
      case Resolved(_) =>
        match removal
        case StoreFailed(message) => r := Rejected(StoreError(message));
        case Stored =>
          documents := documents - {doc.id};
          r := Resolved(doc);
    }
  }

  /** `addPaymentMethod`: resolve with the record itself once the adapter has
      added the method; pass on the adapter's failure otherwise. */
  function AddPaymentMethod<Raw, X>(doc: Document<Raw>, adapterAdd: Outcome<X>): (r: Outcome<Document<Raw>>)
    ensures r.Resolved? <==> adapterAdd.Resolved?
    ensures r.Resolved? ==> r.value == doc
    ensures adapterAdd.Rejected? ==> r == Rejected(adapterAdd.reason)
    ensures adapterAdd.Pending? ==> r == Pending(adapterAdd.escaped)
  {
    match adapterAdd
    case Resolved(_) => Resolved(doc)
    case Rejected(reason) => Rejected(reason)
    case Pending(escaped) => Pending(escaped)
  }

  const MustProvideEmail := "Must provide valid email"

  /** The first check of `getPaymentProcessor`: a missing or empty email is
      answered by returning (not throwing) a BadRequestError.  `None` means
      the call goes on past the check. */
  function GetPaymentProcessorEmailCheck(email: Option<string>): (r: Option<Failure>)
    ensures r.Some? <==> email.None? || email.value == ""
    ensures r.Some? ==> r.value == BadRequestError(MustProvideEmail)
  {
    if email.None? || email.value == "" then Some(BadRequestError(MustProvideEmail)) else None
  }

  // ---------------------------------------------------------------------
  // A record bound to the Stripe adapter
  // ---------------------------------------------------------------------

  /** Deleting a record whose adapter is the Stripe one: the document leaves
      the collection exactly when a processor is bound, the gateway confirms
      the customer deleted and the store removes it. */
  method DeleteWithStripe<Raw>(
    records: Collection<Raw>, doc: Document<Raw>,
    stripe: StripeAdapter.StripeModule, reply: Reply<StripeAdapter.DeleteConfirmation>, removal: StoreReply)
    returns (r: Outcome<Document<Raw>>)
    modifies records
    ensures doc.id !in old(records.documents) ==> records.documents == old(records.documents)
    ensures r.Resolved? <==> stripe.Bound() && reply.Ok? && reply.payload.deleted && removal.Stored?
    ensures r.Resolved? ==> records.documents == old(records.documents) - {doc.id}
    ensures !r.Resolved? ==> records.documents == old(records.documents)
    ensures !stripe.Bound() ==> r == Rejected(TypeError(CannotReadOfUndefined))
    ensures stripe.Bound() && reply.Err? ==> r == Rejected(StripeAdapter.Classify(reply.error))
  {
    var step := stripe.Delete(reply);
    r := records.Delete(doc, step.outcome, removal);
  }

  /** Adding a payment method through the Stripe adapter: the record resolves
      unchanged, while the processor bound when the gateway has answered
      (`atCallback`) now carries the fetched customer.  (The adapter's
      synchronous throw, with nothing bound, is shown here as a rejection of
      the record's promise.) */
  method AddPaymentMethodWithStripe<Raw>(
    doc: Document<Raw>, stripe: StripeAdapter.StripeModule, token: string,
    created: Reply<()>, retrieved: Reply<StripeAdapter.Customer>, atCallback: StripeAdapter.StripeProcessor?)
    returns (r: Outcome<Document<Raw>>)
    modifies stripe, stripe.stripeProcessor, atCallback
    ensures r.Resolved? <==> old(stripe.Bound()) && created.Ok? && retrieved.Ok? && atCallback != null
    ensures r.Resolved? ==> r.value == doc && atCallback.customer == retrieved.payload
    ensures !old(stripe.Bound()) ==> r == Rejected(TypeError(CannotReadOfUndefined))
    ensures old(stripe.Bound()) && created.Ok? && retrieved.Ok? && atCallback == null ==>
              r == Pending(TypeError(CannotSetOfUndefined))
    ensures old(stripe.Bound()) && !r.Resolved? ==>
              old(stripe.stripeProcessor).customer == old(stripe.stripeProcessor.customer)
  {
    var step := stripe.AddPaymentMethod(token, created, retrieved, atCallback);
    r := AddPaymentMethod(doc, step.outcome);
  }
}
