/** The Stripe adapter.  The module keeps one variable, `stripeProcessor`, and
    exports a factory that assigns it and hands back the single shared adapter
    object; every adapter operation reads the customer of whatever processor
    was bound last.

    Each gateway call is replaced by its answer, passed in as a `Reply`; each
    operation returns the calls it would send (`Step.sent`) and how its promise
    ends (`Step.outcome`).  `STRIPE_PLAN_ID` comes from the constants module,
    which is not part of this model: it is the module's `planId`. */
module StripeAdapter {
  import opened Errors
  import Utils

  datatype Subscription = Subscription(id: string, planId: string)

  datatype Source = Source(id: string, brand: string, last4: string)

  /** a customer as the gateway returns it; `subscriptions` and `sources` are
      the `data` arrays of its two lists */
  datatype Customer = Customer(id: string, subscriptions: seq<Subscription>, sources: seq<Source>)

  /** `{id, merchant, lastFour}` */
  datatype MethodSummary = MethodSummary(id: string, merchant: string, lastFour: string)

  /** what `new Date().getDate()` can return */
  type DayOfMonth = d: int | 1 <= d <= 31 witness 1

  /** `{customer, billingDate}` */
  datatype Registration = Registration(customer: Customer, billingDate: DayOfMonth)

  datatype DeleteConfirmation = DeleteConfirmation(deleted: bool)

  datatype CancelConfirmation = CancelConfirmation(subscriptionId: string, status: string)

  /** the gateway calls the adapter makes, with the arguments it passes */
  datatype GatewayRequest =
    | CreateCustomer(source: string, plan: string, email: string)
    | DeleteCustomer(customerId: string)
    | CancelSubscription(subscriptionId: string)
    | CreateSource(customerId: string, token: string)
    | RetrieveCustomer(customerId: string)

  /** the gateway calls sent, in order, and how the returned promise ends */
  datatype Step<+T> = Step(sent: seq<GatewayRequest>, outcome: Outcome<T>)

  const InvalidEmail := "Invalid email"
  const DeleteSucceeded := "User successfully deleted"
  const Canceled := "canceled"
  const UnknownPlan := "Customer is subscribed to unknown plan!"
  const MoreThanOneSubscription := "Customer has more than one stripe subscription!"
  const NoSubscriptions := "Customer has no stripe subscriptions"
  const UnknownError := "Unknown error"
  const ChargeNotImplemented := "stripe charge method not yet implemented"

  /** How `delete` and `cancel` reject on a gateway error: a 404 is the
      caller's fault, anything else the service's; the message is kept. */
  function Classify(e: GatewayError): (f: Failure)
    ensures f.BadRequestError? <==> e.statusCode == 404
    ensures f.BadRequestError? || f.InternalError?
    ensures f.message == e.message
  {
    if e.statusCode == 404 then BadRequestError(e.message) else InternalError(e.message)
  }

  function Summary(source: Source): MethodSummary {
    MethodSummary(source.id, source.brand, source.last4)
  }

  /** `validate` as written: `subscriptions` already is the `data` array, so
      `subscriptions.data` is `undefined` and indexing it throws inside the
      promise executor, whatever the customer holds. */
  function CheckSubscriptionsAsWritten(subscriptions: seq<Subscription>, planId: string): (r: Outcome<bool>)
    ensures r == Rejected(TypeError(CannotReadOfUndefined))
  {
    Rejected(TypeError(CannotReadOfUndefined))
  }

  /** `validate` reading the plan of the first subscription.  The plan is
      checked before the count; with no subscription the first element is
      `undefined` and reading its plan throws, so the "no subscriptions" and
      "unknown error" branches are never reached. */
  function CheckSubscriptions(subscriptions: seq<Subscription>, planId: string): (r: Outcome<bool>)
    ensures r.Resolved? <==> |subscriptions| == 1 && subscriptions[0].planId == planId
    ensures r.Resolved? ==> r.value
    ensures |subscriptions| == 0 ==> r == Rejected(TypeError(CannotReadOfUndefined))
    ensures |subscriptions| > 0 && subscriptions[0].planId != planId ==> r == Rejected(Reason(UnknownPlan))
    ensures |subscriptions| > 1 && subscriptions[0].planId == planId ==> r == Rejected(Reason(MoreThanOneSubscription))
    ensures r != Rejected(Reason(NoSubscriptions)) && r != Rejected(Reason(UnknownError))
    ensures !r.Pending?
  {
    if |subscriptions| == 0 then Rejected(TypeError(CannotReadOfUndefined))
    else if subscriptions[0].planId != planId then Rejected(Reason(UnknownPlan))
    else if |subscriptions| == 1 then Resolved(true)
    else if |subscriptions| > 1 then Rejected(Reason(MoreThanOneSubscription))
    else if |subscriptions| < 1 then Rejected(Reason(NoSubscriptions))
    else Rejected(Reason(UnknownError))
  }

  /** A customer with one subscription to the expected plan: the code as
      written rejects it, the first-subscription reading accepts it. */
  lemma ValidateAsWrittenRejectsGoodCustomer(planId: string)
    ensures CheckSubscriptionsAsWritten([Subscription("sub_1", planId)], planId).Rejected?
    ensures CheckSubscriptions([Subscription("sub_1", planId)], planId) == Resolved(true)
  {
  }

  /** the object a processor is bound as; the adapter reads its `customer`
      and replaces it after adding a payment source */
  class StripeProcessor {
    var customer: Customer

    constructor (customer: Customer)
      ensures this.customer == customer
    {
      this.customer := customer;
    }
  }

  /** the module: its variable `stripeProcessor`, the plan identifier it
      subscribes customers to, and (as `this`) the one adapter object it
      exports */
  class StripeModule {
    const planId: string
    var stripeProcessor: StripeProcessor?

    constructor (planId: string)
      ensures this.planId == planId && stripeProcessor == null
    {
      this.planId := planId;
      stripeProcessor := null;
    }

    /** `module.exports`: overwrite the module's processor with whatever it
        is given (`undefined` included) and return the shared adapter */
    method Bind(processor: StripeProcessor?) returns (adapter: StripeModule)
      modifies this
      ensures adapter == this
      ensures stripeProcessor == processor
    {
      stripeProcessor := processor;
      adapter := this;
    }

    /** a processor has been bound; before that, or after binding
        `undefined`, every read of `stripeProcessor.customer` throws */
    predicate Bound()
      reads this
    {
      stripeProcessor != null
    }

    /** `register`: refuse a malformed email before any gateway call, then
        create the customer on the plan; `today` is the day of the month the
        clock gives.  It does not read the bound processor. */
    function Register(email: string, token: string, today: DayOfMonth, reply: Reply<Customer>): (r: Step<Registration>)
      ensures !Utils.ValidateEmail(email) ==> r == Step([], Rejected(BadRequestError(InvalidEmail)))
      ensures Utils.ValidateEmail(email) ==> r.sent == [CreateCustomer(token, planId, email)]
      ensures r.outcome.Resolved? <==> Utils.ValidateEmail(email) && reply.Ok?
      ensures r.outcome.Resolved? ==> r.outcome.value == Registration(reply.payload, today)
      ensures Utils.ValidateEmail(email) && reply.Err? ==> r.outcome == Rejected(InternalErrorOf(reply.error))
    {
      if !Utils.ValidateEmail(email) then Step([], Rejected(BadRequestError(InvalidEmail)))
      else
        var sent := [CreateCustomer(token, planId, email)];
        match reply
        case Err(e) => Step(sent, Rejected(InternalErrorOf(e)))
        case Ok(customer) => Step(sent, Resolved(Registration(customer, today)))
    }

    /** `delete`: delete the bound customer.  With nothing bound, reading the
        customer id throws in the executor and nothing is sent.  With no
        gateway error but `deleted` false, the callback reads `statusCode` of
        a null error and throws, and the promise never settles. */
    function Delete(reply: Reply<DeleteConfirmation>): (r: Step<string>)
      reads this, stripeProcessor
      ensures !Bound() ==> r == Step([], Rejected(TypeError(CannotReadOfUndefined)))
      ensures Bound() ==> r.sent == [DeleteCustomer(stripeProcessor.customer.id)]
      ensures r.outcome.Resolved? <==> Bound() && reply.Ok? && reply.payload.deleted
      ensures r.outcome.Resolved? ==> r.outcome.value == DeleteSucceeded
      ensures Bound() && reply.Err? ==> r.outcome == Rejected(Classify(reply.error))
      ensures Bound() && reply.Ok? && !reply.payload.deleted ==> r.outcome == Pending(TypeError(CannotReadOfNull))
    {
      if stripeProcessor == null then Step([], Rejected(TypeError(CannotReadOfUndefined)))
      else
        var sent := [DeleteCustomer(stripeProcessor.customer.id)];
        match reply
        case Ok(confirmation) =>
          if confirmation.deleted then Step(sent, Resolved(DeleteSucceeded))
          else Step(sent, Pending(TypeError(CannotReadOfNull)))
        case Err(e) => Step(sent, Rejected(Classify(e)))
    }

    /** `cancel`: cancel the bound customer's first subscription.  With
        nothing bound, or no subscription, reading the first one's id throws
        in the executor and nothing is sent. */
    function Cancel(reply: Reply<CancelConfirmation>): (r: Step<CancelConfirmation>)
      reads this, stripeProcessor
      ensures !Bound() || stripeProcessor.customer.subscriptions == [] ==>
                r == Step([], Rejected(TypeError(CannotReadOfUndefined)))
      ensures Bound() && stripeProcessor.customer.subscriptions != [] ==>
                r.sent == [CancelSubscription(stripeProcessor.customer.subscriptions[0].id)]
      ensures r.outcome.Resolved? <==>
                Bound() && stripeProcessor.customer.subscriptions != [] && reply.Ok? && reply.payload.status == Canceled
      ensures r.outcome.Resolved? ==> r.outcome.value == reply.payload
      ensures Bound() && stripeProcessor.customer.subscriptions != [] && reply.Err? ==>
                r.outcome == Rejected(Classify(reply.error))
      ensures Bound() && stripeProcessor.customer.subscriptions != [] && reply.Ok? && reply.payload.status != Canceled ==>
                r.outcome == Pending(TypeError(CannotReadOfNull))
    {
      if stripeProcessor == null || stripeProcessor.customer.subscriptions == [] then
        Step([], Rejected(TypeError(CannotReadOfUndefined)))
      else
        var sent := [CancelSubscription(stripeProcessor.customer.subscriptions[0].id)];
        match reply
        case Ok(confirmation) =>
          if confirmation.status == Canceled then Step(sent, Resolved(confirmation))
          else Step(sent, Pending(TypeError(CannotReadOfNull)))
        case Err(e) => Step(sent, Rejected(Classify(e)))
    }

    /** `validate`, with the plan read from the first subscription; with
        nothing bound it rejects with the executor's TypeError */
    function Validate(): (r: Outcome<bool>)
      reads this, stripeProcessor
      ensures !Bound() ==> r == Rejected(TypeError(CannotReadOfUndefined))
      ensures r.Resolved? <==>
                Bound() && |stripeProcessor.customer.subscriptions| == 1
                && stripeProcessor.customer.subscriptions[0].planId == planId
      ensures r.Resolved? ==> r.value
      ensures !r.Pending?
    {
      if stripeProcessor == null then Rejected(TypeError(CannotReadOfUndefined))
      else CheckSubscriptions(stripeProcessor.customer.subscriptions, planId)
    }

    /** `paymentMethods`: the bound customer's sources, as the gateway lists
        them; with nothing bound the call throws */
    function PaymentMethods(): (r: Call<seq<Source>>)
      reads this, stripeProcessor
      ensures r.Threw? <==> !Bound()
      ensures r.Threw? ==> r.error == TypeError(CannotReadOfUndefined)
      ensures r.Returned? ==> r.value == stripeProcessor.customer.sources
    {
      if stripeProcessor == null then Threw(TypeError(CannotReadOfUndefined))
      else Returned(stripeProcessor.customer.sources)
    }

    /** `defaultPaymentMethod`: the summary of the first payment method, or
        null when there is none; with nothing bound the call throws */
    function DefaultPaymentMethod(): (r: Call<Option<MethodSummary>>)
      reads this, stripeProcessor
      ensures r.Threw? <==> PaymentMethods().Threw?
      ensures r.Threw? ==> r.error == PaymentMethods().error
      ensures r.Returned? ==> (r.value.None? <==> PaymentMethods().value == [])
      ensures r.Returned? && r.value.Some? ==>
                var first := PaymentMethods().value[0];
                r.value.value == MethodSummary(first.id, first.brand, first.last4)
    {
      if stripeProcessor == null then Threw(TypeError(CannotReadOfUndefined))
      else
        var sources := stripeProcessor.customer.sources;
        if |sources| > 0 then Returned(Some(Summary(sources[0]))) else Returned(None)
    }

    /** `charge` builds no promise: it throws at once, whatever is bound */
    function Charge(): (r: Call<()>)
      ensures r.Threw?
      ensures r.error == PlainError(ChargeNotImplemented)
    {
      Threw(PlainError(ChargeNotImplemented))
    }

    /** `addPaymentMethod`: attach the token to the bound customer, fetch the
        customer again and store it as the `customer` of the processor bound
        at that moment; the promise resolves with that processor object.
        The customer id is read once, before the promise exists, and the
        module variable is read again only in the retrieve callback, after
        two gateway round trips.  `atCallback` is what the variable holds
        once the gateway has answered: the processor bound now, unless a
        factory call rebound it in between.  With nothing bound, the id read
        throws before anything is sent; with nothing bound at the callback,
        the assignment throws inside it and the promise never settles.  A
        failure of either call rejects with the gateway's error and changes
        no customer. */
    method AddPaymentMethod(token: string, created: Reply<()>, retrieved: Reply<Customer>, atCallback: StripeProcessor?)
      returns (r: Step<StripeProcessor>)
      modifies this, stripeProcessor, atCallback
      ensures old(stripeProcessor) == null ==>
                r == Step([], Rejected(TypeError(CannotReadOfUndefined))) && stripeProcessor == null
      ensures old(stripeProcessor) != null ==> stripeProcessor == atCallback
      ensures old(stripeProcessor) != null ==>
                r.sent == [CreateSource(old(stripeProcessor.customer.id), token)]
                          + (if created.Ok? then [RetrieveCustomer(old(stripeProcessor.customer.id))] else [])
      ensures r.outcome.Resolved? <==> old(stripeProcessor) != null && created.Ok? && retrieved.Ok? && atCallback != null
      ensures r.outcome.Resolved? ==>
                r.outcome.value == atCallback && atCallback.customer == retrieved.payload
                && PaymentMethods() == Returned(retrieved.payload.sources)
      ensures old(stripeProcessor) != null && created.Err? ==> r.outcome == Rejected(Gateway(created.error))
      ensures old(stripeProcessor) != null && created.Ok? && retrieved.Err? ==> r.outcome == Rejected(Gateway(retrieved.error))
      ensures old(stripeProcessor) != null && created.Ok? && retrieved.Ok? && atCallback == null ==>
                r.outcome == Pending(TypeError(CannotSetOfUndefined))
      ensures !r.outcome.Resolved? && atCallback != null ==> atCallback.customer == old(atCallback.customer)
      ensures old(stripeProcessor) != null && (!r.outcome.Resolved? || old(stripeProcessor) != atCallback) ==>
                old(stripeProcessor).customer == old(stripeProcessor.customer)
    {
      if stripeProcessor == null {
        return Step([], Rejected(TypeError(CannotReadOfUndefined)));
      }
      var customerId := stripeProcessor.customer.id;
      stripeProcessor := atCallback;
      if created.Err? {
        return Step([CreateSource(customerId, token)], Rejected(Gateway(created.error)));
      }
      var sent := [CreateSource(customerId, token), RetrieveCustomer(customerId)];
      if retrieved.Err? {
        return Step(sent, Rejected(Gateway(retrieved.error)));
      }
      if stripeProcessor == null {
        return Step(sent, Pending(TypeError(CannotSetOfUndefined)));
      }
      stripeProcessor.customer := retrieved.payload;
      r := Step(sent, Resolved(stripeProcessor));
    }
  }

  /** Binding twice hands out the same adapter both times, and from then on
      it acts on the processor bound last. */
  method BindTwice(m: StripeModule, first: StripeProcessor, second: StripeProcessor)
    returns (a1: StripeModule, a2: StripeModule)
    modifies m
    ensures a1 == a2 == m
    ensures a1.Bound() && a1.stripeProcessor == second
    ensures a1.PaymentMethods() == Returned(second.customer.sources)
  {
    a1 := m.Bind(first);
    a2 := m.Bind(second);
  }

  /** A factory call made while `addPaymentMethod` waits on the gateway:
      both calls carry the first processor's customer id, but the customer
      retrieved for it is written into the second processor, the promise
      resolves with the second, and the first keeps its old customer. */
  method AddPaymentMethodAcrossRebind(m: StripeModule, first: StripeProcessor, second: StripeProcessor,
                                      token: string, customer: Customer)
    returns (r: Step<StripeProcessor>)
    requires first != second
    modifies m, first, second
    ensures r.sent == [CreateSource(old(first.customer.id), token), RetrieveCustomer(old(first.customer.id))]
    ensures r.outcome == Resolved(second) && second.customer == customer
    ensures first.customer == old(first.customer)
    ensures m.stripeProcessor == second
  {
    var adapter := m.Bind(first);
    r := m.AddPaymentMethod(token, Ok(()), Ok(customer), second);
  }
}
