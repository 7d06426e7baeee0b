# Payment processors of the storage-service models, in Dafny

This project models the payment-processor layer of the storage service's
mongoose models, together with the e-mail validator it depends on:

- `validateEmail` and `keysOf` (lib/utils.js). The e-mail pattern is given
  twice. `MatchesEmailPattern` states the regular language the pattern
  denotes, as existential predicates over dot-separated pieces.
  `ValidateEmail` decides it by cutting at the last `@` and at every dot.
  Both are proved equal for every string.
- the three adapters (lib/models/payment-processor-adapters/), seen as one
  tagged union `Adapters.Variant` with the operations each one exports:
  - Stripe binds a processor in a module variable, and its operations decide
    on the bound customer's data and on the gateway's answers;
  - Heroku and Braintree are stubs.
  Each Stripe gateway call (`customers.create`, `customers.del`,
  `subscriptions.del`, `customers.createSource`, `customers.retrieve`) is
  replaced by its answer, a `Reply` passed in by the caller. Each operation
  reports the calls it sends and how its promise ends: resolved, rejected, or
  never settled (`Pending`, when an exception is thrown inside a gateway
  callback).
- the processor record (lib/models/payment-processor.js):
  - the provider slots stored as one-element arrays;
  - the `default` provider name and its enum;
  - `created`;
  - the `toObject` transform;
  - the `delete` and `addPaymentMethod` record methods;
  - the e-mail check that opens `getPaymentProcessor`.

Module-level variables become fields of a class standing for the module
(`StripeAdapter.StripeModule`, `HerokuAdapter.HerokuModule`). The bound
processor, whose `customer` the Stripe adapter replaces in place, is a class
too. So are the plain object the `toObject` transform deletes keys from and
the record collection `delete` removes from.

## Model

| member | source | states |
|---|---|---|
| `Utils.IndexOf` | lib/utils.js:2 | the position of the first occurrence of a character, or the length when there is none; no earlier position holds it |
| `Utils.LastIndexOf` | lib/utils.js:2 | the last occurrence of a character: absent exactly when the character is not in the string, and no later position holds it |
| `Utils.SplitDots` | lib/utils.js:2 | cutting a string at every dot gives at least one dot-free piece, and the pieces joined by dots give the string back |
| `Utils.FirstDotOfJoin` | lib/utils.js:2 | in dot-free pieces joined by dots, the first dot ends the first piece |
| `Utils.SplitJoin` | lib/utils.js:2 | splitting dot-free pieces joined by dots gives exactly those pieces back |
| `Utils.AtomCharIsNoSeparator` | lib/utils.js:2 | an unquoted local-part character is never a dot or an `@` |
| `Utils.AtomsHaveNoDots` | lib/utils.js:2 | unquoted atoms never contain a dot |
| `Utils.DotAtomDecided` | lib/utils.js:2 | the dot-atom decision accepts exactly the strings of the form `atom(.atom)*` |
| `Utils.DottedQuadDecided` | lib/utils.js:2 | the dotted-quad decision accepts exactly four dot-separated groups of 1 to 3 digits |
| `Utils.HostNameDecided` | lib/utils.js:2 | the host-name decision accepts exactly one or more `[a-zA-Z0-9-]+.` labels followed by a top-level label of at least two letters |
| `Utils.HostNameSplits` | lib/utils.js:2 | labels ending in a top-level label, joined by dots, are split back into those labels and accepted as a host name |
| `Utils.DomainFormDecided` | lib/utils.js:2 | every string of either domain form is accepted by the domain decision |
| `Utils.CharInSomePiece` | lib/utils.js:2 | every non-dot character of a dot-joined string comes from one of the pieces |
| `Utils.DomainHasNoAt` | lib/utils.js:2 | neither domain form contains an `@` |
| `Utils.MatchUsesLastAt` | lib/utils.js:2 | any `@` that a domain follows in a match is the last `@` of the address |
| `Utils.SplitAtLastAt` | lib/utils.js:2 | the address matches exactly when the part before its last `@` is a local part and the part after it is a domain |
| `Utils.JoinedAtomsHaveShape` | lib/utils.js:2 | atoms joined by dots have no leading, trailing or doubled dot, and only atom characters besides the dots |
| `Utils.ShapeAfterDot` | lib/utils.js:2 | a dot inside a dot-atom is neither first nor last, and what follows it is again a dot-atom |
| `Utils.ShapeSplitsIntoAtoms` | lib/utils.js:2 | a string with no leading, trailing or doubled dot and otherwise only atom characters is accepted as a dot-atom |
| `Utils.DotAtomFormIsShape` | lib/utils.js:2 | an unquoted local part is exactly a non-empty string with no leading, trailing or doubled dot, whose other characters are not whitespace or any of `< > ( ) [ ] \ , ; : @ "` |
| `Utils.DomainNeedsDot` | lib/utils.js:2 | both domain forms contain a dot |
| `Utils.ValidateEmail` | lib/utils.js:1-8 | true exactly when the whole string matches the pattern, anchored at both ends |
| `Utils.PartsAccepted` | lib/utils.js:2 | a local part of either form, `@`, then a domain of either form, is accepted |
| `Utils.LastAtNotBeforeSeparator` | lib/utils.js:2 | the last `@` of `local@domain` is never inside the local part |
| `Utils.DotlessDomainRejected` | lib/utils.js:2 | an address whose domain has no dot, such as `wrong@domain`, is refused whatever the local part |
| `Utils.HostAddressAccepted` | lib/utils.js:2 | a well-formed unquoted local part, `@`, then labels and a top-level label of two or more letters, is accepted |
| `Utils.QuotedAddressAccepted` | lib/utils.js:2 | a quoted local part is accepted even when it holds `@` or spaces |
| `Utils.DottedQuadAddressAccepted` | lib/utils.js:2 | four groups of 1 to 3 digits are accepted as a domain, with no 0-255 range check |
| `Utils.MalformedLocalRejected` | lib/utils.js:2 | a local part that is neither a dot-atom nor quoted is refused, so leading, trailing or doubled dots are refused |
| `Utils.ExampleAccepted` | lib/utils.js:2 | `user@domain.tld` is accepted |
| `Utils.ExampleLongTopLevelAccepted` | lib/utils.js:2 | `user@domain.lawyer` is accepted |
| `Utils.ExampleDotlessRejected` | lib/utils.js:2 | `wrong@domain` is refused |
| `Utils.ExampleQuotedAccepted` | lib/utils.js:2 | `"a@b c"@domain.tld` is accepted |
| `Utils.ExampleOutOfRangeQuadAccepted` | lib/utils.js:2 | `user@999.999.999.999` is accepted |
| `Utils.ExampleLeadingDotRejected` | lib/utils.js:2 | `.user@domain.tld` is refused |
| `Utils.ExampleDoubledDotRejected` | lib/utils.js:2 | `us..er@domain.tld` is refused |
| `Utils.KeysOf` | lib/utils.js:10-12 | one element per own key, in key order, each the value stored under that key |
| `Utils.DistinctCount` | lib/utils.js:10-12 | a list of distinct keys has as many elements as its set of keys |
| `Utils.KeysOfOnePerKey` | lib/utils.js:10-12 | `keysOf` lists as many values as the object has own keys |
| `Utils.KeysOfListsEveryValue` | lib/utils.js:10-12 | a value is listed by `keysOf` exactly when some own key holds it |
| `Adapters.Operations` | lib/models/payment-processor-adapters/stripe.js:11-185 | the functions each adapter object exports: only Stripe can delete, cancel or validate, no adapter parses stored data back, and every adapter exports something |
| `Adapters.OperationsByVariant` | lib/models/payment-processor-adapters/heroku.js:5-12 | Heroku offers exactly `register` and `serializeData`, and Braintree only `add` |
| `Adapters.HasFactory` | lib/models/payment-processor-adapters/braintree.js:14 | Braintree exports its adapter object directly, with no processor binding, and that object offers only `add`; the adapters exported through a factory (stripe.js:187, heroku.js:14) are exactly those that can register |
| `Adapters.VariantNamed` | lib/models/payment-processor.js:30-36 | a `PAYMENT_PROCESSORS` value names the variant it returns, and `None` means no variant has that name |
| `Adapters.ProcessorNamesAreVariants` | lib/models/payment-processor.js:31-33 | the enum, written with the same expression as `keysOf` (the values of `PAYMENT_PROCESSORS` in key order), lists exactly the three variants' names |
| `StripeAdapter.Classify` | lib/models/payment-processor-adapters/stripe.js:59-63 | a gateway error becomes a BadRequestError exactly when its status code is 404, an InternalError otherwise, with the gateway's message kept |
| `StripeAdapter.CheckSubscriptionsAsWritten` | lib/models/payment-processor-adapters/stripe.js:101-103 | as written, `validate` throws a TypeError for every customer, because it indexes `.data` of the `data` array |
| `StripeAdapter.CheckSubscriptions` | lib/models/payment-processor-adapters/stripe.js:99-121 | resolves with true exactly when there is one subscription and its plan is the expected one. The plan is checked before the count. A wrong first plan rejects with "unknown plan" and several subscriptions with "more than one". No subscription throws a TypeError, so "no subscriptions" and "Unknown error" are never the answer |
| `StripeAdapter.ValidateAsWrittenRejectsGoodCustomer` | lib/models/payment-processor-adapters/stripe.js:103 | a customer with one subscription to the expected plan is rejected by the code as written and accepted by the first-subscription reading |
| `StripeAdapter.StripeProcessor.constructor` | lib/models/payment-processor-adapters/stripe.js:9 | a processor holding the given customer |
| `StripeAdapter.StripeModule.constructor` | lib/models/payment-processor-adapters/stripe.js:5-9 | the module before any binding: no processor, with the configured plan id |
| `StripeAdapter.StripeModule.Bind` | lib/models/payment-processor-adapters/stripe.js:187-190 | the factory overwrites the module's processor with whatever it is given, `undefined` included, and returns the one shared adapter |
| `StripeAdapter.StripeModule.Register` | lib/models/payment-processor-adapters/stripe.js:19-38 | a malformed email rejects with BadRequestError('Invalid email') and sends nothing. Otherwise one customer creation is sent with the token, the plan and the email. It resolves with `{customer, billingDate: today}` exactly when the gateway answers without error, and rejects with InternalError of the gateway error otherwise |
| `StripeAdapter.StripeModule.Delete` | lib/models/payment-processor-adapters/stripe.js:49-66 | with nothing bound, rejects with a TypeError and sends nothing. Otherwise it deletes the bound customer by id. It resolves with 'User successfully deleted' exactly when there is no error and `deleted` is true. An error is classified 404/other. No error with `deleted` false throws on `err.statusCode` and never settles |
| `StripeAdapter.StripeModule.Cancel` | lib/models/payment-processor-adapters/stripe.js:71-93 | cancels the first subscription of the bound customer. With nothing bound, or no subscription, it rejects with a TypeError before sending anything. It resolves with the confirmation exactly when there is no error and the status is 'canceled'. An error is classified 404/other. Any other status never settles |
| `StripeAdapter.StripeModule.Validate` | lib/models/payment-processor-adapters/stripe.js:99-121 | follows the corrected, first-subscription reading of line 103 (see Findings). With nothing bound it rejects with a TypeError. Otherwise it resolves (with true) exactly when the bound customer has one subscription, to the expected plan. It always settles |
| `StripeAdapter.StripeModule.PaymentMethods` | lib/models/payment-processor-adapters/stripe.js:181-183 | the bound customer's sources, unchanged and in order; with nothing bound, the call throws a TypeError |
| `StripeAdapter.StripeModule.DefaultPaymentMethod` | lib/models/payment-processor-adapters/stripe.js:169-179 | throws exactly when `paymentMethods` throws (nothing bound). Otherwise it returns null exactly when there is no payment method, and `{id, merchant: brand, lastFour: last4}` of the first one |
| `StripeAdapter.StripeModule.Charge` | lib/models/payment-processor-adapters/stripe.js:165-167 | never returns: throws Error('stripe charge method not yet implemented') synchronously, without building a promise |
| `StripeAdapter.StripeModule.AddPaymentMethod` | lib/models/payment-processor-adapters/stripe.js:131-154 | with nothing bound, fails with a TypeError before sending anything. Otherwise it sends a source creation for the bound customer's id and, only if that succeeds, a retrieval of the same id. The module variable is read again only in the retrieve callback, so the processor bound by then (`atCallback`, a later factory call's if one came in between) is the one whose `customer` becomes the retrieved one and that the promise resolves with, exactly when both calls succeed and a processor is bound then. With nothing bound then, the write throws in the callback and the promise never settles. A gateway error rejects with that error and changes no customer; the processor bound at the start keeps its customer unless it is still the one bound at the callback |
| `StripeAdapter.BindTwice` | lib/models/payment-processor-adapters/stripe.js:187-190 | two bindings return the same adapter, which then acts on the processor bound last |
| `StripeAdapter.AddPaymentMethodAcrossRebind` | lib/models/payment-processor-adapters/stripe.js:132-148 | when the factory (stripe.js:187-188) rebinds a second processor while `addPaymentMethod` for the first waits on the gateway, both calls carry the first customer's id, yet the retrieved customer is written into the second processor, the promise resolves with the second, and the first keeps its old customer |
| `HerokuAdapter.HerokuModule.constructor` | lib/models/payment-processor-adapters/heroku.js:3 | the module before any binding holds no processor |
| `HerokuAdapter.HerokuModule.Bind` | lib/models/payment-processor-adapters/heroku.js:14-17 | the factory stores whatever it is given, `undefined` included, and returns the one shared adapter |
| `HerokuAdapter.HerokuModule.Register` | lib/models/payment-processor-adapters/heroku.js:6-8 | always resolves, whatever it is given |
| `HerokuAdapter.HerokuModule.SerializeData` | lib/models/payment-processor-adapters/heroku.js:9-11 | always an empty list, whatever it is given |
| `HerokuAdapter.BindTwice` | lib/models/payment-processor-adapters/heroku.js:14-17 | two bindings return the same adapter, which remembers the processor bound last |
| `BraintreeAdapter.Add` | lib/models/payment-processor-adapters/braintree.js:3-10 | never resolves and never hangs: rejects with `{status: 'error', message: 'braintree payment processor adapter not yet implemented!'}`; it reads no state, so every call ends the same way |
| `PaymentProcessor.UnwrapSlot` | lib/models/payment-processor.js:17 | the slot getter gives element 0, and nothing exactly when the stored array is empty |
| `PaymentProcessor.WrapSlot` | lib/models/payment-processor.js:18 | the slot setter stores a one-element array that the getter reads back as the value written |
| `PaymentProcessor.Set` | lib/models/payment-processor.js:15-29 | after writing a provider slot, reading it gives the value written; the other slots, the id, `default` and `created` are unchanged |
| `PaymentProcessor.DefaultName` | lib/models/payment-processor.js:30-36 | omitted, `default` is PAYMENT_PROCESSORS.STRIPE. A given value is accepted, unchanged, exactly when it names a processor, and refused with an enum validation error on `default` otherwise |
| `PaymentProcessor.NewDocument` | lib/models/payment-processor.js:11-41 | a new record has the given id, empty provider slots, `default` as given or PAYMENT_PROCESSORS.STRIPE when omitted, and `created` equal to the clock's time; building it checks nothing |
| `PaymentProcessor.ValidationError` | lib/models/payment-processor.js:30-36 | validation refuses a record exactly when its `default` names no processor, with the enum validator's error on `default` |
| `PaymentProcessor.NewDocumentValidates` | lib/models/payment-processor.js:30-36 | a new record passes validation exactly when its `default` path accepts what was given, and always when `default` is omitted |
| `PaymentProcessor.WithoutInternalKeys` | lib/models/payment-processor.js:45-54 | a key survives exactly when it is not `__v`, `_id`, `rawData`, `data` or `adapter`, and keeps its value |
| `PaymentProcessor.WithoutInternalKeysIdempotent` | lib/models/payment-processor.js:45-54 | applying the transform twice removes nothing more than applying it once |
| `PaymentProcessor.PlainObject.constructor` | lib/models/payment-processor.js:47 | the object the transform receives, holding the given fields |
| `PaymentProcessor.TransformToObject` | lib/models/payment-processor.js:47-53 | deleting the five keys one after another leaves exactly the fields the transform keeps |
| `PaymentProcessor.Collection.constructor` | lib/models/payment-processor.js:164-166 | an empty collection of records |
| `PaymentProcessor.Collection.Delete` | lib/models/payment-processor.js:72-76 | the record is removed, and the promise resolves with it, exactly when the adapter's delete resolved and the store removed it. An adapter failure is passed on unchanged and a store failure rejects; in both cases the collection is unchanged |
| `PaymentProcessor.AddPaymentMethod` | lib/models/payment-processor.js:78-82 | resolves with the record itself exactly when the adapter resolved; the adapter's failure is passed on unchanged |
| `PaymentProcessor.GetPaymentProcessorEmailCheck` | lib/models/payment-processor.js:94-96 | a missing or empty email gives BadRequestError('Must provide valid email'), and any other email passes the check |
| `PaymentProcessor.DeleteWithStripe` | lib/models/payment-processor.js:72-76 | with the Stripe adapter, the record leaves the collection exactly when a processor is bound, the gateway confirms the customer deleted and the store removes it. With nothing bound it rejects with a TypeError; a gateway error rejects as Stripe classifies it; in both cases the collection is unchanged |
| `PaymentProcessor.AddPaymentMethodWithStripe` | lib/models/payment-processor.js:78-82 | with the Stripe adapter, the record resolves unchanged exactly when a processor is bound at the start, both gateway calls succeed and a processor is bound at the callback; that processor then holds the retrieved customer. With nothing bound at the start it rejects with a TypeError, with nothing bound at the callback it never settles, and on any failure the processor bound at the start keeps its customer |

## Left out

- The mongo query helpers of lib/utils.js (lines 14-66) are not modelled. They only wrap find, save and update calls on the database.
- The Stripe SDK and its network calls are not modelled. Each call's answer is an input (`Reply`), and the model records which calls would be sent.
- The `console.log` calls in `cancel` are not modelled.
- Promise plumbing is not modelled. Each operation returns how its promise ends (`Outcome`).
  - A synchronous throw of a promise-returning operation counts as a rejection. That covers the `customer.id` read in `addPaymentMethod` with nothing bound, which happens before the promise exists.
  - `charge`, `paymentMethods` and `defaultPaymentMethod` return no promise; their throw is a `Threw` result.
  - Only `Pending` (a throw inside a gateway callback) is told apart.
- Operations are not interleaved with one another: each runs to its end. The one exception is the window that changes an outcome. `addPaymentMethod` reads the module variable again after two gateway round trips (stripe.js:147-148), and its `atCallback` input is the processor a factory call bound in between. The other Stripe operations read the variable only before their first gateway call (stripe.js:51, 73, 101, 170-182).
- The Stripe gateway's error and customer objects are reduced to the fields the adapter reads:
  - errors keep the status code and message;
  - customers keep the id, the subscription list (id and plan id) and the source list (id, brand, last4).
  An error without a `statusCode` behaves like any code other than 404.
- `StripeAdapter.StripeModule.Delete`, `StripeAdapter.StripeModule.Cancel`, `StripeAdapter.StripeModule.Validate`, `StripeAdapter.StripeModule.AddPaymentMethod`, `StripeAdapter.StripeModule.DefaultPaymentMethod`, `StripeAdapter.StripeModule.PaymentMethods`: a bound processor always holds a customer. The model covers an unbound adapter (nothing bound, or `undefined` bound), but not a bound object with no `customer`, where the source throws the same TypeError.
- `StripeAdapter.StripeModule.Register`, `PaymentProcessor.NewDocument`: the clock is a parameter. `new Date().getDate()` is the `today` argument and `Date.now` is the `now` argument.
- The constants module is not part of this model.
  - `PAYMENT_PROCESSORS` is taken as `{STRIPE: 'stripe', BRAINTREE: 'braintree', HEROKU: 'heroku'}`. These are the slot names the schema uses.
  - `STRIPE_PLAN_ID` is the `planId` a `StripeModule` is built with.
- The adapter a record delegates to (`this.adapter`) is not defined in lib/models/payment-processor.js.
  - `Collection.Delete` and `AddPaymentMethod` take that adapter's outcome as an input.
  - `DeleteWithStripe` and `AddPaymentMethodWithStripe` compose the two operations for the Stripe adapter.
- Mongoose machinery is not modelled: the schema options plugin, `connection.model` and the record's `_id` type. The store's `remove` is reduced to success or failure (`StoreReply`).
- `PaymentProcessor.TransformToObject` does not model the order of keys in the produced object, or the virtuals `toObject` adds.
- Commented-out code is not modelled: the virtuals at lib/models/payment-processor.js:56-70 and `addPaymentProcessor`/`getPaymentProcessor` at lines 111-162.
- The empty `getBillingDate` and `create` methods (lines 84-86 and 101-110) are not modelled, since they do nothing.
- Everything in `getPaymentProcessor` after the email check is not modelled. Line 91 declares a variable named `default`, a reserved word, and line 98 is an `if` without a body. As written, the file therefore does not parse; the model keeps the parts that are complete.
- `StripeAdapter.StripeModule.Register`, `StripeAdapter.StripeModule.AddPaymentMethod`: they take the values the code reads from their argument (`options.user.email` and `options.token` at stripe.js:21-27, `data.token` at stripe.js:137), not the argument object. So two TypeError rejections are not modelled: `register` given `options` without `user` rejects inside the promise executor before anything is sent (stripe.js:21), and `addPaymentMethod` given no `data` rejects inside the executor before `createSource` is sent (stripe.js:137). The other adapter operations ignore their arguments, and Heroku's `register` and `serializeData` are modelled without them.
- Nothing in the code parses stored processor data back (no adapter has `parseData`). So no serialize/parse round trip is stated; `OperationsByVariant` records that the operation is absent.
- The test files are not modelled. They need a live database, and the Stripe adapter tests have empty bodies.

## Findings

| source | as written | input that shows it | evidently intended | confidence | as-written member | corrected member |
|---|---|---|---|---|---|---|
| lib/models/payment-processor-adapters/stripe.js:103 | line 101 already takes `customer.subscriptions.data`; line 103 then reads `subscriptions.data[0].plan.id`, i.e. `.data` of an array, which is `undefined`, so `validate` throws a TypeError for every customer | a bound customer with exactly one subscription, whose plan id is `STRIPE_PLAN_ID` | read the first subscription's plan (`subscriptions[0].plan.id`) and resolve with true for that customer | high (not executed) | `StripeAdapter.ValidateAsWrittenRejectsGoodCustomer` | `StripeAdapter.CheckSubscriptions` |
