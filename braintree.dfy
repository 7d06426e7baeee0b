/** The Braintree adapter: exported as a plain object with no processor
    binding and a single operation, `add`, that always rejects. */
module BraintreeAdapter {
  import opened Errors

  const NotImplemented := "braintree payment processor adapter not yet implemented!"

  /** `add` rejects with the plain object `{status: 'error', message}`; it
      reads no state, so every call ends the same way. */
  function Add(): (r: Outcome<()>)
    ensures !r.Resolved? && !r.Pending?
    ensures r.reason == StatusMessage("error", NotImplemented)
  {
    Rejected(StatusMessage("error", NotImplemented))
  }
}
