/** The durable record of what a run requested, what was applied, and what happened to it. */
module Receipts {

  import opened Resources

  datatype Stage = Probe | Prepare | Attach | Usage | Finish | Cancel | Cleanup

  datatype Status = Applied | Recorded | Unapplied | Failed

  datatype Event = Event(backend: string, resource: string, stage: Stage, status: Status, code: string)

  datatype Receipt = Receipt(requested: map<string, nat>, applied: map<string, nat>, peak: map<string, nat>,
                             events: seq<Event>)

  function InitialReceipt(resources: map<string, nat>): Receipt {
    Receipt(resources, map[], map[], [])
  }

  predicate EventValid(event: Event, resources: map<string, nat>) {
    NameValid(event.backend) && event.resource in resources && CodeValid(event.code)
  }

  /** `receipt_valid`. */
  predicate ReceiptValid(receipt: Receipt, resources: map<string, nat>) {
    && receipt.requested == resources
    && (forall name :: name in resources ==> resources[name] > 0)
    && (forall name :: name in receipt.applied ==> name in resources && 0 < receipt.applied[name] <= resources[name])
    && (forall name :: name in receipt.peak ==> name in resources)
    && (forall i :: 0 <= i < |receipt.events| ==> EventValid(receipt.events[i], resources))
  }
}
