/** `undefined`/`null` against a present value. */
module Optional {
  datatype Option<T> = None | Some(value: T)
}

/** What the handlers do to the outside world. Ledger writes, file-store
    uploads, e-mails, alerts and navigation are not modelled as services:
    each call is an event appended to a trace, carrying its arguments. The
    results those services return are parameters of the handlers. */
module Effects {

  /** An argument passed to a contract method: `BigInt(n)`, a string, or
      the `undefined` read from a missing map entry. */
  datatype Arg = Int(n: int) | Str(s: string) | Undefined

  /** A file picked in a file input, known only by identity. */
  datatype File = File(handle: nat)

  datatype Event =
    | Alert(message: string)                             // `alert(message)`
    | SendTransaction(contractMethod: string, args: seq<Arg>)// `prepareContractCall` + `sendTransaction`
    | Upload(file: File)                                 // `upload({ files: [file] })`
    | SendEmail(orderId: int, stageId: string, title: string, description: string, tracking: string)
    | Refresh                                            // `router.refresh()`
    | Push(route: string)                                // `router.push(route)`

  /** What an awaited external call came back with: a value, or a thrown
      error with its message. */
  datatype Outcome<T> = Done(value: T) | Threw(message: string)

  /** The ledger writes among a run of events. */
  function Writes(trace: seq<Event>): (r: seq<Event>)
    ensures |r| <= |trace|
    ensures forall e :: e in r <==> e in trace && e.SendTransaction?
  {
    if trace == [] then []
    else (if trace[0].SendTransaction? then [trace[0]] else []) + Writes(trace[1..])
  }

  /** The writes of two runs in a row are the writes of each, in order. */
  lemma {:induction false} WritesAppend(a: seq<Event>, b: seq<Event>)
    ensures Writes(a + b) == Writes(a) + Writes(b)
  {
    if a != [] {
      assert (a + b)[1..] == a[1..] + b;
      WritesAppend(a[1..], b);
    } else {
      assert a + b == b;
    }
  }
}

/** The order record read from the ledger (`Order` in lib/interfaces.ts):
    six stage records, each a hash or URI and a timestamp (0 = pending). */
module Orders {

  datatype CsShipping = CsShipping(csShippingHash: string, timestamp: int)
  datatype Analysis = Analysis(analysisHash: string, timestamp: int)
  datatype CFShipping = CFShipping(cfShippingHash: string, timestamp: int)
  datatype Certificate = Certificate(certificatesHashes: seq<string>, timestamp: int)
  datatype ShippingTwo = ShippingTwo(shippingTwoHash: string, timestamp: int)
  datatype FinalDelivery = FinalDelivery(finalDeliveryHash: string, timestamp: int)

  /** Ids come from `Number(order.id)` of an unsigned ledger integer. */
  datatype Order = Order(
    id: nat,
    qrHash: string,
    csShipping: CsShipping,
    analysis: Analysis,
    cfShipping: CFShipping,
    certificate: Certificate,
    shippingTwo: ShippingTwo,
    finalDelivery: FinalDelivery,
    timestamp: int)
}
