/** The admin certificates page (app/admin/certificates/page.tsx): the
    contract's order list projected into the records the certificate
    panel receives, and the two totals shown in its overview cards. */
module CertificatesPage {
  import opened Orders
  import Seqs

  /** The record the page builds for each order. The customer-pickup stage
      is written under the key `Cshipping`, as a `{ cfShippingHash,
      timestamp }` pair, and the record has no `csShipping` entry. */
  datatype PageOrder = PageOrder(
    id: nat,
    qrHash: string,
    cshipping: CFShipping,
    analysis: Analysis,
    cfShipping: CFShipping,
    certificate: Certificate,
    shippingTwo: ShippingTwo,
    finalDelivery: FinalDelivery,
    timestamp: int)

  /** The projection of one order (`Number(x.toString())` is the identity
      on the integers the ledger holds). */
  function Project(o: Order): PageOrder {
    PageOrder(o.id, o.qrHash,
              CFShipping(o.csShipping.csShippingHash, o.csShipping.timestamp),
              o.analysis, o.cfShipping, o.certificate, o.shippingTwo, o.finalDelivery,
              o.timestamp)
  }

  /** `result.map(...)`: one record per order, in the same order, with the
      same id, the pickup stage under `Cshipping` and every other stage and
      timestamp copied through. */
  function ProjectAll(orders: seq<Order>): (r: seq<PageOrder>)
    ensures |r| == |orders|
    ensures forall i :: 0 <= i < |orders| ==>
      && r[i].id == orders[i].id
      && r[i].qrHash == orders[i].qrHash
      && r[i].cshipping.cfShippingHash == orders[i].csShipping.csShippingHash
      && r[i].cshipping.timestamp == orders[i].csShipping.timestamp
      && r[i].analysis == orders[i].analysis
      && r[i].cfShipping == orders[i].cfShipping
      && r[i].certificate == orders[i].certificate
      && r[i].shippingTwo == orders[i].shippingTwo
      && r[i].finalDelivery == orders[i].finalDelivery
      && r[i].timestamp == orders[i].timestamp
  {
    if orders == [] then [] else [Project(orders[0])] + ProjectAll(orders[1..])
  }

  /** The number of certificate hashes over a list of orders. */
  function CertificateSum(orders: seq<PageOrder>): nat {
    if orders == [] then 0
    else CertificateSum(orders[..|orders| - 1]) + |orders[|orders| - 1].certificate.certificatesHashes|
  }

  /** An order counts as analysed when its analysis hash is truthy. */
  predicate HasAnalysis(o: PageOrder) {
    o.analysis.analysisHash != ""
  }

  /** The number of analysed orders in a list. */
  function AnalysisCount(orders: seq<PageOrder>): nat {
    if orders == [] then 0
    else AnalysisCount(orders[..|orders| - 1]) + (if HasAnalysis(orders[|orders| - 1]) then 1 else 0)
  }

  /** `totalCertificatesUploaded`: the `forEach` accumulation. */
  method TotalCertificatesUploaded(orders: seq<PageOrder>) returns (total: nat)
    ensures total == CertificateSum(orders)
  {
    total := 0;
    var i := 0;
    while i < |orders|
      invariant 0 <= i <= |orders|
      invariant total == CertificateSum(orders[..i])
    {
      assert orders[..i + 1][..i] == orders[..i];
      total := total + |orders[i].certificate.certificatesHashes|;
      i := i + 1;
    }
    assert orders[..i] == orders;
  }

  /** `totalAnalysisUploaded`: the `forEach` accumulation. */
  method TotalAnalysisUploaded(orders: seq<PageOrder>) returns (total: nat)
    ensures total == AnalysisCount(orders)
    ensures total <= |orders|
  {
    total := 0;
    var i := 0;
    while i < |orders|
      invariant 0 <= i <= |orders|
      invariant total == AnalysisCount(orders[..i])
    {
      assert orders[..i + 1][..i] == orders[..i];
      if HasAnalysis(orders[i]) {
        total := total + 1;
      }
      i := i + 1;
    }
    assert orders[..i] == orders;
    AnalysisAtMostOrders(orders);
  }

  /** At most one analysis per order. */
  lemma {:induction false} AnalysisAtMostOrders(orders: seq<PageOrder>)
    ensures AnalysisCount(orders) <= |orders|
  {
    if orders != [] {
      AnalysisAtMostOrders(orders[..|orders| - 1]);
    }
  }

  /** The analysis count is the number of orders the analysis filter
      keeps. */
  lemma {:induction false} AnalysisCountIsFilterLength(orders: seq<PageOrder>)
    ensures AnalysisCount(orders) == |Seqs.Filter(orders, HasAnalysis)|
  {
    if orders != [] {
      var init, last := orders[..|orders| - 1], orders[|orders| - 1];
      assert orders == init + [last];
      AnalysisCountIsFilterLength(init);
      Seqs.FilterAppend(init, [last], HasAnalysis);
    }
  }

  /** The certificate total adds up over consecutive runs of orders. */
  lemma {:induction false} CertificateSumAppend(a: seq<PageOrder>, b: seq<PageOrder>)
    ensures CertificateSum(a + b) == CertificateSum(a) + CertificateSum(b)
    decreases |b|
  {
    if b == [] {
      assert a + b == a;
    } else {
      var init := b[..|b| - 1];
      assert (a + b)[..|a + b| - 1] == a + init;
      CertificateSumAppend(a, init);
    }
  }

  /** Both totals are zero for an empty ledger, and an order without
      certificate hashes adds nothing to the certificate total. */
  lemma TotalsOfNothing(orders: seq<PageOrder>, o: PageOrder)
    requires o.certificate.certificatesHashes == []
    ensures CertificateSum([]) == 0 && AnalysisCount([]) == 0
    ensures CertificateSum(orders + [o]) == CertificateSum(orders)
  {
    CertificateSumAppend(orders, [o]);
    assert [o][..0] == [];
  }
}
