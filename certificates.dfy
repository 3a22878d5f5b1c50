/** The certificate panel (app/components/Certificates.tsx): files picked
    per order and step, the guarded upload-then-record chain with its
    per-step loading flag, the expandable rows and the id search. */
module Certificates {
  import opened Optional
  import opened Effects
  import opened CertificatesPage
  import Seqs
  import Text

  /** The steps the panel shows (steps 1 and 4 are commented out). */
  const StepIds: seq<string> := ["step-2", "step-3"]

  const CertificateAbi: string := "function updateCertificateHASH(uint256 id, string _hash)"

  /** `` `${orderId}-${stepId}` ``, the key under which a picked file is
      stored and looked up. */
  function FileKey(orderId: nat, stepId: string): (r: string)
    ensures FirstIndexOf(r, '-') == |Text.NatToString(orderId)| < |r|
    ensures r[..FirstIndexOf(r, '-')] == Text.NatToString(orderId)
    ensures r[FirstIndexOf(r, '-') + 1..] == stepId
  {
    DashAfterDigits(Text.NatToString(orderId), stepId);
    Text.NatToString(orderId) + "-" + stepId
  }

  /** Different (order, step) pairs never share a key: the id's digits
      cannot contain the dash, so the first dash splits the key. */
  lemma FileKeyInjective(a: nat, s: string, b: nat, t: string)
    requires FileKey(a, s) == FileKey(b, t)
    ensures a == b && s == t
  {
    var x, y := Text.NatToString(a), Text.NatToString(b);
    var k := FileKey(a, s);
    DashAfterDigits(x, s);
    DashAfterDigits(y, t);
    assert x == k[..|x|] == y;
    assert s == k[|x| + 1..] == t;
    Text.NatToStringInjective(a, b);
  }

  /** The position of the first `c` in `s` (`|s|` when there is none). */
  function FirstIndexOf(s: string, c: char): nat {
    if s == [] then 0 else if s[0] == c then 0 else 1 + FirstIndexOf(s[1..], c)
  }

  /** In a decimal numeral followed by a dash, the first dash is the one
      right after the numeral. */
  lemma {:induction false} DashAfterDigits(digits: string, rest: string)
    requires forall i :: 0 <= i < |digits| ==> Text.IsDigit(digits[i])
    ensures FirstIndexOf(digits + "-" + rest, '-') == |digits|
  {
    if digits != [] {
      assert (digits + "-" + rest)[1..] == digits[1..] + "-" + rest;
      DashAfterDigits(digits[1..], rest);
    }
  }

  /** `uploadedFiles[key]` read as truthy or not: a missing key and a
      stored `null` both give nothing. */
  function FileAt(files: map<string, Option<File>>, key: string): Option<File> {
    if key in files then files[key] else None
  }

  /** Picking a file for one order and step makes it the file for that
      pair and leaves every other pair's file as it was. */
  lemma PickedFileIsolated(files: map<string, Option<File>>, orderId: nat, stepId: string,
                           file: Option<File>, otherOrder: nat, otherStep: string)
    ensures FileAt(files[FileKey(orderId, stepId) := file], FileKey(orderId, stepId)) == file
    ensures (otherOrder, otherStep) != (orderId, stepId) ==>
      FileAt(files[FileKey(orderId, stepId) := file], FileKey(otherOrder, otherStep))
      == FileAt(files, FileKey(otherOrder, otherStep))
  {
    if FileKey(otherOrder, otherStep) == FileKey(orderId, stepId) {
      FileKeyInjective(otherOrder, otherStep, orderId, stepId);
    }
  }

  /** What one run of `storeCertificate` does outside the component, given
      the wallet, the file found under the key, the upload's outcome (the
      stored URI) and the transaction's outcome. Thrown errors are only
      logged. */
  function StoreEffects(hasAccount: bool, file: Option<File>, orderId: nat,
                        upload: Outcome<string>, tx: Outcome<string>): (r: seq<Event>)
    ensures r != []
    ensures r[0].Alert? <==> !(hasAccount && file.Some?)
    ensures r[|r| - 1].Alert? || r[|r| - 1] == Refresh <==> !(hasAccount && file.Some?) || (upload.Done? && tx.Done?)
  {
    if !hasAccount then [Alert("Please connect your wallet")]
    else if file.None? then [Alert("Please select a file before uploading.")]
    else
      [Upload(file.value)]
      + match upload
        case Threw(_) => []
        case Done(uri) =>
          [SendTransaction(CertificateAbi, [Int(orderId), Str(uri)])]
          + match tx
            case Done(hash) => [Alert("Success! Tx: " + hash), Refresh]
            case Threw(_) => []
  }

  /** Nothing is uploaded or written without a wallet and a picked file;
      with both, the file is uploaded first, and the only write, made
      exactly when the upload succeeded, records the URI against the
      order through the certificate method, whatever the step. */
  lemma StoreWrites(hasAccount: bool, file: Option<File>, orderId: nat,
                    upload: Outcome<string>, tx: Outcome<string>)
    ensures !(hasAccount && file.Some?) ==>
      forall e :: e in StoreEffects(hasAccount, file, orderId, upload, tx) ==>
        !e.Upload? && !e.SendTransaction?
    ensures hasAccount && file.Some? ==>
      StoreEffects(hasAccount, file, orderId, upload, tx)[0] == Upload(file.value)
    ensures Writes(StoreEffects(hasAccount, file, orderId, upload, tx))
      == if hasAccount && file.Some? && upload.Done?
         then [SendTransaction(CertificateAbi, [Int(orderId), Str(upload.value)])]
         else []
  {
    var e := StoreEffects(hasAccount, file, orderId, upload, tx);
    if hasAccount && file.Some? {
      var rest := e[1..];
      assert e == [Upload(file.value)] + rest;
      WritesAppend([Upload(file.value)], rest);
      if upload.Done? {
        var w := SendTransaction(CertificateAbi, [Int(orderId), Str(upload.value)]);
        assert rest == [w] + rest[1..];
        WritesAppend([w], rest[1..]);
        NoWritesIn(rest[1..]);
      } else {
        NoWritesIn(rest);
      }
    } else {
      NoWritesIn(e);
    }
  }

  /** A run with no transaction in it writes nothing. */
  lemma NoWritesIn(trace: seq<Event>)
    requires forall e :: e in trace ==> !e.SendTransaction?
    ensures Writes(trace) == []
  {
    if Writes(trace) != [] {
      assert Writes(trace)[0] in Writes(trace);
    }
  }

  /** A failed upload or a failed write is silent: no alert, no refresh. */
  lemma FailuresAreSilent(file: File, orderId: nat, upload: Outcome<string>, tx: Outcome<string>)
    requires upload.Threw? || tx.Threw?
    ensures forall e :: e in StoreEffects(true, Some(file), orderId, upload, tx) ==>
      !e.Alert? && !e.Refresh?
  {
  }

  /** `filteredOrders` over the records the certificates page builds: an
      empty query keeps every order; any other query keeps the orders
      whose decimal id is exactly the query. */
  function FilteredOrders(orders: seq<PageOrder>, query: string): (r: seq<PageOrder>)
    ensures query == "" ==> r == orders
    ensures query != "" ==> forall o :: o in r <==> o in orders && Text.NatToString(o.id) == query
    ensures Seqs.IsSubsequence(r, orders)
  {
    if query == "" then
      Seqs.FilterKeepsAll(orders, o => true);
      Seqs.FilterIsSubsequence(orders, o => true);
      orders
    else
      Seqs.FilterIsSubsequence(orders, (o: PageOrder) => Text.NatToString(o.id) == query);
      Seqs.Filter(orders, (o: PageOrder) => Text.NatToString(o.id) == query)
  }

  /** A non-empty query selects a single order id. */
  lemma QuerySelectsOneId(orders: seq<PageOrder>, query: string)
    requires query != ""
    ensures forall o1, o2 :: o1 in FilteredOrders(orders, query) && o2 in FilteredOrders(orders, query) ==>
      o1.id == o2.id
  {
    var r := FilteredOrders(orders, query);
    forall o1, o2 | o1 in r && o2 in r
      ensures o1.id == o2.id
    {
      Text.NatToStringInjective(o1.id, o2.id);
    }
  }

  /** The component's state. `activeAccount` comes from the wallet hook
      and is only read here. */
  class Panel {
    var searchQuery: string
    var expandedOrders: seq<string>
    var isLoading: map<string, bool>
    var uploadedFiles: map<string, Option<File>>
    var activeAccount: Option<string>
    ghost var trace: seq<Event>

    constructor (account: Option<string>)
      ensures searchQuery == "" && expandedOrders == []
      ensures isLoading == map["step-2" := false, "step-3" := false]
      ensures uploadedFiles == map[] && activeAccount == account && trace == []
    {
      searchQuery := "";
      expandedOrders := [];
      isLoading := map["step-2" := false, "step-3" := false];
      uploadedFiles := map[];
      activeAccount := account;
      trace := [];
    }

    /** The file input of a step panel: the first picked file, or `null`
        when the selection is empty. */
    method PickFile(orderId: nat, stepIndex: int, file: Option<File>)
      requires 0 <= stepIndex < |StepIds|
      modifies this`uploadedFiles
      ensures uploadedFiles == old(uploadedFiles)[FileKey(orderId, StepIds[stepIndex]) := file]
      ensures FileAt(uploadedFiles, FileKey(orderId, StepIds[stepIndex])) == file
    {
      uploadedFiles := uploadedFiles[FileKey(orderId, StepIds[stepIndex]) := file];
    }

    /** `toggleOrderExpansion(orderId)`. */
    method ToggleOrderExpansion(orderId: string)
      modifies this`expandedOrders
      ensures expandedOrders == Seqs.Toggle(old(expandedOrders), orderId)
    {
      expandedOrders := Seqs.Toggle(expandedOrders, orderId);
    }

    /** `storeCertificate(orderId, stepId)`: the file comes from the key the
        file inputs write; the step's flag is lowered on every way out,
        including the two early returns that never raised it. */
    method StoreCertificate(orderId: nat, stepId: string, upload: Outcome<string>, tx: Outcome<string>)
      modifies this`isLoading, this`trace
      ensures isLoading == old(isLoading)[stepId := false]
      ensures trace == old(trace) + StoreEffects(activeAccount.Some?,
                                                 FileAt(uploadedFiles, FileKey(orderId, stepId)),
                                                 orderId, upload, tx)
    {
      if activeAccount.None? {
        trace := trace + [Alert("Please connect your wallet")];
      } else {
        var file := FileAt(uploadedFiles, FileKey(orderId, stepId));
        if file.None? {
          trace := trace + [Alert("Please select a file before uploading.")];
        } else {
          isLoading := isLoading[stepId := true];
          trace := trace + [Upload(file.value)];
          match upload {
            case Threw(_) =>
            case Done(uri) =>
              trace := trace + [SendTransaction(CertificateAbi, [Int(orderId), Str(uri)])];
              match tx {
                case Threw(_) =>
                case Done(hash) =>
                  trace := trace + [Alert("Success! Tx: " + hash), Refresh];
              }
          }
        }
      }
      isLoading := isLoading[stepId := false];
    }
  }
}
