/** The single-page legacy order form (app/order/page.tsx): five text
    fields, a list of attached files capped at five, and a simulated
    submission that produces a tracking id and its tracking URL. */
module OrderPage {
  import opened Optional
  import opened Effects
  import Seqs
  import Text

  /** The most files the form keeps. */
  const MaxFiles: nat := 5

  /** The text fields `handleInputChange` is called with. */
  datatype Field = Name | Email | Address | Phone | ProductDetails

  /** `OrderFormData` of this page. */
  datatype FormData = FormData(
    name: string, email: string, address: string, phone: string,
    productDetails: string, files: seq<File>)

  const Blank: FormData := FormData("", "", "", "", "", [])

  /** `formData[field]` for a text field. */
  function TextOf(f: FormData, field: Field): string {
    match field
    case Name => f.name
    case Email => f.email
    case Address => f.address
    case Phone => f.phone
    case ProductDetails => f.productDetails
  }

  /** `{ ...prev, [field]: value }`: the named field takes the value; the
      other text fields and the files are kept. */
  function WithText(f: FormData, field: Field, value: string): (r: FormData)
    ensures TextOf(r, field) == value
    ensures forall other :: other != field ==> TextOf(r, other) == TextOf(f, other)
    ensures r.files == f.files
  {
    match field
    case Name => f.(name := value)
    case Email => f.(email := value)
    case Address => f.(address := value)
    case Phone => f.(phone := value)
    case ProductDetails => f.(productDetails := value)
  }

  /** The file list after `handleFileUpload(files)`: nothing happens for a
      `null` selection; otherwise at most five of the picked files are
      appended and the result is cut back to five. */
  function AddFiles(current: seq<File>, picked: Option<seq<File>>): (r: seq<File>)
    ensures picked.None? ==> r == current
    ensures picked.Some? ==> |r| <= MaxFiles
    ensures |current| <= MaxFiles ==> |r| <= MaxFiles
  {
    if picked.None? then current
    else Seqs.Take(current + Seqs.Take(picked.value, MaxFiles), MaxFiles)
  }

  /** The list never exceeds five files once it starts within the cap;
      the files already attached keep their positions; when the old list
      was short, the picked files follow it in their own order. */
  lemma AddFilesShape(current: seq<File>, picked: Option<seq<File>>)
    requires |current| <= MaxFiles
    ensures |AddFiles(current, picked)| <= MaxFiles
    ensures AddFiles(current, picked)[..|current|] == current
    ensures picked.Some? ==>
      AddFiles(current, picked) == current + picked.value[..|AddFiles(current, picked)| - |current|]
  {
    if picked.Some? {
      var r := AddFiles(current, picked);
      var p := picked.value;
      var t := Seqs.Take(p, MaxFiles);
      assert r == (current + t)[..|r|];
      assert r[..|current|] == current;
      assert r[|current|..] == t[..|r| - |current|];
      assert t[..|r| - |current|] == p[..|r| - |current|];
      assert r == r[..|current|] + r[|current|..];
    }
  }

  /** A full list is left as it is, whatever is picked. */
  lemma FullListUnchanged(current: seq<File>, picked: Option<seq<File>>)
    requires |current| == MaxFiles
    ensures AddFiles(current, picked) == current
  {
    if picked.Some? {
      assert (current + Seqs.Take(picked.value, MaxFiles))[..MaxFiles] == current;
    }
  }

  /** The prefix every generated tracking id carries. */
  const TrackingPrefix: string := "TRKVRF-"

  /** The base of the tracking URL encoded in the QR code. */
  const TrackUrlBase: string := "https://verifychain.com/track/"

  /** `generateTrackingId()`: the prefix and an upper-cased random suffix
      (the suffix is a parameter). */
  function TrackingId(randomSuffix: string): (r: string)
    ensures Text.StartsWith(r, TrackingPrefix)
    ensures |r| == |TrackingPrefix| + |randomSuffix|
  {
    TrackingPrefix + randomSuffix
  }

  /** `` `https://verifychain.com/track/${trackingId}` ``. */
  function QrCodeData(trackingId: string): string {
    TrackUrlBase + trackingId
  }

  /** Reading a tracking id back out of a tracking URL: the part after the
      base, or nothing when the URL is not one of ours. */
  function ParseTrackUrl(url: string): Option<string> {
    if Text.StartsWith(url, TrackUrlBase) then Some(url[|TrackUrlBase|..]) else None
  }

  /** The QR code carries the tracking id intact: parsing the URL gives it
      back, so different ids give different codes. */
  lemma QrCodeDataRoundTrip(trackingId: string)
    ensures ParseTrackUrl(QrCodeData(trackingId)) == Some(trackingId)
    ensures Text.StartsWith(QrCodeData(trackingId), TrackUrlBase + TrackingPrefix)
      <==> Text.StartsWith(trackingId, TrackingPrefix)
  {
    var u := QrCodeData(trackingId);
    assert u[..|TrackUrlBase|] == TrackUrlBase;
    assert u[|TrackUrlBase|..] == trackingId;
    if |trackingId| >= |TrackingPrefix| {
      assert u[..|TrackUrlBase + TrackingPrefix|] == TrackUrlBase + trackingId[..|TrackingPrefix|];
    }
  }

  /** A generated id followed through the QR code: the URL parses back to
      an id that starts with the prefix and ends with the suffix. */
  lemma GeneratedCodeParses(randomSuffix: string)
    ensures ParseTrackUrl(QrCodeData(TrackingId(randomSuffix))) == Some(TrackingPrefix + randomSuffix)
  {
    QrCodeDataRoundTrip(TrackingId(randomSuffix));
  }

  /** `OrderResult` of this page. */
  datatype OrderResult = OrderResult(trackingId: string, qrCodeData: string, timestamp: string)

  /** The page component's state. */
  class Page {
    var formData: FormData
    var isSubmitting: bool
    var orderResult: Option<OrderResult>

    /** The file list stays within the cap. */
    ghost predicate Valid()
      reads this
    {
      |formData.files| <= MaxFiles
    }

    constructor ()
      ensures Valid()
      ensures formData == Blank && !isSubmitting && orderResult == None
    {
      formData := Blank;
      isSubmitting := false;
      orderResult := None;
    }

    /** `handleInputChange(field, value)`. */
    method HandleInputChange(field: Field, value: string)
      requires Valid()
      modifies this`formData
      ensures Valid()
      ensures formData == WithText(old(formData), field, value)
    {
      formData := WithText(formData, field, value);
    }

    /** `handleFileUpload(files)`. */
    method HandleFileUpload(picked: Option<seq<File>>)
      requires Valid()
      modifies this`formData
      ensures Valid()
      ensures formData == old(formData).(files := AddFiles(old(formData).files, picked))
    {
      AddFilesShape(formData.files, picked);
      formData := formData.(files := AddFiles(formData.files, picked));
    }

    /** `removeFile(index)`: the file at the index goes, the rest keep
        their order; an index outside the list removes nothing. */
    method RemoveFile(index: int)
      requires Valid()
      modifies this`formData
      ensures Valid()
      ensures 0 <= index < |old(formData).files| ==>
        formData == old(formData).(files := old(formData).files[..index] + old(formData).files[index + 1..])
      ensures !(0 <= index < |old(formData).files|) ==> formData == old(formData)
    {
      Seqs.DropIndexSlices(formData.files, index);
      formData := formData.(files := Seqs.DropIndex(formData.files, index));
    }

    /** `handleSubmit`: after the simulated delay the result holds a
        generated tracking id, its URL and the submission time. The
        form's `required` inputs are checked by the browser, not here. */
    method HandleSubmit(randomSuffix: string, now: string)
      requires Valid()
      modifies this`isSubmitting, this`orderResult
      ensures Valid() && !isSubmitting
      ensures orderResult == Some(OrderResult(TrackingId(randomSuffix),
                                               QrCodeData(TrackingId(randomSuffix)), now))
    {
      isSubmitting := true;
      var trackingId := TrackingId(randomSuffix);
      orderResult := Some(OrderResult(trackingId, QrCodeData(trackingId), now));
      isSubmitting := false;
    }

    /** `resetForm`: every field blank, no files, no result. */
    method ResetForm()
      requires Valid()
      modifies this`formData, this`orderResult
      ensures Valid()
      ensures formData == Blank && orderResult == None
    {
      formData := Blank;
      orderResult := None;
    }
  }
}
