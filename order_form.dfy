/** The six-step order-intake wizard (app/components/OrderForm.tsx): the
    form record, the per-step validator, the bounded step transitions,
    the field updates and the guarded submission. */
module OrderForm {
  import opened Optional
  import Seqs

  /** A day picked in a calendar; the wizard only tests whether one is set. */
  datatype Date = Date(epochDay: int)

  /** `OrderFormData` (lib/interfaces.ts), with the `orderId` field the
      component's initial value carries and `handleSubmit` assigns. */
  datatype FormData = FormData(
    orderId: string,
    // step 1: personal information
    fullName: string, email: string, phone: string, address: string,
    city: string, postalCode: string, country: string,
    // step 2: parcel pickup
    pickupDate: Option<Date>, pickupTime: string,
    // step 3: source material
    sourceMaterial: seq<string>, sourceMaterialOther: string, quantity: string,
    // step 4: diamond specifications
    caratSizes: map<string, int>, cutPreference: string, colorPreference: string,
    settingPreference: seq<string>,
    // step 5: special requests
    specialRequests: string,
    // step 6: terms and acknowledgment
    signatureName: string, signatureDate: Option<Date>, termsAccepted: bool,
    creationTime: string)

  /** `initialFormData`: every text empty, every list and map empty, no
      dates, terms not accepted. */
  const Initial: FormData := FormData(
    "", "", "", "", "", "", "", "", None, "", [], "", "", map[], "", "", [], "", "", None, false, "")

  /** The record's keys, `keyof OrderFormData`. */
  datatype Key =
    | OrderId | FullName | Email | Phone | Address | City | PostalCode | Country
    | PickupDate | PickupTime | SourceMaterial | SourceMaterialOther | Quantity
    | CaratSizes | CutPreference | ColorPreference | SettingPreference
    | SpecialRequests | SignatureName | SignatureDate | TermsAccepted | CreationTime

  /** A field's value, whatever its type. */
  datatype Value =
    | Text(text: string) | Day(day: Option<Date>) | Items(items: seq<string>)
    | Carats(carats: map<string, int>) | Flag(flag: bool)

  /** `formData[key]`. */
  function Get(f: FormData, k: Key): Value {
    match k
    case OrderId => Text(f.orderId)
    case FullName => Text(f.fullName)
    case Email => Text(f.email)
    case Phone => Text(f.phone)
    case Address => Text(f.address)
    case City => Text(f.city)
    case PostalCode => Text(f.postalCode)
    case Country => Text(f.country)
    case PickupDate => Day(f.pickupDate)
    case PickupTime => Text(f.pickupTime)
    case SourceMaterial => Items(f.sourceMaterial)
    case SourceMaterialOther => Text(f.sourceMaterialOther)
    case Quantity => Text(f.quantity)
    case CaratSizes => Carats(f.caratSizes)
    case CutPreference => Text(f.cutPreference)
    case ColorPreference => Text(f.colorPreference)
    case SettingPreference => Items(f.settingPreference)
    case SpecialRequests => Text(f.specialRequests)
    case SignatureName => Text(f.signatureName)
    case SignatureDate => Day(f.signatureDate)
    case TermsAccepted => Flag(f.termsAccepted)
    case CreationTime => Text(f.creationTime)
  }

  /** A value of the right type for a key. */
  predicate Fits(k: Key, v: Value) {
    match k
    case PickupDate | SignatureDate => v.Day?
    case SourceMaterial | SettingPreference => v.Items?
    case CaratSizes => v.Carats?
    case TermsAccepted => v.Flag?
    case _ => v.Text?
  }

  /** `{ ...prev, [field]: value }`: the named field takes the value and
      every other field keeps its old one. */
  function Set(f: FormData, k: Key, v: Value): (r: FormData)
    requires Fits(k, v)
    ensures Get(r, k) == v
    ensures forall k' :: k' != k ==> Get(r, k') == Get(f, k')
  {
    match k
    case OrderId => f.(orderId := v.text)
    case FullName => f.(fullName := v.text)
    case Email => f.(email := v.text)
    case Phone => f.(phone := v.text)
    case Address => f.(address := v.text)
    case City => f.(city := v.text)
    case PostalCode => f.(postalCode := v.text)
    case Country => f.(country := v.text)
    case PickupDate => f.(pickupDate := v.day)
    case PickupTime => f.(pickupTime := v.text)
    case SourceMaterial => f.(sourceMaterial := v.items)
    case SourceMaterialOther => f.(sourceMaterialOther := v.text)
    case Quantity => f.(quantity := v.text)
    case CaratSizes => f.(caratSizes := v.carats)
    case CutPreference => f.(cutPreference := v.text)
    case ColorPreference => f.(colorPreference := v.text)
    case SettingPreference => f.(settingPreference := v.items)
    case SpecialRequests => f.(specialRequests := v.text)
    case SignatureName => f.(signatureName := v.text)
    case SignatureDate => f.(signatureDate := v.day)
    case TermsAccepted => f.(termsAccepted := v.flag)
    case CreationTime => f.(creationTime := v.text)
  }

  /** The keys describe the whole record: two forms that agree on every key
      are the same form, so "only the named key changed" leaves nothing
      else that could have. */
  lemma GetDeterminesForm(f: FormData, g: FormData)
    requires forall k :: Get(f, k) == Get(g, k)
    ensures f == g
  {
    assert f.orderId == g.orderId by { assert Get(f, OrderId) == Get(g, OrderId); }
    assert f.fullName == g.fullName by { assert Get(f, FullName) == Get(g, FullName); }
    assert f.email == g.email by { assert Get(f, Email) == Get(g, Email); }
    assert f.phone == g.phone by { assert Get(f, Phone) == Get(g, Phone); }
    assert f.address == g.address by { assert Get(f, Address) == Get(g, Address); }
    assert f.city == g.city by { assert Get(f, City) == Get(g, City); }
    assert f.postalCode == g.postalCode by { assert Get(f, PostalCode) == Get(g, PostalCode); }
    assert f.country == g.country by { assert Get(f, Country) == Get(g, Country); }
    assert f.pickupDate == g.pickupDate by { assert Get(f, PickupDate) == Get(g, PickupDate); }
    assert f.pickupTime == g.pickupTime by { assert Get(f, PickupTime) == Get(g, PickupTime); }
    assert f.sourceMaterial == g.sourceMaterial by { assert Get(f, SourceMaterial) == Get(g, SourceMaterial); }
    assert f.sourceMaterialOther == g.sourceMaterialOther by { assert Get(f, SourceMaterialOther) == Get(g, SourceMaterialOther); }
    assert f.quantity == g.quantity by { assert Get(f, Quantity) == Get(g, Quantity); }
    assert f.caratSizes == g.caratSizes by { assert Get(f, CaratSizes) == Get(g, CaratSizes); }
    assert f.cutPreference == g.cutPreference by { assert Get(f, CutPreference) == Get(g, CutPreference); }
    assert f.colorPreference == g.colorPreference by { assert Get(f, ColorPreference) == Get(g, ColorPreference); }
    assert f.settingPreference == g.settingPreference by { assert Get(f, SettingPreference) == Get(g, SettingPreference); }
    assert f.specialRequests == g.specialRequests by { assert Get(f, SpecialRequests) == Get(g, SpecialRequests); }
    assert f.signatureName == g.signatureName by { assert Get(f, SignatureName) == Get(g, SignatureName); }
    assert f.signatureDate == g.signatureDate by { assert Get(f, SignatureDate) == Get(g, SignatureDate); }
    assert f.termsAccepted == g.termsAccepted by { assert Get(f, TermsAccepted) == Get(g, TermsAccepted); }
    assert f.creationTime == g.creationTime by { assert Get(f, CreationTime) == Get(g, CreationTime); }
  }

  /** The wizard step whose panel renders the input bound to a key
      (`currentStep === n && ...` guards); 0 for the two keys no input
      edits. */
  function StepOf(k: Key): (n: nat)
    ensures n <= 6
    ensures n == 0 <==> k == OrderId || k == CreationTime
  {
    match k
    case FullName | Email | Phone | Address | City | PostalCode | Country => 1
    case PickupDate | PickupTime => 2
    case SourceMaterial | SourceMaterialOther | Quantity => 3
    case CaratSizes | CutPreference | ColorPreference | SettingPreference => 4
    case SpecialRequests => 5
    case SignatureName | SignatureDate | TermsAccepted => 6
    case OrderId | CreationTime => 0
  }

  /** JavaScript truthiness of a string. */
  predicate Filled(s: string) {
    s != ""
  }

  /** `Object.values(caratSizes).some(qty => qty > 0)`. */
  predicate SomeCaratOrdered(m: map<string, int>) {
    exists size :: size in m && m[size] > 0
  }

  /** `validateStep(step)`: the required fields of each step are present;
      step 5 has none; any other number fails. */
  predicate ValidateStep(step: int, f: FormData)
    ensures ValidateStep(step, f) ==> 1 <= step <= 6
    ensures step == 5 ==> ValidateStep(step, f)
  {
    match step
    case 1 =>
      Filled(f.fullName) && Filled(f.email) && Filled(f.phone) && Filled(f.address)
      && Filled(f.city) && Filled(f.postalCode) && Filled(f.country)
    case 2 => f.pickupDate.Some? && Filled(f.pickupTime)
    case 3 => |f.sourceMaterial| > 0 && Filled(f.quantity)
    case 4 =>
      SomeCaratOrdered(f.caratSizes) && Filled(f.cutPreference)
      && Filled(f.colorPreference) && |f.settingPreference| > 0
    case 5 => true
    case 6 => Filled(f.signatureName) && f.signatureDate.Some? && f.termsAccepted
    case _ => false
  }

  /** The blank form passes only step 5, so neither "Next" on step 1 nor
      the submit button can get anywhere until something is filled in. */
  lemma InitialPassesOnlyStep5(step: int)
    ensures ValidateStep(step, Initial) <==> step == 5
  {
    if step == 4 {
      assert !SomeCaratOrdered(Initial.caratSizes);
    }
  }

  /** A step's verdict reads only the fields of that step: two forms that
      agree on them get the same verdict. */
  lemma ValidateStepLocal(step: int, f: FormData, g: FormData)
    requires forall k :: StepOf(k) == step ==> Get(f, k) == Get(g, k)
    ensures ValidateStep(step, f) == ValidateStep(step, g)
  {
    match step
    case 1 => Step1Local(f, g);
    case 2 => Step2Local(f, g);
    case 3 => Step3Local(f, g);
    case 4 => Step4Local(f, g);
    case 6 => Step6Local(f, g);
    case _ =>
  }

  lemma Step1Local(f: FormData, g: FormData)
    requires forall k :: StepOf(k) == 1 ==> Get(f, k) == Get(g, k)
    ensures ValidateStep(1, f) == ValidateStep(1, g)
  {
    assert f.fullName == g.fullName by { assert StepOf(FullName) == 1; }
    assert f.email == g.email by { assert StepOf(Email) == 1; }
    assert f.phone == g.phone by { assert StepOf(Phone) == 1; }
    assert f.address == g.address by { assert StepOf(Address) == 1; }
    assert f.city == g.city by { assert StepOf(City) == 1; }
    assert f.postalCode == g.postalCode by { assert StepOf(PostalCode) == 1; }
    assert f.country == g.country by { assert StepOf(Country) == 1; }
  }

  lemma Step2Local(f: FormData, g: FormData)
    requires forall k :: StepOf(k) == 2 ==> Get(f, k) == Get(g, k)
    ensures ValidateStep(2, f) == ValidateStep(2, g)
  {
    assert f.pickupDate == g.pickupDate by { assert StepOf(PickupDate) == 2; }
    assert f.pickupTime == g.pickupTime by { assert StepOf(PickupTime) == 2; }
  }

  lemma Step3Local(f: FormData, g: FormData)
    requires forall k :: StepOf(k) == 3 ==> Get(f, k) == Get(g, k)
    ensures ValidateStep(3, f) == ValidateStep(3, g)
  {
    assert f.sourceMaterial == g.sourceMaterial by { assert StepOf(SourceMaterial) == 3; }
    assert f.quantity == g.quantity by { assert StepOf(Quantity) == 3; }
  }

  lemma Step4Local(f: FormData, g: FormData)
    requires forall k :: StepOf(k) == 4 ==> Get(f, k) == Get(g, k)
    ensures ValidateStep(4, f) == ValidateStep(4, g)
  {
    assert f.caratSizes == g.caratSizes by { assert StepOf(CaratSizes) == 4; }
    assert f.cutPreference == g.cutPreference by { assert StepOf(CutPreference) == 4; }
    assert f.colorPreference == g.colorPreference by { assert StepOf(ColorPreference) == 4; }
    assert f.settingPreference == g.settingPreference by { assert StepOf(SettingPreference) == 4; }
  }

  lemma Step6Local(f: FormData, g: FormData)
    requires forall k :: StepOf(k) == 6 ==> Get(f, k) == Get(g, k)
    ensures ValidateStep(6, f) == ValidateStep(6, g)
  {
    assert f.signatureName == g.signatureName by { assert StepOf(SignatureName) == 6; }
    assert f.signatureDate == g.signatureDate by { assert StepOf(SignatureDate) == 6; }
    assert f.termsAccepted == g.termsAccepted by { assert StepOf(TermsAccepted) == 6; }
  }

  /** Editing a field of one step leaves every other step's verdict as it
      was: this is why steps already passed stay passed while the user
      edits the current one. */
  lemma SetKeepsOtherSteps(f: FormData, k: Key, v: Value, step: int)
    requires Fits(k, v) && StepOf(k) != step
    ensures ValidateStep(step, Set(f, k, v)) == ValidateStep(step, f)
  {
    ValidateStepLocal(step, f, Set(f, k, v));
  }

  /** `handleCaratQuantityChange(size, quantity)`: the carat map gets the
      entry, every other carat entry and every other field are kept. */
  function SetCarat(f: FormData, size: string, quantity: int): (r: FormData)
    ensures r.caratSizes == f.caratSizes[size := quantity]
    ensures forall k :: k != CaratSizes ==> Get(r, k) == Get(f, k)
  {
    Set(f, CaratSizes, Carats(f.caratSizes[size := quantity]))
  }

  /** A positive quantity for any size is enough for step 4's carat
      requirement. */
  lemma PositiveCaratCounts(f: FormData, size: string, quantity: int)
    requires quantity > 0
    ensures SomeCaratOrdered(SetCarat(f, size, quantity).caratSizes)
  {
    assert SetCarat(f, size, quantity).caratSizes[size] > 0;
  }

  /** The list a key holds (only the two list keys are toggled). */
  function ItemsOf(f: FormData, k: Key): seq<string>
    requires k == SourceMaterial || k == SettingPreference
  {
    if k == SourceMaterial then f.sourceMaterial else f.settingPreference
  }

  /** What `addRecords` returns: the order id and creation time it was
      given, the content fingerprint, and the transaction hash. */
  datatype OrderResult = OrderResult(orderId: string, qrCodeData: string, timestamp: string, hash: string)

  /** The ledger's side of `addRecords` (app/server.ts): the fingerprint and
      the transaction hash, or nothing when it caught an error and
      returned `null`. */
  datatype LedgerReceipt = LedgerReceipt(qrHash: string, txHash: string)

  /** The form `handleSubmit` hands to `addRecords`: the id and the
      creation time are assigned in place first. */
  function Stamped(f: FormData, randomSuffix: string, now: string): (r: FormData)
    ensures r.orderId == "DMD-" + randomSuffix && r.creationTime == now
    ensures forall k :: StepOf(k) != 0 ==> Get(r, k) == Get(f, k)
  {
    f.(orderId := "DMD-" + randomSuffix, creationTime := now)
  }

  /** Stamping touches no field a step validates. */
  lemma StampedKeepsVerdicts(f: FormData, randomSuffix: string, now: string, step: int)
    ensures ValidateStep(step, Stamped(f, randomSuffix, now)) == ValidateStep(step, f)
  {
    if 1 <= step <= 6 {
      ValidateStepLocal(step, f, Stamped(f, randomSuffix, now));
    }
  }

  /** Every step of the wizard passes on this form. */
  ghost predicate AllStepsPass(f: FormData) {
    forall step :: 1 <= step <= 6 ==> ValidateStep(step, f)
  }

  /** The wizard component: its state is `currentStep`, `formData`,
      `isSubmitting` and `orderResult`; `submitted` records every call of
      `addRecords` with the form it was given. */
  class Wizard {
    var currentStep: int
    var formData: FormData
    var isSubmitting: bool
    var orderResult: Option<OrderResult>
    ghost var submitted: seq<FormData>

    /** The step stays in 1..6, and every step before the current one
        passes its validator. */
    ghost predicate Valid()
      reads this
    {
      && 1 <= currentStep <= 6
      && forall step :: 1 <= step < currentStep ==> ValidateStep(step, formData)
    }

    constructor ()
      ensures Valid()
      ensures currentStep == 1 && formData == Initial && !isSubmitting
      ensures orderResult == None && submitted == []
    {
      currentStep := 1;
      formData := Initial;
      isSubmitting := false;
      orderResult := None;
      submitted := [];
    }

    /** `nextStep`: advance by one exactly when the current step passes and
        is not the last. */
    method NextStep()
      requires Valid()
      modifies this`currentStep
      ensures Valid()
      ensures currentStep == if ValidateStep(old(currentStep), formData) && old(currentStep) < 6
                             then old(currentStep) + 1 else old(currentStep)
    {
      if ValidateStep(currentStep, formData) && currentStep < 6 {
        currentStep := currentStep + 1;
      }
    }

    /** `prevStep`: go back by one unless on the first step; no validation. */
    method PrevStep()
      requires Valid()
      modifies this`currentStep
      ensures Valid()
      ensures currentStep == if old(currentStep) > 1 then old(currentStep) - 1 else old(currentStep)
    {
      if currentStep > 1 {
        currentStep := currentStep - 1;
      }
    }

    /** `updateFormData(field, value)`, called from an input of the panel on
        screen, which is the panel of the field's own step. */
    method UpdateFormData(k: Key, v: Value)
      requires Valid() && Fits(k, v) && StepOf(k) == currentStep
      modifies this`formData
      ensures Valid()
      ensures formData == Set(old(formData), k, v)
    {
      ghost var before := formData;
      formData := Set(formData, k, v);
      forall step | 1 <= step < currentStep ensures ValidateStep(step, formData) {
        SetKeepsOtherSteps(before, k, v, step);
      }
    }

    /** `handleArrayToggle(field, value)` on one of the two list fields. */
    method HandleArrayToggle(k: Key, value: string)
      requires Valid() && (k == SourceMaterial || k == SettingPreference) && StepOf(k) == currentStep
      modifies this`formData
      ensures Valid()
      ensures formData == Set(old(formData), k, Items(Seqs.Toggle(ItemsOf(old(formData), k), value)))
    {
      UpdateFormData(k, Items(Seqs.Toggle(ItemsOf(formData, k), value)));
    }

    /** `handleCaratQuantityChange(size, quantity)` from the step-4 panel. */
    method HandleCaratQuantityChange(size: string, quantity: int)
      requires Valid() && currentStep == StepOf(CaratSizes)
      modifies this`formData
      ensures Valid()
      ensures formData == SetCarat(old(formData), size, quantity)
    {
      UpdateFormData(CaratSizes, Carats(formData.caratSizes[size := quantity]));
    }

    /** `handleSubmit`: nothing at all unless step 6 passes; otherwise the id
        "DMD-" + a random suffix and the creation time are written into the
        form, `addRecords` is called once with it, and its result (null on
        failure) becomes `orderResult`. */
    method HandleSubmit(randomSuffix: string, now: string, receipt: Option<LedgerReceipt>)
      requires Valid()
      modifies this
      ensures Valid() && currentStep == old(currentStep)
      ensures !ValidateStep(6, old(formData)) ==>
        formData == old(formData) && isSubmitting == old(isSubmitting)
        && orderResult == old(orderResult) && submitted == old(submitted)
      ensures ValidateStep(6, old(formData)) ==>
        && formData == Stamped(old(formData), randomSuffix, now)
        && submitted == old(submitted) + [formData]
        && !isSubmitting
        && orderResult == (if receipt.None? then None
                           else Some(OrderResult(formData.orderId, receipt.value.qrHash,
                                                 now, receipt.value.txHash)))
      ensures ValidateStep(6, old(formData)) && old(currentStep) == 6 ==>
        AllStepsPass(submitted[|submitted| - 1])
    {
      if !ValidateStep(6, formData) {
        return;
      }
      isSubmitting := true;
      ghost var before := formData;
      formData := Stamped(formData, randomSuffix, now);
      forall step | 1 <= step <= 6 ensures ValidateStep(step, formData) == ValidateStep(step, before) {
        StampedKeepsVerdicts(before, randomSuffix, now, step);
      }
      submitted := submitted + [formData];
      if receipt.None? {
        orderResult := None;
      } else {
        orderResult := Some(OrderResult(formData.orderId, receipt.value.qrHash, now, receipt.value.txHash));
      }
      isSubmitting := false;
    }
  }
}
