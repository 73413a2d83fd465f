/**
 * The two-step merchant sign-up page (src/app/signup/page.tsx): personal
 * details are checked when the merchant moves on to step 2, store details and
 * delivery types when the form is submitted.
 */
module Signup {
  import opened Wrappers
  import opened Text

  // ---------------------------------------------------------------------------
  // The e-mail pattern

  /** No character of `s` is white space: `s` would be matched by `\S*`. */
  predicate NonWhite(s: string) {
    forall i :: 0 <= i < |s| ==> !IsWhite(s[i])
  }

  /** The unanchored pattern `\S+@\S+\.\S+` matches `s[a..e]`, with the `@` at
      `p` and the `.` at `d`. */
  ghost predicate PatternMatchAt(s: string, a: int, p: int, d: int, e: int) {
    0 <= a < p && p + 1 < d && d + 1 < e <= |s|
    && NonWhite(s[a..p]) && s[p] == '@' && NonWhite(s[p + 1..d]) && s[d] == '.' && NonWhite(s[d + 1..e])
  }

  /** `/\S+@\S+\.\S+/.test(s)`: the pattern matches some substring of `s`. */
  ghost predicate EmailPattern(s: string) {
    exists a, p, d, e :: PatternMatchAt(s, a, p, d, e)
  }

  /** `t` starts with one or more non-white characters, then a `.`, then a
      non-white character: what must follow the `@`. */
  function DotTail(t: string): bool {
    |t| >= 3 && !IsWhite(t[0]) && ((t[1] == '.' && !IsWhite(t[2])) || DotTail(t[1..]))
  }

  /** A scan for a non-white character followed by `@` and a `DotTail`. */
  function EmailShape(s: string): bool {
    |s| >= 2 && ((!IsWhite(s[0]) && s[1] == '@' && DotTail(s[2..])) || EmailShape(s[1..]))
  }

  /** The `.` of a `DotTail` stands at `d`. */
  ghost predicate DotAt(t: string, d: int) {
    1 <= d && d + 1 < |t| && NonWhite(t[..d]) && t[d] == '.' && !IsWhite(t[d + 1])
  }

  lemma {:induction false} DotTailIff(t: string)
    ensures DotTail(t) <==> exists d :: DotAt(t, d)
  {
    if |t| >= 3 && !IsWhite(t[0]) {
      DotTailIff(t[1..]);
      if t[1] == '.' && !IsWhite(t[2]) {
        assert DotAt(t, 1);
      } else if DotTail(t[1..]) {
        var d :| DotAt(t[1..], d);
        assert t[..d + 1] == [t[0]] + t[1..][..d];
        assert DotAt(t, d + 1);
      }
      if exists d :: DotAt(t, d) {
        var d :| DotAt(t, d);
        if d > 1 {
          assert t[1..][..d - 1] == t[1..d];
          assert DotAt(t[1..], d - 1);
        }
      }
    }
  }

  /** The `@` of an e-mail address stands at `p`. */
  ghost predicate AtSignAt(s: string, p: int) {
    1 <= p < |s| && !IsWhite(s[p - 1]) && s[p] == '@' && DotTail(s[p + 1..])
  }

  /** A successful scan has found an `@`. */
  lemma {:induction false} EmailShapeHasAtSign(s: string)
    requires EmailShape(s)
    ensures exists p :: AtSignAt(s, p)
  {
    if !IsWhite(s[0]) && s[1] == '@' && DotTail(s[2..]) {
      assert AtSignAt(s, 1);
    } else {
      EmailShapeHasAtSign(s[1..]);
      var p :| AtSignAt(s[1..], p);
      assert s[1..][p + 1..] == s[p + 2..];
      assert AtSignAt(s, p + 1);
    }
  }

  /** The scan finds any `@` that there is. */
  lemma {:induction false} AtSignGivesEmailShape(s: string, p: int)
    requires AtSignAt(s, p)
    ensures EmailShape(s)
    decreases p
  {
    if p > 1 {
      assert s[1..][p..] == s[p + 1..];
      assert AtSignAt(s[1..], p - 1);
      AtSignGivesEmailShape(s[1..], p - 1);
    }
  }

  lemma EmailShapeIffAtSign(s: string)
    ensures EmailShape(s) <==> exists p :: AtSignAt(s, p)
  {
    if EmailShape(s) {
      EmailShapeHasAtSign(s);
    }
    if exists p :: AtSignAt(s, p) {
      var p :| AtSignAt(s, p);
      AtSignGivesEmailShape(s, p);
    }
  }

  lemma AtSignIffPattern(s: string)
    ensures (exists p :: AtSignAt(s, p)) <==> EmailPattern(s)
  {
    if exists p :: AtSignAt(s, p) {
      var p :| AtSignAt(s, p);
      var t := s[p + 1..];
      DotTailIff(t);
      var d' :| DotAt(t, d');
      var d := p + 1 + d';
      assert t[..d'] == s[p + 1..d];
      assert PatternMatchAt(s, p - 1, p, d, d + 2);
    }
    if EmailPattern(s) {
      var a, p, d, e :| PatternMatchAt(s, a, p, d, e);
      var t := s[p + 1..];
      assert t[..d - (p + 1)] == s[p + 1..d];
      assert s[d + 1..e][0] == s[d + 1];
      assert DotAt(t, d - (p + 1));
      DotTailIff(t);
      assert s[a..p][p - 1 - a] == s[p - 1];
      assert AtSignAt(s, p);
    }
  }

  /** The scan decides the pattern. */
  lemma EmailShapeIffPattern(s: string)
    ensures EmailShape(s) <==> EmailPattern(s)
  {
    EmailShapeIffAtSign(s);
    AtSignIffPattern(s);
  }

  // ---------------------------------------------------------------------------
  // Form data

  /** The three delivery speeds a store can offer, in the order of their keys. */
  datatype DeliveryType = SuperFast | Fast | Normal

  /** The `deliveryTypes` object: one check box per speed. */
  datatype DeliveryTypes = DeliveryTypes(superFast: bool, fast: bool, normal: bool)

  /** The check box of `t` is ticked. */
  function Selected(d: DeliveryTypes, t: DeliveryType): bool {
    match t
    case SuperFast => d.superFast
    case Fast => d.fast
    case Normal => d.normal
  }

  /** `{ ...deliveryTypes, [t]: checked }`: `t` takes the new value, the others keep theirs. */
  function SetDeliveryType(d: DeliveryTypes, t: DeliveryType, checked: bool): (r: DeliveryTypes)
    ensures Selected(r, t) == checked
    ensures forall u :: u != t ==> Selected(r, u) == Selected(d, u)
  {
    match t
    case SuperFast => d.(superFast := checked)
    case Fast => d.(fast := checked)
    case Normal => d.(normal := checked)
  }

  /** The sign-up form's fields. */
  datatype SignupForm = SignupForm(
    firstName: string,
    lastName: string,
    email: string,
    phone: string,
    password: string,
    confirmPassword: string,
    agreeToTerms: bool,
    marketingEmails: bool,
    storeName: string,
    storeLocation: string,
    deliveryTypes: DeliveryTypes)

  function InitialSignupForm(): SignupForm {
    SignupForm("", "", "", "", "", "", false, false, "", "", DeliveryTypes(false, false, false))
  }

  // ---------------------------------------------------------------------------
  // Step 1

  const MIN_PASSWORD_LENGTH := 8

  /** The reasons step 1 is refused, one per check. */
  datatype Step1Error = MissingEmail | MalformedEmail | MissingPhone | ShortPassword | PasswordMismatch

  /** The position of each step-1 check in the order they are run. */
  function Step1Index(e: Step1Error): nat {
    match e
    case MissingEmail => 0
    case MalformedEmail => 1
    case MissingPhone => 2
    case ShortPassword => 3
    case PasswordMismatch => 4
  }

  /** The step-1 check `e` fails on `f`. */
  ghost predicate Step1Fails(f: SignupForm, e: Step1Error) {
    match e
    case MissingEmail => f.email == []
    case MalformedEmail => !EmailPattern(f.email)
    case MissingPhone => f.phone == []
    case ShortPassword => |f.password| < MIN_PASSWORD_LENGTH
    case PasswordMismatch => f.password != f.confirmPassword
  }

  /** `validateStep1`: the first failing check on the personal details, if any. */
  function ValidateStep1(f: SignupForm): Option<Step1Error> {
    if f.email == [] then Some(MissingEmail)
    else if !EmailShape(f.email) then Some(MalformedEmail)
    else if f.phone == [] then Some(MissingPhone)
    else if |f.password| < MIN_PASSWORD_LENGTH then Some(ShortPassword)
    else if f.password != f.confirmPassword then Some(PasswordMismatch)
    else None
  }

  /** Step 1 reports the first of its checks that fails, and reports nothing
      exactly when none fails. */
  lemma ValidateStep1FirstFailure(f: SignupForm)
    ensures ValidateStep1(f).Some? ==> Step1Fails(f, ValidateStep1(f).value)
    ensures ValidateStep1(f).Some? ==>
      forall e :: Step1Index(e) < Step1Index(ValidateStep1(f).value) ==> !Step1Fails(f, e)
    ensures ValidateStep1(f).None? <==> forall e :: !Step1Fails(f, e)
  {
    EmailShapeIffPattern(f.email);
    if f.email == [] {
      assert Step1Fails(f, MissingEmail);
    } else if !EmailShape(f.email) {
      assert Step1Fails(f, MalformedEmail);
    } else if f.phone == [] {
      assert Step1Fails(f, MissingPhone);
    } else if |f.password| < MIN_PASSWORD_LENGTH {
      assert Step1Fails(f, ShortPassword);
    } else if f.password != f.confirmPassword {
      assert Step1Fails(f, PasswordMismatch);
    }
  }

  lemma Step1AcceptsExactly(f: SignupForm)
    ensures ValidateStep1(f) == None
        <==> EmailPattern(f.email) && f.phone != [] && |f.password| >= MIN_PASSWORD_LENGTH
             && f.password == f.confirmPassword
  {
    ValidateStep1FirstFailure(f);
    var r := ValidateStep1(f);
    if r == None {
      assert !Step1Fails(f, MalformedEmail) && !Step1Fails(f, MissingPhone);
      assert !Step1Fails(f, ShortPassword) && !Step1Fails(f, PasswordMismatch);
    }
  }

  /** An address with a space before the `@` only is still accepted when a
      well-formed part follows: the pattern is not anchored. */
  lemma UnanchoredExample()
    ensures EmailPattern("my shop@store.in")
  {
    var s := "my shop@store.in";
    assert s[6..7] == "p" && s[8..13] == "store" && s[14..16] == "in";
    assert PatternMatchAt(s, 6, 7, 13, 16);
  }

  /** A tail after the `@` contains a dot. */
  lemma {:induction false} DotTailHasDot(t: string)
    requires DotTail(t)
    ensures '.' in t
  {
    if t[1] == '.' {
      assert t[1] in t;
    } else {
      DotTailHasDot(t[1..]);
      var k :| 0 <= k < |t[1..]| && t[1..][k] == '.';
      assert t[k + 1] == '.';
    }
  }

  /** An address the scan accepts contains an `@` and, after it, a dot. */
  lemma {:induction false} EmailShapeNeedsAtAndDot(s: string)
    requires EmailShape(s)
    ensures exists p :: 0 <= p < |s| && s[p] == '@' && '.' in s[p + 1..]
  {
    if !IsWhite(s[0]) && s[1] == '@' && DotTail(s[2..]) {
      DotTailHasDot(s[2..]);
    } else {
      EmailShapeNeedsAtAndDot(s[1..]);
      var p :| 0 <= p < |s[1..]| && s[1..][p] == '@' && '.' in s[1..][p + 1..];
      assert s[1..][p + 1..] == s[p + 2..];
      assert s[p + 1] == '@';
    }
  }

  /** An address without a dot is refused. */
  lemma NoDotRefused()
    ensures !EmailShape("shop@store")
  {
    var s := "shop@store";
    if EmailShape(s) {
      EmailShapeNeedsAtAndDot(s);
    }
  }

  // ---------------------------------------------------------------------------
  // Step 2

  /** The reasons step 2 is refused, one per check. */
  datatype Step2Error = MissingStoreName | MissingStoreLocation | NoDeliveryType

  function Step2Index(e: Step2Error): nat {
    match e
    case MissingStoreName => 0
    case MissingStoreLocation => 1
    case NoDeliveryType => 2
  }

  /** `Object.values(deliveryTypes).some(type => type === true)`. */
  predicate HasDeliveryType(d: DeliveryTypes) {
    d.superFast || d.fast || d.normal
  }

  /** Some delivery type is ticked exactly when one of the three boxes is. */
  lemma HasDeliveryTypeIff(d: DeliveryTypes)
    ensures HasDeliveryType(d) <==> exists t :: Selected(d, t)
  {
    if HasDeliveryType(d) {
      if d.superFast {
        assert Selected(d, SuperFast);
      } else if d.fast {
        assert Selected(d, Fast);
      } else {
        assert Selected(d, Normal);
      }
    }
  }

  /** The step-2 check `e` fails on `f`. */
  predicate Step2Fails(f: SignupForm, e: Step2Error) {
    match e
    case MissingStoreName => Blank(f.storeName)
    case MissingStoreLocation => Blank(f.storeLocation)
    case NoDeliveryType => !HasDeliveryType(f.deliveryTypes)
  }

  /** Each step-2 check, as the page writes it, fails exactly when its
      condition does. */
  lemma Step2ChecksMeaning(f: SignupForm)
    ensures Step2Fails(f, MissingStoreName) <==> Trim(f.storeName) == []
    ensures Step2Fails(f, MissingStoreLocation) <==> Trim(f.storeLocation) == []
    ensures Step2Fails(f, NoDeliveryType) <==> !HasDeliveryType(f.deliveryTypes)
  {
    TrimEmptyIffBlank(f.storeName);
    TrimEmptyIffBlank(f.storeLocation);
  }

  /** `validateStep2`: the first failing check on the store details, if any. */
  function ValidateStep2(f: SignupForm): (r: Option<Step2Error>)
    ensures r.Some? ==> Step2Fails(f, r.value)
    ensures r.Some? ==> forall e :: Step2Index(e) < Step2Index(r.value) ==> !Step2Fails(f, e)
    ensures r.None? <==> forall e :: !Step2Fails(f, e)
  {
    Step2ChecksMeaning(f);
    if Trim(f.storeName) == [] then Some(MissingStoreName)
    else if Trim(f.storeLocation) == [] then Some(MissingStoreLocation)
    else if !HasDeliveryType(f.deliveryTypes) then Some(NoDeliveryType)
    else None
  }

  // ---------------------------------------------------------------------------
  // The labels of the chosen delivery types

  /** The position of each key in the `deliveryTypes` object. */
  function KeyIndex(t: DeliveryType): nat {
    match t
    case SuperFast => 0
    case Fast => 1
    case Normal => 2
  }

  /** The label shown for each delivery type. */
  function Label(t: DeliveryType): string {
    match t
    case SuperFast => "Super Fast (15 mins)"
    case Fast => "Fast (30 mins)"
    case Normal => "Normal (60 mins)"
  }

  /** Different delivery types have different labels. */
  lemma LabelInjective(s: DeliveryType, t: DeliveryType)
    ensures Label(s) == Label(t) ==> s == t
  {
  }

  /** `Object.entries(deliveryTypes).filter(...)`: the ticked keys, in key order. */
  function SelectedKeys(d: DeliveryTypes): (r: seq<DeliveryType>)
    ensures forall t :: t in r <==> Selected(d, t)
    ensures forall i, j :: 0 <= i < j < |r| ==> KeyIndex(r[i]) < KeyIndex(r[j])
  {
    (if d.superFast then [SuperFast] else [])
    + (if d.fast then [Fast] else [])
    + (if d.normal then [Normal] else [])
  }

  /** `selectedDeliveryTypes`: the labels of the ticked keys, in key order. */
  function SelectedDeliveryTypes(d: DeliveryTypes): (r: seq<string>)
    ensures |r| == |SelectedKeys(d)|
    ensures forall i :: 0 <= i < |r| ==> r[i] == Label(SelectedKeys(d)[i])
  {
    var keys := SelectedKeys(d);
    seq(|keys|, i requires 0 <= i < |keys| => Label(keys[i]))
  }

  /** A delivery type's label is listed exactly when its box is ticked, and a
      store that passed step 2 lists at least one label. */
  lemma SelectedLabelsMeaning(d: DeliveryTypes, t: DeliveryType)
    ensures Label(t) in SelectedDeliveryTypes(d) <==> Selected(d, t)
    ensures HasDeliveryType(d) <==> SelectedDeliveryTypes(d) != []
  {
    var keys := SelectedKeys(d);
    var r := SelectedDeliveryTypes(d);
    if Label(t) in r {
      var i :| 0 <= i < |r| && r[i] == Label(t);
      LabelInjective(keys[i], t);
    }
    if Selected(d, t) {
      var i :| 0 <= i < |keys| && keys[i] == t;
      assert r[i] == Label(t);
    }
    if HasDeliveryType(d) {
      if d.superFast {
        assert SuperFast in keys;
      } else if d.fast {
        assert Fast in keys;
      } else {
        assert Normal in keys;
      }
    }
  }

  /** A store that passed step 2 lists at least one delivery label. */
  lemma AcceptedStoreHasLabels(f: SignupForm)
    requires ValidateStep2(f) == None
    ensures SelectedDeliveryTypes(f.deliveryTypes) != []
  {
    assert !Step2Fails(f, NoDeliveryType);
    assert HasDeliveryType(f.deliveryTypes);
    SelectedLabelsMeaning(f.deliveryTypes, SuperFast);
  }

  // ---------------------------------------------------------------------------
  // The page

  const LOGIN_PATH := "/login"

  /** What a submission ends in. */
  datatype SubmitOutcome =
    | Refused(error: Step2Error)
    | AccountCreated(storeName: string, deliveryLabels: seq<string>, redirectTo: string)

  /** What submitting the form `f` ends in: the first failing step-2 check, or
      an account for the store with the labels of the ticked delivery types (at
      least one) and a redirect to the login page. */
  function SubmitOutcomeOf(f: SignupForm): (r: SubmitOutcome)
    ensures r.Refused? <==> ValidateStep2(f).Some?
    ensures r.Refused? ==> r.error == ValidateStep2(f).value
    ensures r.AccountCreated? ==> r.storeName == f.storeName && r.redirectTo == LOGIN_PATH
    ensures r.AccountCreated? ==> r.deliveryLabels == SelectedDeliveryTypes(f.deliveryTypes) && r.deliveryLabels != []
  {
    var error := ValidateStep2(f);
    if error.Some? then Refused(error.value)
    else
      AcceptedStoreHasLabels(f);
      AccountCreated(f.storeName, SelectedDeliveryTypes(f.deliveryTypes), LOGIN_PATH)
  }

  class SignupPage {
    var formData: SignupForm
    var formStep: int
    var isLoading: bool

    /** The page shows step 1 or step 2, and shows step 2 only with personal
        details that passed step 1. */
    ghost predicate Valid()
      reads this`formStep, this`formData
    {
      (formStep == 1 || formStep == 2)
      && (formStep == 2 ==> ValidateStep1(formData) == None)
    }

    constructor ()
      ensures formData == InitialSignupForm() && formStep == 1 && !isLoading && Valid()
    {
      formData := InitialSignupForm();
      formStep := 1;
      isLoading := false;
    }

    /** `handleDeliveryTypeChange(type, checked)`: only that box changes. */
    method HandleDeliveryTypeChange(t: DeliveryType, checked: bool)
      requires Valid()
      modifies this
      ensures Valid()
      ensures formData == old(formData).(deliveryTypes := SetDeliveryType(old(formData.deliveryTypes), t, checked))
      ensures formStep == old(formStep) && isLoading == old(isLoading)
    {
      formData := formData.(deliveryTypes := SetDeliveryType(formData.deliveryTypes, t, checked));
    }

    /** `handleNext`: move to step 2 exactly when step 1 passes. */
    method HandleNext() returns (error: Option<Step1Error>)
      requires Valid()
      modifies this
      ensures Valid()
      ensures error == ValidateStep1(formData)
      ensures formStep == if error.None? then 2 else old(formStep)
      ensures formData == old(formData) && isLoading == old(isLoading)
    {
      error := ValidateStep1(formData);
      if error.None? {
        formStep := 2;
      }
    }

    /** `handleBack`: return to step 1, keeping what was typed. */
    method HandleBack()
      requires Valid()
      modifies this
      ensures Valid()
      ensures formStep == 1
      ensures formData == old(formData) && isLoading == old(isLoading)
    {
      formStep := 1;
    }

    /** `handleSubmit`: a refused step 2 returns before the page starts loading;
        otherwise loading starts, the account is created, and loading ends. */
    method HandleSubmit() returns (outcome: SubmitOutcome)
      modifies this`isLoading
      ensures formData == old(formData) && formStep == old(formStep)
      ensures outcome == SubmitOutcomeOf(formData)
      ensures outcome.Refused? ==> isLoading == old(isLoading)
      ensures outcome.AccountCreated? ==> !isLoading
    {
      outcome := SubmitOutcomeOf(formData);
      if outcome.Refused? {
        return;
      }
      isLoading := true;
      isLoading := false;
    }
  }
}
