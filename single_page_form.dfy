// The campaign form (src/components/SinglePageForm.tsx): the validity rule,
// the record updates behind its inputs, and the submit gate.

module SinglePageForm {
  import opened FormTypes
  import opened JsText

  /** `field && field.trim().length > 0` on a string field. */
  predicate Filled(s: string) {
    |Trim(s)| > 0
  }

  /** The industry slot of the required list: the custom industry replaces
      the selection when "Other..." is selected. */
  function IndustryToCheck(d: FormData): string {
    if d.industry != OtherIndustry then d.industry else d.customIndustry
  }

  /** The required fields, in the order the form lists them. */
  function RequiredFields(d: FormData): seq<string> {
    [d.companyName, d.productDescription, d.funnelStage, d.personaJobRole,
     IndustryToCheck(d), d.keyPainPoint, d.toneOfVoice, d.phraseStyle,
     d.phraseQuantity]
  }

  /** The form's validity: every required field is non-blank after trimming,
      the pain point is 15 to 200 long and the description at most 400 long,
      both measured untrimmed in UTF-16 code units. */
  predicate IsValid(d: FormData) {
    (forall i :: 0 <= i < |RequiredFields(d)| ==> Filled(RequiredFields(d)[i])) &&
    15 <= Utf16Length(d.keyPainPoint) <= 200 &&
    Utf16Length(d.productDescription) <= 400
  }

  /** Validity, stated without trimming: each required field has a visible
      character, and the raw lengths are within bounds. */
  lemma ValidIff(d: FormData)
    ensures IsValid(d) <==>
      HasVisible(d.companyName) && HasVisible(d.productDescription) &&
      HasVisible(d.funnelStage) && HasVisible(d.personaJobRole) &&
      HasVisible(if d.industry == OtherIndustry then d.customIndustry else d.industry) &&
      HasVisible(d.keyPainPoint) && HasVisible(d.toneOfVoice) &&
      HasVisible(d.phraseStyle) && HasVisible(d.phraseQuantity) &&
      15 <= Utf16Length(d.keyPainPoint) <= 200 &&
      Utf16Length(d.productDescription) <= 400
  {
    RequiredFilledIff(d);
    TrimEmptyIff(d.companyName);
    TrimEmptyIff(d.productDescription);
    TrimEmptyIff(d.funnelStage);
    TrimEmptyIff(d.personaJobRole);
    TrimEmptyIff(IndustryToCheck(d));
    TrimEmptyIff(d.keyPainPoint);
    TrimEmptyIff(d.toneOfVoice);
    TrimEmptyIff(d.phraseStyle);
    TrimEmptyIff(d.phraseQuantity);
  }

  lemma RequiredFilledIff(d: FormData)
    ensures (forall i :: 0 <= i < |RequiredFields(d)| ==> Filled(RequiredFields(d)[i])) <==>
      Filled(d.companyName) && Filled(d.productDescription) &&
      Filled(d.funnelStage) && Filled(d.personaJobRole) &&
      Filled(IndustryToCheck(d)) && Filled(d.keyPainPoint) &&
      Filled(d.toneOfVoice) && Filled(d.phraseStyle) && Filled(d.phraseQuantity)
  {
    var req := RequiredFields(d);
    if forall i :: 0 <= i < |req| ==> Filled(req[i]) {
      assert Filled(req[0]) && Filled(req[1]) && Filled(req[2]);
      assert Filled(req[3]) && Filled(req[4]) && Filled(req[5]);
      assert Filled(req[6]) && Filled(req[7]) && Filled(req[8]);
    }
  }

  /** A valid form has a visible character in each required field. */
  lemma ValidFieldsVisible(d: FormData)
    requires IsValid(d)
    ensures HasVisible(d.companyName) && HasVisible(d.productDescription)
    ensures HasVisible(d.funnelStage) && HasVisible(d.personaJobRole)
    ensures HasVisible(d.keyPainPoint) && HasVisible(d.toneOfVoice)
    ensures HasVisible(d.phraseStyle) && HasVisible(d.phraseQuantity)
  {
    ValidIff(d);
  }

  /** With "Other..." selected the custom industry is checked in its place;
      otherwise the custom industry plays no part. */
  lemma IndustryRule(d: FormData, x: string)
    ensures d.industry == OtherIndustry && IsValid(d) ==> HasVisible(d.customIndustry)
    ensures d.industry == OtherIndustry && !HasVisible(x) ==> !IsValid(d.(customIndustry := x))
    ensures d.industry != OtherIndustry ==> (IsValid(d.(customIndustry := x)) <==> IsValid(d))
    ensures d.industry != OtherIndustry && IsValid(d) ==> HasVisible(d.industry)
  {
    ValidIff(d);
    ValidIff(d.(customIndustry := x));
  }

  /** The length bounds apply to the untrimmed text. */
  lemma ValidLengths(d: FormData)
    requires IsValid(d)
    ensures 15 <= Utf16Length(d.keyPainPoint) <= 200
    ensures Utf16Length(d.productDescription) <= 400
    ensures |d.keyPainPoint| <= 200 && 8 <= |d.keyPainPoint|
    ensures |d.productDescription| <= 400
  {
  }

  /** Product name, URL and the CTA flag never affect validity. */
  lemma OptionalFieldsIgnored(d: FormData, productName: string, companyUrl: string, includeCTA: bool)
    ensures IsValid(d.(productName := productName, companyUrl := companyUrl, includeCTA := includeCTA))
        <==> IsValid(d)
  {
    var e := d.(productName := productName, companyUrl := companyUrl, includeCTA := includeCTA);
    assert RequiredFields(e) == RequiredFields(d);
  }

  // ---------------------------------------------------------------------
  // Record updates

  /** `{ ...formData, [field]: value }`. */
  function Update(d: FormData, f: Field, v: FieldValue): (r: FormData)
    requires Fits(f, v)
    ensures Get(r, f) == v
    ensures forall g :: g != f ==> Get(r, g) == Get(d, g)
  {
    match f
    case CompanyName => d.(companyName := v.s)
    case ProductName => d.(productName := v.s)
    case ProductDescription => d.(productDescription := v.s)
    case CompanyUrl => d.(companyUrl := v.s)
    case FunnelStage => d.(funnelStage := v.s)
    case PersonaJobRole => d.(personaJobRole := v.s)
    case Industry => d.(industry := v.s)
    case CustomIndustry => d.(customIndustry := v.s)
    case KeyPainPoint => d.(keyPainPoint := v.s)
    case ToneOfVoice => d.(toneOfVoice := v.s)
    case PhraseStyle => d.(phraseStyle := v.s)
    case PhraseQuantity => d.(phraseQuantity := v.s)
    case IncludeCTA => d.(includeCTA := v.b)
  }

  /** The record `clearForm` installs (also the application's initial record). */
  function ClearedForm(): (r: FormData)
    ensures forall f :: Get(r, f) == if f == IncludeCTA then Flag(false) else Text("")
    ensures !IsValid(r)
  {
    FormData("", "", "", "", "", "", "", "", "", "", "", "", false)
  }

  /** The CTA switch: `updateFormData('includeCTA', !formData.includeCTA)`. */
  function ToggleIncludeCTA(d: FormData): (r: FormData)
    ensures r.includeCTA == !d.includeCTA
    ensures forall g :: g != IncludeCTA ==> Get(r, g) == Get(d, g)
    ensures IsValid(r) <==> IsValid(d)
  {
    OptionalFieldsIgnored(d, d.productName, d.companyUrl, !d.includeCTA);
    Update(d, IncludeCTA, Flag(!d.includeCTA))
  }

  /** Toggling twice restores the record. */
  lemma ToggleTwice(d: FormData)
    ensures ToggleIncludeCTA(ToggleIncludeCTA(d)) == d
  {
  }

  // ---------------------------------------------------------------------
  // The component: the record it edits and its `isFormValid` state, which
  // starts false and which the validity effect recomputes after every render
  // that changed the record.

  class FormComponent {
    var formData: FormData
    var isFormValid: bool

    /** The effect has run: the flag matches the current record. */
    ghost predicate Valid()
      reads this
    {
      isFormValid == IsValid(formData)
    }

    /** The first render: `useState(false)`, before the effect has run. */
    constructor (d: FormData)
      ensures formData == d && !isFormValid
    {
      formData := d;
      isFormValid := false;
    }

    /** The validity effect, run after a render with a new record. */
    method ValidityEffect()
      modifies this
      ensures formData == old(formData) && Valid()
    {
      isFormValid := IsValid(formData);
    }

    /** `setFormData(d)` followed by the validity effect. */
    method SetFormData(d: FormData)
      modifies this
      ensures formData == d && Valid()
    {
      formData := d;
      ValidityEffect();
    }

    /** `updateFormData(field, value)`. */
    method UpdateFormData(f: Field, v: FieldValue)
      requires Fits(f, v)
      modifies this
      ensures formData == Update(old(formData), f, v) && Valid()
      ensures Get(formData, f) == v
      ensures forall g :: g != f ==> Get(formData, g) == Get(old(formData), g)
    {
      SetFormData(Update(formData, f, v));
    }

    /** `clearForm()`: afterwards the form cannot be submitted. */
    method ClearForm()
      modifies this
      ensures formData == ClearedForm() && Valid() && !isFormValid
    {
      SetFormData(ClearedForm());
    }

    /** The CTA switch's click handler. */
    method ToggleCTA()
      requires Valid()
      modifies this
      ensures formData == ToggleIncludeCTA(old(formData)) && Valid()
      ensures isFormValid == old(isFormValid)
    {
      UpdateFormData(IncludeCTA, Flag(!formData.includeCTA));
    }

    /** `handleSubmit`: reports whether the handler calls `onSubmit`; nothing
        changes. It reads the flag, so before the first effect nothing is
        submitted, and once the effect has run the flag is the record's
        validity. */
    method HandleSubmit(isLoading: bool) returns (submitted: bool)
      ensures submitted <==> isFormValid && !isLoading
      ensures Valid() ==> (submitted <==> IsValid(formData) && !isLoading)
    {
      submitted := isFormValid && !isLoading;
    }
  }
}
