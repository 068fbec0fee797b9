// The records and option lists shared by the form, the prompt builder and the
// result list (src/types/form.ts).

module FormTypes {

  datatype Option<+T> = None | Some(value: T)

  /** JavaScript truthiness of an optional string: present and not empty. */
  predicate Truthy(o: Option<string>) {
    o.Some? && o.value != ""
  }

  /** The campaign brief the form collects: twelve text fields and one flag. */
  datatype FormData = FormData(
    // The hero (company and product)
    companyName: string,
    productName: string,
    productDescription: string,
    companyUrl: string,
    // The audience (campaign context)
    funnelStage: string,
    personaJobRole: string,
    industry: string,
    customIndustry: string,
    keyPainPoint: string,
    toneOfVoice: string,
    // The output (customization)
    phraseStyle: string,
    phraseQuantity: string,
    includeCTA: bool)

  /** One generated card; `cta` is the optional property of the record. */
  datatype GeneratedPhrase = GeneratedPhrase(
    id: string,
    brandedPhrase: string,
    meaning: string,
    linkedinExample: string,
    proTip: string,
    cta: Option<string>)

  /** The keys of FormData (`keyof FormData`), in declaration order. */
  datatype Field =
    | CompanyName | ProductName | ProductDescription | CompanyUrl
    | FunnelStage | PersonaJobRole | Industry | CustomIndustry
    | KeyPainPoint | ToneOfVoice | PhraseStyle | PhraseQuantity
    | IncludeCTA

  /** A value stored in a FormData field: `string | boolean`. */
  datatype FieldValue = Text(s: string) | Flag(b: bool)

  const AllFields: seq<Field> :=
    [CompanyName, ProductName, ProductDescription, CompanyUrl,
     FunnelStage, PersonaJobRole, Industry, CustomIndustry,
     KeyPainPoint, ToneOfVoice, PhraseStyle, PhraseQuantity,
     IncludeCTA]

  /** The position of a field in declaration order. */
  function FieldIndex(f: Field): (i: nat)
    ensures i < |AllFields| && AllFields[i] == f
  {
    match f
    case CompanyName => 0
    case ProductName => 1
    case ProductDescription => 2
    case CompanyUrl => 3
    case FunnelStage => 4
    case PersonaJobRole => 5
    case Industry => 6
    case CustomIndustry => 7
    case KeyPainPoint => 8
    case ToneOfVoice => 9
    case PhraseStyle => 10
    case PhraseQuantity => 11
    case IncludeCTA => 12
  }

  /** The kind of value a field holds: every field but includeCTA is a string. */
  predicate Fits(f: Field, v: FieldValue) {
    if f == IncludeCTA then v.Flag? else v.Text?
  }

  /** Reads one field of the record, `formData[field]`. */
  function Get(d: FormData, f: Field): (v: FieldValue)
    ensures Fits(f, v)
  {
    match f
    case CompanyName => Text(d.companyName)
    case ProductName => Text(d.productName)
    case ProductDescription => Text(d.productDescription)
    case CompanyUrl => Text(d.companyUrl)
    case FunnelStage => Text(d.funnelStage)
    case PersonaJobRole => Text(d.personaJobRole)
    case Industry => Text(d.industry)
    case CustomIndustry => Text(d.customIndustry)
    case KeyPainPoint => Text(d.keyPainPoint)
    case ToneOfVoice => Text(d.toneOfVoice)
    case PhraseStyle => Text(d.phraseStyle)
    case PhraseQuantity => Text(d.phraseQuantity)
    case IncludeCTA => Flag(d.includeCTA)
  }

  /** FormData is exactly twelve string fields plus the boolean includeCTA,
      and two records that agree on every field are the same record. */
  lemma FormDataShape(d: FormData, e: FormData)
    ensures |AllFields| == 13
    ensures forall i, j :: 0 <= i < j < |AllFields| ==> AllFields[i] != AllFields[j]
    ensures forall f: Field :: f in AllFields
    ensures forall i :: 0 <= i < |AllFields| ==> (Get(d, AllFields[i]).Text? <==> i < 12)
    ensures (forall f: Field :: Get(d, f) == Get(e, f)) ==> d == e
  {
    forall f: Field ensures f in AllFields {
      assert AllFields[FieldIndex(f)] == f;
    }
    if forall f: Field :: Get(d, f) == Get(e, f) {
      assert Get(d, CompanyName) == Get(e, CompanyName);
      assert Get(d, ProductName) == Get(e, ProductName);
      assert Get(d, ProductDescription) == Get(e, ProductDescription);
      assert Get(d, CompanyUrl) == Get(e, CompanyUrl);
      assert Get(d, FunnelStage) == Get(e, FunnelStage);
      assert Get(d, PersonaJobRole) == Get(e, PersonaJobRole);
      assert Get(d, Industry) == Get(e, Industry);
      assert Get(d, CustomIndustry) == Get(e, CustomIndustry);
      assert Get(d, KeyPainPoint) == Get(e, KeyPainPoint);
      assert Get(d, ToneOfVoice) == Get(e, ToneOfVoice);
      assert Get(d, PhraseStyle) == Get(e, PhraseStyle);
      assert Get(d, PhraseQuantity) == Get(e, PhraseQuantity);
      assert Get(d, IncludeCTA) == Get(e, IncludeCTA);
    }
  }

  // ---------------------------------------------------------------------
  // Sentinel values the other components branch on

  const OtherIndustry: string := "Other..."
  const BrandedNeologism: string := "Branded Neologism"
  const DescriptiveTagline: string := "Descriptive Tagline"
  const SmallQuantity: string := "1-2"
  const LargeQuantity: string := "5-10"

  // ---------------------------------------------------------------------
  // Option lists

  const FunnelStages: seq<string> := ["Awareness", "Consideration", "Conversion"]

  const Industries: seq<string> :=
    ["SaaS", "EdTech", "E-commerce", "HR Tech", "B2B Services", "HealthTech",
     "Cybersecurity", "Nonprofit", "Startup", "Enterprise", OtherIndustry]

  const ToneOptions: seq<string> :=
    ["Bold & Confident", "Empathetic & Understanding", "Quirky & Fun",
     "Frustration-to-Hope", "Friendly & Professional", "Humorous", "Inspiring"]

  datatype StyleOption = StyleOption(value: string, displayLabel: string, description: string)
  datatype QuantityOption = QuantityOption(value: string, displayLabel: string)

  const PhraseStyles: seq<StyleOption> :=
    [StyleOption(BrandedNeologism, BrandedNeologism,
                 "Short, clever invented words (e.g., \"Wix-tory\")"),
     StyleOption(DescriptiveTagline, DescriptiveTagline,
                 "Longer marketing slogans (5-10 words)")]

  const PhraseQuantities: seq<QuantityOption> :=
    [QuantityOption(SmallQuantity, "1\U{2013}2 phrases"),
     QuantityOption(LargeQuantity, "5\U{2013}10 phrases")]

  function StyleValues(): (r: seq<string>)
    ensures |r| == |PhraseStyles|
    ensures forall i :: 0 <= i < |r| ==> r[i] == PhraseStyles[i].value
  {
    seq(|PhraseStyles|, i requires 0 <= i < |PhraseStyles| => PhraseStyles[i].value)
  }

  function QuantityValues(): (r: seq<string>)
    ensures |r| == |PhraseQuantities|
    ensures forall i :: 0 <= i < |r| ==> r[i] == PhraseQuantities[i].value
  {
    seq(|PhraseQuantities|, i requires 0 <= i < |PhraseQuantities| => PhraseQuantities[i].value)
  }

  /** Three distinct funnel stages. */
  lemma FunnelStagesDistinct()
    ensures FunnelStages == ["Awareness", "Consideration", "Conversion"]
    ensures forall i, j :: 0 <= i < j < |FunnelStages| ==> FunnelStages[i] != FunnelStages[j]
  {
  }

  /** "Other..." is the last industry and appears nowhere else in the list. */
  lemma OtherIsLastIndustry()
    ensures |Industries| == 11 && Industries[|Industries| - 1] == OtherIndustry
    ensures forall i :: 0 <= i < |Industries| - 1 ==> Industries[i] != OtherIndustry
  {
  }

  /** The style values are exactly the two branch keys of the prompt builder. */
  /** The tone list offers seven distinct tones. */
  lemma ToneOptionsDistinct()
    ensures |ToneOptions| == 7
    ensures forall i, j :: 0 <= i < j < |ToneOptions| ==> ToneOptions[i] != ToneOptions[j]
  {
  }

  lemma StyleValuesAreBranchKeys()
    ensures StyleValues() == [BrandedNeologism, DescriptiveTagline]
    ensures BrandedNeologism != DescriptiveTagline
  {
  }

  /** The quantity values are exactly "1-2" and "5-10". */
  lemma QuantityValuesExact()
    ensures QuantityValues() == [SmallQuantity, LargeQuantity]
    ensures SmallQuantity != LargeQuantity
  {
  }
}
