// The pure half of src/App.tsx: what a brief resolves to (item count,
// primary brand, industry), the instruction text sent for a batch and for a
// single regeneration, and the output schema sent with each.
//
// A prompt is a sequence of keyed lines; the rendered text is the lines
// joined by newlines. The fixed wording is a parameter (`Copy`), so every
// property below holds whatever the words are; `AppCopy` holds the app's own
// wording, with its fixed parts shortened by "..." and the words right around
// each interpolated value kept.

module Prompt {
  import opened FormTypes
  import opened JsText

  // ---------------------------------------------------------------------
  // Values resolved from the brief

  /** `phraseQuantity === '1-2' ? 2 : 8` (also the loading skeleton's count). */
  function PhraseCount(quantity: string): nat {
    if quantity == SmallQuantity then 2 else 8
  }

  /** The quantity bucket decides the count: "1-2" asks for 2, any other value
      (the other listed option "5-10" among them) for 8. */
  lemma PhraseCountRule(quantity: string)
    ensures PhraseCount(quantity) == 2 <==> quantity == SmallQuantity
    ensures PhraseCount(quantity) == 8 <==> quantity != SmallQuantity
    ensures PhraseCount(LargeQuantity) == 8
    ensures forall i :: 0 <= i < |PhraseQuantities| ==>
              PhraseCount(PhraseQuantities[i].value) in {2, 8}
  {
  }

  /** `productName || companyName`: an empty product name is falsy. */
  function PrimaryBrand(d: FormData): string {
    if d.productName != "" then d.productName else d.companyName
  }

  /** `industry === 'Other...' ? customIndustry : industry`. */
  function ResolvedIndustry(d: FormData): string {
    if d.industry == OtherIndustry then d.customIndustry else d.industry
  }

  /** `value || 'Not provided'`. */
  function OrNotProvided(s: string): string {
    if s != "" then s else "Not provided"
  }

  /** An empty value is replaced by "Not provided"; a typed one is kept, so
      the interpolated text is never empty. */
  lemma OrNotProvidedRule(s: string)
    ensures OrNotProvided(s) != ""
    ensures s != "" ==> OrNotProvided(s) == s
    ensures s == "" ==> OrNotProvided(s) == "Not provided"
  {
  }

  /** The brand rule as a caller sees it: the product name whenever one was
      typed, the company name otherwise; the custom industry exactly when
      "Other..." is selected. */
  lemma ResolutionRules(d: FormData)
    ensures PrimaryBrand(d) == d.productName <==> (d.productName != "" || d.companyName == "")
    ensures d.productName == "" ==> PrimaryBrand(d) == d.companyName
    ensures d.industry == OtherIndustry ==> ResolvedIndustry(d) == d.customIndustry
    ensures d.industry != OtherIndustry ==> ResolvedIndustry(d) == d.industry
    ensures d.industry != OtherIndustry ==> ResolvedIndustry(d.(customIndustry := "")) == d.industry
  {
  }

  // ---------------------------------------------------------------------
  // Fixed copy

  /** The fixed wording of both prompts: every piece of text that does not
      come from the brief. The prompts are defined for any wording, so the
      properties below do not hang on the exact words; `AppCopy` is the
      app's own. */
  datatype Copy = Copy(
    // lines only the batch prompt has, or writes its own way
    batchIntro: string, batchCreativeModel: string, batchToneTail: string,
    batchGlobalRule: string, batchRulesHeading: string,
    batchHeroHead: string, batchHeroTail: string, batchNoNegativity: string,
    batchFallback: string, batchLinkedinHead: string, batchTransformHead: string,
    batchSelfCorrection: string,
    batchProTipHead: string, batchProTipMiddle: string, batchProTipTail: string,
    urlLabel: string, uniquenessHead: string, uniquenessTail: string, ctaRuleLabel: string,
    itemsHeading: string, styleItemHead: string, styleItemTail: string, meaningItem: string,
    linkedinItemHead: string, linkedinItemTail: string,
    proTipItemHead: string, proTipItemTail: string, ctaBullet: string,
    closingHead: string, closingMiddle: string, closingTail: string,
    // lines only the single-phrase prompt has, or writes its own way
    regenerateIntro: string, regenerateCreativeModel: string, regenerateToneTail: string,
    regenerateGlobalRule: string, regenerateRulesHeading: string,
    regenerateHeroHead: string, regenerateHeroTail: string, regenerateNoNegativity: string,
    regenerateLinkedinHead: string, regenerateTransformHead: string,
    regenerateSelfCorrection: string, regenerateProTipHead: string, regenerateProTipTail: string,
    regenerateClosing: string,
    // wording both prompts share
    toneDirectiveHead: string,
    companyHeading: string, companyLabel: string, productLabel: string, brandLabel: string,
    descriptionLabel: string,
    audienceHeading: string, funnelLabel: string, personaLabel: string, personaJoin: string,
    painLabel: string, toneLabel: string,
    styleHeading: string, styleLabel: string, neologismFormat: string, taglineFormat: string,
    priorityLabel: string, preferProduct: string, productOverCompany: string,
    companyIfBetter: string, useCompany: string, companyForWordplay: string,
    styleRuleHead: string, styleRuleTail: string,
    toneClose: string, transformTail: string, quoteClose: string,
    noCtaDirective: string, includeA: string, ctaExamples: string)

  /** The app's wording. Fixed wording is shortened with "..." wherever it
      stands, in lines that interpolate a value as well as in lines that do
      not; the words right around each interpolated value are kept. */
  const AppCopy: Copy := Copy(
    "You are an expert LinkedIn copywriter ...",
    "CREATIVE MODEL: Generate phrases that are not just clever ...",
    ") is the most important stylistic filter ... about current struggles.",
    "MANDATORY GLOBAL RULE: Each generated phrase card MUST be completely unique. ...",
    "CRITICAL REQUIREMENTS - FOLLOW THESE HARD RULES:",
    "1. HERO RULE: The brand (", ") is ALWAYS the hero. ...",
    "2. NO NEGATIVITY RULE: ...",
    "5. FALLBACK: ...",
    "6. LINKEDIN EXAMPLE SENTENCE ... the selected Tone of Voice (",
    "7. TRANSFORMATION LOGIC: Convert \"",
    "SELF-CORRECTION CHECK: Before finalizing the sentence, ...",
    "8. PRO TIP MANDATORY RULE: MUST be explicitly tailored to \"",
    "\". Start the sentence by directly addressing the persona (e.g., \"For a ",
    ", the key is to...\") ...",
    "- URL: ",
    "9. UNIQUENESS ENFORCEMENT: Ensure each of the ", " cards has completely different approaches ...",
    "10. CTA GENERATION: ",
    "For each phrase, provide:",
    "- brandedPhrase: The ", " following the format requirements ...",
    "- meaning: Short explanation of what it conveys ...",
    "- linkedinExample: ... the exact pain point \"", "\" and positions the branded phrase as the solution ...",
    "- proTip: Strategic advice starting with \"For a ", ", the key is to...\" ...",
    "- cta: Funnel-stage aligned call to action (must be unique from other cards)",
    "Generate exactly ", " completely unique, creative phrases that make ",
    " the hero and directly solve the exact pain point \"",
    "Generate 1 new branded phrase following the same CRITICAL REQUIREMENTS ...",
    "CREATIVE MODEL: Generate phrases that are strategic ...",
    ") is the most important stylistic filter ... framing of the message.",
    "MANDATORY GLOBAL RULE: This phrase card MUST be completely unique ...",
    "CRITICAL REQUIREMENTS:",
    "1. HERO RULE: ", " is ALWAYS the hero with positive, empowering connotations",
    "2. NO NEGATIVITY: ...",
    "5. LINKEDIN EXAMPLE SENTENCE ... the selected Tone of Voice (",
    "6. TRANSFORMATION LOGIC: Convert \"",
    "7. SELF-CORRECTION CHECK: ...",
    "8. PRO TIP MANDATORY RULE: MUST start with \"For a ", ", the key is to...\" ...",
    "Create a completely different phrase than the existing ones, ...",
    "MANDATORY TONE DIRECTIVE: The selected Tone of Voice (",
    "COMPANY CONTEXT:", "- Company Name: ", "- Product Name: ", "- Primary Brand for Phrases: ",
    "- Description: ",
    "TARGET AUDIENCE:", "- Funnel Stage: ", "- Persona: ", " in ",
    "- Pain Point: ", "- Tone: ",
    "PHRASE STYLE REQUIREMENT:", "- Selected Style: ",
    "- FORMAT: Create short, clever neologisms ...",
    "- FORMAT: Create slightly longer, more descriptive marketing slogans ...",
    "3. BRAND PRIORITIZATION: ", "PRIORITIZE the Product Name \"",
    "\" for wordplay ... Only use the Company Name \"", "\" if it creates a better phrase.",
    "Use the Company Name \"", "\" for branded wordplay.",
    "4. PHRASE STYLE ENFORCEMENT: The \"Branded Phrase\" field MUST follow the ",
    " format exactly as specified above. ...",
    ").", "\" into a direct, third-person question or statement. ...", "\".",
    "Do not include CTAs", "Include a ", "-stage aligned CTA (e.g., ...). Each CTA must be unique.")

  /** What the branch lemmas need of a wording: the two formats differ, the
      two CTA directives start differently and the cta bullet is not empty. */
  predicate BranchesDiffer(c: Copy) {
    && c.neologismFormat != c.taglineFormat
    && |c.includeA| > 0 && |c.noCtaDirective| > 0 && c.includeA[0] != c.noCtaDirective[0]
    && c.ctaBullet != ""
  }

  /** The app's wording tells its branches apart. */
  lemma AppCopyBranchesDiffer()
    ensures BranchesDiffer(AppCopy)
  {
    assert |AppCopy.neologismFormat| != |AppCopy.taglineFormat|;
  }

  // ---------------------------------------------------------------------
  // Directives that branch on the brief

  /** The format line under "PHRASE STYLE REQUIREMENT". */
  function FormatDirective(c: Copy, style: string): string {
    if style == BrandedNeologism then c.neologismFormat else c.taglineFormat
  }

  /** Rule 3 of both prompts: which name to use for wordplay. */
  function BrandPriority(c: Copy, d: FormData): string {
    if d.productName != "" then
      c.preferProduct + d.productName + c.productOverCompany + d.companyName + c.companyIfBetter
    else
      c.useCompany + d.companyName + c.companyForWordplay
  }

  /** Rule 10 of the batch prompt. */
  function CtaDirective(c: Copy, d: FormData): string {
    if d.includeCTA then
      c.includeA + ToLowerAscii(d.funnelStage) + c.ctaExamples
    else c.noCtaDirective
  }

  /** The last bullet of "For each phrase, provide:"; an empty line when off. */
  function CtaItemLine(c: Copy, includeCTA: bool): string {
    if includeCTA then c.ctaBullet else ""
  }

  /** The style line shows the neologism format exactly for "Branded
      Neologism" and the tagline format for every other style. */
  lemma FormatDirectiveRule(c: Copy, style: string)
    requires BranchesDiffer(c)
    ensures FormatDirective(c, style) == c.neologismFormat <==> style == BrandedNeologism
    ensures FormatDirective(c, style) == c.taglineFormat <==> style != BrandedNeologism
  {
  }

  /** With a product name the priority rule names both names, product first;
      without one it names only the company. */
  lemma BrandPriorityRule(c: Copy, d: FormData)
    ensures d.productName != "" ==> Contains(BrandPriority(c, d), d.productName)
    ensures Contains(BrandPriority(c, d), d.companyName)
    ensures d.productName == "" ==> BrandPriority(c, d) == c.useCompany + d.companyName + c.companyForWordplay
  {
    if d.productName != "" {
      ContainsPart(c.preferProduct, d.productName, c.productOverCompany + d.companyName + c.companyIfBetter);
      assert BrandPriority(c, d) ==
        c.preferProduct + d.productName + (c.productOverCompany + d.companyName + c.companyIfBetter);
      ContainsPart(c.preferProduct + d.productName + c.productOverCompany, d.companyName, c.companyIfBetter);
    } else {
      ContainsPart(c.useCompany, d.companyName, c.companyForWordplay);
    }
  }

  /** With CTAs on, the directive names the lower-cased funnel stage; with
      CTAs off, it is exactly the "Do not include CTAs" text, and so is the
      cta bullet's absence. */
  lemma CtaDirectiveRule(c: Copy, d: FormData)
    requires BranchesDiffer(c)
    ensures d.includeCTA ==> Contains(CtaDirective(c, d), ToLowerAscii(d.funnelStage))
    ensures d.includeCTA ==> CtaDirective(c, d) != c.noCtaDirective
    ensures !d.includeCTA ==> CtaDirective(c, d) == c.noCtaDirective
    ensures CtaItemLine(c, d.includeCTA) == c.ctaBullet <==> d.includeCTA
  {
    if d.includeCTA {
      ContainsPart(c.includeA, ToLowerAscii(d.funnelStage), c.ctaExamples);
      assert CtaDirective(c, d)[0] == c.includeA[0];
    }
  }

  // ---------------------------------------------------------------------
  // Keyed lines

  datatype LineKey =
    | Fixed(n: nat)      // fixed copy, numbered in order of appearance
    | ToneDirective | CompanyLine | ProductLine | BrandLine | DescriptionLine
    | UrlLine | FunnelLine | PersonaLine | PainLine | ToneLine | StyleLine
    | FormatLine | HeroRule | PriorityRule | StyleRule | LinkedinRule
    | TransformRule | ProTipRule | UniquenessRule | CtaRule
    | StyleItem | LinkedinItem | ProTipItem | CtaItem | Closing

  datatype Line = Line(key: LineKey, text: string)

  function Keys(lines: seq<Line>): (r: seq<LineKey>)
    ensures |r| == |lines| && forall i :: 0 <= i < |lines| ==> r[i] == lines[i].key
  {
    seq(|lines|, i requires 0 <= i < |lines| => lines[i].key)
  }

  function Texts(lines: seq<Line>): (r: seq<string>)
    ensures |r| == |lines| && forall i :: 0 <= i < |lines| ==> r[i] == lines[i].text
  {
    seq(|lines|, i requires 0 <= i < |lines| => lines[i].text)
  }

  /** The text sent to the AI service. */
  function Render(lines: seq<Line>): string {
    Join(Texts(lines), "\n")
  }

  /** The text of the first line with a given key, if the prompt has one. */
  function Lookup(lines: seq<Line>, k: LineKey): (r: Option<string>)
    ensures r.Some? <==> k in Keys(lines)
  {
    if lines == [] then None
    else if lines[0].key == k then Some(lines[0].text)
    else
      assert Keys(lines) == [lines[0].key] + Keys(lines[1..]);
      Lookup(lines[1..], k)
  }

  /** A key that is found names a line of the prompt. */
  lemma {:induction false} LookupFound(lines: seq<Line>, k: LineKey) returns (i: nat)
    requires Lookup(lines, k).Some?
    ensures i < |lines| && lines[i] == Line(k, Lookup(lines, k).value)
    decreases |lines|
  {
    if lines[0].key == k {
      i := 0;
    } else {
      var j := LookupFound(lines[1..], k);
      i := j + 1;
    }
  }

  /** Looking up the key of a line that no earlier line shares gives that
      line's text. */
  lemma {:induction false} LookupFirst(lines: seq<Line>, i: nat)
    requires i < |lines|
    requires forall j :: 0 <= j < i ==> lines[j].key != lines[i].key
    ensures Lookup(lines, lines[i].key) == Some(lines[i].text)
    decreases i
  {
    if i > 0 {
      assert lines[1..][i - 1] == lines[i];
      LookupFirst(lines[1..], i - 1);
    }
  }

  /** Every line of a prompt, and so every value a line holds, is in the
      rendered text. */
  lemma RenderContainsLine(lines: seq<Line>, k: LineKey, v: string)
    requires Lookup(lines, k).Some?
    requires Contains(Lookup(lines, k).value, v)
    ensures Contains(Render(lines), v)
  {
    var i := LookupFound(lines, k);
    JoinContains(Texts(lines), "\n", i);
    ContainsTransitive(Render(lines), Lookup(lines, k).value, v);
  }

  /** Lays the lines out in the order of `layout`, each with its text. */
  function Assemble(layout: seq<LineKey>, texts: seq<string>): (r: seq<Line>)
    requires |texts| == |layout|
    ensures Keys(r) == layout
    ensures forall i :: 0 <= i < |r| ==> r[i] == Line(layout[i], texts[i])
  {
    seq(|layout|, i requires 0 <= i < |layout| => Line(layout[i], texts[i]))
  }

  /** A line that interpolates one value between two pieces of fixed copy. */
  function Framed(before: string, v: string, after: string): string {
    before + v + after
  }

  /** The interpolated value appears in its line. */
  lemma FramedContains(before: string, v: string, after: string)
    ensures Contains(Framed(before, v, after), v)
  {
    ContainsPart(before, v, after);
  }

  /** A line that is a label followed by one value. */
  function Labelled(prefix: string, v: string): string {
    prefix + v
  }

  /** The value appears in its labelled line. */
  lemma LabelledContains(prefix: string, v: string)
    ensures Contains(Labelled(prefix, v), v)
  {
    ContainsPart(prefix, v, []);
    assert prefix + v + [] == prefix + v;
  }

  // ---------------------------------------------------------------------
  // Lines both prompts write the same way

  function CompanyText(c: Copy, d: FormData): string { Labelled(c.companyLabel, d.companyName) }
  function ProductText(c: Copy, d: FormData): string { Labelled(c.productLabel, OrNotProvided(d.productName)) }
  function BrandText(c: Copy, d: FormData): string { Labelled(c.brandLabel, PrimaryBrand(d)) }
  function DescriptionText(c: Copy, d: FormData): string { Labelled(c.descriptionLabel, d.productDescription) }
  function FunnelText(c: Copy, d: FormData): string { Labelled(c.funnelLabel, d.funnelStage) }
  function PersonaText(c: Copy, d: FormData): string {
    Framed(c.personaLabel, d.personaJobRole, c.personaJoin + ResolvedIndustry(d))
  }
  function PainText(c: Copy, d: FormData): string { Labelled(c.painLabel, d.keyPainPoint) }
  function ToneText(c: Copy, d: FormData): string { Labelled(c.toneLabel, d.toneOfVoice) }
  function StyleText(c: Copy, d: FormData): string { Labelled(c.styleLabel, d.phraseStyle) }
  function PriorityText(c: Copy, d: FormData): string { Labelled(c.priorityLabel, BrandPriority(c, d)) }
  function StyleRuleText(c: Copy, d: FormData): string {
    Framed(c.styleRuleHead, d.phraseStyle, c.styleRuleTail)
  }

  /** Each line that interpolates a value of the brief contains that value;
      the persona line also carries the resolved industry. */
  lemma LinesMentionValues(c: Copy, d: FormData)
    ensures Contains(CompanyText(c, d), d.companyName)
    ensures Contains(BrandText(c, d), PrimaryBrand(d))
    ensures Contains(DescriptionText(c, d), d.productDescription)
    ensures Contains(FunnelText(c, d), d.funnelStage)
    ensures Contains(PersonaText(c, d), d.personaJobRole)
    ensures Contains(PersonaText(c, d), ResolvedIndustry(d))
    ensures Contains(PainText(c, d), d.keyPainPoint)
    ensures Contains(ToneText(c, d), d.toneOfVoice)
    ensures Contains(StyleText(c, d), d.phraseStyle)
  {
    LabelledContains(c.companyLabel, d.companyName);
    LabelledContains(c.brandLabel, PrimaryBrand(d));
    LabelledContains(c.descriptionLabel, d.productDescription);
    LabelledContains(c.funnelLabel, d.funnelStage);
    FramedContains(c.personaLabel, d.personaJobRole, c.personaJoin + ResolvedIndustry(d));
    var v := ResolvedIndustry(d);
    assert PersonaText(c, d) == Labelled(c.personaLabel + d.personaJobRole + c.personaJoin, v);
    LabelledContains(c.personaLabel + d.personaJobRole + c.personaJoin, v);
    LabelledContains(c.painLabel, d.keyPainPoint);
    LabelledContains(c.toneLabel, d.toneOfVoice);
    LabelledContains(c.styleLabel, d.phraseStyle);
  }

  // ---------------------------------------------------------------------
  // The batch prompt (generatePhrases)

  const BatchLayout: seq<LineKey> :=
    [Fixed(0), Fixed(1), ToneDirective, Fixed(2),
     Fixed(3), CompanyLine, ProductLine, BrandLine, DescriptionLine, UrlLine,
     Fixed(4), FunnelLine, PersonaLine, PainLine, ToneLine,
     Fixed(5), StyleLine, FormatLine,
     Fixed(6), HeroRule, Fixed(7), PriorityRule, StyleRule, Fixed(8),
     LinkedinRule, TransformRule, Fixed(9), ProTipRule, UniquenessRule, CtaRule,
     Fixed(10), StyleItem, Fixed(11), LinkedinItem, ProTipItem, CtaItem,
     Closing]

  /** The texts of the batch prompt's lines, in layout order. */
  function BatchTexts(c: Copy, d: FormData): (r: seq<string>)
    ensures |r| == |BatchLayout|
  {
    var count := NatToString(PhraseCount(d.phraseQuantity));
    var brand := PrimaryBrand(d);
    [c.batchIntro, c.batchCreativeModel,
     Framed(c.toneDirectiveHead, d.toneOfVoice, c.batchToneTail),
     c.batchGlobalRule,
     c.companyHeading, CompanyText(c, d), ProductText(c, d), BrandText(c, d),
     DescriptionText(c, d), Labelled(c.urlLabel, OrNotProvided(d.companyUrl)),
     c.audienceHeading, FunnelText(c, d), PersonaText(c, d), PainText(c, d), ToneText(c, d),
     c.styleHeading, StyleText(c, d), FormatDirective(c, d.phraseStyle),
     c.batchRulesHeading,
     Framed(c.batchHeroHead, brand, c.batchHeroTail),
     c.batchNoNegativity, PriorityText(c, d), StyleRuleText(c, d), c.batchFallback,
     Framed(c.batchLinkedinHead, d.toneOfVoice, c.toneClose),
     Framed(c.batchTransformHead, d.keyPainPoint, c.transformTail),
     c.batchSelfCorrection,
     Framed(c.batchProTipHead, d.personaJobRole,
            c.batchProTipMiddle + d.personaJobRole + c.batchProTipTail),
     Framed(c.uniquenessHead, count, c.uniquenessTail),
     Labelled(c.ctaRuleLabel, CtaDirective(c, d)),
     c.itemsHeading,
     Framed(c.styleItemHead, d.phraseStyle, c.styleItemTail),
     c.meaningItem,
     Framed(c.linkedinItemHead, d.keyPainPoint, c.linkedinItemTail),
     Framed(c.proTipItemHead, d.personaJobRole, c.proTipItemTail),
     CtaItemLine(c, d.includeCTA),
     Framed(c.closingHead, count,
            c.closingMiddle + brand + c.closingTail + d.keyPainPoint + c.quoteClose)]
  }

  /** The prompt `generatePhrases` sends. */
  function BatchPrompt(c: Copy, d: FormData): seq<Line> {
    Assemble(BatchLayout, BatchTexts(c, d))
  }

  /** The line whose key first appears at position i of the batch layout is
      the one a lookup of that key finds. */
  lemma BatchLookup(c: Copy, d: FormData, i: nat, k: LineKey, t: string)
    requires i < |BatchLayout| && BatchLayout[i] == k && BatchTexts(c, d)[i] == t
    requires forall j :: 0 <= j < i ==> BatchLayout[j] != k
    ensures Lookup(BatchPrompt(c, d), k) == Some(t)
  {
    LookupFirst(BatchPrompt(c, d), i);
  }

  // What the batch prompt's keyed lines say, one line at a time.

  lemma BatchCompanyLine(c: Copy, d: FormData)
    ensures Lookup(BatchPrompt(c, d), CompanyLine) == Some(c.companyLabel + d.companyName)
  {
    BatchLookup(c, d, 5, CompanyLine, CompanyText(c, d));
  }

  lemma BatchBrandLine(c: Copy, d: FormData)
    ensures Lookup(BatchPrompt(c, d), BrandLine) == Some(c.brandLabel + PrimaryBrand(d))
  {
    BatchLookup(c, d, 7, BrandLine, BrandText(c, d));
  }

  lemma BatchDescriptionLine(c: Copy, d: FormData)
    ensures Lookup(BatchPrompt(c, d), DescriptionLine) == Some(c.descriptionLabel + d.productDescription)
  {
    BatchLookup(c, d, 8, DescriptionLine, DescriptionText(c, d));
  }

  lemma BatchFunnelLine(c: Copy, d: FormData)
    ensures Lookup(BatchPrompt(c, d), FunnelLine) == Some(c.funnelLabel + d.funnelStage)
  {
    BatchLookup(c, d, 11, FunnelLine, FunnelText(c, d));
  }

  lemma BatchPersonaLine(c: Copy, d: FormData)
    ensures Lookup(BatchPrompt(c, d), PersonaLine) == Some(c.personaLabel + d.personaJobRole + (c.personaJoin + ResolvedIndustry(d)))
  {
    BatchLookup(c, d, 12, PersonaLine, PersonaText(c, d));
  }

  lemma BatchPainLine(c: Copy, d: FormData)
    ensures Lookup(BatchPrompt(c, d), PainLine) == Some(c.painLabel + d.keyPainPoint)
  {
    BatchLookup(c, d, 13, PainLine, PainText(c, d));
  }

  lemma BatchToneLine(c: Copy, d: FormData)
    ensures Lookup(BatchPrompt(c, d), ToneLine) == Some(c.toneLabel + d.toneOfVoice)
  {
    BatchLookup(c, d, 14, ToneLine, ToneText(c, d));
  }

  lemma BatchStyleLine(c: Copy, d: FormData)
    ensures Lookup(BatchPrompt(c, d), StyleLine) == Some(c.styleLabel + d.phraseStyle)
  {
    BatchLookup(c, d, 16, StyleLine, StyleText(c, d));
  }

  lemma BatchFormatLine(c: Copy, d: FormData)
    ensures Lookup(BatchPrompt(c, d), FormatLine) == Some(FormatDirective(c, d.phraseStyle))
  {
    BatchLookup(c, d, 17, FormatLine, FormatDirective(c, d.phraseStyle));
  }

  lemma BatchPriorityLine(c: Copy, d: FormData)
    ensures Lookup(BatchPrompt(c, d), PriorityRule) == Some(c.priorityLabel + BrandPriority(c, d))
  {
    BatchLookup(c, d, 21, PriorityRule, PriorityText(c, d));
  }

  lemma BatchUniquenessLine(c: Copy, d: FormData)
    ensures Lookup(BatchPrompt(c, d), UniquenessRule) ==
      Some(c.uniquenessHead + NatToString(PhraseCount(d.phraseQuantity)) + c.uniquenessTail)
  {
    BatchLookup(c, d, 28, UniquenessRule,
      Framed(c.uniquenessHead, NatToString(PhraseCount(d.phraseQuantity)), c.uniquenessTail));
  }

  lemma BatchCtaLine(c: Copy, d: FormData)
    ensures Lookup(BatchPrompt(c, d), CtaRule) == Some(c.ctaRuleLabel + CtaDirective(c, d))
  {
    BatchLookup(c, d, 29, CtaRule, Labelled(c.ctaRuleLabel, CtaDirective(c, d)));
  }

  lemma BatchCtaItemLine(c: Copy, d: FormData)
    ensures Lookup(BatchPrompt(c, d), CtaItem) == Some(CtaItemLine(c, d.includeCTA))
  {
    BatchLookup(c, d, 35, CtaItem, CtaItemLine(c, d.includeCTA));
  }

  /** The batch prompt has the same thirty-seven lines, in the same order, for
      every brief. */
  lemma BatchPromptShape(c: Copy, d: FormData)
    ensures Keys(BatchPrompt(c, d)) == BatchLayout && |BatchLayout| == 37
  {
  }

  /** The batch prompt states the company, the resolved brand and the
      description. */
  lemma BatchPromptMentionsCompany(c: Copy, d: FormData)
    ensures Contains(Render(BatchPrompt(c, d)), d.companyName)
    ensures Contains(Render(BatchPrompt(c, d)), PrimaryBrand(d))
    ensures Contains(Render(BatchPrompt(c, d)), d.productDescription)
  {
    var p := BatchPrompt(c, d);
    LinesMentionValues(c, d);
    BatchCompanyLine(c, d);
    RenderContainsLine(p, CompanyLine, d.companyName);
    BatchBrandLine(c, d);
    RenderContainsLine(p, BrandLine, PrimaryBrand(d));
    BatchDescriptionLine(c, d);
    RenderContainsLine(p, DescriptionLine, d.productDescription);
  }

  /** The batch prompt states the funnel stage, the persona and the resolved
      industry. */
  lemma BatchPromptMentionsAudience(c: Copy, d: FormData)
    ensures Contains(Render(BatchPrompt(c, d)), d.funnelStage)
    ensures Contains(Render(BatchPrompt(c, d)), d.personaJobRole)
    ensures Contains(Render(BatchPrompt(c, d)), ResolvedIndustry(d))
  {
    var p := BatchPrompt(c, d);
    LinesMentionValues(c, d);
    BatchFunnelLine(c, d);
    RenderContainsLine(p, FunnelLine, d.funnelStage);
    BatchPersonaLine(c, d);
    RenderContainsLine(p, PersonaLine, d.personaJobRole);
    RenderContainsLine(p, PersonaLine, ResolvedIndustry(d));
  }

  /** The batch prompt states the pain point, the tone, the style and the
      number of phrases asked for. */
  lemma BatchPromptMentionsRequest(c: Copy, d: FormData)
    ensures Contains(Render(BatchPrompt(c, d)), d.keyPainPoint)
    ensures Contains(Render(BatchPrompt(c, d)), d.toneOfVoice)
    ensures Contains(Render(BatchPrompt(c, d)), d.phraseStyle)
    ensures Contains(Render(BatchPrompt(c, d)), NatToString(PhraseCount(d.phraseQuantity)))
  {
    var p := BatchPrompt(c, d);
    var count := NatToString(PhraseCount(d.phraseQuantity));
    LinesMentionValues(c, d);
    BatchPainLine(c, d);
    RenderContainsLine(p, PainLine, d.keyPainPoint);
    BatchToneLine(c, d);
    RenderContainsLine(p, ToneLine, d.toneOfVoice);
    BatchStyleLine(c, d);
    RenderContainsLine(p, StyleLine, d.phraseStyle);
    BatchUniquenessLine(c, d);
    FramedContains(c.uniquenessHead, count, c.uniquenessTail);
    RenderContainsLine(p, UniquenessRule, count);
  }

  /** The format line follows the style: the neologism format exactly for
      "Branded Neologism", the tagline format otherwise. */
  lemma BatchFormatBranch(c: Copy, d: FormData)
    requires BranchesDiffer(c)
    ensures Lookup(BatchPrompt(c, d), FormatLine) == Some(FormatDirective(c, d.phraseStyle))
    ensures Lookup(BatchPrompt(c, d), FormatLine) == Some(c.neologismFormat) <==> d.phraseStyle == BrandedNeologism
    ensures Lookup(BatchPrompt(c, d), FormatLine) == Some(c.taglineFormat) <==> d.phraseStyle != BrandedNeologism
  {
    FormatDirectiveRule(c, d.phraseStyle);
    BatchFormatLine(c, d);
  }

  /** Rule 10 and the cta bullet follow the CTA flag; rule 9 carries the
      count the quantity bucket asks for. */
  lemma BatchCtaBranch(c: Copy, d: FormData)
    requires BranchesDiffer(c)
    ensures Lookup(BatchPrompt(c, d), CtaRule) == Some(c.ctaRuleLabel + CtaDirective(c, d))
    ensures !d.includeCTA ==> Lookup(BatchPrompt(c, d), CtaRule) == Some(c.ctaRuleLabel + c.noCtaDirective)
    ensures Lookup(BatchPrompt(c, d), CtaItem) == Some(c.ctaBullet) <==> d.includeCTA
    ensures Lookup(BatchPrompt(c, d), UniquenessRule) ==
      Some(c.uniquenessHead + NatToString(PhraseCount(d.phraseQuantity)) + c.uniquenessTail)
  {
    CtaDirectiveRule(c, d);
    BatchCtaLine(c, d);
    BatchCtaItemLine(c, d);
    BatchUniquenessLine(c, d);
  }

  // ---------------------------------------------------------------------
  // The single-phrase prompt (regeneratePhrase)

  const RegenerateLayout: seq<LineKey> :=
    [Fixed(0), Fixed(1), ToneDirective, Fixed(2),
     Fixed(3), CompanyLine, ProductLine, BrandLine, DescriptionLine,
     Fixed(4), FunnelLine, PersonaLine, PainLine, ToneLine,
     Fixed(5), StyleLine, FormatLine,
     Fixed(6), HeroRule, Fixed(7), PriorityRule, StyleRule,
     LinkedinRule, TransformRule, Fixed(8), ProTipRule,
     Closing]

  /** The texts of the single-phrase prompt's lines, in layout order. */
  function RegenerateTexts(c: Copy, d: FormData): (r: seq<string>)
    ensures |r| == |RegenerateLayout|
  {
    [c.regenerateIntro, c.regenerateCreativeModel,
     Framed(c.toneDirectiveHead, d.toneOfVoice, c.regenerateToneTail),
     c.regenerateGlobalRule,
     c.companyHeading, CompanyText(c, d), ProductText(c, d), BrandText(c, d),
     DescriptionText(c, d),
     c.audienceHeading, FunnelText(c, d), PersonaText(c, d), PainText(c, d), ToneText(c, d),
     c.styleHeading, StyleText(c, d), FormatDirective(c, d.phraseStyle),
     c.regenerateRulesHeading,
     Framed(c.regenerateHeroHead, PrimaryBrand(d), c.regenerateHeroTail),
     c.regenerateNoNegativity, PriorityText(c, d), StyleRuleText(c, d),
     Framed(c.regenerateLinkedinHead, d.toneOfVoice, c.toneClose),
     Framed(c.regenerateTransformHead, d.keyPainPoint, c.transformTail),
     c.regenerateSelfCorrection,
     Framed(c.regenerateProTipHead, d.personaJobRole, c.regenerateProTipTail),
     c.regenerateClosing]
  }

  /** The prompt `regeneratePhrase` sends. */
  function RegeneratePrompt(c: Copy, d: FormData): seq<Line> {
    Assemble(RegenerateLayout, RegenerateTexts(c, d))
  }

  /** The line whose key first appears at position i of the single-phrase
      layout is the one a lookup of that key finds. */
  lemma RegenerateLookup(c: Copy, d: FormData, i: nat, k: LineKey, t: string)
    requires i < |RegenerateLayout| && RegenerateLayout[i] == k && RegenerateTexts(c, d)[i] == t
    requires forall j :: 0 <= j < i ==> RegenerateLayout[j] != k
    ensures Lookup(RegeneratePrompt(c, d), k) == Some(t)
  {
    LookupFirst(RegeneratePrompt(c, d), i);
  }

  // What the single-phrase prompt's keyed lines say, one line at a time.

  lemma RegenerateCompanyLine(c: Copy, d: FormData)
    ensures Lookup(RegeneratePrompt(c, d), CompanyLine) == Some(c.companyLabel + d.companyName)
  {
    RegenerateLookup(c, d, 5, CompanyLine, CompanyText(c, d));
  }

  lemma RegeneratePainLine(c: Copy, d: FormData)
    ensures Lookup(RegeneratePrompt(c, d), PainLine) == Some(c.painLabel + d.keyPainPoint)
  {
    RegenerateLookup(c, d, 12, PainLine, PainText(c, d));
  }

  lemma RegenerateDescriptionLine(c: Copy, d: FormData)
    ensures Lookup(RegeneratePrompt(c, d), DescriptionLine) == Some(c.descriptionLabel + d.productDescription)
  {
    RegenerateLookup(c, d, 8, DescriptionLine, DescriptionText(c, d));
  }

  lemma RegenerateFunnelLine(c: Copy, d: FormData)
    ensures Lookup(RegeneratePrompt(c, d), FunnelLine) == Some(c.funnelLabel + d.funnelStage)
  {
    RegenerateLookup(c, d, 10, FunnelLine, FunnelText(c, d));
  }

  lemma RegenerateToneLine(c: Copy, d: FormData)
    ensures Lookup(RegeneratePrompt(c, d), ToneLine) == Some(c.toneLabel + d.toneOfVoice)
  {
    RegenerateLookup(c, d, 13, ToneLine, ToneText(c, d));
  }

  lemma RegenerateStyleLine(c: Copy, d: FormData)
    ensures Lookup(RegeneratePrompt(c, d), StyleLine) == Some(c.styleLabel + d.phraseStyle)
  {
    RegenerateLookup(c, d, 15, StyleLine, StyleText(c, d));
  }

  lemma RegenerateBrandLine(c: Copy, d: FormData)
    ensures Lookup(RegeneratePrompt(c, d), BrandLine) == Some(c.brandLabel + PrimaryBrand(d))
  {
    RegenerateLookup(c, d, 7, BrandLine, BrandText(c, d));
  }

  lemma RegeneratePersonaLine(c: Copy, d: FormData)
    ensures Lookup(RegeneratePrompt(c, d), PersonaLine) ==
      Some(c.personaLabel + d.personaJobRole + (c.personaJoin + ResolvedIndustry(d)))
  {
    RegenerateLookup(c, d, 11, PersonaLine, PersonaText(c, d));
  }

  lemma RegenerateFormatLine(c: Copy, d: FormData)
    ensures Lookup(RegeneratePrompt(c, d), FormatLine) == Some(FormatDirective(c, d.phraseStyle))
  {
    RegenerateLookup(c, d, 16, FormatLine, FormatDirective(c, d.phraseStyle));
  }

  lemma RegeneratePriorityLine(c: Copy, d: FormData)
    ensures Lookup(RegeneratePrompt(c, d), PriorityRule) == Some(c.priorityLabel + BrandPriority(c, d))
  {
    RegenerateLookup(c, d, 20, PriorityRule, PriorityText(c, d));
  }

  /** The single-phrase prompt has the same twenty-seven lines, in the same
      order, for every brief. */
  lemma RegeneratePromptShape(c: Copy, d: FormData)
    ensures Keys(RegeneratePrompt(c, d)) == RegenerateLayout && |RegenerateLayout| == 27
  {
  }

  /** The two prompts write the brand, the brand priority, the persona with
      its industry and the style format identically. */
  lemma PromptsAgree(c: Copy, d: FormData)
    ensures Lookup(BatchPrompt(c, d), BrandLine) == Lookup(RegeneratePrompt(c, d), BrandLine)
              == Some(c.brandLabel + PrimaryBrand(d))
    ensures Lookup(BatchPrompt(c, d), PriorityRule) == Lookup(RegeneratePrompt(c, d), PriorityRule)
              == Some(c.priorityLabel + BrandPriority(c, d))
    ensures Lookup(BatchPrompt(c, d), PersonaLine) == Lookup(RegeneratePrompt(c, d), PersonaLine)
              == Some(c.personaLabel + d.personaJobRole + (c.personaJoin + ResolvedIndustry(d)))
    ensures Lookup(BatchPrompt(c, d), FormatLine) == Lookup(RegeneratePrompt(c, d), FormatLine)
              == Some(FormatDirective(c, d.phraseStyle))
  {
    BatchBrandLine(c, d);
    RegenerateBrandLine(c, d);
    BatchPriorityLine(c, d);
    RegeneratePriorityLine(c, d);
    BatchPersonaLine(c, d);
    RegeneratePersonaLine(c, d);
    BatchFormatLine(c, d);
    RegenerateFormatLine(c, d);
  }

  /** The single-phrase layout has no CTA, count or URL line. */
  lemma RegenerateLayoutOmits()
    ensures CtaRule !in RegenerateLayout && CtaItem !in RegenerateLayout
    ensures UniquenessRule !in RegenerateLayout && UrlLine !in RegenerateLayout
  {
    forall i | 0 <= i < |RegenerateLayout|
      ensures !RegenerateLayout[i].CtaRule? && !RegenerateLayout[i].CtaItem?
      ensures !RegenerateLayout[i].UniquenessRule? && !RegenerateLayout[i].UrlLine?
    {
    }
  }

  /** Only the batch prompt speaks of CTAs, of a count or of the URL. */
  lemma RegenerateOmits(c: Copy, d: FormData)
    ensures Lookup(RegeneratePrompt(c, d), CtaRule) == None
    ensures Lookup(RegeneratePrompt(c, d), CtaItem) == None
    ensures Lookup(RegeneratePrompt(c, d), UniquenessRule) == None
    ensures Lookup(RegeneratePrompt(c, d), UrlLine) == None
    ensures Lookup(BatchPrompt(c, d), CtaRule).Some? && Lookup(BatchPrompt(c, d), UrlLine).Some?
  {
    RegeneratePromptShape(c, d);
    BatchPromptShape(c, d);
    RegenerateLayoutOmits();
    assert BatchLayout[29] == CtaRule && BatchLayout[9] == UrlLine;
  }

  /** The single-phrase prompt carries the same brief values into its text. */
  lemma RegeneratePromptMentions(c: Copy, d: FormData)
    ensures Contains(Render(RegeneratePrompt(c, d)), d.companyName)
    ensures Contains(Render(RegeneratePrompt(c, d)), PrimaryBrand(d))
    ensures Contains(Render(RegeneratePrompt(c, d)), d.productDescription)
    ensures Contains(Render(RegeneratePrompt(c, d)), d.funnelStage)
    ensures Contains(Render(RegeneratePrompt(c, d)), d.personaJobRole)
    ensures Contains(Render(RegeneratePrompt(c, d)), ResolvedIndustry(d))
    ensures Contains(Render(RegeneratePrompt(c, d)), d.keyPainPoint)
    ensures Contains(Render(RegeneratePrompt(c, d)), d.toneOfVoice)
    ensures Contains(Render(RegeneratePrompt(c, d)), d.phraseStyle)
  {
    var p := RegeneratePrompt(c, d);
    LinesMentionValues(c, d);
    RegenerateCompanyLine(c, d);
    RenderContainsLine(p, CompanyLine, d.companyName);
    RegenerateBrandLine(c, d);
    RenderContainsLine(p, BrandLine, PrimaryBrand(d));
    RegenerateDescriptionLine(c, d);
    RenderContainsLine(p, DescriptionLine, d.productDescription);
    RegenerateFunnelLine(c, d);
    RenderContainsLine(p, FunnelLine, d.funnelStage);
    RegeneratePersonaLine(c, d);
    RenderContainsLine(p, PersonaLine, d.personaJobRole);
    RenderContainsLine(p, PersonaLine, ResolvedIndustry(d));
    RegeneratePainLine(c, d);
    RenderContainsLine(p, PainLine, d.keyPainPoint);
    RegenerateToneLine(c, d);
    RenderContainsLine(p, ToneLine, d.toneOfVoice);
    RegenerateStyleLine(c, d);
    RenderContainsLine(p, StyleLine, d.phraseStyle);
  }

  // ---------------------------------------------------------------------
  // Output schemas

  datatype Schema =
    | StringType
    | ArrayOf(items: Schema)
    | ObjectOf(properties: seq<(string, Schema)>, required: seq<string>)

  const RequiredItemFields: seq<string> := ["brandedPhrase", "meaning", "linkedinExample", "proTip"]

  function PropertyNames(props: seq<(string, Schema)>): (r: seq<string>)
    ensures |r| == |props| && forall i :: 0 <= i < |props| ==> r[i] == props[i].0
  {
    seq(|props|, i requires 0 <= i < |props| => props[i].0)
  }

  /** One phrase object; `...(includeCTA && { cta: ... })` adds `cta` only
      when the flag is set. */
  function ItemSchema(includeCTA: bool): (r: Schema)
    ensures r.ObjectOf? && r.required == RequiredItemFields
    ensures |r.properties| == (if includeCTA then 5 else 4)
    ensures forall p :: p in r.properties ==> p.1 == StringType
  {
    ObjectOf(
      [("brandedPhrase", StringType), ("meaning", StringType),
       ("linkedinExample", StringType), ("proTip", StringType)] +
      (if includeCTA then [("cta", StringType)] else []),
      RequiredItemFields)
  }

  /** The batch schema: an object with a required array of phrase objects. */
  function BatchSchema(d: FormData): (r: Schema)
    ensures r.ObjectOf? && r.required == ["phrases"] && |r.properties| == 1
    ensures r.properties[0] == ("phrases", ArrayOf(ItemSchema(d.includeCTA)))
  {
    ObjectOf([("phrases", ArrayOf(ItemSchema(d.includeCTA)))], ["phrases"])
  }

  /** The single-phrase schema: one phrase object. */
  function RegenerateSchema(d: FormData): (r: Schema)
    ensures r.ObjectOf? && r.required == RequiredItemFields
    ensures |r.properties| == 5 <==> d.includeCTA
  {
    ItemSchema(d.includeCTA)
  }

  /** `cta` is a property exactly when CTAs are on, and never required; the
      four other fields are always exactly the required ones; every property
      is a string; the batch schema's items are the single-phrase schema. */
  lemma SchemaRules(d: FormData)
    ensures ItemSchema(d.includeCTA).ObjectOf?
    ensures "cta" in PropertyNames(ItemSchema(d.includeCTA).properties) <==> d.includeCTA
    ensures ItemSchema(d.includeCTA).required == RequiredItemFields
    ensures "cta" !in ItemSchema(d.includeCTA).required
    ensures forall f :: f in RequiredItemFields ==> f in PropertyNames(ItemSchema(d.includeCTA).properties)
    ensures forall p :: p in ItemSchema(d.includeCTA).properties ==> p.1 == StringType
    ensures BatchSchema(d).properties[0] == ("phrases", ArrayOf(RegenerateSchema(d)))
    ensures BatchSchema(d).required == ["phrases"]
  {
    var names := PropertyNames(ItemSchema(d.includeCTA).properties);
    if d.includeCTA {
      assert names[4] == "cta";
      assert names[..4] == RequiredItemFields;
    } else {
      assert names == RequiredItemFields;
    }
  }
}
