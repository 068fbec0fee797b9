// The "Copy All" text of a card (src/components/PhraseCard.tsx): the card's
// fields under their labels, in a fixed order, trimmed.

module PhraseCard {
  import opened FormTypes
  import opened JsText
  import opened ExportText

  const BrandedLabel: string := "Branded Phrase: "

  /** The template literal of `copyAllContent` before `.trim()`: it opens
      with a newline and closes with a newline and four spaces. */
  function CopyTemplate(p: GeneratedPhrase): string {
    "\n" + BrandedLabel + p.brandedPhrase + Details(p) + "\n    "
  }

  /** The text `copyAllContent` puts on the clipboard. */
  function CopyAllContent(p: GeneratedPhrase): (r: string)
    ensures |r| < |CopyTemplate(p)|
    ensures r == [] || (!IsWhitespace(r[0]) && !IsWhitespace(r[|r| - 1]))
  {
    Trim(CopyTemplate(p))
  }

  /** The labelled fields up to the pro tip's label, in order, separated by
      blank lines. */
  function Lead(p: GeneratedPhrase): string {
    BrandedLabel + p.brandedPhrase
    + "\n\nMeaning: " + p.meaning
    + "\n\nLinkedIn Example: " + p.linkedinExample
    + "\n\nPro Tip:"
  }

  /** Trimming takes off exactly the template's opening newline and whatever
      whitespace ends the details. */
  lemma CopyAllTrim(p: GeneratedPhrase)
    ensures CopyAllContent(p) == BrandedLabel + p.brandedPhrase + TrimEnd(Details(p) + "\n    ")
  {
    var a := BrandedLabel + p.brandedPhrase;
    var b := Details(p) + "\n    ";
    var t := a + b;
    assert CopyTemplate(p) == "\n" + t;
    assert CopyTemplate(p)[1..] == t;
    TrimStartVisibleHead(t);
    assert b[2] == 'M';
    TrimEndAppend(a, b);
  }

  /** The copied text is not empty and has no whitespace at either end. */
  lemma CopyAllTrimmed(p: GeneratedPhrase)
    ensures CopyAllContent(p) != ""
    ensures !IsWhitespace(CopyAllContent(p)[0])
    ensures !IsWhitespace(CopyAllContent(p)[|CopyAllContent(p)| - 1])
  {
    CopyAllTrim(p);
    assert CopyAllContent(p)[0] == 'B';
    TrimProperties(CopyTemplate(p));
  }

  /** The copied text starts with "Branded Phrase: " and the phrase, then
      the meaning, the LinkedIn example and the pro tip's label, each after a
      blank line. */
  lemma CopyAllOrder(p: GeneratedPhrase)
    ensures BrandedLabel + p.brandedPhrase <= CopyAllContent(p)
    ensures Lead(p) <= CopyAllContent(p)
  {
    CopyAllTrim(p);
    var a := BrandedLabel + p.brandedPhrase;
    var m := "\n\nMeaning: " + p.meaning
      + "\n\nLinkedIn Example: " + p.linkedinExample
      + "\n\nPro Tip:";
    var rest := " " + p.proTip + CtaSegment(p.cta) + "\n    ";
    assert Details(p) + "\n    " == m + rest;
    assert Lead(p) == a + m;
    PrefixThroughTrimEnd(a, m, rest);
  }

  /** A prefix ending in a visible character survives trimEnd after any head. */
  lemma PrefixThroughTrimEnd(a: string, m: string, rest: string)
    requires |m| > 0 && !IsWhitespace(m[|m| - 1])
    ensures a + m <= a + TrimEnd(m + rest)
  {
    TrimEndKeepsVisibleEnd(m, rest);
    var t := TrimEnd(m + rest);
    assert forall k :: 0 <= k < |a + m| ==> (a + m)[k] == (a + t)[k];
  }

  /** Without a CTA the copied text reaches no further than the pro tip. */
  lemma CopyAllNoCtaBound(p: GeneratedPhrase)
    ensures |CopyAllContent(p.(cta := None))| <= |BrandedLabel + p.brandedPhrase| + |Fields(p)|
  {
    var q := p.(cta := None);
    CopyAllTrim(q);
    assert Details(q) == Fields(p);
    TrimEndDropsWhitespace(Fields(p), "\n    ");
  }

  /** With a truthy cta, the pro tip is followed by the CTA label. */
  lemma CopyAllCtaLabel(p: GeneratedPhrase)
    requires Truthy(p.cta)
    ensures BrandedLabel + p.brandedPhrase + Fields(p) + "\n\nCTA:" <= CopyAllContent(p)
  {
    CopyAllTrim(p);
    var head := Fields(p) + "\n\nCTA:";
    var rest := " " + p.cta.value + "\n    ";
    assert Details(p) + "\n    " == head + rest;
    TrimEndKeepsVisibleEnd(head, rest);
  }

  /** The CTA segment is there exactly when the card's cta is truthy: then
      the pro tip is followed by the CTA label, and otherwise the text is the
      one a card without a cta gets. */
  lemma CopyAllCta(p: GeneratedPhrase)
    ensures Truthy(p.cta) ==> BrandedLabel + p.brandedPhrase + Fields(p) + "\n\nCTA:" <= CopyAllContent(p)
    ensures CopyAllContent(p) == CopyAllContent(p.(cta := None)) <==> !Truthy(p.cta)
  {
    if Truthy(p.cta) {
      CopyAllCtaLabel(p);
      CopyAllNoCtaBound(p);
    }
  }
}
