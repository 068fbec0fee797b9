// The text `exportPhrases` writes to the downloaded file (src/App.tsx): one
// block per card, in list order, joined by newlines.

module ExportText {
  import opened FormTypes
  import opened JsText

  /** `${phrase.cta ? `\n\nCTA: ${phrase.cta}` : ''}`, shared with the copy
      button of a card. */
  function CtaSegment(cta: Option<string>): string {
    if Truthy(cta) then "\n\nCTA: " + cta.value else ""
  }

  /** `'='.repeat(50)`. */
  function Separator(): (r: string)
    ensures |r| == 50 && forall i :: 0 <= i < 50 ==> r[i] == '='
  {
    Repeat('=', 50)
  }

  /** The heading line of the block for the card at `index`. */
  function Heading(p: GeneratedPhrase, index: nat): string {
    "\nPHRASE " + NatToString(index + 1) + ": " + p.brandedPhrase
  }

  /** The meaning, the LinkedIn example and the pro tip, each after a blank
      line under its label. */
  function Fields(p: GeneratedPhrase): string {
    "\n\nMeaning: " + p.meaning
    + "\n\nLinkedIn Example: " + p.linkedinExample
    + "\n\nPro Tip: " + p.proTip
  }

  /** The fields and the optional CTA, as both the export and the copy button
      write them. */
  function Details(p: GeneratedPhrase): string {
    Fields(p) + CtaSegment(p.cta)
  }

  /** The block for the card at `index` (a template literal that opens with
      a newline and closes with a newline and four spaces of indentation). */
  function Block(p: GeneratedPhrase, index: nat): (r: string)
    ensures |r| > |Closing()| && r[0] == '\n'
    ensures r[|r| - |Closing()|..] == Closing()
  {
    Heading(p, index) + Details(p) + Closing()
  }

  /** `phrases.map(...)`. */
  function Blocks(ps: seq<GeneratedPhrase>): (r: seq<string>)
    ensures |r| == |ps|
  {
    seq(|ps|, i requires 0 <= i < |ps| => Block(ps[i], i))
  }

  /** The file content: `phrases.map(...).join('\n')`. */
  function Export(ps: seq<GeneratedPhrase>): (r: string)
    ensures ps == [] ==> r == ""
    ensures ps != [] ==> Block(ps[0], 0) <= r
  {
    Join(Blocks(ps), "\n")
  }

  /** The file is empty exactly when there are no cards: each card's block
      has at least its closing line. */
  lemma ExportEmptyIff(ps: seq<GeneratedPhrase>)
    ensures Export(ps) == "" <==> ps == []
  {
    if ps != [] {
      assert |Export(ps)| >= |Block(ps[0], 0)| > 0;
    }
  }

  /** The export is built card by card: one card gives its own block, and
      each further card adds a newline and its block numbered after the rest. */
  lemma ExportAppend(ps: seq<GeneratedPhrase>, p: GeneratedPhrase)
    ensures ps == [] ==> Export(ps + [p]) == Block(p, 0)
    ensures ps != [] ==> Export(ps + [p]) == Export(ps) + "\n" + Block(p, |ps|)
  {
    var parts := Blocks(ps + [p]);
    assert parts[..|parts| - 1] == Blocks(ps);
    assert parts[|parts| - 1] == Block(p, |ps|);
  }

  /** Every card's block, numbered by its position, is in the export. */
  lemma ExportContainsBlock(ps: seq<GeneratedPhrase>, i: nat)
    requires i < |ps|
    ensures Contains(Export(ps), Block(ps[i], i))
  {
    JoinContains(Blocks(ps), "\n", i);
  }

  /** The part of a block after the pro tip and the cta line. */
  function Closing(): (r: string)
    ensures |r| == 57
  {
    "\n\n" + Separator() + "\n    "
  }

  /** A block opens with `PHRASE k: ` and the phrase, k being the card's
      position counted from one, and closes with a blank line, the rule of
      fifty '=' and the template's closing indentation. */
  lemma BlockFrame(p: GeneratedPhrase, index: nat)
    ensures Heading(p, index) <= Block(p, index)
    ensures Heading(p, index) == "\nPHRASE " + NatToString(index + 1) + ": " + p.brandedPhrase
    ensures var b := Block(p, index);
      |b| >= 57 && b[|b| - 57..] == Closing()
  {
    Framing(Heading(p, index), Details(p), Closing());
  }

  /** The CTA line is in a block exactly when the card's cta is truthy. */
  lemma BlockCta(p: GeneratedPhrase, index: nat)
    ensures Block(p, index) == Block(p.(cta := None), index) <==> !Truthy(p.cta)
    ensures Truthy(p.cta) ==> Contains(Block(p, index), "\n\nCTA: " + p.cta.value)
  {
    if Truthy(p.cta) {
      var q := p.(cta := None);
      assert |Details(p)| == |Details(q)| + |CtaSegment(p.cta)|;
      assert |Block(p, index)| > |Block(q, index)|;
      ContainsPart(Fields(p), CtaSegment(p.cta), []);
      assert Fields(p) + CtaSegment(p.cta) + [] == Details(p);
      ContainsPart(Heading(p, index), Details(p), Closing());
      ContainsTransitive(Block(p, index), Details(p), CtaSegment(p.cta));
    }
  }

  /** A text put together from three parts starts with the first and ends
      with the last. */
  lemma Framing(a: string, b: string, c: string)
    ensures a <= a + b + c
    ensures (a + b + c)[|a + b + c| - |c|..] == c
  {
    assert (a + b + c)[..|a|] == a;
  }
}
