// The application's phrase list (src/App.tsx): the batch that replaces it,
// the single card that regeneration swaps in, the ids both give, and the
// exported text. The AI call is an input outcome and `Date.now()` an input
// clock, read once per element the `map` callbacks build.

module Results {
  import opened FormTypes
  import opened JsText
  import opened Prompt
  import opened ExportText
  import SinglePageForm

  /** One phrase object of the AI response, as the app reads it. */
  datatype RawPhrase = RawPhrase(
    brandedPhrase: string,
    meaning: string,
    linkedinExample: string,
    proTip: string,
    cta: Option<string>)

  /** What `generateObject` gives back: the decoded object, or a thrown error. */
  datatype Outcome<T> = Success(value: T) | Failure

  /** `...(x.cta && { cta: x.cta })`: the cta is kept only when truthy. */
  function KeptCta(cta: Option<string>): (r: Option<string>)
    ensures r.Some? <==> Truthy(cta)
    ensures r.Some? ==> r == cta
  {
    if Truthy(cta) then cta else None
  }

  /** A card built from a response object under the given id. */
  function ToPhrase(id: string, raw: RawPhrase): (r: GeneratedPhrase)
    ensures r.id == id && Shows(r, raw)
  {
    GeneratedPhrase(id, raw.brandedPhrase, raw.meaning, raw.linkedinExample, raw.proTip, KeptCta(raw.cta))
  }

  /** The card shows exactly the response's texts, and a cta only when the
      response's is truthy. */
  predicate Shows(p: GeneratedPhrase, raw: RawPhrase) {
    && p.brandedPhrase == raw.brandedPhrase
    && p.meaning == raw.meaning
    && p.linkedinExample == raw.linkedinExample
    && p.proTip == raw.proTip
    && (p.cta.Some? <==> Truthy(raw.cta))
    && (p.cta.Some? ==> p.cta == raw.cta)
  }

  // ---------------------------------------------------------------------
  // Ids

  const IdPrefix: string := "phrase-"

  /** `phrase-${Date.now()}-${index}`. */
  function BatchId(now: nat, index: nat): (r: string)
    ensures IdPrefix <= r && !AllDigits(r[|IdPrefix|..])
  {
    var id := IdPrefix + NatToString(now) + "-" + NatToString(index);
    assert id[|IdPrefix|..][|NatToString(now)|] == '-';
    id
  }

  /** `phrase-${Date.now()}`: no index. */
  function RegenerateId(now: nat): (r: string)
    ensures IdPrefix <= r && |r| > |IdPrefix| && AllDigits(r[|IdPrefix|..])
  {
    IdPrefix + NatToString(now)
  }

  predicate AllDigits(s: string) {
    forall k :: 0 <= k < |s| ==> IsDigit(s[k])
  }

  /** Splitting at the first dash after a run of digits is unambiguous. */
  lemma DigitsDashSplit(a: string, b: string, a': string, b': string)
    requires AllDigits(a) && AllDigits(a')
    ensures a + "-" + b == a' + "-" + b' <==> a == a' && b == b'
  {
    var s, s' := a + "-" + b, a' + "-" + b';
    if s == s' {
      assert s[|a|] == '-' && s'[|a'|] == '-';
      assert forall k :: 0 <= k < |a| ==> s[k] == a[k];
      assert forall k :: 0 <= k < |a'| ==> s'[k] == a'[k];
      assert |a| == |a'|;
      assert a == s[..|a|] && a' == s'[..|a'|];
      assert b == s[|a| + 1..] && b' == s'[|a'| + 1..];
    }
  }

  /** Two batch ids are equal exactly when both the clock reading and the
      index are. */
  lemma BatchIdInjective(t: nat, i: nat, t': nat, j: nat)
    ensures BatchId(t, i) == BatchId(t', j) <==> t == t' && i == j
  {
    var a, b, a', b' := NatToString(t), NatToString(i), NatToString(t'), NatToString(j);
    assert BatchId(t, i) == IdPrefix + (a + "-" + b);
    assert BatchId(t', j) == IdPrefix + (a' + "-" + b');
    if BatchId(t, i) == BatchId(t', j) {
      assert (IdPrefix + (a + "-" + b))[|IdPrefix|..] == a + "-" + b;
      assert (IdPrefix + (a' + "-" + b'))[|IdPrefix|..] == a' + "-" + b';
      DigitsDashSplit(a, b, a', b');
      NatToStringInjective(t, t');
      NatToStringInjective(i, j);
    }
  }

  /** Two regenerate ids are equal exactly when the clock readings are. */
  lemma RegenerateIdInjective(t: nat, t': nat)
    ensures RegenerateId(t) == RegenerateId(t') <==> t == t'
  {
    if RegenerateId(t) == RegenerateId(t') {
      assert RegenerateId(t)[|IdPrefix|..] == NatToString(t);
      assert RegenerateId(t')[|IdPrefix|..] == NatToString(t');
      NatToStringInjective(t, t');
    }
  }

  /** A regenerated card never takes the id of a batch card: its id has no
      dash after the clock reading. */
  lemma RegenerateIdNotBatchId(t: nat, t': nat, i: nat)
    ensures RegenerateId(t) != BatchId(t', i)
  {
    var r, b := RegenerateId(t), BatchId(t', i);
    var k := |IdPrefix| + |NatToString(t')|;
    assert b[k] == '-';
    if k < |r| {
      assert r[k] == NatToString(t)[k - |IdPrefix|];
      assert IsDigit(r[k]);
    }
  }

  /** No two cards of the list share an id. */
  predicate DistinctIds(ps: seq<GeneratedPhrase>) {
    forall i, j :: 0 <= i < j < |ps| ==> ps[i].id != ps[j].id
  }

  // ---------------------------------------------------------------------
  // Batch reconcile

  /** `object.phrases.map((phrase, index) => ...)`, `clock(index)` being the
      `Date.now()` reading for that element. */
  function BatchPhrases(items: seq<RawPhrase>, clock: nat -> nat): (r: seq<GeneratedPhrase>)
    ensures |r| == |items|
  {
    seq(|items|, i requires 0 <= i < |items| => ToPhrase(BatchId(clock(i), i), items[i]))
  }

  /** The batch has one card per response item, in response order, each
      showing its item, and no two cards share an id, whatever the clock. */
  lemma BatchReconcile(items: seq<RawPhrase>, clock: nat -> nat)
    ensures |BatchPhrases(items, clock)| == |items|
    ensures forall i :: 0 <= i < |items| ==> Shows(BatchPhrases(items, clock)[i], items[i])
    ensures DistinctIds(BatchPhrases(items, clock))
  {
    var r := BatchPhrases(items, clock);
    forall i | 0 <= i < |items|
      ensures Shows(r[i], items[i])
    {
      assert r[i] == ToPhrase(BatchId(clock(i), i), items[i]);
    }
    forall i, j | 0 <= i < j < |r|
      ensures r[i].id != r[j].id
    {
      BatchIdInjective(clock(i), i, clock(j), j);
    }
  }

  // ---------------------------------------------------------------------
  // Regenerate one

  /** `prevPhrases.map(phrase => phrase.id === phraseId ? {...} : phrase)`,
      `clock(i)` being the `Date.now()` reading for element `i`. */
  function ReplaceById(ps: seq<GeneratedPhrase>, target: string, raw: RawPhrase, clock: nat -> nat)
    : (r: seq<GeneratedPhrase>)
    ensures |r| == |ps|
  {
    seq(|ps|, i requires 0 <= i < |ps| =>
      if ps[i].id == target then ToPhrase(RegenerateId(clock(i)), raw) else ps[i])
  }

  /** The list keeps its length; a card whose id differs from the target
      stays as it was at its position; a card with the target id now shows
      the response under a regenerate id. */
  lemma ReplaceByIdRule(ps: seq<GeneratedPhrase>, target: string, raw: RawPhrase, clock: nat -> nat)
    ensures |ReplaceById(ps, target, raw, clock)| == |ps|
    ensures forall i :: 0 <= i < |ps| && ps[i].id != target ==>
              ReplaceById(ps, target, raw, clock)[i] == ps[i]
    ensures forall i :: 0 <= i < |ps| && ps[i].id == target ==>
              && Shows(ReplaceById(ps, target, raw, clock)[i], raw)
              && ReplaceById(ps, target, raw, clock)[i].id == RegenerateId(clock(i))
  {
    forall i | 0 <= i < |ps| && ps[i].id == target
      ensures Shows(ReplaceById(ps, target, raw, clock)[i], raw)
    {
      assert ReplaceById(ps, target, raw, clock)[i] == ToPhrase(RegenerateId(clock(i)), raw);
    }
  }

  /** A target no card carries leaves the list as it was. */
  lemma ReplaceMissing(ps: seq<GeneratedPhrase>, target: string, raw: RawPhrase, clock: nat -> nat)
    requires forall i :: 0 <= i < |ps| ==> ps[i].id != target
    ensures ReplaceById(ps, target, raw, clock) == ps
  {
  }

  /** The clock readings of a regeneration are fresh for the list: no card
      already carries a regenerate id made from them. */
  predicate FreshClock(ps: seq<GeneratedPhrase>, clock: nat -> nat) {
    forall i, j :: 0 <= i < |ps| && 0 <= j < |ps| ==> ps[j].id != RegenerateId(clock(i))
  }

  /** With distinct ids and fresh clock readings, ids stay distinct. */
  lemma ReplaceKeepsDistinct(ps: seq<GeneratedPhrase>, target: string, raw: RawPhrase, clock: nat -> nat)
    requires DistinctIds(ps) && FreshClock(ps, clock)
    ensures DistinctIds(ReplaceById(ps, target, raw, clock))
  {
    var r := ReplaceById(ps, target, raw, clock);
    forall i, j | 0 <= i < j < |r|
      ensures r[i].id != r[j].id
    {
      if ps[i].id == target {
        assert r[i].id == RegenerateId(clock(i)) && r[j].id == ps[j].id;
      } else if ps[j].id == target {
        assert r[j].id == RegenerateId(clock(j)) && r[i].id == ps[i].id;
      }
    }
  }

  /** Regenerating a card of a batch removes that card's id from the list. */
  lemma ReplaceDropsBatchId(ps: seq<GeneratedPhrase>, t: nat, k: nat, raw: RawPhrase, clock: nat -> nat)
    ensures forall i :: 0 <= i < |ps| ==> ReplaceById(ps, BatchId(t, k), raw, clock)[i].id != BatchId(t, k)
  {
    forall i | 0 <= i < |ps|
      ensures ReplaceById(ps, BatchId(t, k), raw, clock)[i].id != BatchId(t, k)
    {
      RegenerateIdNotBatchId(clock(i), t, k);
    }
  }

  /** The regenerate button of the card at position `k` passes that card's
      id; with distinct ids, exactly that card is replaced. */
  lemma RegenerateCard(ps: seq<GeneratedPhrase>, k: nat, raw: RawPhrase, clock: nat -> nat)
    requires k < |ps| && DistinctIds(ps)
    ensures ReplaceById(ps, ps[k].id, raw, clock)[k] == ToPhrase(RegenerateId(clock(k)), raw)
    ensures forall i :: 0 <= i < |ps| && i != k ==> ReplaceById(ps, ps[k].id, raw, clock)[i] == ps[i]
  {
    var r := ReplaceById(ps, ps[k].id, raw, clock);
    forall i | 0 <= i < |ps| && i != k
      ensures r[i] == ps[i]
    {
      assert ps[i].id != ps[k].id by {
        if i < k {} else {}
      }
    }
  }

  // ---------------------------------------------------------------------
  // The application's state

  class App {
    /** The fixed wording the prompts are built with. */
    const wording: Copy
    var formData: FormData
    var phrases: seq<GeneratedPhrase>
    var isGenerating: bool

    /** The list never holds two cards with one id. */
    ghost predicate Valid()
      reads this
    {
      DistinctIds(phrases)
    }

    /** The initial state: an empty brief, no cards, nothing in flight. The
        application is built with `AppCopy`. */
    constructor (c: Copy)
      ensures wording == c
      ensures formData == SinglePageForm.ClearedForm() && phrases == [] && !isGenerating
      ensures Valid()
    {
      wording := c;
      formData := SinglePageForm.ClearedForm();
      phrases := [];
      isGenerating := false;
    }

    /** `setFormData`, as the form calls it. */
    method SetFormData(d: FormData)
      modifies this
      ensures formData == d && phrases == old(phrases) && isGenerating == old(isGenerating)
    {
      formData := d;
    }

    /** The start of `generatePhrases`: the loading flag is raised and the
        list emptied before the request, which is returned. */
    method BeginGeneration() returns (prompt: seq<Line>, schema: Schema)
      modifies this
      ensures isGenerating && phrases == [] && formData == old(formData)
      ensures Valid()
      ensures prompt == BatchPrompt(wording, formData) && schema == BatchSchema(formData)
    {
      isGenerating := true;
      phrases := [];
      prompt := BatchPrompt(wording, formData);
      schema := BatchSchema(formData);
    }

    /** The rest of `generatePhrases`: on success the list becomes the
        batch; on failure it stays empty; in both the flag is lowered. */
    method FinishGeneration(response: Outcome<seq<RawPhrase>>, clock: nat -> nat)
      requires phrases == []
      modifies this
      ensures !isGenerating && formData == old(formData)
      ensures response.Failure? ==> phrases == []
      ensures response.Success? ==> phrases == BatchPhrases(response.value, clock)
      ensures Valid()
    {
      if response.Success? {
        phrases := BatchPhrases(response.value, clock);
        BatchReconcile(response.value, clock);
      }
      isGenerating := false;
    }

    /** `generatePhrases` as a whole, with the AI outcome and the clock as
        inputs. */
    method GeneratePhrases(response: Outcome<seq<RawPhrase>>, clock: nat -> nat)
      returns (prompt: seq<Line>, schema: Schema)
      modifies this
      ensures prompt == BatchPrompt(wording, formData) && schema == BatchSchema(formData)
      ensures !isGenerating && formData == old(formData)
      ensures response.Failure? ==> phrases == []
      ensures response.Success? ==> phrases == BatchPhrases(response.value, clock)
      ensures Valid()
    {
      prompt, schema := BeginGeneration();
      FinishGeneration(response, clock);
    }

    /** `regenerateAllPhrases` runs the batch again. */
    method RegenerateAll(response: Outcome<seq<RawPhrase>>, clock: nat -> nat)
      returns (prompt: seq<Line>, schema: Schema)
      modifies this
      ensures prompt == BatchPrompt(wording, formData) && schema == BatchSchema(formData)
      ensures !isGenerating && formData == old(formData)
      ensures response.Failure? ==> phrases == []
      ensures response.Success? ==> phrases == BatchPhrases(response.value, clock)
      ensures Valid()
    {
      prompt, schema := GeneratePhrases(response, clock);
    }

    /** `regeneratePhrase(target)`: on success every card with the target id
        is replaced; on failure nothing changes. The loading flag is not
        touched. */
    method RegeneratePhrase(target: string, response: Outcome<RawPhrase>, clock: nat -> nat)
      returns (prompt: seq<Line>, schema: Schema)
      requires Valid() && FreshClock(phrases, clock)
      modifies this
      ensures prompt == RegeneratePrompt(wording, formData) && schema == RegenerateSchema(formData)
      ensures formData == old(formData) && isGenerating == old(isGenerating)
      ensures response.Failure? ==> phrases == old(phrases)
      ensures response.Success? ==> phrases == ReplaceById(old(phrases), target, response.value, clock)
      ensures Valid()
    {
      prompt := RegeneratePrompt(wording, formData);
      schema := RegenerateSchema(formData);
      if response.Success? {
        ReplaceKeepsDistinct(phrases, target, response.value, clock);
        phrases := ReplaceById(phrases, target, response.value, clock);
      }
    }

    /** `exportPhrases`: the file's text and name; nothing changes. */
    method ExportPhrases() returns (content: string, fileName: string)
      ensures content == Export(phrases)
      ensures fileName == formData.companyName + "-linkedin-phrases.txt"
    {
      content := Export(phrases);
      fileName := formData.companyName + "-linkedin-phrases.txt";
    }
  }
}
