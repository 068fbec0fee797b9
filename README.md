# HeroPhrases — a Dafny model of the phrase generator's core

HeroPhrases is a React app for LinkedIn funnel phrases. A user fills in one
brief about their company, product, audience, tone, style and quantity. The
app builds a prompt and a JSON schema from the brief and asks an AI service
for a batch of "branded phrase" cards. A single card can be regenerated. The
batch can be exported as a text file, and each card can be copied as text.

This project models the app's own logic and proves what it promises:

- `FormTypes` (`form_types.dfy`): the `FormData` and `GeneratedPhrase`
  records, the option lists, and the sentinel values the other parts branch
  on (`"Other..."`, `"1-2"`, `"Branded Neologism"`).
- `JsText` (`js_text.dfy`): the JavaScript string built-ins the app relies on.
  These are `trim` (with ECMAScript's whitespace set), `.length` in UTF-16
  code units, number-to-string, `toLowerCase`, `repeat` and `join`, plus a
  `Contains` relation used to state what a text mentions.
- `SinglePageForm` (`single_page_form.dfy`): the validity rule, the
  record-update helpers, and the form component. The component keeps its
  `isFormValid` flag in step with the record and gates submission on it.
- `Prompt` (`prompt.dfy`): the count, brand and industry resolution, both
  prompts and both output schemas. A prompt is a sequence of keyed lines
  joined by newlines. Every fixed piece of wording is a field of a `Copy`
  record, so the proofs hold for any wording whose branch texts differ
  (`BranchesDiffer`). `AppCopy` is the app's own wording, and
  `AppCopyBranchesDiffer` proves that its branch texts differ.
- `ExportText` (`export_text.dfy`): the text of the exported file.
- `PhraseCard` (`phrase_card.dfy`): the text the "Copy All" button copies.
- `Results` (`results.dfy`): card ids, the batch reconcile, replacing one card
  by id, and the `App` class. `App` holds the brief, the card list and the
  loading flag, and its methods keep every card id distinct.

In the app, the brief lives in `App`, which passes `formData` and
`setFormData` to the form as props (src/components/SinglePageForm.tsx:6-13,
src/App.tsx:341-345). The model keeps the two components apart: the form
component takes its brief as a field, and `Results.App.SetFormData` is the
setter the form calls.

The AI call is an input value (`Outcome`: `Success` with the decoded object,
or `Failure` for a thrown error). `Date.now()` is an input clock that gives
the reading for each element the `map` callbacks build.

## Model

| member | source | states |
|---|---|---|
| FormTypes.FormDataShape | src/types/form.ts:1-20 | the brief has 13 distinct fields; exactly the first 12 hold strings and the last (includeCTA) a flag; two briefs agreeing on every field are equal |
| FormTypes.FunnelStagesDistinct | src/types/form.ts:31-35 | the funnel stages are exactly Awareness, Consideration, Conversion, pairwise distinct |
| FormTypes.OtherIsLastIndustry | src/types/form.ts:37-49 | the industry list has 11 entries; "Other..." is the last and no other entry |
| FormTypes.StyleValuesAreBranchKeys | src/types/form.ts:61-64 | the style values are exactly the two keys the prompt branches on, and they differ |
| FormTypes.ToneOptionsDistinct | src/types/form.ts:51-59 | the tone list offers seven pairwise distinct tones |
| FormTypes.QuantityValuesExact | src/types/form.ts:66-69 | the quantity values are exactly "1-2" and "5-10", and they differ |
| JsText.TrimStart | src/components/SinglePageForm.tsx:30 | trimming the start never lengthens a text |
| JsText.TrimEnd | src/components/PhraseCard.tsx:35 | trimming the end never lengthens a text |
| JsText.Trim | src/components/PhraseCard.tsx:35 | `trim()` never lengthens a text, and what is left is empty or has no whitespace at either end |
| JsText.TrimStartSpec | src/components/SinglePageForm.tsx:30 | trimStart keeps a suffix and removes only whitespace; what is left is empty or starts visible |
| JsText.TrimEndSpec | src/components/PhraseCard.tsx:35 | trimEnd keeps a prefix and removes only whitespace; what is left is empty or ends visible |
| JsText.TrimProperties | src/components/PhraseCard.tsx:35 | `trim()` yields a contiguous slice of its input with no whitespace at either end |
| JsText.TrimEmptyIff | src/components/SinglePageForm.tsx:30 | `trim().length > 0` exactly when the text has a non-whitespace character |
| JsText.TrimEndAppend | src/components/PhraseCard.tsx:35 | trimming the end of `a + b` touches only `b` when `b` has a visible character |
| JsText.TrimEndDropsWhitespace | src/components/PhraseCard.tsx:35 | whitespace appended to a text is exactly what trimEnd removes from it |
| JsText.TrimEndKeepsVisibleEnd | src/components/PhraseCard.tsx:35 | trimEnd never cuts into a prefix that ends with a visible character |
| JsText.Utf16Length | src/components/SinglePageForm.tsx:31-33 | `.length` counts UTF-16 code units: between the number of characters and twice that, and equal to it when every character is in the Basic Multilingual Plane |
| JsText.NatToString | src/App.tsx:121 | a number renders as a non-empty run of decimal digits, one digit exactly below 10 |
| JsText.NatToStringValue | src/App.tsx:121 | the rendered digits read back, in decimal, as the number itself, and they start with `0` only for zero |
| JsText.NatToStringInjective | src/App.tsx:161 | different numbers render differently |
| JsText.ToLowerAscii | src/App.tsx:123 | `toLowerCase` keeps the length, lowers A-Z and leaves every other character |
| JsText.Repeat | src/App.tsx:292 | `'='.repeat(n)` has n characters, all `=` |
| JsText.Join | src/App.tsx:293 | a join of at least one part starts with the first part |
| JsText.JoinContains | src/App.tsx:293 | every part of a join appears in the joined text |
| SinglePageForm.ValidIff | src/components/SinglePageForm.tsx:17-36 | the brief is valid exactly when each required field (with the custom industry in place of "Other...") has a visible character, the pain point is 15 to 200 UTF-16 units long and the description at most 400 |
| SinglePageForm.RequiredFilledIff | src/components/SinglePageForm.tsx:18-30 | `requiredFields.every(...)` holds exactly when each of the nine fields it lists has a visible character |
| SinglePageForm.ValidFieldsVisible | src/components/SinglePageForm.tsx:18-30 | a valid brief has a visible character in company name, description, funnel stage, role, pain point, tone, style and quantity |
| SinglePageForm.IndustryRule | src/components/SinglePageForm.tsx:23 | with "Other..." the custom industry must be filled and decides validity; otherwise the custom industry is ignored and the industry must be filled |
| SinglePageForm.ValidLengths | src/components/SinglePageForm.tsx:31-33 | a valid brief's pain point is 15 to 200 code units and its description at most 400, measured untrimmed |
| SinglePageForm.OptionalFieldsIgnored | src/components/SinglePageForm.tsx:18-33 | product name, company URL and includeCTA never change validity |
| SinglePageForm.Update | src/components/SinglePageForm.tsx:38-40 | updating a field sets it to the value and leaves every other field as it was |
| SinglePageForm.ClearedForm | src/components/SinglePageForm.tsx:42-58 | the cleared brief has every string empty and includeCTA off, and it is invalid |
| SinglePageForm.ToggleIncludeCTA | src/components/SinglePageForm.tsx:390 | the switch flips includeCTA, changes no other field and keeps validity |
| SinglePageForm.ToggleTwice | src/components/SinglePageForm.tsx:390 | flipping the switch twice restores the brief |
| SinglePageForm.FormComponent.constructor | src/components/SinglePageForm.tsx:13-14 | the component starts on the given brief with its validity flag false, as `useState(false)` does before the effect first runs |
| SinglePageForm.FormComponent.ValidityEffect | src/components/SinglePageForm.tsx:17-36 | the validity effect leaves the brief alone and sets the flag to the brief's validity |
| SinglePageForm.FormComponent.SetFormData | src/components/SinglePageForm.tsx:17-36 | after the brief changes and the effect runs, the validity flag matches it |
| SinglePageForm.FormComponent.UpdateFormData | src/components/SinglePageForm.tsx:38-40 | one field changes, all others stay, and the flag is recomputed |
| SinglePageForm.FormComponent.ClearForm | src/components/SinglePageForm.tsx:42-58 | the brief is cleared and the form cannot be submitted |
| SinglePageForm.FormComponent.ToggleCTA | src/components/SinglePageForm.tsx:390 | the brief's includeCTA flips and the validity flag is unchanged |
| SinglePageForm.FormComponent.HandleSubmit | src/components/SinglePageForm.tsx:60-65 | the handler calls `onSubmit` exactly when the flag is set and nothing is loading; once the validity effect has run, that is exactly when the brief is valid and nothing is loading |
| Prompt.PhraseCountRule | src/App.tsx:46 | the count is 2 exactly for "1-2" and 8 for every other value, so each listed quantity yields 2 or 8; the loading skeleton (src/components/ResultsDisplay.tsx:29) uses the same rule |
| Prompt.ResolutionRules | src/App.tsx:45-49 | the primary brand is the product name when one is given, else the company name; the industry is the custom one exactly under "Other..." |
| Prompt.OrNotProvidedRule | src/App.tsx:80-83 | an empty product name or URL is replaced by "Not provided" and a typed one is kept, so the line never interpolates an empty value |
| Prompt.AppCopyBranchesDiffer | src/App.tsx:93-96 | the app's wording tells both format lines and both CTA directives apart |
| Prompt.FormatDirectiveRule | src/App.tsx:93-96 | the neologism format line is chosen exactly for "Branded Neologism", the tagline line for every other style |
| Prompt.BrandPriorityRule | src/App.tsx:104-107 | with a product name, rule 3 names the product and the company; without one, it names only the company |
| Prompt.CtaDirectiveRule | src/App.tsx:123-130 | with CTAs on, rule 10 names the lower-cased funnel stage and differs from "Do not include CTAs"; with CTAs off, it is that text; the cta bullet is there exactly when CTAs are on |
| Prompt.LinesMentionValues | src/App.tsx:78-92 | each labelled line contains the value it interpolates, and the persona line also contains the resolved industry |
| Prompt.BatchCompanyLine | src/App.tsx:79 | the batch prompt's company line is the label and the company name |
| Prompt.BatchBrandLine | src/App.tsx:81 | the batch prompt's brand line carries the primary brand |
| Prompt.BatchDescriptionLine | src/App.tsx:82 | the batch prompt's description line carries the description |
| Prompt.BatchFunnelLine | src/App.tsx:86 | the batch prompt's funnel line carries the funnel stage |
| Prompt.BatchPersonaLine | src/App.tsx:87 | the batch prompt's persona line is the role "in" the resolved industry |
| Prompt.BatchPainLine | src/App.tsx:88 | the batch prompt's pain line carries the pain point |
| Prompt.BatchToneLine | src/App.tsx:89 | the batch prompt's tone line carries the tone |
| Prompt.BatchStyleLine | src/App.tsx:92 | the batch prompt's style line carries the style |
| Prompt.BatchFormatLine | src/App.tsx:93-96 | the batch prompt's format line is the directive chosen by the style |
| Prompt.BatchPriorityLine | src/App.tsx:104-107 | the batch prompt's rule 3 is the brand-priority text |
| Prompt.BatchUniquenessLine | src/App.tsx:121 | the batch prompt's rule 9 carries the requested count |
| Prompt.BatchCtaLine | src/App.tsx:123 | the batch prompt's rule 10 is the CTA directive |
| Prompt.BatchCtaItemLine | src/App.tsx:130 | the batch prompt's last bullet is the cta bullet or empty, by the flag |
| Prompt.BatchPromptShape | src/App.tsx:50-133 | the batch prompt has exactly the 37 lines of its layout, in order |
| Prompt.BatchPromptMentionsCompany | src/App.tsx:78-83 | the batch prompt mentions the company name, the primary brand and the description |
| Prompt.BatchPromptMentionsAudience | src/App.tsx:85-87 | the batch prompt mentions the funnel stage, the role and the resolved industry |
| Prompt.BatchPromptMentionsRequest | src/App.tsx:88-132 | the batch prompt mentions the pain point, the tone, the style and the count |
| Prompt.BatchFormatBranch | src/App.tsx:91-96 | the batch prompt carries the neologism format exactly for "Branded Neologism" and the tagline format otherwise |
| Prompt.BatchCtaBranch | src/App.tsx:121-130 | the batch prompt's CTA rule follows the flag, with "Do not include CTAs" when off; its cta bullet is there exactly when on |
| Prompt.RegenerateCompanyLine | src/App.tsx:213 | the single-phrase prompt's company line carries the company name |
| Prompt.RegenerateBrandLine | src/App.tsx:215 | the single-phrase prompt's brand line carries the primary brand |
| Prompt.RegeneratePersonaLine | src/App.tsx:220 | the single-phrase prompt's persona line is the role "in" the resolved industry |
| Prompt.RegeneratePainLine | src/App.tsx:221 | the single-phrase prompt's pain line carries the pain point |
| Prompt.RegenerateDescriptionLine | src/App.tsx:216 | the single-phrase prompt's description line carries the description |
| Prompt.RegenerateFunnelLine | src/App.tsx:219 | the single-phrase prompt's funnel line carries the funnel stage |
| Prompt.RegenerateToneLine | src/App.tsx:222 | the single-phrase prompt's tone line carries the tone |
| Prompt.RegenerateStyleLine | src/App.tsx:225 | the single-phrase prompt's style line carries the style |
| Prompt.RegenerateFormatLine | src/App.tsx:226-229 | the single-phrase prompt's format line is the directive chosen by the style |
| Prompt.RegeneratePriorityLine | src/App.tsx:234-237 | the single-phrase prompt's rule 3 is the brand-priority text |
| Prompt.RegeneratePromptShape | src/App.tsx:187-245 | the single-phrase prompt has exactly the 27 lines of its layout, in order |
| Prompt.PromptsAgree | src/App.tsx:184-185 | both prompts resolve brand, industry, brand priority and format the same way |
| Prompt.RegenerateLayoutOmits | src/App.tsx:187-245 | the single-phrase layout has no URL line, no count rule, no CTA rule and no cta bullet |
| Prompt.RegenerateOmits | src/App.tsx:187-245 | the single-phrase prompt lacks the URL, count and CTA lines that the batch prompt has |
| Prompt.RegeneratePromptMentions | src/App.tsx:212-225 | the single-phrase prompt mentions the company name, the primary brand, the description, the funnel stage, the role, the resolved industry, the pain point, the tone and the style |
| Prompt.ItemSchema | src/App.tsx:137-156 | a phrase object requires exactly the four fields other than `cta`, has five properties with CTAs on and four with them off, and every property is a string |
| Prompt.BatchSchema | src/App.tsx:137-156 | the batch schema has one property, the required `phrases`, an array of phrase objects for the brief's CTA flag |
| Prompt.RegenerateSchema | src/App.tsx:249-259 | the single-phrase schema requires the four fields other than `cta` and has five properties exactly when CTAs are on |
| Prompt.SchemaRules | src/App.tsx:137-156 | `cta` is an item property exactly when CTAs are on and is never required; the required fields are exactly the four others; the batch schema is a required array of the single-phrase schema (src/App.tsx:249-259) |
| ExportText.Separator | src/App.tsx:292 | the separator is 50 `=` characters |
| ExportText.Block | src/App.tsx:283-292 | a card's block starts with a newline and ends with the closing |
| ExportText.Export | src/App.tsx:283-293 | exporting no cards gives the empty text; otherwise the export starts with the first card's block |
| ExportText.ExportEmptyIff | src/App.tsx:282-293 | the exported text is empty exactly when there are no cards |
| ExportText.ExportAppend | src/App.tsx:283-293 | one more card adds a newline and its block, numbered by its position |
| ExportText.ExportContainsBlock | src/App.tsx:283-293 | the export contains the block of every card at its position |
| ExportText.BlockFrame | src/App.tsx:283-292 | a block opens with "PHRASE k: " (k = index + 1) and the phrase, and closes with the separator line |
| ExportText.Closing | src/App.tsx:291-293 | the block's closing is 57 characters: a blank line, the separator and the template's indentation |
| ExportText.BlockCta | src/App.tsx:290 | a block has the CTA line exactly when the card's cta is truthy |
| PhraseCard.CopyAllContent | src/components/PhraseCard.tsx:26-35 | the copied text is shorter than the template it trims and has no whitespace at either end |
| PhraseCard.CopyAllTrim | src/components/PhraseCard.tsx:27-35 | trimming removes only the opening newline and the trailing whitespace of the details |
| PhraseCard.CopyAllTrimmed | src/components/PhraseCard.tsx:35 | the copied text is non-empty and has no whitespace at either end |
| PhraseCard.CopyAllOrder | src/components/PhraseCard.tsx:27-34 | the copied text starts with "Branded Phrase: " and the phrase, then meaning, LinkedIn example and pro tip, each after a blank line |
| PhraseCard.CopyAllNoCtaBound | src/components/PhraseCard.tsx:34 | without a cta the copied text ends by the pro tip |
| PhraseCard.CopyAllCtaLabel | src/components/PhraseCard.tsx:34 | with a truthy cta the pro tip is followed by the CTA label |
| PhraseCard.CopyAllCta | src/components/PhraseCard.tsx:34 | the CTA segment is there exactly when the cta is truthy |
| Results.ToPhrase | src/App.tsx:160-166 | a card built from a response keeps the given id and shows the response, with a cta exactly when it is truthy |
| Results.BatchId | src/App.tsx:161 | a batch id starts with `phrase-` and what follows is not all digits |
| Results.RegenerateId | src/App.tsx:267 | a regenerate id is `phrase-` followed by a non-empty run of digits |
| Results.ReplaceById | src/App.tsx:263-276 | replacing by id keeps the number of cards |
| Results.KeptCta | src/App.tsx:166 | a response's cta is kept exactly when it is truthy |
| Results.DigitsDashSplit | src/App.tsx:161 | splitting at the dash after a run of digits is unambiguous |
| Results.BatchIdInjective | src/App.tsx:161 | two batch ids are equal exactly when their clock readings and indexes are |
| Results.RegenerateIdInjective | src/App.tsx:267 | two regenerate ids are equal exactly when their clock readings are |
| Results.RegenerateIdNotBatchId | src/App.tsx:267 | a regenerate id is never a batch id |
| Results.BatchPhrases | src/App.tsx:160-167 | the batch has one card per response item |
| Results.BatchReconcile | src/App.tsx:160-167 | the batch keeps response order, each card shows its item with a cta exactly when truthy, and the ids are pairwise distinct for every clock |
| Results.ReplaceByIdRule | src/App.tsx:263-276 | the length is kept; cards with another id stay at their positions; cards with the target id show the response under a regenerate id |
| Results.ReplaceMissing | src/App.tsx:263-276 | a target no card carries leaves the list unchanged |
| Results.ReplaceKeepsDistinct | src/App.tsx:263-276 | with distinct ids and fresh clock readings, ids stay distinct |
| Results.ReplaceDropsBatchId | src/App.tsx:263-276 | after regenerating a batch card, no card has its old id |
| Results.RegenerateCard | src/components/PhraseCard.tsx:93 | a card's regenerate button replaces that card and only that card |
| Results.App.constructor | src/App.tsx:12-29 | the app starts with an empty brief, no cards and nothing loading |
| Results.App.SetFormData | src/App.tsx:341-346 | the form replaces the brief and nothing else |
| Results.App.BeginGeneration | src/App.tsx:40-50 | the loading flag is raised and the list emptied before the request, which is the batch prompt and schema for the brief |
| Results.App.FinishGeneration | src/App.tsx:159-175 | on success the list becomes the batch; on failure it stays empty; the flag is lowered either way and ids stay distinct |
| Results.App.GeneratePhrases | src/App.tsx:40-176 | the whole batch generation: request, outcome, list and flag as above |
| Results.App.RegenerateAll | src/App.tsx:178-180 | regenerating all runs the batch generation again |
| Results.App.RegeneratePhrase | src/App.tsx:182-280 | the request is the single-phrase prompt and schema; on success the target cards are replaced by id; on failure nothing changes; ids stay distinct |
| Results.App.ExportPhrases | src/App.tsx:282-299 | the file's text is the export of the current cards and its name is the company name plus "-linkedin-phrases.txt" |

## Left out

- The AI service call is not modelled. It is an input `Outcome`. Whether the
  service honours the schema or the advisory prompt rules (uniqueness,
  "hero" wording) is not checked.
- `AppCopy` shortens the fixed wording with "..." wherever it stands: the
  lines that interpolate nothing, and the fixed parts of lines that do (the
  hero rule, rule 6, rule 9, the `brandedPhrase` and `linkedinExample`
  bullets, the tone directive's tails). The words right around each
  interpolated value are kept. Every prompt property is proved for any
  wording whose branch texts differ (`BranchesDiffer`), which
  `AppCopyBranchesDiffer` proves for `AppCopy`, so it does not depend on the
  shortened text.
- The prompts' blank lines, the example lists under "CREATIVE MODEL", and the
  template's leading and trailing whitespace are not separate lines of the
  model.
- `Date.now()` is an input clock. `Results.App.RegeneratePhrase` requires
  fresh readings, meaning no card already has the id a reading would give.
  The app relies on the millisecond clock moving between calls; two
  regenerations in one millisecond would give two cards the same id.
- Overlapping asynchronous calls are not modelled. Each operation runs to
  completion before the next, so there is no last-write-wins race between a
  batch and a regeneration.
- Sign-in (src/App.tsx:32-38, 306-337), the file download
  (src/App.tsx:295-303), the clipboard write and its timer
  (src/components/PhraseCard.tsx:16-24), JSX and animation are left out.
- src/components/ResultsPage.tsx and the src/components/steps/ components are
  not part of this model. The app does not reach them.
- JsText.ToLowerAscii: lowers only A-Z. JavaScript's `toLowerCase` also maps
  non-ASCII letters.
- SinglePageForm.Update: requires that the value's kind fits the field (text
  for the twelve strings, a flag for includeCTA). The TypeScript type of
  `updateFormData` allows mismatched pairs, but every caller
  (src/components/SinglePageForm.tsx:117-390) passes a value of the field's
  kind.
- SinglePageForm.FormComponent.HandleSubmit: covers the handler itself. The
  browser's own form checks run first, since the form has no `noValidate`
  (src/components/SinglePageForm.tsx:95): `required`, `maxLength` and the
  company URL's `type="url"` (src/components/SinglePageForm.tsx:171-177) can
  block a submit event that `IsValid` would accept. Validity then holds for
  the flag only once the validity effect has run after a render.
