/**
 * The canvas page as js/script.js and js/chat.js read it: a sequence of
 * `.section` elements, each with an id and some form controls, and the table
 * of readable section names both scripts carry.
 */
module Canvas {
  import opened JsText

  /** Readable names by section id (the `sectionNames` table of both scripts). */
  const SectionNames: map<string, string> := map[
    "task-type" := "Task Type",
    "human-judgment" := "Human Judgment & Oversight",
    "action" := "Action",
    "outcome" := "Outcome",
    "input-data" := "Input Data / Prompts / Features",
    "training-data" := "Training/Fine-tuning Data",
    "feedback-loop" := "Feedback Loop",
    "value-proposition" := "Value Proposition",
    "risks-responsible-ai" := "Risks & Responsible AI",
    "model-selection" := "Model Selection & Prompt Engineering",
    "content-moderation" := "Content Moderation & Quality Control",
    "transparency-ux" := "Transparency & User Experience"]

  /** Section ids by readable name (the `sectionNameToId` table of the score display). */
  const SectionIds: map<string, string> := map[
    "Task Type" := "task-type",
    "Human Judgment & Oversight" := "human-judgment",
    "Action" := "action",
    "Outcome" := "outcome",
    "Input Data / Prompts / Features" := "input-data",
    "Training/Fine-tuning Data" := "training-data",
    "Feedback Loop" := "feedback-loop",
    "Value Proposition" := "value-proposition",
    "Risks & Responsible AI" := "risks-responsible-ai",
    "Model Selection & Prompt Engineering" := "model-selection",
    "Content Moderation & Quality Control" := "content-moderation",
    "Transparency & User Experience" := "transparency-ux"]

  /** `sectionNames[sectionId] || sectionId`. */
  function ReadableName(id: string): (name: string)
    ensures id in SectionNames ==> name == SectionNames[id]
    ensures id !in SectionNames ==> name == id
  {
    if id in SectionNames then SectionNames[id] else id
  }

  /** The two tables are inverse to each other. */
  lemma NameTablesAreInverse()
    ensures forall id :: id in SectionNames ==> SectionNames[id] in SectionIds && SectionIds[SectionNames[id]] == id
    ensures forall n :: n in SectionIds ==> SectionIds[n] in SectionNames && SectionNames[SectionIds[n]] == n
  {
  }

  /** The value a form control holds. */
  datatype FieldValue = Text(text: string) | Checked(on: bool)

  /**
   * One `.section` element: its id and its controls, keyed as the loader looks
   * them up (`textarea` and `select` by tag name, checkboxes by their name).
   */
  datatype Section = Section(id: string, controls: map<string, FieldValue>)

  /** One entry of `getCanvasData()`: a section id and its textarea's value, if it has one. */
  datatype Entry = Entry(id: string, textarea: Option<string>)

  function TextareaOf(s: Section): Option<string> {
    if "textarea" in s.controls && s.controls["textarea"].Text? then Some(s.controls["textarea"].text) else None
  }

  /**
   * `getCanvasData()` read in `Object.entries` order, listed here section by
   * section in page order. `Object.entries` lists integer-like keys first, in
   * ascending order, and the other keys in insertion order, so the two agree
   * when the section ids are distinct (`DistinctIds`) and none is
   * integer-like, as on the page.
   */
  function CanvasEntries(page: seq<Section>): (r: seq<Entry>)
    ensures |r| == |page|
    ensures forall i :: 0 <= i < |page| ==> r[i] == Entry(page[i].id, TextareaOf(page[i]))
  {
    if page == [] then [] else [Entry(page[0].id, TextareaOf(page[0]))] + CanvasEntries(page[1..])
  }

  predicate DistinctIds(page: seq<Section>) {
    forall i, j :: 0 <= i < j < |page| ==> page[i].id != page[j].id
  }

  /** `getCanvasData()` as a value: section id to `{textarea: value}`, or `{}` without a textarea. */
  type CanvasData = map<string, map<string, FieldValue>>

  function EntryData(e: Entry): (r: map<string, FieldValue>)
    ensures e.textarea.Some? ==> r == map["textarea" := Text(e.textarea.value)]
    ensures e.textarea.None? ==> r == map[]
  {
    match e.textarea
    case Some(t) => map["textarea" := Text(t)]
    case None => map[]
  }

  /** The entries stored one after the other under their ids, a later one replacing an earlier. */
  function ToData(es: seq<Entry>): (r: CanvasData)
    ensures forall i :: 0 <= i < |es| ==> es[i].id in r
    ensures forall id :: id in r ==> exists i :: 0 <= i < |es| && es[i].id == id
  {
    if es == [] then map[] else ToData(es[..|es| - 1])[es[|es| - 1].id := EntryData(es[|es| - 1])]
  }

  /** With distinct ids, each id holds its own entry. */
  lemma {:induction false} ToDataAt(es: seq<Entry>, i: nat)
    requires i < |es|
    requires forall a, b :: 0 <= a < b < |es| ==> es[a].id != es[b].id
    ensures ToData(es)[es[i].id] == EntryData(es[i])
  {
    if i < |es| - 1 {
      var init := es[..|es| - 1];
      assert init[i] == es[i];
      ToDataAt(init, i);
    }
  }

  /** The data read from a page with distinct ids holds each section's own entry. */
  lemma ToDataOfPage(page: seq<Section>, i: nat)
    requires DistinctIds(page) && i < |page|
    ensures page[i].id in ToData(CanvasEntries(page))
    ensures ToData(CanvasEntries(page))[page[i].id] == EntryData(Entry(page[i].id, TextareaOf(page[i])))
  {
    var es := CanvasEntries(page);
    forall a, b | 0 <= a < b < |es| ensures es[a].id != es[b].id {
      assert es[a].id == page[a].id && es[b].id == page[b].id;
    }
    ToDataAt(es, i);
  }

  /**
   * Assigning a stored value to a control: a text control takes the value as
   * text (a boolean becomes `"true"`/`"false"`), a checkbox takes its truthiness.
   */
  function Coerce(control: FieldValue, v: FieldValue): (r: FieldValue)
    ensures r.Text? == control.Text?
    ensures control.Text? && v.Text? ==> r == v
    ensures control.Checked? && v.Checked? ==> r == v
  {
    match (control, v)
    case (Text(_), Text(t)) => Text(t)
    case (Text(_), Checked(b)) => Text(if b then "true" else "false")
    case (Checked(_), Checked(b)) => Checked(b)
    case (Checked(_), Text(t)) => Checked(t != "")
  }

  /** One section's controls after `populateCanvasFromData`: only keys the data has are assigned. */
  function PopulateControls(controls: map<string, FieldValue>, sd: map<string, FieldValue>): (r: map<string, FieldValue>)
    ensures r.Keys == controls.Keys
    ensures forall k :: k in controls && k in sd ==> r[k] == Coerce(controls[k], sd[k])
    ensures forall k :: k in controls && k !in sd ==> r[k] == controls[k]
  {
    map k | k in controls :: if k in sd then Coerce(controls[k], sd[k]) else controls[k]
  }

  /** `populateCanvasFromData(data)`: every section looks up `data[id] || {}`. */
  function Populate(page: seq<Section>, data: CanvasData): (r: seq<Section>)
    ensures |r| == |page|
    ensures forall i :: 0 <= i < |page| ==> r[i].id == page[i].id
    ensures forall i :: 0 <= i < |page| && page[i].id !in data ==> r[i] == page[i]
    ensures forall i :: 0 <= i < |page| && page[i].id in data ==>
      r[i].controls == PopulateControls(page[i].controls, data[page[i].id])
  {
    if page == [] then []
    else
      var s := page[0];
      var sd := if s.id in data then data[s.id] else map[];
      [Section(s.id, PopulateControls(s.controls, sd))] + Populate(page[1..], data)
  }

  /** A section's own entry written back changes nothing. */
  lemma PopulateOwnEntry(s: Section)
    ensures PopulateControls(s.controls, EntryData(Entry(s.id, TextareaOf(s)))) == s.controls
  {
  }

  /** Populating a page with the data read from it gives the page back. */
  lemma PopulateWithOwnData(page: seq<Section>)
    requires DistinctIds(page)
    ensures Populate(page, ToData(CanvasEntries(page))) == page
  {
    var es := CanvasEntries(page);
    var data := ToData(es);
    var r := Populate(page, data);
    forall i | 0 <= i < |page| ensures r[i] == page[i] {
      ToDataOfPage(page, i);
      PopulateOwnEntry(page[i]);
    }
  }

  /**
   * The prompt of a request: the analyzer's fixed instructions with the
   * canvas text in place, or the chat widget's with the canvas context and
   * the user's message in place.
   */
  datatype Prompt = AnalysisPrompt(canvas: string) | ChatPrompt(context: string, message: string)

  /** The body both scripts post to the relay's `generate` endpoint. */
  datatype GenerateRequest = GenerateRequest(model: string, prompt: Prompt, stream: bool, temperature: real)

  const AnalysisPromptHead :=
@"
You are an AI assistant analyzing an AI Canvas. The canvas is a tool for planning and analyzing both traditional and generative AI projects.

Here's the current state of the canvas:
"

  const AnalysisPromptTail :=
@"

Provide the following in your response, using EXACTLY this format:

# QUALITY SCORES

IMPORTANT: ONLY include scores for sections that have actual content. DO NOT score empty sections or sections marked as [EMPTY SECTION - NO CONTENT].

For each non-empty section, provide a score using EXACTLY this format:
- Section Name: X%

Example:
- Value Proposition: 75%
- Problem: 60%

Rate each from 0-100% based on completeness, specificity, and quality.

# SECTION RECOMMENDATIONS

IMPORTANT: ONLY provide recommendations for sections that have actual content. DO NOT recommend improvements for empty sections.

Choose up to 3 non-empty sections that need the most improvement and would have the biggest impact if improved. For each section:

## [Section Name]
[Specific recommendation for improving this section, referencing the actual content]

If fewer than 3 sections have content, only provide recommendations for those that do.

# OVERALL RECOMMENDATIONS

Provide 1-3 general recommendations for improving the canvas as a whole, based ONLY on the sections that have content. If very few sections have content, focus on suggesting which empty sections should be filled in first and why.

1. [First overall recommendation]
2. [Second overall recommendation]
3. [Third overall recommendation]

Make your recommendations specific, actionable, and concise. Focus on how to improve the quality and completeness of the canvas.
"

  const ChatPromptHead :=
@"
You are an AI assistant helping a user with their AI Canvas.
The canvas is a tool for planning and analyzing both traditional and generative AI projects.

Here's the current state of the user's canvas:
"

  const ChatPromptMiddle :=
@"

Based on this information, please provide helpful, constructive feedback and suggestions.
Focus on helping the user improve their canvas entries and think more deeply about their AI project.

User message: "

  const ChatPromptTail :=
@"
"

  /** The prompt as the text the template literal produces. */
  function PromptText(p: Prompt): string {
    match p
    case AnalysisPrompt(canvas) => AnalysisPromptHead + canvas + AnalysisPromptTail
    case ChatPrompt(context, message) => ChatPromptHead + context + ChatPromptMiddle + message + ChatPromptTail
  }
}
