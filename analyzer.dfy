/**
 * The canvas analyzer of js/script.js: the prompt it writes from the canvas,
 * the guard that refuses an empty canvas, the reading of the model's reply
 * into score maps and recommendation markup, the score badges on the section
 * cards, and the saved-canvas record with its loader.
 */
module Analyzer {
  import opened JsText
  import opened Canvas
  import opened LlmReply

  // ---------------------------------------------------------- empty guard

  /** `data.textarea && data.textarea.trim() !== ''`. */
  predicate HasContent(t: Option<string>) {
    t.Some? && t.value != "" && Trim(t.value) != ""
  }

  /** No section holds anything but white space: the filter of non-empty sections is empty. */
  predicate AllEmpty(es: seq<Entry>) {
    forall i :: 0 <= i < |es| ==> !HasContent(es[i].textarea)
  }

  /** The canvas is empty exactly when no section has non-blank text. */
  lemma AllEmptyIffAllBlank(es: seq<Entry>)
    ensures AllEmpty(es) <==> forall i :: 0 <= i < |es| ==> es[i].textarea.None? || Blank(es[i].textarea.value)
  {
    forall i | 0 <= i < |es| && es[i].textarea.Some?
      ensures HasContent(es[i].textarea) <==> !Blank(es[i].textarea.value)
    {
      var t := es[i].textarea.value;
      TrimEmptyIffBlank(t);
      if t == "" {
        assert Blank(t);
      }
    }
  }

  // ------------------------------------------------------------ the prompt

  const EmptyMarker := "[EMPTY SECTION - NO CONTENT]"

  /** What `formatCanvasForLLM` writes for one section: a heading, the text or the marker, a blank line. */
  function LlmBlock(e: Entry): string {
    ("## " + ReadableName(e.id) + "\n")
    + (if HasContent(e.textarea) then e.textarea.value + "\n" else EmptyMarker + "\n")
    + "\n"
  }

  /** The blocks of all sections, in page order. */
  function LlmCanvasText(es: seq<Entry>): (r: string)
    ensures r == "" <==> es == []
    ensures |r| >= 5 * |es|
  {
    if es == [] then "" else LlmCanvasText(es[..|es| - 1]) + LlmBlock(es[|es| - 1])
  }

  /** The text of a canvas is the text of its first part followed by that of the rest. */
  lemma {:induction false} LlmCanvasTextAppend(a: seq<Entry>, b: seq<Entry>)
    ensures LlmCanvasText(a + b) == LlmCanvasText(a) + LlmCanvasText(b)
    decreases |b|
  {
    if b == [] {
      assert a + b == a;
    } else {
      var front := b[..|b| - 1];
      var last := LlmBlock(b[|b| - 1]);
      assert (a + b)[..|a + b| - 1] == a + front;
      assert (a + b)[|a + b| - 1] == b[|b| - 1];
      LlmCanvasTextLast(a + b);
      LlmCanvasTextLast(b);
      LlmCanvasTextAppend(a, front);
      StringAssoc(LlmCanvasText(a), LlmCanvasText(front), last);
    }
  }

  /** The text of a non-empty canvas ends with the block of its last section. */
  lemma LlmCanvasTextLast(es: seq<Entry>)
    requires es != []
    ensures LlmCanvasText(es) == LlmCanvasText(es[..|es| - 1]) + LlmBlock(es[|es| - 1])
  {
  }

  lemma StringAssoc(x: string, y: string, z: string)
    ensures (x + y) + z == x + (y + z)
  {
  }

  /** Whitespace-only text is sent as the empty marker. */
  lemma BlankTextIsMarked(id: string, t: string)
    requires Blank(t)
    ensures LlmCanvasText([Entry(id, Some(t))]) == "## " + ReadableName(id) + "\n" + EmptyMarker + "\n" + "\n"
  {
    assert [Entry(id, Some(t))][..0] == [];
    TrimEmptyIffBlank(t);
  }

  /** `formatCanvasForLLM(canvasData)`. */
  method FormatCanvasForLlm(es: seq<Entry>) returns (text: string)
    ensures text == LlmCanvasText(es)
  {
    text := "";
    var i := 0;
    while i < |es|
      invariant 0 <= i <= |es|
      invariant text == LlmCanvasText(es[..i])
    {
      var e := es[i];
      ghost var before := text;
      var heading := "## " + ReadableName(e.id) + "\n";
      text := text + heading;
      var line;
      if e.textarea.Some? && e.textarea.value != "" && Trim(e.textarea.value) != "" {
        line := e.textarea.value + "\n";
      } else {
        line := EmptyMarker + "\n";
      }
      text := text + line;
      text := text + "\n";
      Regroup3(before, heading, line, "\n");
      assert es[..i + 1][..i] == es[..i];
      i := i + 1;
    }
    assert es[..i] == es;
  }

  lemma Regroup3(x: string, a: string, b: string, c: string)
    ensures x + a + b + c == x + (a + b + c)
  {
  }

  /** The request `getLLMAnalysis` posts: the fixed model, no streaming, temperature 0.1. */
  function AnalysisRequest(formatted: string): GenerateRequest {
    GenerateRequest("cogito:3b", AnalysisPrompt(formatted), false, 0.1)
  }

  /** `data.response || 'No recommendations available.'` (an absent response is the empty text). */
  function ReplyText(response: string): (r: string)
    ensures r != ""
    ensures response != "" ==> r == response
  {
    if response != "" then response else "No recommendations available."
  }

  // ------------------------------------------------------------ score badges

  /** The class of a score badge. */
  function ScoreClass(score: int): (c: string)
    ensures c == "high" <==> score >= 70
    ensures c == "medium" <==> 40 <= score < 70
    ensures c == "low" <==> score < 40
  {
    if score >= 70 then "high" else if score >= 40 then "medium" else "low"
  }

  /** The badge of one section: `N%` and its class. */
  datatype Card = Card(percent: nat, level: string)

  const Unscored := Card(0, "low")

  /** The score shown on section `id`: that of the readable name the name table gives for `id`. */
  function ScoreForId(scores: map<string, nat>, id: string): (r: Option<nat>)
    ensures id !in SectionNames ==> r.None?
    ensures r.Some? ==> r.value in scores.Values
  {
    if id in SectionNames && SectionNames[id] in scores then Some(scores[SectionNames[id]]) else None
  }

  /**
   * The display walks the scores and sends each name through `sectionNameToId`;
   * a section gets a score exactly when some name sends there.
   */
  lemma ScoreForIdByName(scores: map<string, nat>, id: string, v: nat)
    ensures ScoreForId(scores, id) == Some(v) <==>
      exists name :: name in scores && name in SectionIds && SectionIds[name] == id && scores[name] == v
  {
    NameTablesAreInverse();
    if ScoreForId(scores, id) == Some(v) {
      assert SectionIds[SectionNames[id]] == id;
    }
  }

  function CardFor(scores: map<string, nat>, id: string): (c: Card)
    ensures ScoreForId(scores, id).None? ==> c == Unscored
    ensures ScoreForId(scores, id).Some? ==>
      c.percent == ScoreForId(scores, id).value && c.level == ScoreClass(c.percent)
  {
    match ScoreForId(scores, id)
    case None => Unscored
    case Some(v) => Card(v, ScoreClass(v))
  }

  /** `displayScoresOnCards()`: one badge per section, the parsed score or `0%` `low`. */
  function Cards(page: seq<Section>, scores: map<string, nat>): (r: seq<Card>)
    ensures |r| == |page|
    ensures forall i :: 0 <= i < |page| ==> r[i] == CardFor(scores, page[i].id)
  {
    if page == [] then [] else [CardFor(scores, page[0].id)] + Cards(page[1..], scores)
  }

  /** A score under a name with no section id changes no badge. */
  lemma UnknownNameIgnored(page: seq<Section>, scores: map<string, nat>, name: string, v: nat)
    requires name !in SectionIds
    ensures Cards(page, scores[name := v]) == Cards(page, scores)
  {
    NameTablesAreInverse();
    forall i | 0 <= i < |page| ensures CardFor(scores[name := v], page[i].id) == CardFor(scores, page[i].id) {
      var id := page[i].id;
      if id in SectionNames {
        assert SectionNames[id] != name;
      }
    }
  }

  // ------------------------------------------------------------ results pane

  const Warn := "\U{26A0}\U{FE0F} "
  const Tick := "\U{2705} "

  const LoadingPane := "<h3>Canvas Analysis</h3><div class=\"loading-spinner\"><div></div><div></div><div></div></div>"
    + "<p>Generating AI recommendations...</p>"

  const EmptyWarning := "<h3>Canvas Analysis</h3><p class=\"warning\">" + Warn
    + "All sections are empty. Please fill in at least one section before analyzing.</p>"

  /** The results pane after a reply: the heading and the markup of the reply in its box. */
  function RecommendationsPane(html: string): string {
    RecommendationsHeading + "<div class=\"ai-recommendations\">" + html + "</div>"
  }

  /** `canvasData[id]?.textarea` is truthy. */
  predicate HasTextarea(data: CanvasData, id: string) {
    id in data && "textarea" in data[id]
    && match data[id]["textarea"]
       case Text(t) => t != ""
       case Checked(b) => b
  }

  /** One of the three basic checks of the fallback analysis. */
  function BasicCheck(data: CanvasData, id: string, good: string, bad: string): (r: string)
    ensures HasTextarea(data, id) ==> StartsWith(r, "<p>" + Tick) && r[|"<p>" + Tick|..] == good + "</p>"
    ensures !HasTextarea(data, id) ==> StartsWith(r, "<p class=\"warning\">" + Warn)
  {
    if HasTextarea(data, id) then "<p>" + Tick + good + "</p>" else "<p class=\"warning\">" + Warn + bad + "</p>"
  }

  /** The results pane when the model could not be reached. */
  function FailurePane(data: CanvasData): (r: string)
    ensures StartsWith(r, RecommendationsHeading) && r != Fallback
  {
    FailureHead + BasicChecks(data)
  }

  const FailureHead := RecommendationsHeading + "<p class=\"warning\">" + Warn + "Could not generate AI recommendations.</p>"

  /** The three basic checks: value proposition, problem, ethical considerations. */
  function BasicChecks(data: CanvasData): string {
    BasicCheck(data, "value-proposition", "Value proposition is defined", "Value proposition is not clearly defined")
    + BasicCheck(data, "problem", "Problem statement is defined", "Problem statement is missing")
    + BasicCheck(data, "ethical-considerations", "Ethical considerations are addressed", "Ethical considerations are not addressed")
  }

  /**
   * The failure pane is the warning line followed by the three basic checks,
   * and nothing after them.
   */
  lemma FailurePaneChecks(data: CanvasData)
    ensures StartsWith(FailurePane(data), FailureHead)
    ensures var r := FailurePane(data); |BasicChecks(data)| < |r| && r[|r| - |BasicChecks(data)|..] == BasicChecks(data)
  {
    SuffixOf(FailureHead, BasicChecks(data));
  }

  /** The tail of a concatenation is its second part. */
  lemma SuffixOf(a: string, b: string)
    requires a != []
    ensures StartsWith(a + b, a) && |b| < |a + b| && (a + b)[|a + b| - |b|..] == b
  {
    assert (a + b)[..|a|] == a;
  }

  lemma HasTextareaOfEntry(data: CanvasData, e: Entry)
    requires e.id in data && data[e.id] == EntryData(e)
    ensures HasTextarea(data, e.id) <==> e.textarea.Some? && e.textarea.value != ""
  {
  }

  /** A basic check on the id of a section passes exactly when that section's textarea is non-empty. */
  lemma BasicCheckAt(page: seq<Section>, i: nat)
    requires DistinctIds(page) && i < |page|
    ensures HasTextarea(ToData(CanvasEntries(page)), page[i].id) <==>
      TextareaOf(page[i]).Some? && TextareaOf(page[i]).value != ""
  {
    ToDataOfPage(page, i);
    HasTextareaOfEntry(ToData(CanvasEntries(page)), Entry(page[i].id, TextareaOf(page[i])));
  }

  /** A basic check on an id no section has fails. */
  lemma BasicCheckAbsent(page: seq<Section>, id: string)
    requires forall i :: 0 <= i < |page| ==> page[i].id != id
    ensures !HasTextarea(ToData(CanvasEntries(page)), id)
  {
  }

  /** What the model's side of an analysis gives: a failure (refused, unreachable, not JSON) or a reply. */
  datatype AnalysisReply = LlmFailed | LlmReplied(response: string)

  // ------------------------------------------------------------ save and load

  /** The record `saveCanvas` stores and offers for download. */
  datatype SavedCanvas = SavedCanvas(sections: CanvasData, scores: map<string, nat>, lastUpdated: string)

  /**
   * Parsed canvas JSON: with a truthy `sections` member it is the new format
   * (with `scores` if that is truthy); anything else is old-format section data.
   */
  datatype Loaded = NewFormat(sections: CanvasData, scores: Option<map<string, nat>>) | OldFormat(data: CanvasData)

  /** The result of `JSON.parse` and the format test: an error and its message, or loaded data. */
  datatype Parsed = Unparseable(message: string) | Json(value: Loaded)

  /** The file picker: no file chosen, a read error, or the file's parsed text. */
  datatype FileChoice = NoFile | ReadFailed | FileRead(content: Parsed)

  function SaveRecord(page: seq<Section>, scores: map<string, nat>, now: string): SavedCanvas {
    SavedCanvas(ToData(CanvasEntries(page)), scores, now)
  }

  /** The stored record as the loader reads it back: scores are `{}` at worst, and `{}` is truthy. */
  function Reparse(rec: SavedCanvas): (r: Loaded)
    ensures r.NewFormat? && r.scores == Some(rec.scores)
  {
    NewFormat(rec.sections, Some(rec.scores))
  }

  /** The page and the current scores after loading. */
  datatype CanvasState = CanvasState(page: seq<Section>, scores: map<string, nat>)

  function AfterLoad(st: CanvasState, l: Loaded): (r: CanvasState)
    ensures l.NewFormat? ==> r.page == Populate(st.page, l.sections)
    ensures l.OldFormat? ==> r.page == Populate(st.page, l.data)
    ensures r.scores == (if l.NewFormat? && l.scores.Some? then l.scores.value else st.scores)
  {
    match l
    case NewFormat(sections, scores) =>
      CanvasState(Populate(st.page, sections), if scores.Some? then scores.value else st.scores)
    case OldFormat(data) => CanvasState(Populate(st.page, data), st.scores)
  }

  /** Loading a saved canvas gives back the page and the scores it was saved with. */
  lemma SaveThenLoad(page: seq<Section>, scores: map<string, nat>, now: string, st: CanvasState)
    requires DistinctIds(page) && st.page == page
    ensures AfterLoad(st, Reparse(SaveRecord(page, scores, now))) == CanvasState(page, scores)
  {
    PopulateWithOwnData(page);
  }

  /** An old-format file leaves the scores alone. */
  lemma OldFormatKeepsScores(st: CanvasState, data: CanvasData)
    ensures AfterLoad(st, OldFormat(data)).scores == st.scores
  {
  }

  const SaveFailedPrefix := "Error saving canvas: "
  const LoadFailedPrefix := "Error loading canvas: "
  const FileParseFailedPrefix := "Error parsing JSON file: "

  /** The notification after loading `l`, from a file or from browser storage. */
  function LoadedNotice(l: Loaded, fromFile: bool): (r: Notice)
    ensures !r.isError && StartsWith(r.text, "Canvas loaded successfully from ")
    ensures r.text == "Canvas loaded successfully from " + (if fromFile then "file" else "browser storage")
      + (if l.NewFormat? then " with scores!" else "!")
  {
    var place := if fromFile then "file" else "browser storage";
    if l.NewFormat? then Notice("Canvas loaded successfully from " + place + " with scores!", false)
    else Notice("Canvas loaded successfully from " + place + "!", false)
  }

  // ------------------------------------------------------------ the analyzer

  /** The analyzer's state: the page's sections, the two score maps, the results pane, the badges and the stored canvas. */
  class CanvasAnalyzer {
    var page: seq<Section>
    var currentScores: map<string, nat>
    var previousScores: map<string, nat>
    var results: string
    var cards: seq<Card>
    /** The parse of the `generativeAICanvasData` item of browser storage, if there is one. */
    var storage: Option<Parsed>

    /** Section ids on a page are distinct, and every section has one badge. */
    ghost predicate Valid()
      reads this
    {
      DistinctIds(page) && |cards| == |page|
    }

    /** The page as loaded: empty score maps and a `0%` badge on every section. */
    constructor(sections: seq<Section>, stored: Option<Parsed>)
      requires DistinctIds(sections)
      ensures Valid()
      ensures page == sections && storage == stored && results == ""
      ensures currentScores == map[] && previousScores == map[]
      ensures cards == Cards(sections, map[])
    {
      page := sections;
      currentScores := map[];
      previousScores := map[];
      results := "";
      cards := Cards(sections, map[]);
      storage := stored;
    }

    /**
     * The `exec` loops of the score patterns: each pattern in turn until one
     * matches, every match stored both in the run's own map and in the current scores.
     */
    method CollectScores(text: string) returns (local: map<string, nat>)
      modifies this`currentScores
      ensures local == ApplyScores(map[], ExtractScores(text))
      ensures currentScores == ApplyScores(old(currentScores), ExtractScores(text))
    {
      local := map[];
      var found := false;
      var k := 0;
      while k < |Patterns| && !found
        invariant 0 <= k <= |Patterns|
        invariant !found ==> local == map[] && currentScores == old(currentScores)
        invariant !found ==> ExtractScores(text) == FirstNonEmpty(PatternScores(text, Patterns)[k..])
        invariant found ==> local == ApplyScores(map[], ExtractScores(text))
        invariant found ==> currentScores == ApplyScores(old(currentScores), ExtractScores(text))
      {
        var p := Patterns[k];
        ghost var rs := PatternScores(text, Patterns);
        assert rs[k..][0] == AllScores(p, text, 0) && rs[k..][1..] == rs[k + 1..];
        var from := 0;
        var next := NextScore(p, text, 0);
        while next.Some?
          invariant from <= |text|
          invariant next == NextScore(p, text, from)
          invariant found ==> AllScores(p, text, 0) != []
          invariant !found ==> from == 0 && local == map[] && currentScores == old(currentScores)
          invariant ApplyScores(local, AllScores(p, text, from)) == ApplyScores(map[], AllScores(p, text, 0))
          invariant ApplyScores(currentScores, AllScores(p, text, from)) == ApplyScores(old(currentScores), AllScores(p, text, 0))
          decreases |text| - from
        {
          found := true;
          var m := next.value;
          assert AllScores(p, text, from) == [m.score] + AllScores(p, text, m.end);
          assert ([m.score] + AllScores(p, text, m.end))[1..] == AllScores(p, text, m.end);
          local := local[m.score.name := m.score.value];
          currentScores := currentScores[m.score.name := m.score.value];
          from := m.end;
          next := NextScore(p, text, from);
        }
        k := k + 1;
      }
    }

    /** The score half of `formatLLMResponse`: both maps updated from the quality-score section. */
    method ReadScores(response: string)
      modifies this`currentScores, this`previousScores
      ensures currentScores == ApplyScores(old(currentScores), ScoresOf(response))
      ensures ScoresOf(response) != [] ==> previousScores == ApplyScores(map[], ScoresOf(response))
      ensures ScoresOf(response) == [] ==> previousScores == old(previousScores)
    {
      var local: map<string, nat> := map[];
      var quality := SectionHeaded(response, QualityUpper, QualityTitle);
      if quality.Some? {
        local := CollectScores(quality.value);
      }
      KeepRunScores(local, ScoresOf(response));
    }

    /** `if (Object.keys(currentScores).length > 0) previousAnalysisScores = {...currentScores}`. */
    method KeepRunScores(local: map<string, nat>, ghost scores: seq<Score>)
      requires local == ApplyScores(map[], scores)
      modifies this`previousScores
      ensures scores != [] ==> previousScores == local
      ensures scores == [] ==> previousScores == old(previousScores)
    {
      NoScoresNoKeys(scores);
      if |local| > 0 {
        previousScores := local;
      }
    }

    /** `formatLLMResponse(response)`. */
    method FormatLlmResponse(response: string) returns (html: string)
      modifies this`currentScores, this`previousScores
      ensures html == ResponseHtml(response)
      ensures currentScores == ApplyScores(old(currentScores), ScoresOf(response))
      ensures ScoresOf(response) != [] ==> previousScores == ApplyScores(map[], ScoresOf(response))
      ensures ScoresOf(response) == [] ==> previousScores == old(previousScores)
    {
      ReadScores(response);
      html := ReplyMarkup(response);
    }

    /** `displayScoresOnCards()`. */
    method DisplayScoresOnCards()
      requires Valid()
      modifies this`cards
      ensures Valid() && cards == Cards(page, currentScores)
    {
      cards := Cards(page, currentScores);
    }

    /** The `catch` branch of an analysis: scores cleared, badges reset, the basic checks shown. */
    method ShowFailure(data: CanvasData)
      requires Valid()
      modifies this`results, this`currentScores, this`cards
      ensures Valid()
      ensures results == FailurePane(data) && currentScores == map[] && cards == Cards(page, map[])
    {
      currentScores := map[];
      cards := Cards(page, map[]);
      results := FailurePane(data);
    }

    /** The reply shown: the recommendations pane, then the badges of the updated scores. */
    method ShowReply(response: string)
      requires Valid()
      modifies this`results, this`currentScores, this`previousScores, this`cards
      ensures Valid()
      ensures results == RecommendationsPane(ResponseHtml(response))
      ensures currentScores == ApplyScores(old(currentScores), ScoresOf(response))
      ensures previousScores == if ScoresOf(response) != [] then ApplyScores(map[], ScoresOf(response)) else old(previousScores)
      ensures cards == Cards(page, currentScores)
    {
      var formatted := FormatLlmResponse(response);
      results := RecommendationsPane(formatted);
      DisplayScoresOnCards();
    }

    /**
     * `analyzeCanvas()` up to its request: the loading pane, then the empty
     * warning and no request, or the request with the canvas text.
     */
    method BeginAnalysis() returns (request: Option<GenerateRequest>)
      requires Valid()
      modifies this`results
      ensures Valid()
      ensures request.None? <==> AllEmpty(CanvasEntries(page))
      ensures request.Some? ==> request.value == AnalysisRequest(LlmCanvasText(CanvasEntries(page)))
      ensures results == if request.None? then EmptyWarning else LoadingPane
    {
      results := LoadingPane;
      var entries := CanvasEntries(page);
      if AllEmpty(entries) {
        results := EmptyWarning;
        return None;
      }
      var formatted := FormatCanvasForLlm(entries);
      request := Some(AnalysisRequest(formatted));
    }

    /**
     * `analyzeCanvas()` after its request, given what came back; `data` is
     * the canvas data read when the analysis began.
     */
    method FinishAnalysis(data: CanvasData, reply: AnalysisReply)
      requires Valid()
      modifies this`results, this`currentScores, this`previousScores, this`cards
      ensures Valid()
      ensures reply.LlmFailed? ==>
        && results == FailurePane(data)
        && currentScores == map[] && previousScores == old(previousScores) && cards == Cards(page, map[])
      ensures reply.LlmReplied? ==>
        var scores := ScoresOf(ReplyText(reply.response));
        && results == RecommendationsPane(ResponseHtml(ReplyText(reply.response)))
        && currentScores == ApplyScores(old(currentScores), scores)
        && previousScores == (if scores != [] then ApplyScores(map[], scores) else old(previousScores))
        && cards == Cards(page, currentScores)
    {
      match reply
      case LlmFailed =>
        ShowFailure(data);
      case LlmReplied(response) =>
        ShowReply(ReplyText(response));
    }

    /** `saveCanvas()`; `failure` is the error browser storage raises, if any. */
    method Save(now: string, failure: Option<string>, download: bool) returns (notices: seq<Notice>)
      modifies this`storage
      ensures failure.Some? ==> storage == old(storage) && notices == [Notice(SaveFailedPrefix + failure.value, true)]
      ensures failure.None? ==> storage == Some(Json(Reparse(SaveRecord(page, currentScores, now))))
      ensures failure.None? ==>
        notices == [Notice("Canvas saved to browser storage.", false)]
          + (if download then [Notice("JSON file downloaded successfully!", false)] else [])
    {
      var record := SavedCanvas(ToData(CanvasEntries(page)), currentScores, now);
      if failure.Some? {
        return [Notice(SaveFailedPrefix + failure.value, true)];
      }
      storage := Some(Json(Reparse(record)));
      notices := [Notice("Canvas saved to browser storage.", false)];
      if download {
        notices := notices + [Notice("JSON file downloaded successfully!", false)];
      }
    }

    /** `populateCanvasFromData` and the score reload shared by both load paths. */
    method ApplyLoaded(l: Loaded)
      requires Valid()
      modifies this`page, this`currentScores, this`cards
      ensures Valid()
      ensures CanvasState(page, currentScores) == AfterLoad(CanvasState(old(page), old(currentScores)), l)
      ensures cards == (if l.NewFormat? && l.scores.Some? then Cards(page, currentScores) else old(cards))
    {
      match l
      case NewFormat(sections, scores) =>
        page := Populate(page, sections);
        if scores.Some? {
          currentScores := scores.value;
          DisplayScoresOnCards();
        }
      case OldFormat(data) =>
        page := Populate(page, data);
    }

    /** Loading from a chosen file. */
    method LoadFromFile(file: FileChoice) returns (notices: seq<Notice>)
      requires Valid()
      modifies this`page, this`currentScores, this`cards
      ensures Valid()
      ensures file.FileRead? && file.content.Json? ==>
        && CanvasState(page, currentScores) == AfterLoad(CanvasState(old(page), old(currentScores)), file.content.value)
        && notices == [LoadedNotice(file.content.value, true)]
      ensures !(file.FileRead? && file.content.Json?) ==>
        page == old(page) && currentScores == old(currentScores) && cards == old(cards)
      ensures file.NoFile? ==> notices == []
      ensures file.ReadFailed? ==> notices == [Notice("Error reading file", true)]
      ensures file.FileRead? && file.content.Unparseable? ==>
        notices == [Notice(FileParseFailedPrefix + file.content.message, true)]
    {
      match file
      case NoFile =>
        notices := [];
      case ReadFailed =>
        notices := [Notice("Error reading file", true)];
      case FileRead(Unparseable(message)) =>
        notices := [Notice(FileParseFailedPrefix + message, true)];
      case FileRead(Json(l)) =>
        ApplyLoaded(l);
        notices := [LoadedNotice(l, true)];
    }

    /** Loading from browser storage. */
    method LoadFromStorage() returns (notices: seq<Notice>)
      requires Valid()
      modifies this`page, this`currentScores, this`cards
      ensures Valid()
      ensures storage.Some? && storage.value.Json? ==>
        && CanvasState(page, currentScores) == AfterLoad(CanvasState(old(page), old(currentScores)), storage.value.value)
        && notices == [LoadedNotice(storage.value.value, false)]
      ensures !(storage.Some? && storage.value.Json?) ==>
        page == old(page) && currentScores == old(currentScores) && cards == old(cards)
      ensures storage.None? ==> notices == [Notice("No saved canvas data found in browser storage.", true)]
      ensures storage.Some? && storage.value.Unparseable? ==>
        notices == [Notice(LoadFailedPrefix + storage.value.message, true)]
    {
      match storage
      case None =>
        notices := [Notice("No saved canvas data found in browser storage.", true)];
      case Some(Unparseable(message)) =>
        notices := [Notice(LoadFailedPrefix + message, true)];
      case Some(Json(l)) =>
        ApplyLoaded(l);
        notices := [LoadedNotice(l, false)];
    }
  }

  /** The markup half of `formatLLMResponse`: the overall recommendations, or the fallback. */
  method ReplyMarkup(response: string) returns (html: string)
    ensures html == ResponseHtml(response)
  {
    html := "";
    var overall := SectionHeaded(response, OverallUpper, OverallTitle);
    if overall.Some? {
      html := FormatOverall(overall.value);
      assert |html| >= |OverallOpen|;
    }
    if html == "" {
      html := Fallback;
    }
  }

  /** The recommendations markup, built as `formatLLMResponse` builds it. */
  method FormatOverall(section: string) returns (html: string)
    ensures html == OverallHtml(section)
  {
    html := OverallOpen;
    var recs := AllItems(section, 0);
    if |recs| > 0 {
      html := html + "<ol>";
      var i := 0;
      assert recs[i..] == recs;
      while i < |recs|
        invariant 0 <= i <= |recs|
        invariant html + ListItems(recs[i..]) == OverallOpen + "<ol>" + ListItems(recs)
      {
        ListItemsStep(recs, i);
        html := html + "<li>" + recs[i] + "</li>";
        i := i + 1;
      }
      assert recs[i..] == [];
      html := html + "</ol>";
      Regroup(OverallOpen, "<ol>", ListItems(recs), "</ol>", "</div>");
    } else {
      var content := Trim(StripOverallHeader(section));
      html := html + "<p>" + NewlinesToBr(content) + "</p>";
      Regroup(OverallOpen, "<p>", NewlinesToBr(content), "</p>", "</div>");
    }
    html := html + "</div>";
  }

  /** A run stores some score exactly when it parsed one. */
  lemma NoScoresNoKeys(ms: seq<Score>)
    ensures |ApplyScores(map[], ms)| > 0 <==> ms != []
  {
    if ms != [] {
      assert ms[0].name in ApplyScores(map[], ms);
    }
  }

  /** The markup of the items from `i` on: item `i`, then the rest. */
  lemma ListItemsStep(items: seq<string>, i: nat)
    requires i < |items|
    ensures ListItems(items[i..]) == "<li>" + items[i] + "</li>" + ListItems(items[i + 1..])
  {
    assert items[i..][1..] == items[i + 1..];
  }

  /** Closing tags appended one after the other. */
  lemma Regroup(open: string, a: string, b: string, close: string, end: string)
    ensures open + a + b + close + end == open + (a + b + (close + end))
  {
  }
}
