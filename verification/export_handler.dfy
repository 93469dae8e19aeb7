/**
 * The exports of an analysis: which renderer an export format selects, the MIME type the
 * download is offered with, the plain-text summary and full report, and the JSON summary
 * and full report.
 *
 * The PDF and Word renderers build documents through their libraries and are not modelled
 * beyond being selected. The text renderers give the text before it is encoded as UTF-8,
 * and the JSON renderers give the value `json.dumps` writes out.
 */
module ExportHandler {
  import opened Wrappers
  import opened Text
  import opened Seqs
  import opened Decimal
  import opened JsonValues
  import opened Analysis
  import Prompts
  import Validators

  // ---------------------------------------------------------------------------------------
  // Formats, renderers and MIME types.
  // ---------------------------------------------------------------------------------------

  /** `get_mime_type`'s table, keyed by the upper-case format name. */
  const MimeTypes: map<string, string> := map[
    "PDF" := "application/pdf",
    "WORD DOCUMENT" := "application/vnd.openxmlformats-officedocument.wordprocessingml.document",
    "JSON" := "application/json",
    "TEXT FILE" := "text/plain"]

  /** `get_mime_type(format_type)`: the table entry of the upper-cased name, plain text for
      any other name. */
  function MimeType(formatType: string): (m: string)
    ensures m in MimeTypes.Values
    ensures Upper(formatType) !in MimeTypes ==> m == "text/plain"
  {
    var key := Upper(formatType);
    assert MimeTypes["TEXT FILE"] == "text/plain";
    if key in MimeTypes then MimeTypes[key] else "text/plain"
  }

  /** Upper-casing forgets what lower-casing did. */
  lemma UpperOfLower(s: string)
    ensures Upper(Lower(s)) == Upper(s)
  {
    forall i | 0 <= i < |s|
      ensures Upper(Lower(s))[i] == Upper(s)[i]
    {
      var c := s[i];
      if IsUpper(c) {
        assert LowerChar(c) as int == c as int + 32;
      }
    }
  }

  /** Upper-casing twice is upper-casing once. */
  lemma UpperOfUpper(s: string)
    ensures Upper(Upper(s)) == Upper(s)
  {
    forall i | 0 <= i < |s|
      ensures Upper(Upper(s))[i] == Upper(s)[i]
    {
      var c := s[i];
      if IsLower(c) {
        assert UpperChar(c) as int == c as int - 32;
      }
    }
  }

  /** The lookup ignores case: a name in lower case or upper case gets the same type. */
  lemma MimeTypeAnyCase(formatType: string)
    ensures MimeType(Lower(formatType)) == MimeType(formatType)
    ensures MimeType(Upper(formatType)) == MimeType(formatType)
  {
    UpperOfLower(formatType);
    UpperOfUpper(formatType);
  }

  /** Each of the four export formats the settings allow is a name of the table, and they
      get four different types. */
  lemma ExportFormatsTyped()
    ensures forall f <- Validators.ExportFormats :: Upper(f) in MimeTypes
    ensures MimeType("PDF") == "application/pdf"
    ensures MimeType("Word Document") == MimeTypes["WORD DOCUMENT"]
    ensures MimeType("Text File") == "text/plain"
    ensures MimeType("JSON") == "application/json"
  {
    assert Upper("PDF") == "PDF";
    assert Upper("Word Document") == "WORD DOCUMENT";
    assert Upper("Text File") == "TEXT FILE";
    assert Upper("JSON") == "JSON";
  }

  /** The renderer an export runs. */
  datatype Renderer = PdfRenderer | WordRenderer | JsonRenderer | TextRenderer

  /** Whether the PDF and Word libraries were found at start-up. */
  datatype Libraries = Libraries(pdfAvailable: bool, docxAvailable: bool)

  /** The dispatch `export_summary` and `export_full_report` share: PDF and Word only when
      their library is there, JSON on request, plain text in every other case. */
  function RendererFor(formatType: string, libs: Libraries): (r: Renderer)
    ensures r == PdfRenderer <==> Upper(formatType) == "PDF" && libs.pdfAvailable
    ensures r == WordRenderer <==> Upper(formatType) == "WORD DOCUMENT" && libs.docxAvailable
    ensures r == JsonRenderer <==> Upper(formatType) == "JSON"
    ensures r == TextRenderer <==>
      !(Upper(formatType) == "PDF" && libs.pdfAvailable) && !(Upper(formatType) == "WORD DOCUMENT" && libs.docxAvailable)
      && Upper(formatType) != "JSON"
  {
    var name := Upper(formatType);
    if name == "PDF" && libs.pdfAvailable then PdfRenderer
    else if name == "WORD DOCUMENT" && libs.docxAvailable then WordRenderer
    else if name == "JSON" then JsonRenderer
    else TextRenderer
  }

  /** The MIME type of what a renderer produces. */
  function ContentType(r: Renderer): (m: string)
    ensures m in MimeTypes.Values
  {
    match r
    case PdfRenderer => MimeTypes["PDF"]
    case WordRenderer => MimeTypes["WORD DOCUMENT"]
    case JsonRenderer => MimeTypes["JSON"]
    case TextRenderer => MimeTypes["TEXT FILE"]
  }

  /** Whenever the renderer the format asks for runs, the format's MIME type is the type of
      what it produces; only a fallback to plain text can disagree. */
  lemma MimeTypeOfRenderer(formatType: string, libs: Libraries)
    ensures RendererFor(formatType, libs) != TextRenderer ==>
              MimeType(formatType) == ContentType(RendererFor(formatType, libs))
    ensures Upper(formatType) !in {"PDF", "WORD DOCUMENT"} ==>
              MimeType(formatType) == ContentType(RendererFor(formatType, libs))
  {
  }

  /** As written, a PDF or Word export whose library is missing falls back to plain text,
      yet `get_mime_type` still offers the download as a PDF or Word file. */
  lemma FallbackMislabelled(formatType: string, libs: Libraries)
    requires (Upper(formatType) == "PDF" && !libs.pdfAvailable)
          || (Upper(formatType) == "WORD DOCUMENT" && !libs.docxAvailable)
    ensures RendererFor(formatType, libs) == TextRenderer
    ensures MimeType(formatType) != "text/plain"
    ensures MimeType(formatType) != ContentType(RendererFor(formatType, libs))
  {
  }

  /** The type the download should be offered with: the type of what the renderer
      actually produced. */
  function DownloadType(formatType: string, libs: Libraries): (m: string)
    ensures RendererFor(formatType, libs) != TextRenderer ==> m == MimeType(formatType)
    ensures RendererFor(formatType, libs) == TextRenderer ==> m == "text/plain"
  {
    ContentType(RendererFor(formatType, libs))
  }

  // ---------------------------------------------------------------------------------------
  // The lines of the text exports.
  // ---------------------------------------------------------------------------------------

  /** `c * n`. */
  function Repeat(c: char, n: nat): (r: string)
    ensures |r| == n && forall i | 0 <= i < n :: r[i] == c
  {
    seq(n, i => c)
  }

  /** A titled section: the title, a rule of dashes under it, the body and a blank line. */
  function Section(title: string, width: nat, body: seq<string>): (r: seq<string>)
    ensures |r| == |body| + 3
  {
    [title, Repeat('-', width)] + body + [""]
  }

  /** `1. t1`, `2. t2`, ...: the takeaways as `enumerate(..., 1)` numbers them. */
  function NumberedLines(items: seq<string>): (r: seq<string>)
    ensures |r| == |items|
    ensures forall i | 0 <= i < |items| :: r[i] == NatStr(i + 1) + ". " + items[i]
  {
    seq(|items|, i requires 0 <= i < |items| => NatStr(i + 1) + ". " + items[i])
  }

  /** `• "q"` for each quote. */
  function QuoteLines(quotes: seq<string>): (r: seq<string>)
    ensures |r| == |quotes|
    ensures forall i | 0 <= i < |quotes| :: r[i] == "\U{2022} \"" + quotes[i] + "\""
  {
    seq(|quotes|, i requires 0 <= i < |quotes| => "\U{2022} \"" + quotes[i] + "\"")
  }

  /** `• a` for each action item. */
  function BulletLines(items: seq<string>): (r: seq<string>)
    ensures |r| == |items|
    ensures forall i | 0 <= i < |items| :: r[i] == "\U{2022} " + items[i]
  {
    seq(|items|, i requires 0 <= i < |items| => "\U{2022} " + items[i])
  }

  /** `timestamp: description` for each timeline entry. */
  function EventLines(events: seq<Event>): (r: seq<string>)
    ensures |r| == |events|
    ensures forall i | 0 <= i < |events| :: r[i] == events[i].timestamp + ": " + events[i].description
  {
    seq(|events|, i requires 0 <= i < |events| => events[i].timestamp + ": " + events[i].description)
  }

  /** A `Q:` line, an `A:` line and a blank line for each pair. */
  function QaLines(pairs: seq<QaPair>): (r: seq<string>)
    ensures |r| == 3 * |pairs|
  {
    if pairs == [] then []
    else
      var p := pairs[|pairs| - 1];
      QaLines(pairs[..|pairs| - 1]) + ["Q: " + p.question, "A: " + p.answer, ""]
  }

  /** The lines of the renderers' sections are single lines. */
  predicate OneLine(t: string) {
    '\n' !in t
  }

  /** A list section when its key is there, nothing otherwise. */
  function OptionalSection<T>(title: string, width: nat, items: Option<seq<T>>, render: seq<T> -> seq<string>): (r: seq<string>)
    ensures items.None? ==> r == []
    ensures items.Some? ==> r == Section(title, width, render(items.value))
  {
    if items.Some? then Section(title, width, render(items.value)) else []
  }

  /** The opening of a text export: the title between two rules of `=`, the time of
      generation and a blank line. */
  function Banner(title: string, width: nat, generatedOn: string): (r: seq<string>)
    ensures |r| == 5
  {
    [Repeat('=', width), title, Repeat('=', width), "Generated on: " + generatedOn, ""]
  }

  // ---------------------------------------------------------------------------------------
  // What the text renderers read from an analysis result.
  // ---------------------------------------------------------------------------------------

  /** The entries of an analysis result the text renderers read, each `None` where the
      result has no such key. */
  datatype Report = Report(
    mainSummary: Option<string>,
    keyTakeaways: Option<seq<string>>,
    topics: Option<seq<string>>,
    sentiment: Option<Sentiment>,
    importantQuotes: Option<seq<string>>,
    actionItems: Option<seq<string>>,
    timeline: Option<seq<Event>>,
    questionsAndAnswers: Option<seq<QaPair>>)

  /** The entries of the result `comprehensive_analysis` returned. */
  function ReportOf(r: Result<AnalysisDict, string>): Report
  {
    match r
    case Failure(_) => Report(None, None, None, None, None, None, None, None)
    case Success(a) =>
      Report(Some(a.mainSummary), Some(a.keyTakeaways), a.topics, a.sentimentAnalysis,
             Some(a.importantQuotes), Some(a.actionItems), Some(a.timeline), Some(a.questionsAndAnswers))
  }

  /** The typed view has an entry exactly where the result dict has the key. */
  lemma ReportKeysInDict(r: Result<AnalysisDict, string>)
    ensures var rep, d := ReportOf(r), AsDict(r);
      && (rep.mainSummary.Some? <==> "main_summary" in d)
      && (rep.keyTakeaways.Some? <==> "key_takeaways" in d)
      && (rep.topics.Some? <==> "topics" in d)
      && (rep.sentiment.Some? <==> "sentiment_analysis" in d)
      && (rep.importantQuotes.Some? <==> "important_quotes" in d)
      && (rep.actionItems.Some? <==> "action_items" in d)
      && (rep.timeline.Some? <==> "timeline" in d)
      && (rep.questionsAndAnswers.Some? <==> "questions_and_answers" in d)
  {
    if r.Success? {
      FixedKeysInDict(r.value);
      OptionalKeysInDict(r.value);
    }
  }

  /** A result that did not fail has the keys of its six fixed fields. */
  lemma FixedKeysInDict(a: AnalysisDict)
    ensures var d := AsDict(Success(a));
      && "main_summary" in d && "key_takeaways" in d && "important_quotes" in d
      && "action_items" in d && "timeline" in d && "questions_and_answers" in d
  {
    DictKeys(a);
  }

  /** A result that did not fail has the topics and sentiment keys exactly when it has those
      fields. */
  lemma OptionalKeysInDict(a: AnalysisDict)
    ensures var d := AsDict(Success(a));
      && (a.topics.Some? <==> "topics" in d)
      && (a.sentimentAnalysis.Some? <==> "sentiment_analysis" in d)
  {
    DictKeys(a);
  }

  /** Where the typed view has an entry, the result dict holds its value. */
  lemma ReportValuesInDict(r: Result<AnalysisDict, string>)
    ensures var rep, d := ReportOf(r), AsDict(r);
      && (rep.mainSummary.Some? ==> d["main_summary"] == JStr(rep.mainSummary.value))
      && (rep.keyTakeaways.Some? ==> d["key_takeaways"] == StrList(rep.keyTakeaways.value))
      && (rep.topics.Some? ==> d["topics"] == StrList(rep.topics.value))
      && (rep.sentiment.Some? ==> d["sentiment_analysis"] == SentimentJson(rep.sentiment.value))
      && (rep.importantQuotes.Some? ==> d["important_quotes"] == StrList(rep.importantQuotes.value))
      && (rep.actionItems.Some? ==> d["action_items"] == StrList(rep.actionItems.value))
      && (rep.timeline.Some? ==> d["timeline"] == EventsJson(rep.timeline.value))
      && (rep.questionsAndAnswers.Some? ==> d["questions_and_answers"] == QaPairsJson(rep.questionsAndAnswers.value))
  {
    if r.Success? {
      DictKeys(r.value);
      DictValues(r.value);
    }
  }

  /** The values of a result dict that did not fail, key by key. */
  lemma DictValues(a: AnalysisDict)
    ensures var d := AsDict(Success(a));
      && d["main_summary"] == JStr(a.mainSummary)
      && d["key_takeaways"] == StrList(a.keyTakeaways)
      && d["important_quotes"] == StrList(a.importantQuotes)
      && d["action_items"] == StrList(a.actionItems)
      && d["timeline"] == EventsJson(a.timeline)
      && d["questions_and_answers"] == QaPairsJson(a.questionsAndAnswers)
    ensures a.topics.Some? ==> AsDict(Success(a))["topics"] == StrList(a.topics.value)
    ensures a.sentimentAnalysis.Some? ==>
      AsDict(Success(a))["sentiment_analysis"] == SentimentJson(a.sentimentAnalysis.value)
  {
    DictKeeps(a, "main_summary");
    DictKeeps(a, "key_takeaways");
    DictKeeps(a, "important_quotes");
    DictKeeps(a, "action_items");
    DictKeeps(a, "timeline");
    DictKeeps(a, "questions_and_answers");
    DictOptional(a);
  }

  /** The optional entries after them keep the six entries every result has. */
  lemma DictKeeps(a: AnalysisDict, k: string)
    requires k in AlwaysKeys
    ensures AsDict(Success(a))[k] == AlwaysEntries(a)[k]
  {
    var scores := a.sentimentAnalysis.GetOr(FallbackSentiment);
    var m0 := AlwaysEntries(a);
    var m1 := PutIf(m0, a.topics.Some?, "topics", StrList(a.topics.GetOr([])));
    var m2 := PutIf(m1, a.sentimentAnalysis.Some?, "sentiment_analysis", SentimentJson(scores));
    var m3 := PutIf(m2, a.sentimentAnalysis.Some?, "sentiment_score", JReal(scores.overallScore));
    var m4 := PutIf(m3, a.studyNotes.Some?, "study_notes", SectionsJson(a.studyNotes.GetOr(map[])));
    PutIfKeeps(m0, a.topics.Some?, "topics", StrList(a.topics.GetOr([])), k);
    PutIfKeeps(m1, a.sentimentAnalysis.Some?, "sentiment_analysis", SentimentJson(scores), k);
    PutIfKeeps(m2, a.sentimentAnalysis.Some?, "sentiment_score", JReal(scores.overallScore), k);
    PutIfKeeps(m3, a.studyNotes.Some?, "study_notes", SectionsJson(a.studyNotes.GetOr(map[])), k);
    PutIfKeeps(m4, a.businessInsights.Some?, "business_insights", SectionsJson(a.businessInsights.GetOr(map[])), k);
  }

  /** The topics and sentiment entries survive the entries put after them. */
  lemma DictOptional(a: AnalysisDict)
    ensures a.topics.Some? ==> AsDict(Success(a))["topics"] == StrList(a.topics.value)
    ensures a.sentimentAnalysis.Some? ==>
      AsDict(Success(a))["sentiment_analysis"] == SentimentJson(a.sentimentAnalysis.value)
  {
    var scores := a.sentimentAnalysis.GetOr(FallbackSentiment);
    var m0 := AlwaysEntries(a);
    var m1 := PutIf(m0, a.topics.Some?, "topics", StrList(a.topics.GetOr([])));
    var m2 := PutIf(m1, a.sentimentAnalysis.Some?, "sentiment_analysis", SentimentJson(scores));
    var m3 := PutIf(m2, a.sentimentAnalysis.Some?, "sentiment_score", JReal(scores.overallScore));
    var m4 := PutIf(m3, a.studyNotes.Some?, "study_notes", SectionsJson(a.studyNotes.GetOr(map[])));
    if a.topics.Some? {
      PutIfKeeps(m1, a.sentimentAnalysis.Some?, "sentiment_analysis", SentimentJson(scores), "topics");
      PutIfKeeps(m2, a.sentimentAnalysis.Some?, "sentiment_score", JReal(scores.overallScore), "topics");
      PutIfKeeps(m3, a.studyNotes.Some?, "study_notes", SectionsJson(a.studyNotes.GetOr(map[])), "topics");
      PutIfKeeps(m4, a.businessInsights.Some?, "business_insights", SectionsJson(a.businessInsights.GetOr(map[])), "topics");
    }
    if a.sentimentAnalysis.Some? {
      PutIfKeeps(m2, a.sentimentAnalysis.Some?, "sentiment_score", JReal(scores.overallScore), "sentiment_analysis");
      PutIfKeeps(m3, a.studyNotes.Some?, "study_notes", SectionsJson(a.studyNotes.GetOr(map[])), "sentiment_analysis");
      PutIfKeeps(m4, a.businessInsights.Some?, "business_insights", SectionsJson(a.businessInsights.GetOr(map[])), "sentiment_analysis");
    }
  }

  // ---------------------------------------------------------------------------------------
  // The text summary.
  // ---------------------------------------------------------------------------------------

  /** The lines `_create_summary_txt` writes: the banner, the main summary (`Not available`
      when the key is missing), then the takeaways, quotes and action items sections, each
      only when its key is there. */
  function SummaryLines(rep: Report, generatedOn: string): (lines: seq<string>)
    ensures |lines| >= 9 && lines[5] == "MAIN SUMMARY"
    ensures lines[7] == rep.mainSummary.GetOr("Not available")
  {
    Banner("VIDEO ANALYSIS SUMMARY", 60, generatedOn)
    + Section("MAIN SUMMARY", 20, [rep.mainSummary.GetOr("Not available")])
    + OptionalSection("KEY TAKEAWAYS", 20, rep.keyTakeaways, NumberedLines)
    + OptionalSection("IMPORTANT QUOTES", 20, rep.importantQuotes, QuoteLines)
    + OptionalSection("ACTION ITEMS", 20, rep.actionItems, BulletLines)
  }

  /** The `for i, takeaway in enumerate(..., 1)` loop. */
  method AppendNumbered(content: seq<string>, items: seq<string>) returns (out: seq<string>)
    ensures out == content + NumberedLines(items)
  {
    out := content;
    for i := 0 to |items|
      invariant out == content + NumberedLines(items[..i])
    {
      assert NumberedLines(items[..i + 1]) == NumberedLines(items[..i]) + [NatStr(i + 1) + ". " + items[i]];
      out := out + [NatStr(i + 1) + ". " + items[i]];
    }
    assert items[..|items|] == items;
  }

  /** The `for quote in ...` loop. */
  method AppendQuotes(content: seq<string>, quotes: seq<string>) returns (out: seq<string>)
    ensures out == content + QuoteLines(quotes)
  {
    out := content;
    for i := 0 to |quotes|
      invariant out == content + QuoteLines(quotes[..i])
    {
      assert QuoteLines(quotes[..i + 1]) == QuoteLines(quotes[..i]) + ["\U{2022} \"" + quotes[i] + "\""];
      out := out + ["\U{2022} \"" + quotes[i] + "\""];
    }
    assert quotes[..|quotes|] == quotes;
  }

  /** The `for item in ...` loop. */
  method AppendBullets(content: seq<string>, items: seq<string>) returns (out: seq<string>)
    ensures out == content + BulletLines(items)
  {
    out := content;
    for i := 0 to |items|
      invariant out == content + BulletLines(items[..i])
    {
      assert BulletLines(items[..i + 1]) == BulletLines(items[..i]) + ["\U{2022} " + items[i]];
      out := out + ["\U{2022} " + items[i]];
    }
    assert items[..|items|] == items;
  }

  /** `_create_summary_txt`: the lines joined by line breaks. Each list section is
      gathered before it joins the others. */
  method CreateSummaryTxt(rep: Report, generatedOn: string) returns (text: string)
    ensures text == Join(SummaryLines(rep, generatedOn), "\n")
  {
    var content := [Repeat('=', 60), "VIDEO ANALYSIS SUMMARY", Repeat('=', 60), "Generated on: " + generatedOn, ""];
    content := content + ["MAIN SUMMARY", Repeat('-', 20), rep.mainSummary.GetOr("Not available"), ""];
    assert content == Banner("VIDEO ANALYSIS SUMMARY", 60, generatedOn)
      + Section("MAIN SUMMARY", 20, [rep.mainSummary.GetOr("Not available")]);
    ghost var before := content;
    if rep.keyTakeaways.Some? {
      var section := AppendNumbered(["KEY TAKEAWAYS", Repeat('-', 20)], rep.keyTakeaways.value);
      content := content + (section + [""]);
    }
    assert content == before + OptionalSection("KEY TAKEAWAYS", 20, rep.keyTakeaways, NumberedLines);
    before := content;
    if rep.importantQuotes.Some? {
      var section := AppendQuotes(["IMPORTANT QUOTES", Repeat('-', 20)], rep.importantQuotes.value);
      content := content + (section + [""]);
    }
    assert content == before + OptionalSection("IMPORTANT QUOTES", 20, rep.importantQuotes, QuoteLines);
    before := content;
    if rep.actionItems.Some? {
      var section := AppendBullets(["ACTION ITEMS", Repeat('-', 20)], rep.actionItems.value);
      content := content + (section + [""]);
    }
    assert content == before + OptionalSection("ACTION ITEMS", 20, rep.actionItems, BulletLines);
    text := Join(content, "\n");
  }

  // ---------------------------------------------------------------------------------------
  // The rendered lists read back through the analysis parsers.
  // ---------------------------------------------------------------------------------------

  /** An entry the renderers write on a line of its own: not empty, no space at either end
      and no line break. */
  predicate Tidy(t: string) {
    t != [] && !IsSpace(t[0]) && !IsSpace(t[|t| - 1]) && OneLine(t)
  }

  /** Lines free of line breaks are what splitting their join at line breaks gives back. */
  lemma LinesOfJoin(lines: seq<string>)
    requires lines != []
    requires forall l <- lines :: OneLine(l)
    ensures Lines(Join(lines, "\n")) == lines
  {
    SplitJoin(lines, "\n");
  }

  /** The text of no lines is one empty line, and that gives nothing to any of the list
      parsers. */
  lemma NoLines()
    ensures Lines(Join([], "\n")) == [""]
    ensures FilterMap(ListItem, [""]) == [] && FilterMap(QuoteOf, [""]) == []
    ensures FilterMap(TimelineEventAsWritten, [""]) == [] && FilterMap(TimelineEvent, [""]) == []
  {
    assert Strip("") == "";
  }

  /** The line `n. t` gives `t` to the list parser. */
  lemma NumberedReadBack(n: nat, t: string)
    requires n >= 1 && Tidy(t)
    ensures ListItem(NatStr(n) + ". " + t) == Some(t)
    ensures OneLine(NatStr(n) + ". " + t)
  {
    NumberedItem(n, t);
    var digits := NatStr(n);
    assert '\n' !in digits by {
      forall j | 0 <= j < |digits| ensures digits[j] != '\n' {
        assert IsDigit(digits[j]);
      }
    }
  }

  /** The rendered takeaways, read by the takeaways parser, are the takeaways again (the
      parser keeps ten, and the analysis never gives more). */
  lemma TakeawaysReadBack(items: seq<string>)
    requires forall t <- items :: Tidy(t)
    ensures KeyTakeaways(Some(Join(NumberedLines(items), "\n"))) == Take(items, 10)
  {
    var lines := NumberedLines(items);
    if items == [] {
      NoLines();
    } else {
      forall i | 0 <= i < |lines|
        ensures ListItem(lines[i]) == Some(items[i]) && OneLine(lines[i])
      {
        assert items[i] in items;
        NumberedReadBack(i + 1, items[i]);
      }
      LinesOfJoin(lines);
      FilterMapAll(ListItem, lines, items);
    }
  }

  /** The line `• t` gives `t` to the list parser. */
  lemma BulletReadBack(t: string)
    requires Tidy(t)
    ensures ListItem("\U{2022} " + t) == Some(t)
    ensures OneLine("\U{2022} " + t)
  {
    BulletOneLine(t);
    BulletText(t);
    SpaceThenText(t);
  }

  /** A bullet before a text on one line leaves it on one line. */
  lemma BulletOneLine(t: string)
    requires OneLine(t)
    ensures OneLine("\U{2022} " + t)
  {
  }

  /** The line `• t` gives what `strip()` leaves of ` t`. */
  lemma BulletText(t: string)
    requires t != [] && !IsSpace(t[|t| - 1])
    ensures ListItem("\U{2022} " + t) == Some(Strip(" " + t))
  {
    var text := " " + t;
    assert "\U{2022} " + t == "" + ['\U{2022}'] + text + "";
    assert text[|text| - 1] == t[|t| - 1];
    BulletedItem("", '\U{2022}', text, "");
  }

  /** A space before a tidy text is what `strip()` removes. */
  lemma SpaceThenText(t: string)
    requires Tidy(t)
    ensures Strip(" " + t) == t
  {
    StripAround(" ", t, "");
    assert " " + t + "" == " " + t;
  }

  /** The rendered action items, read by the action-item parser, are the items again. */
  lemma ActionItemsReadBack(items: seq<string>)
    requires forall t <- items :: Tidy(t)
    ensures ActionItems(Some(Join(BulletLines(items), "\n"))) == Take(items, 8)
  {
    var lines := BulletLines(items);
    if items == [] {
      NoLines();
    } else {
      forall i | 0 <= i < |lines|
        ensures ListItem(lines[i]) == Some(items[i]) && OneLine(lines[i])
      {
        assert items[i] in items;
        BulletReadBack(items[i]);
      }
      LinesOfJoin(lines);
      FilterMapAll(ListItem, lines, items);
    }
  }

  /** A quote the quote parser gives back whole: longer than ten characters, not opening
      or closing with a quotation mark, and on one line. */
  predicate QuoteLike(q: string) {
    |q| > 10 && q[0] !in QuoteMarks && q[|q| - 1] !in QuoteMarks && OneLine(q)
  }

  /** The line `• "q"` gives `q` to the quote parser. */
  lemma QuoteReadBack(q: string)
    requires QuoteLike(q)
    ensures QuoteOf("\U{2022} \"" + q + "\"") == Some(q)
    ensures OneLine("\U{2022} \"" + q + "\"")
  {
    QuoteOneLine(q);
    QuoteText(q);
  }

  /** A quoted text on one line, after a bullet, is on one line. */
  lemma QuoteOneLine(q: string)
    requires OneLine(q)
    ensures OneLine("\U{2022} \"" + q + "\"")
  {
  }

  /** The quote parser reads the quotation after the bullet. */
  lemma QuoteText(q: string)
    requires |q| > 10 && q[0] !in QuoteMarks && q[|q| - 1] !in QuoteMarks
    ensures QuoteOf("\U{2022} \"" + q + "\"") == Some(q)
  {
    var markers := "\U{2022} ";
    assert forall c <- markers :: c in MarkerChars;
    assert "\U{2022} \"" + q + "\"" == markers + "\"" + q + "\"";
    QuotedLine(markers, q);
  }

  /** The rendered quotes, read by the quote parser, are the quotes again. */
  lemma QuotesReadBack(quotes: seq<string>)
    requires forall q <- quotes :: QuoteLike(q)
    ensures ImportantQuotes(Some(Join(QuoteLines(quotes), "\n"))) == Take(quotes, 5)
  {
    var lines := QuoteLines(quotes);
    if quotes == [] {
      NoLines();
    } else {
      forall i | 0 <= i < |lines|
        ensures QuoteOf(lines[i]) == Some(quotes[i]) && OneLine(lines[i])
      {
        assert quotes[i] in quotes;
        QuoteReadBack(quotes[i]);
      }
      LinesOfJoin(lines);
      FilterMapAll(QuoteOf, lines, quotes);
    }
  }

  /** Every line of the rendered pairs is on one line when the pairs are. */
  lemma {:induction false} QaLinesOneLine(pairs: seq<QaPair>)
    requires forall p <- pairs :: OneLine(p.question) && OneLine(p.answer)
    ensures forall l <- QaLines(pairs) :: OneLine(l)
  {
    if pairs != [] {
      var front, p := pairs[..|pairs| - 1], pairs[|pairs| - 1];
      assert forall q <- front :: q in pairs;
      QaLinesOneLine(front);
      assert p in pairs;
      assert OneLine("Q: " + p.question) && OneLine("A: " + p.answer);
    }
  }

  /** Three elements added at once are three added one by one. */
  lemma ThreeMore<T>(s: seq<T>, x: T, y: T, z: T)
    ensures s + [x, y, z] == s + [x] + [y] + [z]
  {
  }

  /** One more line is one more step of the Q&A loop. */
  lemma QaRunSnoc(lines: seq<string>, line: string)
    ensures QaRun(lines + [line]) == QaStep(QaRun(lines), line)
  {
    assert (lines + [line])[..|lines|] == lines;
  }

  /** The state the Q&A loop is in after the lines of some pairs. */
  function QaAfter(pairs: seq<QaPair>): QaState
  {
    if pairs == [] then QaStart
    else QaState(pairs[..|pairs| - 1], pairs[|pairs| - 1].question, pairs[|pairs| - 1].answer)
  }

  /** The pairs so far are what the state records. */
  lemma FlushedAfter(pairs: seq<QaPair>)
    requires forall p <- pairs :: p.question != [] && p.answer != []
    ensures Flushed(QaAfter(pairs)) == pairs
  {
    if pairs != [] {
      assert pairs[|pairs| - 1] in pairs;
      assert pairs == pairs[..|pairs| - 1] + [pairs[|pairs| - 1]];
    }
  }

  /** After the lines of some pairs, the loop of the Q&A parser holds all but the last
      pair as recorded and the last one as its current question and answer. */
  lemma {:induction false} QaRunOfLines(pairs: seq<QaPair>)
    requires forall p <- pairs :: Tidy(p.question) && Tidy(p.answer)
    ensures QaRun(QaLines(pairs)) == QaAfter(pairs)
  {
    if pairs != [] {
      var front, p := pairs[..|pairs| - 1], pairs[|pairs| - 1];
      assert p in pairs;
      assert Tidy(p.question) && Tidy(p.answer);
      assert forall q <- front :: q in pairs;
      QaRunOfLines(front);
      var before := QaLines(front);
      var q, a := "Q: " + p.question, "A: " + p.answer;
      assert QaLines(pairs) == before + [q, a, ""];
      ThreeMore(before, q, a, "");
      QaRunSnoc(before, q);
      QaRunSnoc(before + [q], a);
      QaRunSnoc(before + [q] + [a], "");
      FlushedAfter(front);
      PairLines(QaAfter(front), p.question, p.answer);
    }
  }

  /** The three lines of a pair record the pair before it and make this one current. */
  lemma PairLines(st: QaState, question: string, answer: string)
    requires Tidy(question) && Tidy(answer)
    ensures QaStep(QaStep(QaStep(st, "Q: " + question), "A: " + answer), "") == QaState(Flushed(st), question, answer)
  {
    QuestionLine(st, question);
    AnswerLine(QaState(Flushed(st), question, ""), answer);
    BlankLine(QaState(Flushed(st), question, answer));
  }

  /** The rendered pairs, read by the Q&A parser, are the pairs again (the parser keeps
      five, and the analysis never gives more). */
  lemma QaReadBack(pairs: seq<QaPair>)
    requires forall p <- pairs :: Tidy(p.question) && Tidy(p.answer)
    ensures QaPairs(Some(Join(QaLines(pairs), "\n"))) == Take(pairs, 5)
  {
    if pairs == [] {
      NoLines();
      QaRunSnoc([], "");
      assert [] + [""] == [""];
      BlankLine(QaStart);
    } else {
      QaLinesOneLine(pairs);
      LinesOfJoin(QaLines(pairs));
      QaRunOfLines(pairs);
      FlushedAfter(pairs);
    }
  }

  /** An entry the timeline parser as written gives back whole: a plain timestamp and a
      tidy description, both on one line. */
  predicate EventLike(e: Event) {
    IsPlainStamp(e.timestamp) && OneLine(e.timestamp) && Tidy(e.description)
  }

  /** An entry the corrected timeline rule gives back whole: a timestamp it keeps whole,
      clock times included, and a tidy description. */
  predicate StampedEventLike(e: Event) {
    IsStamp(e.timestamp) && OneLine(e.timestamp) && Tidy(e.description)
  }

  /** The line `timestamp: description` of an entry is on one line. */
  lemma EventOneLine(e: Event)
    requires OneLine(e.timestamp) && OneLine(e.description)
    ensures OneLine(e.timestamp + ": " + e.description)
  {
  }

  /** The rendered timeline, read by the timeline parser, is the timeline again. */
  lemma TimelineReadBack(events: seq<Event>)
    requires forall e <- events :: EventLike(e)
    ensures Timeline(Some(Join(EventLines(events), "\n"))) == Take(events, 10)
  {
    var lines := EventLines(events);
    if events == [] {
      NoLines();
    } else {
      forall i | 0 <= i < |lines|
        ensures TimelineEventAsWritten(lines[i]) == Some(events[i]) && OneLine(lines[i])
      {
        var e := events[i];
        assert e in events;
        EventOneLine(e);
        EventLineAsWritten(e.timestamp, e.description);
      }
      LinesOfJoin(lines);
      FilterMapAll(TimelineEventAsWritten, lines, events);
    }
  }

  /** With the corrected line rule the rendered timeline reads back whole even when its
      timestamps are clock times. */
  lemma IntendedTimelineReadBack(events: seq<Event>)
    requires forall e <- events :: StampedEventLike(e)
    ensures IntendedTimeline(Some(Join(EventLines(events), "\n"))) == Take(events, 10)
  {
    var lines := EventLines(events);
    if events == [] {
      NoLines();
    } else {
      forall i | 0 <= i < |lines|
        ensures TimelineEvent(lines[i]) == Some(events[i]) && OneLine(lines[i])
      {
        var e := events[i];
        assert e in events;
        EventOneLine(e);
        EventLine(e.timestamp, e.description);
      }
      LinesOfJoin(lines);
      FilterMapAll(TimelineEvent, lines, events);
    }
  }

  /** The topics line, split at `, `, gives the topics back when none holds a comma. */
  lemma TopicsReadBack(topics: seq<string>)
    requires topics != []
    requires forall t <- topics :: ',' !in t
    ensures SplitStr(Join(topics, ", "), ", ") == topics
  {
    SplitJoin(topics, ", ");
  }

  // ---------------------------------------------------------------------------------------
  // The full text report.
  // ---------------------------------------------------------------------------------------

  /** What the full report reads from `transcript_data`, each `None` where the key is
      missing. */
  datatype TranscriptData = TranscriptData(text: Option<string>, totalSegments: Option<nat>, languageCodes: Option<seq<string>>)

  /** `len(transcript_data.get('text', '').split())`. */
  function WordCount(data: TranscriptData): (n: nat)
    ensures n <= |data.text.GetOr("")|
    ensures n == 0 <==> forall c <- data.text.GetOr("") :: IsSpace(c)
  {
    WordsNone(data.text.GetOr(""));
    |Words(data.text.GetOr(""))|
  }

  /** `words // 200 + 1`: minutes at two hundred words a minute, one more than the whole
      minutes the words fill. */
  function ReadingTime(words: nat): (minutes: nat)
    ensures minutes >= 1
    ensures 200 * (minutes - 1) <= words < 200 * minutes
  {
    words / 200 + 1
  }

  /** `f"{x:.1%}"` and `f"{x:.2f}"`; how a float is written out is not modelled. */
  datatype NumberText = NumberText(percent: real -> string, fixed: real -> string)

  /** Title, channel, duration and URL of the video, `Unknown` where missing. */
  function VideoInfoLines(info: map<string, string>): (r: seq<string>)
    ensures |r| == 4
  {
    ["Title: " + Prompts.InfoField(info, "title"), "Channel: " + Prompts.InfoField(info, "channel"),
     "Duration: " + Prompts.InfoField(info, "duration"), "URL: " + Prompts.InfoField(info, "url")]
  }

  /** The topics on one line, separated by `, `. */
  function TopicsLines(topics: seq<string>): (r: seq<string>)
    ensures |r| == 1
  {
    [Join(topics, ", ")]
  }

  /** The three shares as percentages and the overall score with two decimals. */
  function SentimentLines(fmt: NumberText, s: Sentiment): (r: seq<string>)
    ensures |r| == 4
  {
    ["Positive: " + fmt.percent(s.positive), "Neutral: " + fmt.percent(s.neutral),
     "Negative: " + fmt.percent(s.negative), "Overall Score: " + fmt.fixed(s.overallScore)]
  }

  /** The reading-time line for a number of minutes. */
  function ReadingTimeLine(minutes: nat): string
  {
    "Estimated Reading Time: " + NatStr(minutes) + " minutes"
  }

  /** Word count and segment count with thousands separators, then the reading time. */
  function StatisticsLines(data: TranscriptData): (r: seq<string>)
    ensures |r| == 3 && r[2] == ReadingTimeLine(ReadingTime(WordCount(data)))
  {
    ["Total Words: " + Grouped(WordCount(data)), "Total Segments: " + Grouped(data.totalSegments.GetOr(0)),
     ReadingTimeLine(ReadingTime(WordCount(data)))]
  }

  /** The Q&A section: unlike the others it has no blank line of its own after the blank
      line of its last pair. */
  function QaSection(pairs: Option<seq<QaPair>>): (r: seq<string>)
    ensures pairs.None? ==> r == []
    ensures pairs.Some? ==> |r| == 2 + 3 * |pairs.value|
  {
    if pairs.Some? then ["QUESTIONS & ANSWERS", Repeat('-', 30)] + QaLines(pairs.value) else []
  }

  /** The sentiment section, when the key is there. */
  function SentimentSection(fmt: NumberText, s: Option<Sentiment>): (r: seq<string>)
    ensures s.None? ==> r == []
    ensures s.Some? ==> |r| == 7 && r[0] == "SENTIMENT ANALYSIS" && r[1] == Repeat('-', 30) && r[6] == ""
    ensures s.Some? ==>
      r[2] == "Positive: " + fmt.percent(s.value.positive) && r[3] == "Neutral: " + fmt.percent(s.value.neutral)
      && r[4] == "Negative: " + fmt.percent(s.value.negative) && r[5] == "Overall Score: " + fmt.fixed(s.value.overallScore)
  {
    if s.Some? then Section("SENTIMENT ANALYSIS", 30, SentimentLines(fmt, s.value)) else []
  }

  /** The banner, the video details and the executive summary. */
  function FullReportHead(rep: Report, info: map<string, string>, generatedOn: string): (lines: seq<string>)
    ensures |lines| == 16
    ensures lines[7..11] == VideoInfoLines(info)
    ensures lines[14] == rep.mainSummary.GetOr("Not available")
  {
    Banner("COMPREHENSIVE VIDEO ANALYSIS REPORT", 80, generatedOn)
    + Section("VIDEO INFORMATION", 30, VideoInfoLines(info))
    + Section("EXECUTIVE SUMMARY", 30, [rep.mainSummary.GetOr("Not available")])
  }

  /** The optional sections, in the order the report writes them. */
  function FullReportBody(rep: Report, fmt: NumberText): seq<string>
  {
    OptionalSection("KEY TAKEAWAYS", 30, rep.keyTakeaways, NumberedLines)
    + OptionalSection("MAIN TOPICS DISCUSSED", 30, rep.topics, TopicsLines)
    + SentimentSection(fmt, rep.sentiment)
    + OptionalSection("IMPORTANT QUOTES", 30, rep.importantQuotes, QuoteLines)
    + OptionalSection("ACTION ITEMS", 30, rep.actionItems, BulletLines)
    + OptionalSection("VIDEO TIMELINE", 30, rep.timeline, EventLines)
    + QaSection(rep.questionsAndAnswers)
  }

  /** The optional sections and the statistics, which close the report. */
  function FullReportTail(rep: Report, data: TranscriptData, fmt: NumberText): (lines: seq<string>)
    ensures |lines| >= 6
    ensures lines[|lines| - 2] == ReadingTimeLine(ReadingTime(WordCount(data)))
  {
    var body := StatisticsLines(data);
    var stats := Section("STATISTICS", 30, body);
    assert stats[|stats| - 2] == body[2] by {
      SectionLast("STATISTICS", 30, body);
    }
    EndOfConcat(FullReportBody(rep, fmt), stats);
    FullReportBody(rep, fmt) + stats
  }

  /** A section closes with its last body line and the blank line. */
  lemma SectionLast(title: string, width: nat, body: seq<string>)
    requires body != []
    ensures Section(title, width, body)[|body| + 1] == body[|body| - 1]
  {
  }

  /** The lines `_create_full_report_txt` writes: the head, the optional sections and the
      statistics. */
  function FullReportLines(rep: Report, data: TranscriptData, info: map<string, string>, fmt: NumberText, generatedOn: string): (lines: seq<string>)
    ensures |lines| >= 22
    ensures lines[7..11] == VideoInfoLines(info)
    ensures lines[14] == rep.mainSummary.GetOr("Not available")
    ensures lines[|lines| - 2] == ReadingTimeLine(ReadingTime(WordCount(data)))
  {
    var head := FullReportHead(rep, info, generatedOn);
    var tail := FullReportTail(rep, data, fmt);
    SliceOfFront(head, tail, 7, 11);
    EndOfConcat(head, tail);
    head + tail
  }

  /** A stretch of the front part of a concatenation, and an element of it, are those of
      the front part. */
  lemma SliceOfFront<T>(a: seq<T>, b: seq<T>, i: nat, j: nat)
    requires i <= j <= |a|
    ensures (a + b)[i..j] == a[i..j]
    ensures forall k | 0 <= k < |a| :: (a + b)[k] == a[k]
  {
  }

  /** The last two elements of a concatenation come from its back part. */
  lemma EndOfConcat<T>(a: seq<T>, b: seq<T>)
    requires |b| >= 2
    ensures (a + b)[|a + b| - 2] == b[|b| - 2]
  {
  }

  /** The `for event in ...` loop. */
  method AppendEvents(content: seq<string>, events: seq<Event>) returns (out: seq<string>)
    ensures out == content + EventLines(events)
  {
    out := content;
    for i := 0 to |events|
      invariant out == content + EventLines(events[..i])
    {
      var line := events[i].timestamp + ": " + events[i].description;
      assert EventLines(events[..i + 1]) == EventLines(events[..i]) + [line];
      out := out + [line];
    }
    assert events[..|events|] == events;
  }

  /** The `for qa in ...` loop: a question line, an answer line and a blank line each. */
  method AppendQa(content: seq<string>, pairs: seq<QaPair>) returns (out: seq<string>)
    ensures out == content + QaLines(pairs)
  {
    out := content;
    for i := 0 to |pairs|
      invariant out == content + QaLines(pairs[..i])
    {
      assert pairs[..i + 1][..i] == pairs[..i];
      out := out + ["Q: " + pairs[i].question];
      out := out + ["A: " + pairs[i].answer];
      out := out + [""];
    }
    assert pairs[..|pairs|] == pairs;
  }

  /** `_create_full_report_txt`: the report's lines joined with line breaks. */
  method CreateFullReportTxt(rep: Report, data: TranscriptData, info: map<string, string>, fmt: NumberText, generatedOn: string) returns (text: string)
    ensures text == Join(FullReportLines(rep, data, info, fmt, generatedOn), "\n")
  {
    var content := WriteHead(rep, info, generatedOn);
    ghost var head := content;
    content := WriteBody(content, rep, fmt);
    content := WriteStatistics(content, data);
    Assoc(head, FullReportBody(rep, fmt), Section("STATISTICS", 30, StatisticsLines(data)));
    text := Join(content, "\n");
  }

  /** The banner, the video details and the executive summary. */
  method WriteHead(rep: Report, info: map<string, string>, generatedOn: string) returns (content: seq<string>)
    ensures content == FullReportHead(rep, info, generatedOn)
  {
    content := [Repeat('=', 80), "COMPREHENSIVE VIDEO ANALYSIS REPORT", Repeat('=', 80), "Generated on: " + generatedOn, ""];
    content := content + ["VIDEO INFORMATION", Repeat('-', 30), "Title: " + Prompts.InfoField(info, "title"),
      "Channel: " + Prompts.InfoField(info, "channel"), "Duration: " + Prompts.InfoField(info, "duration"),
      "URL: " + Prompts.InfoField(info, "url"), ""];
    content := content + ["EXECUTIVE SUMMARY", Repeat('-', 30), rep.mainSummary.GetOr("Not available"), ""];
  }

  /** The statistics section, which closes the report. */
  method WriteStatistics(content: seq<string>, data: TranscriptData) returns (out: seq<string>)
    ensures out == content + Section("STATISTICS", 30, StatisticsLines(data))
  {
    var words := |Words(data.text.GetOr(""))|;
    var body := ["Total Words: " + Grouped(words), "Total Segments: " + Grouped(data.totalSegments.GetOr(0)),
      "Estimated Reading Time: " + NatStr(words / 200 + 1) + " minutes"];
    assert body == StatisticsLines(data);
    out := content + (["STATISTICS", Repeat('-', 30)] + body + [""]);
  }

  /** The key takeaways, numbered from one, when the key is there. */
  method WriteTakeaways(content: seq<string>, items: Option<seq<string>>) returns (out: seq<string>)
    ensures out == content + OptionalSection("KEY TAKEAWAYS", 30, items, NumberedLines)
  {
    out := content;
    if items.Some? {
      var section := AppendNumbered(["KEY TAKEAWAYS", Repeat('-', 30)], items.value);
      out := out + (section + [""]);
    }
  }

  /** The topics on one line, when the key is there. */
  method WriteTopics(content: seq<string>, topics: Option<seq<string>>) returns (out: seq<string>)
    ensures out == content + OptionalSection("MAIN TOPICS DISCUSSED", 30, topics, TopicsLines)
  {
    out := content;
    if topics.Some? {
      out := out + ["MAIN TOPICS DISCUSSED", Repeat('-', 30), Join(topics.value, ", "), ""];
    }
  }

  /** The sentiment shares and score, when the key is there. */
  method WriteSentiment(content: seq<string>, fmt: NumberText, sentiment: Option<Sentiment>) returns (out: seq<string>)
    ensures out == content + SentimentSection(fmt, sentiment)
  {
    out := content;
    if sentiment.Some? {
      var s := sentiment.value;
      out := out + ["SENTIMENT ANALYSIS", Repeat('-', 30), "Positive: " + fmt.percent(s.positive),
        "Neutral: " + fmt.percent(s.neutral), "Negative: " + fmt.percent(s.negative),
        "Overall Score: " + fmt.fixed(s.overallScore), ""];
    }
  }

  /** The quotes, each in quotation marks after a bullet, when the key is there. */
  method WriteQuotes(content: seq<string>, quotes: Option<seq<string>>) returns (out: seq<string>)
    ensures out == content + OptionalSection("IMPORTANT QUOTES", 30, quotes, QuoteLines)
  {
    out := content;
    if quotes.Some? {
      var section := AppendQuotes(["IMPORTANT QUOTES", Repeat('-', 30)], quotes.value);
      out := out + (section + [""]);
    }
  }

  /** The action items, each after a bullet, when the key is there. */
  method WriteActionItems(content: seq<string>, items: Option<seq<string>>) returns (out: seq<string>)
    ensures out == content + OptionalSection("ACTION ITEMS", 30, items, BulletLines)
  {
    out := content;
    if items.Some? {
      var section := AppendBullets(["ACTION ITEMS", Repeat('-', 30)], items.value);
      out := out + (section + [""]);
    }
  }

  /** The timeline events, when the key is there. */
  method WriteTimeline(content: seq<string>, events: Option<seq<Event>>) returns (out: seq<string>)
    ensures out == content + OptionalSection("VIDEO TIMELINE", 30, events, EventLines)
  {
    out := content;
    if events.Some? {
      var section := AppendEvents(["VIDEO TIMELINE", Repeat('-', 30)], events.value);
      out := out + (section + [""]);
    }
  }

  /** The question-and-answer pairs, when the key is there. */
  method WriteQa(content: seq<string>, pairs: Option<seq<QaPair>>) returns (out: seq<string>)
    ensures out == content + QaSection(pairs)
  {
    out := content;
    if pairs.Some? {
      out := AppendQa(out + ["QUESTIONS & ANSWERS", Repeat('-', 30)], pairs.value);
    }
  }

  /** The optional sections of `_create_full_report_txt`, in their order. */
  method WriteBody(content: seq<string>, rep: Report, fmt: NumberText) returns (out: seq<string>)
    ensures out == content + FullReportBody(rep, fmt)
  {
    out := WriteTakeaways(content, rep.keyTakeaways);
    ghost var body := OptionalSection("KEY TAKEAWAYS", 30, rep.keyTakeaways, NumberedLines);
    ghost var part := OptionalSection("MAIN TOPICS DISCUSSED", 30, rep.topics, TopicsLines);
    out := WriteTopics(out, rep.topics);
    Assoc(content, body, part);
    body := body + part;
    part := SentimentSection(fmt, rep.sentiment);
    out := WriteSentiment(out, fmt, rep.sentiment);
    Assoc(content, body, part);
    body := body + part;
    part := OptionalSection("IMPORTANT QUOTES", 30, rep.importantQuotes, QuoteLines);
    out := WriteQuotes(out, rep.importantQuotes);
    Assoc(content, body, part);
    body := body + part;
    part := OptionalSection("ACTION ITEMS", 30, rep.actionItems, BulletLines);
    out := WriteActionItems(out, rep.actionItems);
    Assoc(content, body, part);
    body := body + part;
    part := OptionalSection("VIDEO TIMELINE", 30, rep.timeline, EventLines);
    out := WriteTimeline(out, rep.timeline);
    Assoc(content, body, part);
    body := body + part;
    part := QaSection(rep.questionsAndAnswers);
    out := WriteQa(out, rep.questionsAndAnswers);
    Assoc(content, body, part);
    body := body + part;
  }

  // ---------------------------------------------------------------------------------------
  // JSON exports.
  // ---------------------------------------------------------------------------------------

  /** The `export_info` entry: the kind of export, when it was made, and version `1.0`. */
  function ExportInfo(kind: string, generatedAt: string): (j: Json)
    ensures j.JObj? && j.fields.Keys == {"type", "generated_at", "version"}
    ensures j.fields["type"] == JStr(kind) && j.fields["generated_at"] == JStr(generatedAt)
  {
    JObj(map["type" := JStr(kind), "generated_at" := JStr(generatedAt), "version" := JStr("1.0")])
  }

  /** The keys of a summary export. */
  const SummaryKeys: set<string> :=
    {"export_info", "main_summary", "key_takeaways", "important_quotes", "action_items", "topics", "sentiment_analysis"}

  /** `_create_summary_json`: six entries of the analysis, each defaulted when missing, after
      the export details. */
  function SummaryJson(analysis: map<string, Json>, generatedAt: string): (doc: map<string, Json>)
    ensures doc.Keys == SummaryKeys
    ensures doc["export_info"] == ExportInfo("summary", generatedAt)
  {
    map["export_info" := ExportInfo("summary", generatedAt)]
      ["main_summary" := Get(analysis, "main_summary", JStr(""))]
      ["key_takeaways" := Get(analysis, "key_takeaways", JList([]))]
      ["important_quotes" := Get(analysis, "important_quotes", JList([]))]
      ["action_items" := Get(analysis, "action_items", JList([]))]
      ["topics" := Get(analysis, "topics", JList([]))]
      ["sentiment_analysis" := Get(analysis, "sentiment_analysis", JObj(map[]))]
  }

  /** What a summary export holds for an analysis result: its own entries where it has
      them, and the empty text, list or object where it does not (all of them when the
      analysis failed). */
  lemma SummaryJsonOf(r: Result<AnalysisDict, string>, generatedAt: string)
    ensures var doc, rep := SummaryJson(AsDict(r), generatedAt), ReportOf(r);
      && doc["main_summary"] == JStr(rep.mainSummary.GetOr(""))
      && doc["key_takeaways"] == StrList(rep.keyTakeaways.GetOr([]))
      && doc["important_quotes"] == StrList(rep.importantQuotes.GetOr([]))
      && doc["action_items"] == StrList(rep.actionItems.GetOr([]))
      && doc["topics"] == StrList(rep.topics.GetOr([]))
      && doc["sentiment_analysis"] == (if rep.sentiment.Some? then SentimentJson(rep.sentiment.value) else JObj(map[]))
  {
    ReportKeysInDict(r);
    ReportValuesInDict(r);
    assert StrList([]) == JList([]);
  }

  /** The `transcript_stats` entry of a full report. */
  function StatsJson(data: TranscriptData): (j: Json)
    ensures j.JObj? && j.fields.Keys == {"total_words", "total_segments", "estimated_reading_time_minutes", "language_codes"}
    ensures j.fields["total_words"] == JInt(WordCount(data))
    ensures j.fields["estimated_reading_time_minutes"] == JInt(ReadingTime(WordCount(data)))
  {
    JObj(map["total_words" := JInt(WordCount(data)),
             "total_segments" := JInt(data.totalSegments.GetOr(0)),
             "estimated_reading_time_minutes" := JInt(ReadingTime(WordCount(data))),
             "language_codes" := StrList(data.languageCodes.GetOr([]))])
  }

  /** `video_info` as the JSON object it is written out as. */
  function InfoJson(info: map<string, string>): (j: Json)
    ensures j.JObj? && j.fields.Keys == info.Keys
    ensures forall k <- info :: j.fields[k] == JStr(info[k])
  {
    JObj(map k <- info :: JStr(info[k]))
  }

  /** A dict of four entries under four different keys. */
  function Dict4<V>(k1: string, v1: V, k2: string, v2: V, k3: string, v3: V, k4: string, v4: V): (m: map<string, V>)
    requires k1 != k2 && k1 != k3 && k1 != k4 && k2 != k3 && k2 != k4 && k3 != k4
    ensures m.Keys == {k1, k2, k3, k4}
    ensures m[k1] == v1 && m[k2] == v2 && m[k3] == v3 && m[k4] == v4
  {
    map[k1 := v1, k2 := v2, k3 := v3, k4 := v4]
  }

  /** The keys of a full report export. */
  const FullReportKeys: set<string> := {"export_info", "video_info", "analysis_results", "transcript_stats"}

  /** `_create_full_report_json`: the export details, the video details, the whole analysis
      result as it is, and the transcript statistics. */
  function FullReportJson(analysis: map<string, Json>, data: TranscriptData, info: map<string, string>, generatedAt: string): (doc: map<string, Json>)
    ensures doc.Keys == FullReportKeys
    ensures doc["export_info"] == ExportInfo("full_report", generatedAt)
    ensures doc["analysis_results"] == JObj(analysis)
    ensures doc["transcript_stats"] == StatsJson(data)
  {
    Dict4("export_info", ExportInfo("full_report", generatedAt), "video_info", InfoJson(info),
          "analysis_results", JObj(analysis), "transcript_stats", StatsJson(data))
  }

  /** The number a statistics line ends with, read back as `int()` reads it after removing
      its thousands separators; `None` when the line lacks the label or the suffix. */
  function StatNumber(line: string, prefix: string, suffix: string): (n: Option<int>)
  {
    if |line| >= |prefix| + |suffix| && StartsWith(line, prefix) && EndsWith(line, suffix)
    then ParseInt(DropCommas(line[|prefix|..|line| - |suffix|]))
    else None
  }

  /** The number between a prefix and a suffix. */
  lemma StatNumberOf(prefix: string, digits: string, suffix: string)
    ensures StatNumber(prefix + digits + suffix, prefix, suffix) == ParseInt(DropCommas(digits))
  {
    var line := prefix + digits + suffix;
    assert line[..|prefix|] == prefix;
    assert line[|line| - |suffix|..] == suffix;
    assert line[|prefix|..|line| - |suffix|] == digits;
  }

  /** The text report and the JSON report agree: the word count and the reading time in the
      statistics lines read back as the numbers under `transcript_stats`. */
  lemma StatisticsAgree(data: TranscriptData, analysis: map<string, Json>, info: map<string, string>, generatedAt: string)
    ensures var lines, stats := StatisticsLines(data), FullReportJson(analysis, data, info, generatedAt)["transcript_stats"];
      && StatNumber(lines[0], "Total Words: ", "") == Some(stats.fields["total_words"].i)
      && StatNumber(lines[2], "Estimated Reading Time: ", " minutes") == Some(stats.fields["estimated_reading_time_minutes"].i)
  {
    var w := WordCount(data);
    var m := ReadingTime(w);
    StatNumberOf("Total Words: ", Grouped(w), "");
    assert "Total Words: " + Grouped(w) + "" == "Total Words: " + Grouped(w);
    ValueOfGrouped(w);
    DigitsParse(DropCommas(Grouped(w)));
    StatNumberOf("Estimated Reading Time: ", NatStr(m), " minutes");
    DropCommasNone(NatStr(m));
    ValueOfNatStr(m);
    DigitsParse(NatStr(m));
  }

  // ---------------------------------------------------------------------------------------
  // The two exports.
  // ---------------------------------------------------------------------------------------

  /** The moment an export is made, as `strftime('%Y-%m-%d %H:%M:%S')` and as
      `isoformat()` write it. */
  datatype Clock = Clock(stamp: string, iso: string)

  /** What an export produces. The PDF and Word documents are built by libraries outside
      this model; only which of them is built is kept. */
  datatype Exported = PdfDocument | WordDocument | JsonDocument(doc: map<string, Json>) | PlainText(text: string)

  /** The kind of document each renderer produces. */
  predicate Produces(r: Renderer, e: Exported) {
    match r
    case PdfRenderer => e.PdfDocument?
    case WordRenderer => e.WordDocument?
    case JsonRenderer => e.JsonDocument?
    case TextRenderer => e.PlainText?
  }

  /** `export_summary(analysis_results, format_type)`. */
  method ExportSummary(r: Result<AnalysisDict, string>, formatType: string, libs: Libraries, clock: Clock) returns (e: Exported)
    ensures Produces(RendererFor(formatType, libs), e)
    ensures e.JsonDocument? ==> e.doc == SummaryJson(AsDict(r), clock.iso)
    ensures e.PlainText? ==> e.text == Join(SummaryLines(ReportOf(r), clock.stamp), "\n")
  {
    var name := Upper(formatType);
    if name == "PDF" && libs.pdfAvailable {
      e := PdfDocument;
    } else if name == "WORD DOCUMENT" && libs.docxAvailable {
      e := WordDocument;
    } else if name == "JSON" {
      e := JsonDocument(SummaryJson(AsDict(r), clock.iso));
    } else {
      var text := CreateSummaryTxt(ReportOf(r), clock.stamp);
      e := PlainText(text);
    }
  }

  /** `export_full_report(analysis_results, transcript_data, video_info, format_type)`. */
  method ExportFullReport(r: Result<AnalysisDict, string>, data: TranscriptData, info: map<string, string>, fmt: NumberText,
                          formatType: string, libs: Libraries, clock: Clock) returns (e: Exported)
    ensures Produces(RendererFor(formatType, libs), e)
    ensures e.JsonDocument? ==> e.doc == FullReportJson(AsDict(r), data, info, clock.iso)
    ensures e.PlainText? ==> e.text == Join(FullReportLines(ReportOf(r), data, info, fmt, clock.stamp), "\n")
  {
    var name := Upper(formatType);
    if name == "PDF" && libs.pdfAvailable {
      e := PdfDocument;
    } else if name == "WORD DOCUMENT" && libs.docxAvailable {
      e := WordDocument;
    } else if name == "JSON" {
      e := JsonDocument(FullReportJson(AsDict(r), data, info, clock.iso));
    } else {
      var text := CreateFullReportTxt(ReportOf(r), data, info, fmt, clock.stamp);
      e := PlainText(text);
    }
  }
}
