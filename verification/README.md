# YouTube video analyzer: a verified Dafny model of its core

The analyzer is a Streamlit application. It takes a YouTube link, fetches the video's
transcript and details, and asks a Gemini model for a summary, takeaways, quotes, action
items, topics, a timeline, questions and answers, study notes or business insights. It then
lets the user chat about the video, keeps a history of analysis sessions on disk, and exports
the results as text, JSON, PDF or Word files.

This project models the deterministic logic around those services and proves what the code
promises about it.

- **Reply parsers** (`Analysis`, analysis.dfy). These are the line scrapers of
  `core/ai_processor.py`, each a function over the reply's lines with its cap:
  - takeaways, action items, quotes and topics;
  - the timeline;
  - the question-and-answer state machine;
  - the four-section study notes and business insights.

  The key selection of `comprehensive_analysis` is modelled too. The loops are methods
  proved against those functions.
- **Validators** (`Validators`, validators.dfy), from `utils/validators.py`:
  - URL and video-id checks;
  - settings and preference normalisation, with allow-lists, defaults and clamps;
  - file-name sanitising and export-format normalisation;
  - query parameters, text input, content safety and the two structure checks.
- **YouTube helpers** (`Youtube`, youtube.dfy), from `core/youtube_handler.py`:
  - video-id extraction;
  - the duration designators of section 4.4.3.2 of ISO 8601:2004 (the `PT#H#M#S` subset);
  - `MM:SS` and `HH:MM:SS` timestamps;
  - transcript assembly, transcript search and chapter detection.
- **Chat state** (`ChatInterface`, chat_interface.dfy). The class `Chat` holds the
  history, suggestion list and context of `components/chat_interface.py`, updated in place
  by its methods.
- **Session store** (`SessionManager`, session_manager.dfy). The class `SessionStore`
  holds the stored files (a map from name to data and modification time), the bounded
  in-memory history, the current session and the preferences of
  `core/session_manager.py`. It also models the statistics computed from them.
- **Exports** (`ExportHandler`, export_handler.dfy), from `core/export_handler.py`:
  - the format dispatch and MIME types;
  - the text and JSON summaries and full reports.

  Lemmas show that the text exports read back through the reply parsers.
- **Prompts** (`Prompts`, prompts.dfy), from `prompts/templates.py`: how the summary,
  takeaways and chat prompts are selected and assembled.

Shared modules:

- `Wrappers`: Option and Result.
- `Seqs`: slices, filters and filter-maps.
- `Text`: Python's `lower`, `upper`, `title`, `strip`, `split` and `join`.
- `Decimal`: decimal digits, `str(n)`, zero padding and `{:,}` grouping.
- `JsonValues`: JSON values, `dict.get`, `int()` and clamping.
- `Urls`: the parts of `urllib.parse` the validators and the id extraction use.

Where the documented behaviour and the code disagree, the model follows the code. In particular,
`validate_youtube_url` rejects a URL written without a scheme, such as
`youtube.com/watch?v=...`: `urlparse` finds no network location in it
(`Validators.RejectsWithoutAuthority`).

Four places where the code does not do what it evidently means are listed under
"## Findings". Each has two members: one models the code as written and exhibits the
difference; the other is the corrected behaviour, which carries the intended property.

- **Timeline.** The operations (`Analysis.Timeline`, `Analysis.GenerateTimeline`,
  `Analysis.ComprehensiveAnalysis`) use the line rule as written.
- **Suggestions.** The chat (`ChatInterface.Chat.UpdateSuggestions`,
  `ChatInterface.Chat.AskQuestion`) uses the merge as written.

## Model

| member | source | states |
|---|---|---|
| Youtube.ShortLinkId | core/youtube_handler.py:20-22 | the id taken from a `youtu.be` link holds no `?` and no `&` |
| Youtube.IdMatchAt | core/youtube_handler.py:34-37 | a match of the fallback pattern at a position yields eleven characters from `[A-Za-z0-9_-]` |
| Youtube.SearchIdFrom | core/youtube_handler.py:34-37 | `re.search` finds the leftmost match: the result is the match at some position with no match before it, and no result means no position matches |
| Youtube.ExtractFrom | core/youtube_handler.py:17-39 | a URL containing `youtu.be` is handled by the short-link rule alone; one with neither host name goes straight to the pattern search |
| Youtube.ExtractVideoId | core/youtube_handler.py:14-39 | the URL is stripped first; a `youtu.be` URL gives the short-link id; a `youtube.com` URL gives its first `v` parameter with a non-blank value, or `None` when `urlparse` raises; without a `v` parameter, or without either host name, the pattern search decides |
| Youtube.ShortLinkIdAfterLastMarker | core/youtube_handler.py:21 | the short-link id is the text after the last `youtu.be/` (no later one occurs), cut at the first `?` and then the first `&` |
| Youtube.ShortLinkIdWithoutMarker | core/youtube_handler.py:20-22 | with `youtu.be` but no `youtu.be/`, `split(...)[-1]` is the whole URL, cut at `?` and `&` |
| Youtube.CutTwice | core/youtube_handler.py:21 | `split('?')[0].split('&')[0]` is the front of the text up to its first `?` or `&` |
| Youtube.ExtractedIdNonEmpty | core/youtube_handler.py:25-37 | outside the short-link branch a found id is never empty (blank query values are dropped, the pattern needs eleven characters) |
| Youtube.ExtractShortLink | core/youtube_handler.py:14-22 | `https://youtu.be/<id>` gives back `<id>` for every well-formed id |
| Youtube.WatchLinkNotShort | core/youtube_handler.py:20 | a watch link never takes the short-link branch |
| Youtube.WatchQuery | core/youtube_handler.py:27-30 | the query `v=<id>` has `v` with first value `<id>` |
| Youtube.ExtractWatchLink | core/youtube_handler.py:14-31 | `https://www.youtube.com/watch?v=<id>` gives back `<id>` for every well-formed id |
| Youtube.FormatTimestamp | core/youtube_handler.py:212-222 | below one hour the text is `MM:SS` (five characters); from one hour up to 100 hours it is `HH:MM:SS` (eight characters) |
| Youtube.HoursMinutesSeconds | core/youtube_handler.py:215-217 | the hour, minute and second fields recombine to the total, with minutes and seconds below 60 |
| Youtube.TimestampReadsBack | core/youtube_handler.py:212-222 | reading the formatted timestamp back as a clock gives exactly the seconds it was made from |
| Youtube.ClockFields3 | core/youtube_handler.py:220 | three digit fields joined by `:` split back into the same three fields |
| Youtube.ClockFields2 | core/youtube_handler.py:222 | two digit fields joined by `:` split back into the same two fields |
| Youtube.Designator | core/youtube_handler.py:139 | one optional `(\d+)X` group of the duration pattern consumes a prefix of the text |
| Youtube.DurationFields | core/youtube_handler.py:139-145 | the pattern matches exactly when the text begins with `PT` |
| Youtube.ParseDuration | core/youtube_handler.py:136-154 | the result is "Unknown" exactly when the text does not begin with `PT` |
| Youtube.DurationText | core/youtube_handler.py:147-150 | the rendered duration is never empty and starts with a digit |
| Youtube.DesignatorPresent | core/youtube_handler.py:139-145 | a present group `<n>X` is read with its value `n` and consumed |
| Youtube.DesignatorAbsent | core/youtube_handler.py:139-145 | an absent group counts as 0 and consumes nothing |
| Youtube.DurationFieldsOfIso | core/youtube_handler.py:139-145 | the designators YouTube writes (`PT#H#M#S`, zero parts omitted) are read back as the hours, minutes and seconds |
| Youtube.DurationReadsBack | core/youtube_handler.py:136-150 | the rendered duration of `PT#H#M#S` read back as a clock gives `h*3600 + m*60 + s` |
| Youtube.DurationTextReadsBack | core/youtube_handler.py:147-150 | `h:MM:SS` (h > 0) or `m:SS` reads back as the same number of seconds |
| Youtube.Texts | core/youtube_handler.py:172 | the texts of the segments, one per segment, in order |
| Youtube.SpacedTextsJoin | core/youtube_handler.py:175 | the `full_text += " " + text` fold is a space followed by the texts joined by single spaces |
| Youtube.BuildTranscript | core/youtube_handler.py:170-198 | one segment per entry in order with stripped text and formatted timestamp; `text` is the texts joined by spaces and stripped; `total_segments` is the count; `total_duration` is the last start plus duration, or 0; language codes default to `['en']` |
| Youtube.SearchTranscript | core/youtube_handler.py:252-266 | the loop returns the hits of the segments that mention the query |
| Youtube.SearchHitsExact | core/youtube_handler.py:258-264 | a hit is returned exactly when some segment's lowercased text contains the lowercased query, and it carries that segment's timestamp, text and start |
| Youtube.GetVideoChapters | core/youtube_handler.py:226-246 | the loop returns the chapters of the segments that hold a keyword |
| Youtube.ChaptersExact | core/youtube_handler.py:233-244 | a chapter is returned exactly when some segment's lowercased text contains one of the six keywords, titled with that segment's text |
| Validators.ValidateYoutubeUrl | utils/validators.py:6-38 | True exactly for a non-empty string whose host (the stripped URL's authority, lower-cased) mentions `youtube` or `youtu.be` |
| Validators.HostAllowedIsMention | utils/validators.py:15-33 | the five-domain test (equal to a domain, or ending with `.` and a domain) accepts exactly the hosts the substring test accepts, so the allow-list adds nothing |
| Validators.ListedDomainMentions | utils/validators.py:15-21 | each of the five listed domains mentions YouTube |
| Validators.SuffixMentions | utils/validators.py:28 | a host ending with a text that mentions YouTube mentions it too |
| Validators.AcceptsByHost | utils/validators.py:23-35 | `scheme://host...` is accepted exactly when the lower-cased host mentions YouTube |
| Validators.HostOfUrl | utils/validators.py:24-25 | the host of `scheme://host...` is `host`, lower-cased |
| Validators.RejectsWithoutAuthority | utils/validators.py:24-35 | a URL with no scheme and no `//` (such as `youtube.com/watch?v=...`) has an empty host and is rejected |
| Validators.VisibleStrip | utils/validators.py:12 | a URL made of visible characters is its own `strip()` |
| Validators.ValidateVideoIdAsWritten | utils/validators.py:40-49 | the check as written: a string of eleven id characters, or of eleven id characters followed by one line break, which the `$` anchor lets through |
| Validators.VideoIdTrailingNewline | utils/validators.py:47-49 | an eleven-character id plus `\n` passes the check as written but is not eleven characters |
| Validators.VideoIdChecksAgree | utils/validators.py:40-49 | the intended check implies the check as written, and they differ only on an id followed by one line break |
| Validators.AllowedStr | utils/validators.py:69-70 | the value when it is one of the allowed strings, else the default; always allowed |
| Validators.BooleanSetting | utils/validators.py:79-81 | `bool(v)` for booleans, integers and strings (a non-zero integer, a non-empty string), the default for every other type |
| Validators.ValidateAnalysisSettings | utils/validators.py:51-88 | summary type, language and export format are in their allow-lists; an allowed present value is kept and any other present value becomes 'Comprehensive', 'English' or 'PDF'; present booleans pass through; absent keys take the defaults |
| Validators.SettingsDictLookups | utils/validators.py:65-88 | each of the six keys of the written-back dict reads back as the field it came from |
| Validators.AnalysisSettingsFixed | utils/validators.py:51-88 | valid settings validate to themselves, so validating is idempotent |
| Validators.ValidateTranscriptData | utils/validators.py:90-121 | an accepted record is a dict with `text` and `segments`, its text is a string with a non-space character and its segments are a list |
| Validators.TranscriptDataShape | utils/validators.py:90-121 | a record validates exactly when its text is not blank and every segment is a dict with `timestamp`, `text` and `start_time`; other keys do not matter |
| Validators.ValidateSessionData | utils/validators.py:123-154 | an accepted record has a valid YouTube URL and dicts under `video_info`, `analysis` and `settings` |
| Validators.ReplaceInvalid | utils/validators.py:162-163 | each of `<>:"/\?*` and the vertical bar becomes `_`, every other character is kept, the length is unchanged |
| Validators.SanitizeFilename | utils/validators.py:156-177 | the result has 1 to 100 characters, none of `<>:"/\?*` or the vertical bar, and does not begin with a space or `.`; empty or non-string input gives `unknown_file` |
| Validators.SanitizeKeepsSafeName | utils/validators.py:156-177 | a name that is already safe is returned unchanged |
| Validators.FuzzyFormat | utils/validators.py:192-202 | the fuzzy rule always gives one of the four format names |
| Validators.ValidateExportFormat | utils/validators.py:179-202 | the result is one of the four format names; empty or non-string input gives "Text File" |
| Validators.FormatOfName | utils/validators.py:184-202 | a stripped name always maps to one of the four format names |
| Validators.FuzzyOfFormat | utils/validators.py:193-202 | the fuzzy rule maps each format name, lower-cased, back to itself |
| Validators.FormatOfNameIsFuzzy | utils/validators.py:184-202 | the direct match decides nothing the fuzzy rule would not: the result depends only on the lower-cased name |
| Validators.ExportFormatIsFuzzy | utils/validators.py:179-202 | for a non-empty string the result is the fuzzy rule (`pdf`, then `word`/`docx`/`doc`, then `json`) on the stripped, lower-cased name |
| Validators.ExportFormatFixed | utils/validators.py:186-190 | each of the four names is kept as it is |
| Validators.ValidateTextInput | utils/validators.py:204-214 | valid text is a string whose stripped length lies between the bounds |
| Validators.TextInputDefaults | utils/validators.py:204-214 | with the default bounds, text is valid exactly when it has a non-whitespace character and at most 10000 characters once stripped |
| Validators.SafeContentSlice | utils/validators.py:299-321 | every non-empty part of safe content is safe |
| Validators.IsSafeContent | utils/validators.py:299-321 | safe content is a non-empty string of at most 1000000 characters |
| Validators.ScriptTagUnsafe | utils/validators.py:309-319 | text containing `<script>` in any letter case is unsafe |
| Validators.SuspiciousUnsafe | utils/validators.py:309-319 | text containing `javascript:`, `data:text/html` or `vbscript:` in any letter case is unsafe |
| Validators.ScriptTagSlice | utils/validators.py:310 | a script tag found in part of a text is found in the text |
| Validators.QueryLimit | utils/validators.py:221-231 | the limit is `int(v)` clamped to [1, 100], or 10 where `int()` raises |
| Validators.ValidateQueryParameters | utils/validators.py:216-250 | the limit lies in [1, 100]; a string query is stripped and cut to its first 200 characters, any other query is empty; sort and order are in their allow-lists |
| Validators.LimitFromText | utils/validators.py:221-231 | a limit written as decimal text is read back and clamped to [1, 100] |
| Validators.HistoryBound | utils/validators.py:280-290 | the history bound is `int(v)` clamped to [1, 500], or 50 where `int()` raises |
| Validators.ValidateUserPreferences | utils/validators.py:252-297 | an empty or non-dict argument gives `{}`; otherwise every value is in its allow-list or range |
| Validators.PreferencesDictLookups | utils/validators.py:257-297 | each of the nine keys of the written-back dict reads back as the field it came from |
| Validators.PreferencesFixed | utils/validators.py:252-297 | valid preferences validate to themselves, so validating is idempotent |
| Analysis.DropMarkers | core/ai_processor.py:143 | `re.sub(r'^[\d\-\•\*\s]+', '', s)` removes a prefix, after which the text does not begin with a digit, a list mark or a space |
| Analysis.DropNumber | core/ai_processor.py:118 | `re.sub(r'^\d+\.?\s*', '', s)` removes a prefix; after a leading number the rest does not begin with a space |
| Analysis.ListItem | core/ai_processor.py:113-118 | a line gives an item exactly when its stripped text is non-empty and begins with `•`, `-`, `*` or a digit from 1 to 9 |
| Analysis.BulletLine | core/ai_processor.py:115-116 | a bulleted line gives its stripped text after the bullet |
| Analysis.BulletedItem | core/ai_processor.py:114-116 | an indented bulleted line gives the stripped text after its bullet |
| Analysis.NumberedLine | core/ai_processor.py:117-118 | a line beginning with a digit from 1 to 9 gives its text after the number |
| Analysis.NumberedItem | core/ai_processor.py:117-118 | `n. text` gives back `text` for every n ≥ 1 |
| Analysis.DropNumberOf | core/ai_processor.py:118 | the number, the dot and the space go and the text stays |
| Analysis.StripAround | core/ai_processor.py:114 | `strip()` removes exactly the whitespace around a text whose ends are not whitespace |
| Analysis.ListItemsExact | core/ai_processor.py:113-118 | an item is found exactly when some line of the reply gives it |
| Analysis.CollectLines | core/ai_processor.py:113-120 | the `for line in reply.split('\n')` loop keeps, in order, what the line rule gives, then the first `cap` of them |
| Analysis.KeyTakeaways | core/ai_processor.py:102-124 | at most ten items: the first ten the line rule finds, none when the model call fails |
| Analysis.ExtractKeyTakeaways | core/ai_processor.py:111-120 | the loop computes the takeaways of the reply |
| Analysis.ActionItems | core/ai_processor.py:154-176 | at most eight items: the first eight the same line rule finds, none when the model call fails |
| Analysis.GenerateActionItems | core/ai_processor.py:163-172 | the loop computes the action items of the reply |
| Analysis.ActionItemsPrefix | core/ai_processor.py:164-172 | the action items of a reply are the first eight of its takeaways |
| Analysis.QuoteOf | core/ai_processor.py:139-146 | a kept quote comes from a line holding `"` or `'`, has more than ten characters, and neither begins nor ends with a quotation mark |
| Analysis.QuoteOfStripped | core/ai_processor.py:140-146 | a stripped line with a quotation mark gives what remains once its markers and quotation marks go, when that is long enough |
| Analysis.QuotedLine | core/ai_processor.py:139-146 | markers followed by `"quote"` give back the quote |
| Analysis.QuotedStripped | core/ai_processor.py:140-143 | a line of markers and a quotation is already stripped and loses exactly its markers |
| Analysis.QuotesAround | core/ai_processor.py:144 | `strip('"\'')` removes exactly the quotation marks around a quote |
| Analysis.ImportantQuotes | core/ai_processor.py:126-152 | at most five quotes, each longer than ten characters |
| Analysis.ExtractImportantQuotes | core/ai_processor.py:136-148 | the loop computes the quotes of the reply |
| Analysis.QuotesFromQuotedLines | core/ai_processor.py:139-146 | every kept quote comes from a line of the reply that holds a quotation mark |
| Analysis.TopicOf | core/ai_processor.py:189-196 | a kept topic comes from a non-empty line not starting with `#`, has more than two characters and no `.,;:` at either end |
| Analysis.TopicLine | core/ai_processor.py:189-196 | markers followed by a topic give back the topic |
| Analysis.TopicOfParts | core/ai_processor.py:190-196 | a stripped non-heading line gives what remains after the markers and the punctuation, when that is long enough |
| Analysis.TopicLineCore | core/ai_processor.py:193-194 | the markers go and a topic without punctuation at its ends is kept whole |
| Analysis.TopicLineStripped | core/ai_processor.py:190-191 | a line of markers and a topic is already stripped and is no heading |
| Analysis.HeadingNoTopic | core/ai_processor.py:191 | a line starting with `#` never gives a topic |
| Analysis.Topics | core/ai_processor.py:178-202 | at most twelve topics, each longer than two characters |
| Analysis.ExtractTopics | core/ai_processor.py:187-198 | the loop computes the topics of the reply |
| Analysis.TimelineEventAsWritten | core/ai_processor.py:258-274 | the line rule as written: an entry comes from a stripped line holding `:`, with a non-empty timestamp and description |
| Analysis.TimelineDropsClockLine | core/ai_processor.py:262-270 | a line `05:30: ...` (digits then a colon) is dropped by the rule as written |
| Analysis.TimelineAsWrittenOfStripped | core/ai_processor.py:262-270 | a line whose text before the first colon is only digits, dashes, bullets or spaces is dropped |
| Analysis.AsWrittenStampPlain | core/ai_processor.py:264-270 | every timestamp the rule as written keeps holds no colon and does not begin with a digit, a list mark or a space |
| Analysis.EventLineAsWritten | core/ai_processor.py:258-274 | `timestamp: description` with a plain timestamp gives the entry back under the rule as written |
| Analysis.TimelineAsWrittenOfLine | core/ai_processor.py:262-274 | a stripped line whose cleaned halves are non-empty gives exactly those halves |
| Analysis.ClockLedDropped | core/ai_processor.py:262-270 | every line led by a clock time is dropped by the rule as written |
| Analysis.ClockReplyNoTimeline | core/ai_processor.py:255-276 | a reply in the format the timeline prompt asks for (every line led by a clock time) gives an empty timeline |
| Analysis.Timeline | core/ai_processor.py:245-280 | at most ten entries, each with a plain timestamp and a non-empty description |
| Analysis.GenerateTimeline | core/ai_processor.py:255-276 | the loop computes the timeline of the reply under the rule as written |
| Analysis.TimelineEvent | core/ai_processor.py:258-274 | the corrected line rule: the label ends at the first colon not followed by a digit, and a kept timestamp is non-empty and does not begin with a bullet |
| Analysis.LabelEnd | core/ai_processor.py:262 | the corrected split point is the first label-ending colon |
| Analysis.ClockLine | core/ai_processor.py:258-274 | under the corrected rule `05:30: what happens` gives the clock time and the description |
| Analysis.EventLine | core/ai_processor.py:258-274 | under the corrected rule `timestamp: description` gives the entry back |
| Analysis.TimelineOfStripped | core/ai_processor.py:262-274 | the corrected rule on a stripped line takes the halves around the first label end |
| Analysis.IntendedTimeline | core/ai_processor.py:255-276 | the timeline of the corrected rule: at most ten entries with non-empty fields |
| Analysis.Flushed | core/ai_processor.py:301-316 | the current pair is recorded exactly when both question and answer are non-empty |
| Analysis.QaRunComplete | core/ai_processor.py:298-316 | the loop only ever records pairs whose question and answer are both non-empty |
| Analysis.QaStepComplete | core/ai_processor.py:299-309 | one step keeps the recorded pairs complete |
| Analysis.QaPairs | core/ai_processor.py:282-322 | at most five pairs, all complete |
| Analysis.ExtractQaPairs | core/ai_processor.py:291-318 | the loop, the final flush and the cap compute the pairs of the reply |
| Analysis.QaLoop | core/ai_processor.py:298-309 | the loop over the lines threads the question and answer state as the line-by-line definition does |
| Analysis.QaLine | core/ai_processor.py:299-309 | one iteration of the loop body |
| Analysis.QaRunStep | core/ai_processor.py:298 | one more line run through the loop is one more step |
| Analysis.QaRunCount | core/ai_processor.py:300-307 | each recorded pair and the open question used up a question line of its own |
| Analysis.QaPairsCount | core/ai_processor.py:292-318 | a reply yields at most as many pairs as it has question lines |
| Analysis.QuestionNotAnswer | core/ai_processor.py:300-308 | no line is both a question line and an answer line |
| Analysis.LaterAnswerWins | core/ai_processor.py:308-309 | of two answer lines in a row only the second counts |
| Analysis.UnansweredQuestionDropped | core/ai_processor.py:300-307 | a question followed straight away by another question is never recorded |
| Analysis.QuestionStep | core/ai_processor.py:300-307 | a question line records the pending pair if complete, opens its question and resets the answer |
| Analysis.AnswerStep | core/ai_processor.py:308-309 | an answer line sets the answer and nothing else |
| Analysis.QuestionLine | core/ai_processor.py:300-307 | `Q: question` opens `question` |
| Analysis.AnswerLine | core/ai_processor.py:308-309 | `A: answer` sets the answer to `answer` |
| Analysis.BlankLine | core/ai_processor.py:298-309 | an empty line changes nothing |
| Analysis.NoNotes | core/ai_processor.py:334-339 | the starting dict has exactly the four section keys, all empty |
| Analysis.Heading | core/ai_processor.py:346-353 | the first keyword of the `if`/`elif` chain that the lower-cased line contains, and none before it |
| Analysis.SectionStep | core/ai_processor.py:344-355 | one iteration keeps the dict at its four keys and the current section among them |
| Analysis.SectionRun | core/ai_processor.py:344-355 | the loop keeps the dict at its four keys |
| Analysis.SectionRunStep | core/ai_processor.py:344 | one more line run through the loop is one more step |
| Analysis.Sections | core/ai_processor.py:324-361 | the parsed dict has exactly the four keys, or is `{}` when the model call fails |
| Analysis.ParseSections | core/ai_processor.py:341-357 | the loop computes the sections of the reply |
| Analysis.SectionLoop | core/ai_processor.py:344-355 | the loop over the lines agrees with the line-by-line definition |
| Analysis.SectionLine | core/ai_processor.py:345-355 | one iteration of the loop body |
| Analysis.GenerateStudyNotes | core/ai_processor.py:324-361 | the study notes have exactly `main_concepts`, `definitions`, `examples`, `formulas` |
| Analysis.GenerateBusinessInsights | core/ai_processor.py:363-400 | the insights have exactly `key_strategies`, `market_insights`, `opportunities`, `challenges` |
| Analysis.SectionRunClean | core/ai_processor.py:344-355 | only stripped, non-empty lines without a heading keyword are ever stored |
| Analysis.SectionStepClean | core/ai_processor.py:354-355 | one step stores only such lines |
| Analysis.PreambleDropped | core/ai_processor.py:342-355 | lines before the first heading are dropped and open no section |
| Analysis.BodyAfterHeading | core/ai_processor.py:346-355 | after a heading, a body line goes to the end of that heading's section and nowhere else |
| Analysis.StrList | core/ai_processor.py:42-54 | a list of strings as JSON, item by item |
| Analysis.SectionsJson | core/ai_processor.py:73-77 | a sections dict as JSON with the same keys |
| Analysis.EventsJson | core/ai_processor.py:66 | a timeline as a JSON list, entry by entry |
| Analysis.QaPairsJson | core/ai_processor.py:69 | Q&A pairs as a JSON list, pair by pair |
| Analysis.ComprehensiveAnalysis | core/ai_processor.py:22-83 | an escaping exception gives exactly the error; otherwise each step's result is stored, `topics` exactly when asked for, sentiment exactly when asked for, study notes exactly for 'Academic', business insights exactly for 'Business' |
| Analysis.PutIf | core/ai_processor.py:57-77 | a conditional key is added exactly when its condition holds |
| Analysis.PutIfKeeps | core/ai_processor.py:57-77 | a conditional step leaves every other key as it was |
| Analysis.AlwaysEntries | core/ai_processor.py:36-69 | the six keys stored on every successful run, each with its step's value |
| Analysis.AsDict | core/ai_processor.py:81-83 | a failed run is the dict `{'error': message}` |
| Analysis.DictKeys | core/ai_processor.py:35-79 | a successful result has the six keys always and each optional key exactly when its field is there, and never `error` |
| Analysis.AnalysisKeys | core/ai_processor.py:35-79 | the keys as the options decide them: `topics` iff topics are asked for, both sentiment keys iff sentiment is, `study_notes` iff 'Academic', `business_insights` iff 'Business', and the six others always |
| ChatInterface.TopicQuestion | components/chat_interface.py:230-233 | the topic suggestion asks "Can you explain more about" the first topic |
| ChatInterface.ContextSuggestions | components/chat_interface.py:221-237 | a context earns at most four suggestions of its own |
| ChatInterface.Suggestions | components/chat_interface.py:207-262 | without a context the six defaults; with one, between four and six suggestions |
| ChatInterface.SuggestionsOf | components/chat_interface.py:219-247 | the context's own suggestions come first, then the general ones in their order, cut at six, so at least the first two general ones are offered |
| ChatInterface.FollowUpOf | components/chat_interface.py:274-285 | only a user message suggests a follow-up: the one of the first keyword its lower-cased text contains |
| ChatInterface.FollowUpsBound | components/chat_interface.py:274-285 | each user message suggests at most one follow-up and answers suggest none |
| ChatInterface.CandidatesRecent | components/chat_interface.py:269 | only the last six messages count; anything said before them changes nothing |
| ChatInterface.NewAsWritten | components/chat_interface.py:301-303 | the first loop as written: at most six candidates, each not among the current suggestions, and every such candidate kept while there is room (a repeated candidate is kept twice) |
| ChatInterface.NewCandidates | components/chat_interface.py:297-303 | the first loop as its "avoid duplicates" comment intends: the same, with no candidate twice |
| ChatInterface.Fill | components/chat_interface.py:305-308 | the second loop extends the kept list with current suggestions not yet kept, up to six, keeping it free of repeats |
| ChatInterface.MergeAsWritten | components/chat_interface.py:297-310 | the list written back: at most six, the new candidates first, every entry a candidate or a current suggestion, all of both present when fewer than six |
| ChatInterface.Merge | components/chat_interface.py:297-310 | the intended list: the same, with no entry twice |
| ChatInterface.NewAsWrittenAgrees | components/chat_interface.py:301-303 | while no candidate comes twice, the first loop as written keeps what the intended one keeps |
| ChatInterface.MergeAsWrittenAgrees | components/chat_interface.py:297-310 | while no candidate comes twice, the written list is the intended one |
| ChatInterface.MergeAsWrittenRepeats | components/chat_interface.py:274-310 | after two answered questions about examples and a suggestion refresh, the list written back starts with "Are there other examples mentioned?" twice, while the intended list has no repeat |
| ChatInterface.ExampleFollowUp | components/chat_interface.py:280-281 | a question about examples suggests "Are there other examples mentioned?" |
| ChatInterface.ExampleHistoryFollowUps | components/chat_interface.py:274-281 | two questions about examples with their answers give that follow-up twice |
| ChatInterface.NewAsWrittenAll | components/chat_interface.py:301-303 | at most six candidates none of which is shown are all kept, repeats included |
| ChatInterface.TopicKeys | components/chat_interface.py:457 | every question's three-word topic key is in the set; at least one key when there is a question, never more keys than questions |
| ChatInterface.TopicKeysOfQuestions | components/chat_interface.py:457 | every key in the set is the three-word key of some question, so the set holds exactly the questions' keys |
| ChatInterface.Engagement | components/chat_interface.py:459 | 'High' exactly past ten messages, 'Medium' exactly from six to ten, 'Low' otherwise |
| ChatInterface.RolesPartition | components/chat_interface.py:448-449 | every message is a user question or an answer, so the two counts add up to the total |
| ChatInterface.Mean | components/chat_interface.py:456 | the mean times the count gives the total; 0 when there are no questions |
| ChatInterface.ChatInsights | components/chat_interface.py:440-466 | `{}` exactly for an empty conversation; otherwise the question count is the number of user messages, the response count the number of assistant messages, the topic count the number of different three-word keys of the user messages, the total and duration the length of the history, with the mean question length and the engagement level |
| ChatInterface.ExchangeInsights | components/chat_interface.py:447-455 | an answered question adds two messages, one question and one answer to the insights |
| ChatInterface.Chat.constructor | components/chat_interface.py:11-20 | a fresh session starts with no messages, no suggestions and no context |
| ChatInterface.Chat.SetContext | components/chat_interface.py:25-31 | the context is recorded only when there is none yet; the history and suggestions are unchanged |
| ChatInterface.Chat.AskQuestion | components/chat_interface.py:163-205 | a blank question changes nothing; otherwise the question is appended, and when the model can be asked its answer follows (rating None) and the suggestions are updated as written; earlier messages are untouched |
| ChatInterface.Chat.UpdateSuggestions | components/chat_interface.py:264-313 | the suggestions become the written merge of the recent follow-ups and general follow-ups with the current list; history and context are unchanged |
| ChatInterface.Chat.RateMessage | components/chat_interface.py:315-319 | an index inside the conversation sets that message's rating and nothing else; any other index changes nothing |
| ChatInterface.Chat.RegenerateAnswer | components/chat_interface.py:326-355 | when 0 < index < length, the message before is a question and the model can be asked, that one message gets the new answer, the new time and no rating; otherwise nothing changes |
| ChatInterface.Chat.ClearChat | components/chat_interface.py:357-360 | no messages, and freshly generated suggestions for the context |
| ChatInterface.Chat.RefreshSuggestions | components/chat_interface.py:434-436 | freshly generated suggestions; history and context unchanged |
| ChatInterface.CollectFollowUps | components/chat_interface.py:274-285 | the loop collects the follow-up of each recent message in order |
| ChatInterface.KeepNew | components/chat_interface.py:301-303 | the first loop computes the candidates kept as written |
| ChatInterface.FillFrom | components/chat_interface.py:306-308 | the second loop computes the filled list |
| SessionManager.DefaultPreferences | core/session_manager.py:262-274 | the default preferences keep a history of fifty sessions |
| SessionManager.Nested | core/session_manager.py:92-97 | a nested read yields the default when the outer key is missing and the inner value or default when the outer value is a dict; it raises when the outer value is not a dict |
| SessionManager.Stamped | core/session_manager.py:29-34 | the stamped session gains exactly session_id, created_at and last_accessed, set from the stamp, and every other field is unchanged |
| SessionManager.HistoryItemOf | core/session_manager.py:296-301 | a history entry carries the session's id and creation time; a session without video_info and settings gets "Unknown Video" and "Comprehensive" |
| SessionManager.HistoryLimit | core/session_manager.py:307-308 | an integer max_session_history is the bound |
| SessionManager.HistoryAfter | core/session_manager.py:292-311 | a failed history entry leaves the history unchanged; with no numeric bound the entry is only inserted at the front |
| SessionManager.AddToHistoryBounded | core/session_manager.py:303-308 | with a positive bound n the new entry comes first, then the newest n-1 earlier entries in order, never more than n in all |
| SessionManager.DefaultHistoryBound | core/session_manager.py:307-308 | with the default preferences the history never holds more than fifty entries |
| SessionManager.InsertDesc | core/session_manager.py:216 | one insertion step of the sort adds exactly that element |
| SessionManager.InsertDescBelow | core/session_manager.py:216 | an insertion step keeps every rank under a common bound |
| SessionManager.InsertDescRanked | core/session_manager.py:216 | inserting into a list ranked highest first keeps it ranked |
| SessionManager.SortDesc | core/session_manager.py:216 | the reverse sort is a permutation of its input |
| SessionManager.SortDescRanked | core/session_manager.py:216 | the reverse sort ranks highest first |
| SessionManager.ByRecency | core/session_manager.py:78-81 | the listing sorted newest first: a permutation of the listing holding exactly the stored files, with modification times never increasing |
| SessionManager.InfoOf | core/session_manager.py:85-105 | a summary exists exactly when video_info and settings are dicts or missing; missing ones give "Unknown Video", "Unknown Channel", "Unknown" and "Comprehensive" |
| SessionManager.Limited | core/session_manager.py:84 | `[:limit]` is a prefix, the whole list for None, at most limit long otherwise |
| SessionManager.RecentSessions | core/session_manager.py:72-107 | never more summaries than a non-negative limit |
| SessionManager.PreferencesListed | core/session_manager.py:78-99 | the preferences file is listed among the sessions as "Unknown Video" |
| SessionManager.MatchOf | core/session_manager.py:323-327 | a summary matches exactly when its title is text and contains the lower-cased query ignoring case, or else its channel does |
| SessionManager.SearchFilters | core/session_manager.py:313-330 | a search that does not raise keeps exactly the matching summaries in order |
| SessionManager.SearchExact | core/session_manager.py:313-330 | a summary is found exactly when it is listed and matches; nothing is found more often than it is listed |
| SessionManager.RaiseSpoils | core/session_manager.py:321-334 | a summary whose title or channel is not text makes the whole search fail |
| SessionManager.Bump | core/session_manager.py:198 | counting one key adds one to the total and at most one entry |
| SessionManager.Tally | core/session_manager.py:195-211 | the counting dict's counts sum to the number of keys |
| SessionManager.BumpCounts | core/session_manager.py:198 | counting k raises k's count by one, leaves every other count and keeps the keys distinct |
| SessionManager.BumpKeys | core/session_manager.py:198 | counting k changes no entry's key but k's, which may be appended |
| SessionManager.TallyCounts | core/session_manager.py:195-211 | the counting dict has distinct keys and counts each key as often as it occurs |
| SessionManager.TallyKeysIn | core/session_manager.py:195-211 | every entry of the counting dict is for a counted key |
| SessionManager.TallyHas | core/session_manager.py:195-211 | every counted key has an entry |
| SessionManager.MostCounted | core/session_manager.py:214-215 | `max(keys, key=counts.get)`: an entry with the highest count, and the first such in insertion order |
| SessionManager.StatsOf | core/session_manager.py:187-226 | with sessions, both totals are the session count, the type distribution sums to it, and at most five channels ranked highest first |
| SessionManager.KindsOf | core/session_manager.py:197 | the summary types of the sessions, one per session in order |
| SessionManager.ChannelsOf | core/session_manager.py:201 | the channels of the sessions, one per session in order |
| SessionManager.SessionStatsOf | core/session_manager.py:173-230 | the fixed zero record exactly when there are no sessions; failure exactly when a summary type or channel cannot be a dict key |
| SessionManager.StatsCounts | core/session_manager.py:195-215 | each summary type is counted as often as sessions have it, the favourite type is had by at least as many sessions as any other, and the most active day has the most sessions |
| SessionManager.StatsTopChannels | core/session_manager.py:201-223 | the channels reported are the first of the channel counts sorted highest first, min(5, distinct channels) of them, each with its true count; a channel left out has no more sessions than the fifth |
| SessionManager.RankedCounts | core/session_manager.py:216-223 | each of the first entries of the ranked channel counts is a counted channel with its number of sessions |
| SessionManager.RankedLeftOut | core/session_manager.py:216 | a channel cut off by `[:5]` has no more sessions than the last one kept |
| SessionManager.StatsActiveDay | core/session_manager.py:204-215 | "None" when no session has a date; otherwise a date of some session that no day beats, and the first in counting order with that count |
| SessionManager.Expired | core/session_manager.py:131-139 | the expired files are exactly those modified strictly before the cutoff |
| SessionManager.SessionStore.constructor | core/session_manager.py:13-23 | an empty page state, with the stored preferences or else the defaults |
| SessionManager.SessionStore.SaveSession | core/session_manager.py:25-45 | the stamped session is stored under its id, becomes current and heads the history; the preferences are unchanged |
| SessionManager.SessionStore.AddToHistory | core/session_manager.py:292-311 | the history becomes the bounded history with the entry in front; nothing else changes |
| SessionManager.SessionStore.LoadSession | core/session_manager.py:51-70 | an unknown id returns nothing and changes nothing; a known one returns its data re-stamped, stored again under the new id, current, and added to the history |
| SessionManager.SessionStore.GetRecentSessions | core/session_manager.py:72-107 | the summaries of the newest files up to the limit, skipping unreadable ones |
| SessionManager.SessionStore.DeleteSession | core/session_manager.py:113-126 | true exactly when the id was stored; afterwards it is not, and nothing else changes |
| SessionManager.SessionStore.CleanupOldSessions | core/session_manager.py:128-151 | exactly the files modified before now less the days are removed, and their number is returned |
| SessionManager.SessionStore.SaveUserPreferences | core/session_manager.py:232-245 | the preferences are written to their file and kept in the page state |
| SessionManager.SessionStore.SearchSessions | core/session_manager.py:313-334 | the matching summaries among all sessions, newest first, cut to the limit; nothing when the search raises |
| SessionManager.SessionStore.GetSessionStats | core/session_manager.py:173-230 | the stats of all listed sessions |
| SessionManager.CollectInfos | core/session_manager.py:84-105 | the loop collects the summaries of the chosen files that can be summarised, in order |
| SessionManager.RemoveExpired | core/session_manager.py:134-147 | the loop leaves exactly the unexpired files and counts the expired ones |
| SessionManager.ExpiredAmongStep | core/session_manager.py:136-141 | each listed file is looked at once; an expired one is removed and counted |
| SessionManager.SearchLoop | core/session_manager.py:317-327 | the search loop computes the search result |
| SessionManager.CountSessions | core/session_manager.py:173-230 | the method computes the session stats |
| SessionManager.TallySessions | core/session_manager.py:191-211 | the loop succeeds exactly when every summary type and channel can be a dict key, and then holds the three counting dicts |
| SessionManager.TallySnoc | core/session_manager.py:198 | counting one more key is one bump |
| SessionManager.SearchStep | core/session_manager.py:321-327 | one more session looked at appends it when it matches and spoils the search when it raises |
| ExportHandler.MimeType | core/export_handler.py:64-75 | the MIME type is one of the table's four; any name whose upper case is not in the table gets text/plain |
| ExportHandler.UpperOfLower | core/export_handler.py:66 | upper-casing undoes lower-casing |
| ExportHandler.UpperOfUpper | core/export_handler.py:66 | upper-casing is idempotent |
| ExportHandler.MimeTypeAnyCase | core/export_handler.py:64-75 | the lookup ignores case |
| ExportHandler.ExportFormatsTyped | core/export_handler.py:68-73 | each of the four export formats the settings allow is in the table: PDF, Word, text and JSON each get their own type |
| ExportHandler.RendererFor | core/export_handler.py:40-62 | PDF exactly when asked for and reportlab is present, Word exactly when asked for and python-docx is present, JSON exactly when asked for, plain text otherwise |
| ExportHandler.ContentType | core/export_handler.py:68-73 | every renderer produces one of the table's types |
| ExportHandler.MimeTypeOfRenderer | core/export_handler.py:40-75 | whenever the requested renderer runs, the offered MIME type is that of the file produced; for formats other than PDF and Word always |
| ExportHandler.FallbackMislabelled | app.py:383-389 | as written, a PDF or Word export without its library produces plain text, yet the download is offered with the PDF or Word type |
| ExportHandler.DownloadType | core/export_handler.py:40-75 | the intended type: the requested format's type when its renderer ran, text/plain after a fallback |
| ExportHandler.Repeat | core/export_handler.py:80 | `c * n`: n copies of c |
| ExportHandler.Section | core/export_handler.py:94-98 | a section is its title, its rule, its body and a blank line |
| ExportHandler.NumberedLines | core/export_handler.py:96-97 | the i-th takeaway is written as "i. takeaway", counting from one |
| ExportHandler.QuoteLines | core/export_handler.py:104-105 | each quote is written in quotation marks after a bullet |
| ExportHandler.BulletLines | core/export_handler.py:112-113 | each action item is written after a bullet |
| ExportHandler.EventLines | core/export_handler.py:297-298 | each timeline event is written as "timestamp: description" |
| ExportHandler.QaLines | core/export_handler.py:305-308 | each question and answer pair takes three lines |
| ExportHandler.OptionalSection | core/export_handler.py:93-98 | a list section appears only when its key is in the results |
| ExportHandler.Banner | core/export_handler.py:80-84 | the banner is five lines |
| ExportHandler.ReportKeysInDict | core/export_handler.py:251-302 | the typed view of the analysis result has an entry exactly where the result dict has the key |
| ExportHandler.FixedKeysInDict | core/export_handler.py:93-114 | a result that did not fail has the six fixed keys |
| ExportHandler.OptionalKeysInDict | core/export_handler.py:259-267 | a result that did not fail has topics and sentiment_analysis exactly when it computed them |
| ExportHandler.ReportValuesInDict | core/export_handler.py:89-113 | where the typed view has an entry, the result dict holds that value |
| ExportHandler.DictValues | core/export_handler.py:89-113 | the values of a result dict that did not fail, key by key |
| ExportHandler.SummaryLines | core/export_handler.py:77-116 | the summary text has MAIN SUMMARY as its sixth line and the main summary, or "Not available", as its eighth |
| ExportHandler.AppendNumbered | core/export_handler.py:96-97 | the loop appends the numbered takeaways |
| ExportHandler.AppendQuotes | core/export_handler.py:104-105 | the loop appends the quoted quotes |
| ExportHandler.AppendBullets | core/export_handler.py:112-113 | the loop appends the bulleted items |
| ExportHandler.CreateSummaryTxt | core/export_handler.py:77-116 | the text summary is its lines joined by line breaks |
| ExportHandler.LinesOfJoin | core/export_handler.py:116 | lines without line breaks come back from splitting their join |
| ExportHandler.NoLines | core/export_handler.py:116 | an empty text gives nothing to any list parser |
| ExportHandler.NumberedReadBack | core/export_handler.py:97 | a numbered line gives its text back to the list parser |
| ExportHandler.TakeawaysReadBack | core/export_handler.py:96-97 | the takeaways rendered and parsed again are the takeaways, up to the parser's ten |
| ExportHandler.BulletReadBack | core/export_handler.py:113 | a bulleted line gives its text back to the list parser |
| ExportHandler.ActionItemsReadBack | core/export_handler.py:112-113 | the action items rendered and parsed again are the items, up to the parser's eight |
| ExportHandler.QuoteReadBack | core/export_handler.py:105 | a quoted line gives its quote back to the quote parser |
| ExportHandler.QuotesReadBack | core/export_handler.py:104-105 | the quotes rendered and parsed again are the quotes, up to the parser's five |
| ExportHandler.QaRunOfLines | core/export_handler.py:305-308 | parsing the rendered pairs leaves all but the last recorded and the last pending |
| ExportHandler.QaReadBack | core/export_handler.py:305-308 | the pairs rendered and parsed again are the pairs, up to the parser's five |
| ExportHandler.TimelineReadBack | core/export_handler.py:297-298 | timeline entries whose stamps are plain numbers, rendered and parsed again by the as-written parser, are the entries, up to ten |
| ExportHandler.IntendedTimelineReadBack | core/export_handler.py:297-298 | with the corrected timeline rule, entries with clock stamps also come back whole, up to ten |
| ExportHandler.TopicsReadBack | core/export_handler.py:263 | topics without commas, joined with ", " and split again, are the topics |
| ExportHandler.WordCount | core/export_handler.py:313 | the number of whitespace-separated words of the text, `''` when it is missing: never more than its characters, and zero exactly when it has no non-space character |
| ExportHandler.ReadingTime | core/export_handler.py:315 | `words // 200 + 1`: at least one minute, and the whole minutes the words fill plus one |
| ExportHandler.VideoInfoLines | core/export_handler.py:239-242 | four lines of video details |
| ExportHandler.StatisticsLines | core/export_handler.py:313-315 | three statistics lines, the last giving the reading time of the word count |
| ExportHandler.QaSection | core/export_handler.py:302-308 | the Q&A section, when present, is a title, a rule and three lines per pair |
| ExportHandler.FullReportHead | core/export_handler.py:229-249 | sixteen lines: the video details at lines 8-11, the executive summary or "Not available" at line 15 |
| ExportHandler.FullReportTail | core/export_handler.py:310-316 | the report closes with the reading time line and a blank line |
| ExportHandler.FullReportLines | core/export_handler.py:227-318 | the full report holds the video details and executive summary at fixed lines and closes with the reading time |
| ExportHandler.AppendEvents | core/export_handler.py:297-298 | the loop appends the event lines |
| ExportHandler.AppendQa | core/export_handler.py:305-308 | the loop appends three lines per pair |
| ExportHandler.CreateFullReportTxt | core/export_handler.py:227-318 | the text report is its lines joined by line breaks |
| ExportHandler.WriteHead | core/export_handler.py:229-249 | writes the report's head |
| ExportHandler.WriteStatistics | core/export_handler.py:310-316 | appends the statistics section |
| ExportHandler.WriteTakeaways | core/export_handler.py:251-257 | appends the takeaways section when the key is there |
| ExportHandler.WriteTopics | core/export_handler.py:259-264 | appends the topics line when the key is there |
| ExportHandler.SentimentSection | core/export_handler.py:266-275 | nothing without sentiment; otherwise the heading, thirty dashes, the positive, neutral and negative shares and the overall score in that order, and a blank line |
| ExportHandler.WriteSentiment | core/export_handler.py:266-275 | appends the sentiment section when the key is there |
| ExportHandler.WriteQuotes | core/export_handler.py:277-283 | appends the quotes section when the key is there |
| ExportHandler.WriteActionItems | core/export_handler.py:285-291 | appends the action items section when the key is there |
| ExportHandler.WriteTimeline | core/export_handler.py:293-299 | appends the timeline section when the key is there |
| ExportHandler.WriteQa | core/export_handler.py:301-308 | appends the Q&A section when the key is there |
| ExportHandler.WriteBody | core/export_handler.py:251-308 | appends the optional sections in order |
| ExportHandler.ExportInfo | core/export_handler.py:121-125 | the export details: the kind, the time and version 1.0, and nothing else |
| ExportHandler.SummaryJson | core/export_handler.py:118-134 | the JSON summary has exactly the export details and six analysis entries |
| ExportHandler.SummaryJsonOf | core/export_handler.py:126-131 | each entry of the JSON summary is the analysis's own value, or the empty text, list or object when missing |
| ExportHandler.StatsJson | core/export_handler.py:330-335 | exactly four statistics, the word count and its reading time among them |
| ExportHandler.InfoJson | core/export_handler.py:328 | the video details as a JSON object with the same keys and values |
| ExportHandler.FullReportJson | core/export_handler.py:320-338 | the JSON report has exactly the export details, the video details, the analysis result unchanged and the transcript statistics |
| ExportHandler.StatisticsAgree | core/export_handler.py:313-333 | the text report's word count and reading time read back as the JSON report's numbers |
| ExportHandler.ExportSummary | core/export_handler.py:40-50 | the summary export runs the renderer the format and libraries select, giving the JSON summary or the text summary |
| ExportHandler.ExportFullReport | core/export_handler.py:52-62 | the full report export runs the selected renderer, giving the JSON report or the text report |
| Prompts.KindName | prompts/templates.py:19-86 | the six recognised summary types name the six dedicated prompts; the fallback prompt has no name |
| Prompts.KindOf | prompts/templates.py:19-91 | any unrecognised summary type selects the fallback prompt; a recognised one selects the prompt of that name |
| Prompts.KindOfName | prompts/templates.py:19-86 | each recognised type selects its own prompt |
| Prompts.InfoField | prompts/templates.py:12-14 | the video detail, or "Unknown" when missing |
| Prompts.SummaryPrompt | prompts/templates.py:5-91 | the prompt opens with the video context and closes with the instructions of the selected summary type |
| Prompts.CommonFront | prompts/templates.py:20-87 | prompts sharing the context differ exactly where their instructions do |
| Prompts.SummaryPromptSelects | prompts/templates.py:5-91 | two summary types give the same prompt exactly when they are equal or both unrecognised |
| Prompts.TakeawaysPrompt | prompts/templates.py:93-129 | the takeaways prompt opens with the common request and closes with the Academic, Business or generic focus |
| Prompts.TakeawaysPromptSelects | prompts/templates.py:93-129 | two summary types give the same takeaways prompt exactly when they are equal or neither is Academic or Business |
| Prompts.ExchangeText | prompts/templates.py:295 | an exchange is written as a Human line and an AI line |
| Prompts.ChatPrompt | prompts/templates.py:288-312 | the chat prompt opens with the transcript and closes with the history block and the closing instructions |
| Prompts.HistoryContextEmpty | prompts/templates.py:291-295 | the history block is empty exactly when there is no history |
| Prompts.ExchangesTextConcat | prompts/templates.py:294-295 | the exchanges are written one after the other in order |
| Prompts.HistoryEndsWithNewest | prompts/templates.py:294-295 | the newest exchange closes the history block |
| Prompts.HistoryDropsOlder | prompts/templates.py:294 | an exchange older than the last five changes nothing |
| Prompts.HistoryContextOf | prompts/templates.py:291-295 | exactly the last min(5, n) exchanges appear after the header, oldest first |
| Decimal.ValueOfGrouped | core/export_handler.py:313-314 | the `{:,}` text of a count, with its commas removed, reads back as the count |
| Decimal.ValueOfNatStr | core/export_handler.py:97 | `str(n)` reads back as `n` |
| JsonValues.ParseIntStr | utils/validators.py:221-231 | `int(str(n))` is `n` for every integer |
| Text.StripSetIdempotent | core/ai_processor.py:114 | `strip` applied twice is `strip` applied once |
| Text.JoinSplit | core/export_handler.py:263 | joining the pieces of a split with the same separator gives the text back |
| Text.SplitJoin | core/export_handler.py:116 | pieces free of the separator, joined and split again, are the pieces |

## Left out

- Calls to the Gemini model are not modelled. Their replies are inputs to the parsers, and a failed call is `None`. Chat answers come from an `ask` function parameter. `chat_with_content`, the summary step and the prompt wording are outside the model; the long prompt texts are a `Wording` parameter record, not literals.
- `_analyze_sentiment` parses floating-point numbers out of a reply with regular expressions. It is not modelled; its four scores are a precomputed `Sentiment` input, with the fallback of 0.33, 0.33, 0.33 and 0.0.
- Urls.QueryPairs, Urls.ParseField and Urls.UrlSplit approximate `urllib.parse` in three ways:
  - `parse_qs` also percent-decodes names and values with `unquote`; the model only turns `+` into a space, so for `https://www.youtube.com/watch?v=%64QW4w9WgXcQ` the model's id is `%64QW4w9WgXcQ` where the source's is `dQw4w9WgXcQ`;
  - `urlsplit` also raises `ValueError` for a bracketed network location that is not a valid IPv6 or IPvFuture address, such as `https://[youtube]/`; the model checks only that the brackets are balanced;
  - the NFKC check that `urlsplit` applies to a non-ASCII network location is not modelled.
- Youtube.FormatTimestamp: takes whole seconds as a `nat`; fractional seconds are not modelled.
- Floating point:
  - transcript start times, durations and the seconds given to `_format_timestamp` are `nat` whole seconds;
  - the percentages and two-decimal score of the full text report come from a `NumberText` formatting parameter.
- Text.Lower, Text.Upper and Text.Title: map ASCII letters only. Python's `lower`, `upper` and `title` also map non-ASCII letters.
- Decimal.DigitSpan: the `\d` of the regular expressions is modelled as the ASCII digits. Python's `\d` also matches other Unicode decimal digits.
- JsonValues.ParseInt: reads optional whitespace, a sign and ASCII digits. Python's `int()` also accepts `_` separators and Unicode digits; those are not modelled.
- Time and identity:
  - `datetime.now()` readings are string or `int` parameters (`Stamp`, `Clock`, `askedAt`), and so are file modification times;
  - md5 session ids are an abstract id in the `Stamp`;
  - `datetime.fromisoformat` is a `parseDate` function parameter.
- `video_info` is a `map<string, string>` in the export and prompt models. The source accepts any dict and formats its values with f-strings.
- File I/O:
  - JSON files are an in-memory map from file name to data and modification time;
  - `glob` order is a listing parameter;
  - a corrupt JSON file and a `json.load` that gives a non-dict are not modelled (every stored file holds a dict).
- Python dict keys are compared by hash. `1` and `True` being one key, and floating-point keys, are not modelled; a summary type or channel that cannot be hashed makes the statistics fail.
- Not modelled:
  - the YouTube Data API calls and transcript fetching (`get_video_info`, `_get_basic_video_info`, `get_transcript`);
  - `chat_with_content`, `_generate_chat_summary` and `_export_chat`;
  - `export_session_history` and `get_session_by_video_url`, which only combine modelled operations with I/O;
  - PDF and Word rendering with reportlab and python-docx. Only the choice of renderer and its MIME type are modelled.
- Streamlit side effects are not modelled: widgets, `st.error` and `st.warning` messages, and `st.rerun`.
- ChatInterface.Chat.RateMessage: the index is a `nat`. The page only passes `enumerate` indexes, so Python's negative indexes (counting from the end) are not modelled.
- Validators.ValidateSessionData: states what an accepted record has, not that every such record is accepted.
- Validators.ValidateTextInput: states only what valid text satisfies. The converse is stated for the default bounds by `Validators.TextInputDefaults`.
- Validators.ValidateUserPreferences: its ensures state the empty-dict cases and that every value is in its allow-list or range. Idempotence is proved in `Validators.PreferencesFixed`; the value each key takes is stated by its helpers (`Validators.AllowedStr`, `Validators.BooleanSetting`, `Validators.HistoryBound`).

## Findings

| source | as written | input that shows it | evidently intended | confidence | as-written member | corrected member |
|---|---|---|---|---|---|---|
| core/ai_processor.py:258-276 | a timeline line is split at its first `:` and kept only when the cleaned text before it is non-empty | `05:30: Introduction`, the format the timeline prompt asks for (prompts/templates.py:218-220), is dropped, so a reply in that format gives no timeline | the timestamp ends at the first colon not followed by a digit, so clock times survive | high, not executed | Analysis.TimelineEventAsWritten, Analysis.TimelineDropsClockLine, Analysis.ClockReplyNoTimeline | Analysis.TimelineEvent, Analysis.ClockLine, Analysis.IntendedTimeline |
| components/chat_interface.py:297-303 | the "avoid duplicates" loop only checks whether a candidate is among the current suggestions, not among those already kept | two questions about examples among the last six messages, after the suggestions were refreshed, put "Are there other examples mentioned?" first twice | no suggestion appears twice | medium, not executed | ChatInterface.MergeAsWritten, ChatInterface.MergeAsWrittenRepeats | ChatInterface.Merge |
| utils/validators.py:47-49 | `re.match(r'^[a-zA-Z0-9_-]{11}$', id)`: `$` also matches before a final line break | `"abcdefghijk\n"` (twelve characters) is accepted | exactly eleven id characters | high, not executed | Validators.ValidateVideoIdAsWritten, Validators.VideoIdTrailingNewline | Validators.ValidateVideoId |
| core/export_handler.py:43-50 | without reportlab or python-docx, a PDF or Word export falls back to plain text, but app.py:383-389 offers the download with `get_mime_type(export_format)` | format `PDF` with reportlab missing: plain text bytes offered as `application/pdf` | the MIME type of what was produced | high, not executed | ExportHandler.FallbackMislabelled | ExportHandler.DownloadType |
