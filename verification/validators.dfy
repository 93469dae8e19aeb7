/**
 * Input validation and normalisation: URL and video-id checks, settings, query and
 * preference normalisation with allow-lists, defaults and clamping, file-name and
 * export-format sanitising, and the structure checks for transcripts and sessions.
 */
module Validators {
  import opened Wrappers
  import opened Text
  import opened Seqs
  import opened JsonValues
  import opened Urls

  // ---------------------------------------------------------------------------------------
  // YouTube URLs
  // ---------------------------------------------------------------------------------------

  const YoutubeDomains: seq<string> :=
    ["youtube.com", "www.youtube.com", "m.youtube.com", "youtu.be", "music.youtube.com"]

  /** The host test as written: one of the listed domains, a subdomain of one, or any host
      mentioning YouTube. */
  predicate HostAllowed(domain: string) {
    (exists d <- YoutubeDomains :: domain == d || EndsWith(domain, "." + d))
    || Contains(domain, "youtube") || Contains(domain, "youtu.be")
  }

  /** What the host test comes down to: the host mentions `youtube` or `youtu.be`. */
  predicate MentionsYoutube(domain: string) {
    Contains(domain, "youtube") || Contains(domain, "youtu.be")
  }

  /** Every listed domain mentions YouTube. */
  lemma ListedDomainMentions(d: string)
    requires d in YoutubeDomains
    ensures MentionsYoutube(d)
  {
    if d == "youtube.com" {
      assert OccursAt(d, "youtube", 0);
    } else if d == "www.youtube.com" {
      assert OccursAt(d, "youtube", 4);
    } else if d == "m.youtube.com" {
      assert OccursAt(d, "youtube", 2);
    } else if d == "youtu.be" {
      assert OccursAt(d, "youtu.be", 0);
    } else {
      assert OccursAt(d, "youtube", 6);
    }
  }

  /** A host that ends with a text mentioning YouTube mentions it too. */
  lemma SuffixMentions(domain: string, suffix: string)
    requires EndsWith(domain, suffix) && MentionsYoutube(suffix)
    ensures MentionsYoutube(domain)
  {
    EndsWithContains(domain, suffix);
    if Contains(suffix, "youtube") {
      ContainsTrans(domain, suffix, "youtube");
    } else {
      ContainsTrans(domain, suffix, "youtu.be");
    }
  }

  /** The allow-list adds nothing to the substring test: every listed domain mentions
      YouTube, and so does every host equal to or ending with one. */
  lemma HostAllowedIsMention(domain: string)
    ensures HostAllowed(domain) <==> MentionsYoutube(domain)
  {
    if exists d <- YoutubeDomains :: domain == d || EndsWith(domain, "." + d) {
      var d :| d in YoutubeDomains && (domain == d || EndsWith(domain, "." + d));
      ListedDomainMentions(d);
      if domain != d {
        assert MentionsYoutube("." + d) by {
          if Contains(d, "youtube") {
            ContainsRight(".", d, "youtube");
          } else {
            ContainsRight(".", d, "youtu.be");
          }
        }
        SuffixMentions(domain, "." + d);
      }
    }
  }

  /** `urlparse(url.strip()).netloc.lower()`, or `None` where `urlparse` raises. */
  function HostOf(url: string): Option<string>
  {
    match UrlSplit(Strip(url))
    case Success(parts) => Some(Lower(parts.netloc))
    case Failure(_) => None
  }

  /** `validate_youtube_url`: a non-empty string whose host passes the host test. */
  function ValidateYoutubeUrl(url: Json): (ok: bool)
    ensures ok <==> url.JStr? && url.s != [] && HostOf(url.s).Some? && MentionsYoutube(HostOf(url.s).value)
  {
    if !url.JStr? || url.s == [] then false
    else
      match HostOf(url.s)
      case Some(domain) => HostAllowedIsMention(domain); HostAllowed(domain)
      case None => false
  }

  /** Printable ASCII without the space: what a URL typed into the page consists of. */
  predicate Visible(s: string) {
    forall c <- s :: ' ' < c <= '~'
  }

  /** No printable ASCII character but the space is whitespace. */
  lemma PrintableNotSpace(c: char)
    requires ' ' < c <= '~'
    ensures c !in Whitespace
  {
  }

  /** A visible string is its own `strip()`. */
  lemma VisibleStrip(s: string)
    requires Visible(s)
    ensures Strip(s) == s
  {
    if s != [] {
      assert s[0] in s && s[|s| - 1] in s;
      PrintableNotSpace(s[0]);
      PrintableNotSpace(s[|s| - 1]);
    }
    StripSetNoop(s, Whitespace);
  }

  /** A URL `scheme://host...` is accepted exactly when its host, lower-cased, mentions
      YouTube. */
  lemma AcceptsByHost(scheme: string, host: string, rest: string)
    requires |scheme| >= 1 && IsLetter(scheme[0]) && forall c <- scheme :: IsSchemeChar(c)
    requires forall c <- host :: c !in {'/', '?', '#', '[', ']'}
    requires rest == [] || rest[0] in {'/', '?', '#'}
    requires Visible(host) && Visible(rest)
    ensures ValidateYoutubeUrl(JStr(scheme + "://" + host + rest)) <==> MentionsYoutube(Lower(host))
  {
    HostOfUrl(scheme, host, rest);
  }

  /** The host of `scheme://host...` is `host`, lower-cased. */
  lemma HostOfUrl(scheme: string, host: string, rest: string)
    requires |scheme| >= 1 && IsLetter(scheme[0]) && forall c <- scheme :: IsSchemeChar(c)
    requires forall c <- host :: c !in {'/', '?', '#', '[', ']'}
    requires rest == [] || rest[0] in {'/', '?', '#'}
    requires Visible(host) && Visible(rest)
    ensures HostOf(scheme + "://" + host + rest) == Some(Lower(host))
  {
    var url := scheme + "://" + host + rest;
    NetlocOf(scheme, host, rest);
    assert Strip(url) == url by {
      VisibleUrl(scheme, host, rest);
      VisibleStrip(url);
    }
  }

  /** A URL made of a scheme and visible parts is visible. */
  lemma VisibleUrl(scheme: string, host: string, rest: string)
    requires forall c <- scheme :: IsSchemeChar(c)
    requires Visible(host) && Visible(rest)
    ensures Visible(scheme + "://" + host + rest)
  {
    forall c | c in scheme + "://" + host + rest ensures ' ' < c <= '~' {
      if c in scheme {
        assert IsSchemeChar(c);
      }
    }
  }

  /** A URL with no scheme and no `//`, such as `youtube.com/watch?v=...`, has an empty host
      and is rejected. */
  lemma RejectsWithoutAuthority(url: string)
    requires ':' !in url && !StartsWith(url, "//") && Visible(url)
    ensures !ValidateYoutubeUrl(JStr(url))
  {
    VisibleStrip(url);
    NoAuthority(url);
    assert Lower("") == "";
  }

  // ---------------------------------------------------------------------------------------
  // Video ids
  // ---------------------------------------------------------------------------------------

  /** The class `[a-zA-Z0-9_-]`. */
  predicate IsIdChar(c: char) {
    IsLetter(c) || IsDigit(c) || c == '_' || c == '-'
  }

  /** Eleven characters of the id class and nothing else. */
  predicate IsVideoIdText(s: string) {
    |s| == 11 && forall c <- s :: IsIdChar(c)
  }

  /** Where the regular-expression anchor `$` matches: at the end, or before a final
      line break. */
  predicate DollarAt(s: string, i: nat) {
    i == |s| || (i + 1 == |s| && s[i] == '\n')
  }

  /** `validate_video_id` as written: `re.match(r'^[a-zA-Z0-9_-]{11}$', video_id)`. */
  function ValidateVideoIdAsWritten(v: Json): (ok: bool)
    ensures ok <==> v.JStr? && (IsVideoIdText(v.s) || (|v.s| == 12 && IsVideoIdText(v.s[..11]) && v.s[11] == '\n'))
  {
    v.JStr? && v.s != [] && |v.s| >= 11 && IsVideoIdText(v.s[..11]) && DollarAt(v.s, 11)
  }

  /** The id check as intended: exactly eleven id characters. */
  predicate ValidateVideoId(v: Json) {
    v.JStr? && IsVideoIdText(v.s)
  }

  /** The anchor lets an id followed by a line break through. */
  lemma VideoIdTrailingNewline()
    ensures ValidateVideoIdAsWritten(JStr("dQw4w9WgXcQ\n"))
    ensures !ValidateVideoId(JStr("dQw4w9WgXcQ\n"))
  {
    assert "dQw4w9WgXcQ\n"[..11] == "dQw4w9WgXcQ";
  }

  /** The two checks differ in that one case only. */
  lemma VideoIdChecksAgree(v: Json)
    ensures ValidateVideoId(v) ==> ValidateVideoIdAsWritten(v)
    ensures ValidateVideoIdAsWritten(v) ==>
              ValidateVideoId(v) || (|v.s| == 12 && v.s[11] == '\n' && ValidateVideoId(JStr(v.s[..11])))
  {
    if v.JStr? && |v.s| == 11 {
      assert v.s[..11] == v.s;
    }
  }

  // ---------------------------------------------------------------------------------------
  // Analysis settings
  // ---------------------------------------------------------------------------------------

  const SummaryTypes: seq<string> :=
    ["Comprehensive", "Brief", "Bullet Points", "Academic", "Business", "Creative"]

  const Languages: seq<string> :=
    ["English", "Spanish", "French", "German", "Chinese", "Japanese", "Portuguese", "Italian",
     "Russian", "Arabic"]

  const ExportFormats: seq<string> := ["PDF", "Word Document", "Text File", "JSON"]

  /** `v if v in allowed else default`, for a list of strings. */
  function AllowedStr(v: Json, allowed: seq<string>, default: string): (r: string)
    requires default in allowed
    ensures r in allowed
    ensures InStrings(v, allowed) ==> r == v.s
    ensures !InStrings(v, allowed) ==> r == default
  {
    if InStrings(v, allowed) then v.s else default
  }

  /** A boolean setting: `bool(v)` for booleans, integers and strings, the default for
      anything else. */
  function BooleanSetting(v: Json, default: bool): (r: bool)
    ensures v.JBool? ==> r == v.b
    ensures v.JInt? ==> r == (v.i != 0)
    ensures v.JStr? ==> r == (v.s != [])
    ensures !(v.JBool? || v.JInt? || v.JStr?) ==> r == default
  {
    if v.JBool? || v.JInt? || v.JStr? then Truthy(v) else default
  }

  /** The dict `validate_analysis_settings` builds: always these six keys. */
  datatype AnalysisSettings = AnalysisSettings(
    summaryType: string,
    language: string,
    includeTimestamps: bool,
    includeSentiment: bool,
    includeTopics: bool,
    exportFormat: string)

  /** Every string value of the settings is in its allow-list. */
  predicate SettingsValid(r: AnalysisSettings) {
    r.summaryType in SummaryTypes && r.language in Languages && r.exportFormat in ExportFormats
  }

  /** `validate_analysis_settings`: each value is kept when it is allowed and replaced by
      its default otherwise. */
  function ValidateAnalysisSettings(settings: map<string, Json>): (r: AnalysisSettings)
    ensures SettingsValid(r)
    ensures "summary_type" in settings && InStrings(settings["summary_type"], SummaryTypes) ==>
              r.summaryType == settings["summary_type"].s
    ensures "language" in settings && InStrings(settings["language"], Languages) ==>
              r.language == settings["language"].s
    ensures "export_format" in settings && InStrings(settings["export_format"], ExportFormats) ==>
              r.exportFormat == settings["export_format"].s
    ensures "summary_type" in settings && !InStrings(settings["summary_type"], SummaryTypes) ==>
              r.summaryType == "Comprehensive"
    ensures "language" in settings && !InStrings(settings["language"], Languages) ==>
              r.language == "English"
    ensures "export_format" in settings && !InStrings(settings["export_format"], ExportFormats) ==>
              r.exportFormat == "PDF"
    ensures "include_timestamps" in settings && settings["include_timestamps"].JBool? ==>
              r.includeTimestamps == settings["include_timestamps"].b
    ensures "include_sentiment" in settings && settings["include_sentiment"].JBool? ==>
              r.includeSentiment == settings["include_sentiment"].b
    ensures "include_topics" in settings && settings["include_topics"].JBool? ==>
              r.includeTopics == settings["include_topics"].b
    ensures "summary_type" !in settings ==> r.summaryType == "Comprehensive"
    ensures "language" !in settings ==> r.language == "English"
    ensures "export_format" !in settings ==> r.exportFormat == "PDF"
    ensures "include_timestamps" !in settings ==> r.includeTimestamps
    ensures "include_sentiment" !in settings ==> r.includeSentiment
    ensures "include_topics" !in settings ==> r.includeTopics
  {
    AnalysisSettings(
      AllowedStr(Get(settings, "summary_type", JStr("Comprehensive")), SummaryTypes, "Comprehensive"),
      AllowedStr(Get(settings, "language", JStr("English")), Languages, "English"),
      BooleanSetting(Get(settings, "include_timestamps", JBool(true)), true),
      BooleanSetting(Get(settings, "include_sentiment", JBool(true)), true),
      BooleanSetting(Get(settings, "include_topics", JBool(true)), true),
      AllowedStr(Get(settings, "export_format", JStr("PDF")), ExportFormats, "PDF"))
  }

  /** Settings written back as the dict they stand for. */
  function SettingsDict(r: AnalysisSettings): map<string, Json> {
    map[
      "summary_type" := JStr(r.summaryType),
      "language" := JStr(r.language),
      "include_timestamps" := JBool(r.includeTimestamps),
      "include_sentiment" := JBool(r.includeSentiment),
      "include_topics" := JBool(r.includeTopics),
      "export_format" := JStr(r.exportFormat)
    ]
  }

  /** Reading each key of the written-back dict gives the field it was written from. */
  lemma SettingsDictLookups(r: AnalysisSettings)
    ensures var d := SettingsDict(r);
            && Get(d, "summary_type", JStr("Comprehensive")) == JStr(r.summaryType)
            && Get(d, "language", JStr("English")) == JStr(r.language)
            && Get(d, "include_timestamps", JBool(true)) == JBool(r.includeTimestamps)
            && Get(d, "include_sentiment", JBool(true)) == JBool(r.includeSentiment)
            && Get(d, "include_topics", JBool(true)) == JBool(r.includeTopics)
            && Get(d, "export_format", JStr("PDF")) == JStr(r.exportFormat)
  {
  }

  /** Valid settings are their own validation, so validating twice is validating once. */
  lemma AnalysisSettingsFixed(r: AnalysisSettings)
    requires SettingsValid(r)
    ensures ValidateAnalysisSettings(SettingsDict(r)) == r
  {
    SettingsDictLookups(r);
  }

  // ---------------------------------------------------------------------------------------
  // Structure checks
  // ---------------------------------------------------------------------------------------

  /** `validate_transcript_data`: a non-blank text and a list of segment dicts, each with a
      timestamp, a text and a start time. */
  predicate ValidateTranscriptData(v: Json)
    ensures ValidateTranscriptData(v) ==>
      v.JObj? && {"text", "segments"} <= v.fields.Keys && v.fields["text"].JStr?
      && (exists c <- v.fields["text"].s :: !IsSpace(c)) && v.fields["segments"].JList?
  {
    v.JObj? && "text" in v.fields && "segments" in v.fields
    && v.fields["text"].JStr? && (StripEmpty(v.fields["text"].s); Strip(v.fields["text"].s) != [])
    && v.fields["segments"].JList?
    && forall seg <- v.fields["segments"].items ::
         seg.JObj? && "timestamp" in seg.fields && "text" in seg.fields && "start_time" in seg.fields
  }

  /** A transcript record validates exactly when its text is not blank and each of its
      segments is a dict with a timestamp, a text and a start time; any other keys are
      ignored. */
  lemma TranscriptDataShape(text: string, segments: seq<Json>, others: map<string, Json>)
    ensures var record := others["text" := JStr(text)]["segments" := JList(segments)];
      ValidateTranscriptData(JObj(record))
      <==> (Strip(text) != [] && forall seg <- segments :: seg.JObj? && {"timestamp", "text", "start_time"} <= seg.fields.Keys)
  {
    var record := others["text" := JStr(text)]["segments" := JList(segments)];
    assert record["text"] == JStr(text) && record["segments"] == JList(segments);
  }

  /** `validate_session_data`: a YouTube URL and dicts of video information, analysis and
      settings. */
  function ValidateSessionData(v: Json): (ok: bool)
    ensures ok ==> v.JObj? && "url" in v.fields && ValidateYoutubeUrl(v.fields["url"])
    ensures ok ==> "video_info" in v.fields && "analysis" in v.fields && "settings" in v.fields
    ensures ok ==> v.fields["video_info"].JObj? && v.fields["analysis"].JObj? && v.fields["settings"].JObj?
  {
    v.JObj? && "url" in v.fields && "video_info" in v.fields && "analysis" in v.fields
    && "settings" in v.fields
    && ValidateYoutubeUrl(v.fields["url"])
    && v.fields["video_info"].JObj? && v.fields["analysis"].JObj? && v.fields["settings"].JObj?
  }

  // ---------------------------------------------------------------------------------------
  // File names
  // ---------------------------------------------------------------------------------------

  const InvalidFilenameChars: set<char> := {'<', '>', ':', '"', '/', '\\', '|', '?', '*'}

  const MaxFilenameLength := 100

  /** `re.sub(r'[<>:"/\\|?*]', '_', s)`. */
  function ReplaceInvalid(s: string): (r: string)
    ensures |r| == |s|
    ensures forall i | 0 <= i < |s| :: r[i] == if s[i] in InvalidFilenameChars then '_' else s[i]
    ensures forall c <- r :: c !in InvalidFilenameChars
  {
    var r := seq(|s|, i requires 0 <= i < |s| => if s[i] in InvalidFilenameChars then '_' else s[i]);
    assert forall i | 0 <= i < |r| :: r[i] !in InvalidFilenameChars;
    r
  }

  /** `sanitize_filename`. */
  function SanitizeFilename(v: Json): (r: string)
    ensures 1 <= |r| <= MaxFilenameLength
    ensures forall c <- r :: c !in InvalidFilenameChars
    ensures r[0] != ' ' && r[0] != '.'
    ensures !v.JStr? || v.s == [] ==> r == "unknown_file"
  {
    if !v.JStr? || v.s == [] then "unknown_file"
    else
      var replaced := ReplaceInvalid(v.s);
      var stripped := StripSet(replaced, {' ', '.'});
      assert forall c <- stripped :: c !in InvalidFilenameChars by {
        StripSetKeeps(replaced, {' ', '.'});
      }
      var cut := Take(stripped, MaxFilenameLength);
      if cut == [] then "unknown_file" else cut
  }

  /** A name that is already safe is kept as it is. */
  lemma SanitizeKeepsSafeName(s: string)
    requires 1 <= |s| <= MaxFilenameLength
    requires forall c <- s :: c !in InvalidFilenameChars
    requires s[0] !in {' ', '.'} && s[|s| - 1] !in {' ', '.'}
    ensures SanitizeFilename(JStr(s)) == s
  {
    assert ReplaceInvalid(s) == s;
    StripSetNoop(s, {' ', '.'});
  }

  // ---------------------------------------------------------------------------------------
  // Export formats
  // ---------------------------------------------------------------------------------------

  /** The fuzzy rule, applied to the lower-cased name: `pdf`, then `word`/`docx`/`doc`,
      then `json`, else plain text. */
  function FuzzyFormat(lower: string): (r: string)
    ensures r in ExportFormats
  {
    if Contains(lower, "pdf") then "PDF"
    else if Contains(lower, "word") || Contains(lower, "docx") || Contains(lower, "doc") then "Word Document"
    else if Contains(lower, "json") then "JSON"
    else "Text File"
  }

  /** `validate_export_format`. */
  function ValidateExportFormat(v: Json): (r: string)
    ensures r in ExportFormats
    ensures !v.JStr? || v.s == [] ==> r == "Text File"
  {
    if !v.JStr? || v.s == [] then "Text File" else FormatOfName(Strip(v.s))
  }

  /** A stripped format name: kept when its title-cased form is one of the four, otherwise
      the fuzzy rule on its lower-cased form. */
  function FormatOfName(t: string): (r: string)
    ensures r in ExportFormats
  {
    var name := Title(t);
    if name in ExportFormats then name else FuzzyFormat(Lower(name))
  }

  /** The fuzzy rule maps each of the four names, lower-cased, back to itself. */
  lemma FuzzyOfFormat(f: string)
    requires f in ExportFormats
    ensures FuzzyFormat(Lower(f)) == f
  {
    if f == "PDF" {
      assert Lower(f) == "pdf";
      assert OccursAt("pdf", "pdf", 0);
    } else if f == "JSON" {
      assert Lower(f) == "json";
      FuzzyJson();
    } else if f == "Word Document" {
      assert Lower(f) == "word document";
      FuzzyWordDocument();
    } else {
      assert Lower(f) == "text file";
      FuzzyTextFile();
    }
  }

  lemma FuzzyJson()
    ensures FuzzyFormat("json") == "JSON"
  {
    NotContainsFirst("json", "pdf");
    NotContainsFirst("json", "word");
    NotContainsFirst("json", "docx");
    NotContainsFirst("json", "doc");
    assert OccursAt("json", "json", 0);
  }

  lemma FuzzyWordDocument()
    ensures FuzzyFormat("word document") == "Word Document"
  {
    NotContainsFirst("word document", "pdf");
    assert OccursAt("word document", "word", 0);
  }

  lemma FuzzyTextFile()
    ensures FuzzyFormat("text file") == "Text File"
  {
    NotContainsFirst("text file", "pdf");
    NotContainsFirst("text file", "word");
    NotContainsFirst("text file", "docx");
    NotContainsFirst("text file", "doc");
    NotContainsFirst("text file", "json");
  }

  /** The direct match never decides anything the fuzzy rule would not: a name's format
      depends only on its lower-cased form. */
  lemma FormatOfNameIsFuzzy(t: string)
    ensures FormatOfName(t) == FuzzyFormat(Lower(t))
  {
    LowerOfTitle(t, false);
    var name := Title(t);
    if name in ExportFormats {
      FuzzyOfFormat(name);
    }
  }

  /** So the export format of a non-empty string is the fuzzy rule applied to its stripped,
      lower-cased form. */
  lemma ExportFormatIsFuzzy(s: string)
    requires s != []
    ensures ValidateExportFormat(JStr(s)) == FuzzyFormat(Lower(Strip(s)))
  {
    FormatOfNameIsFuzzy(Strip(s));
  }

  /** Each of the four format names is kept as it is. */
  lemma ExportFormatFixed(f: string)
    requires f in ExportFormats
    ensures ValidateExportFormat(JStr(f)) == f
  {
    assert f[0] !in Whitespace && f[|f| - 1] !in Whitespace;
    StripSetNoop(f, Whitespace);
    FormatOfNameIsFuzzy(f);
    FuzzyOfFormat(f);
  }

  // ---------------------------------------------------------------------------------------
  // Text input and content safety
  // ---------------------------------------------------------------------------------------

  /** `validate_text_input(text, min_length, max_length)`. */
  function ValidateTextInput(v: Json, minLength: int, maxLength: int): (ok: bool)
    ensures ok ==> v.JStr? && minLength <= |Strip(v.s)| <= maxLength
  {
    v.JStr? && v.s != [] && minLength <= |Strip(v.s)| <= maxLength
  }

  /** With the default bounds, text is valid exactly when it has a non-whitespace character
      and at most 10000 characters once stripped. */
  lemma TextInputDefaults(v: Json)
    ensures ValidateTextInput(v, 1, 10000) <==>
              v.JStr? && (exists c <- v.s :: !IsSpace(c)) && |Strip(v.s)| <= 10000
  {
    if v.JStr? {
      StripEmpty(v.s);
    }
  }

  const MaxContentLength := 1000000

  const SuspiciousLiterals: seq<string> := ["javascript:", "data:text/html", "vbscript:"]

  /** A match of `<script[^>]*>` starting at `i`. */
  predicate ScriptTagAt(t: string, i: nat) {
    OccursAt(t, "<script", i) && '>' in t[i + 7..]
  }

  predicate HasScriptTag(t: string) {
    exists i | 0 <= i <= |t| :: ScriptTagAt(t, i)
  }

  /** `is_safe_content`: a non-empty string of at most a million characters in which no
      suspicious pattern occurs, in any letter case. */
  predicate IsSafeContent(v: Json)
    ensures IsSafeContent(v) ==> v.JStr? && 0 < |v.s| <= MaxContentLength
  {
    v.JStr? && v.s != [] && |v.s| <= MaxContentLength
    && var t := Lower(v.s);
       !HasScriptTag(t) && forall p <- SuspiciousLiterals :: !Contains(t, p)
  }

  /** Lower-casing commutes with slicing. */
  lemma LowerSlice(s: string, lo: nat, hi: nat)
    requires lo <= hi <= |s|
    ensures Lower(s[lo..hi]) == Lower(s)[lo..hi]
  {
  }

  /** A script tag found in a part of a text is found in the text. */
  lemma ScriptTagSlice(t: string, lo: nat, hi: nat)
    requires lo <= hi <= |t| && HasScriptTag(t[lo..hi])
    ensures HasScriptTag(t)
  {
    var u := t[lo..hi];
    var i :| 0 <= i <= |u| && ScriptTagAt(u, i);
    assert |"<script"| == 7 && i + 7 <= |u|;
    var inWhole, inPart := t[lo + i..lo + i + 7], u[i..i + 7];
    forall k | 0 <= k < 7 ensures inWhole[k] == inPart[k] {
      assert u[i + k] == t[lo + i + k];
    }
    assert inWhole == inPart;
    var k :| 0 <= k < |u[i + 7..]| && u[i + 7..][k] == '>';
    assert t[lo + i + 7..][k] == '>';
    assert ScriptTagAt(t, lo + i);
  }

  /** Any non-empty part of safe content is safe: every pattern found in the part would be
      found in the whole. */
  lemma SafeContentSlice(s: string, lo: nat, hi: nat)
    requires lo < hi <= |s| && IsSafeContent(JStr(s))
    ensures IsSafeContent(JStr(s[lo..hi]))
  {
    var t := Lower(s);
    LowerSlice(s, lo, hi);
    forall p <- SuspiciousLiterals ensures !Contains(t[lo..hi], p) {
      if Contains(t[lo..hi], p) {
        ContainsSlice(t, lo, hi, p);
      }
    }
    if HasScriptTag(t[lo..hi]) {
      ScriptTagSlice(t, lo, hi);
    }
  }

  /** Text with a `<script>` tag in any letter case is unsafe. */
  lemma ScriptTagUnsafe(s: string)
    requires Contains(Lower(s), "<script>")
    ensures !IsSafeContent(JStr(s))
  {
    var t := Lower(s);
    var i :| 0 <= i <= |t| - 8 && OccursAt(t, "<script>", i);
    assert t[i..i + 7] == t[i..i + 8][..7];
    assert t[i + 7..][0] == t[i + 7] == '>';
    assert ScriptTagAt(t, i);
  }

  /** Text containing `javascript:`, `data:text/html` or `vbscript:` is unsafe; these
      patterns have no upper-case letters, so they are found after lower-casing. */
  lemma SuspiciousUnsafe(s: string, p: string)
    requires p in SuspiciousLiterals && Contains(s, p)
    ensures !IsSafeContent(JStr(s))
  {
    var i :| 0 <= i <= |s| - |p| && OccursAt(s, p, i);
    var t := Lower(s);
    LowerSlice(s, i, i + |p|);
    assert Lower(p) == p by {
      forall k | 0 <= k < |p| ensures !IsUpper(p[k]) {
      }
    }
    assert OccursAt(t, p, i);
  }

  // ---------------------------------------------------------------------------------------
  // Query parameters
  // ---------------------------------------------------------------------------------------

  const Sorts: seq<string> := ["created_at", "title", "channel", "duration"]

  const Orders: seq<string> := ["asc", "desc"]

  const MaxQueryLength := 200

  /** The limit: `int(v)` clamped to [1, 100], or 10 where `int()` raises. */
  function QueryLimit(v: Json): (n: int)
    ensures 1 <= n <= 100
    ensures PyInt(v).None? ==> n == 10
    ensures PyInt(v).Some? ==> n == Clamp(PyInt(v).value, 1, 100)
  {
    match PyInt(v)
    case Some(n) => Clamp(n, 1, 100)
    case None => 10
  }

  /** The dict `validate_query_parameters` builds: always these four keys. */
  datatype QueryParameters = QueryParameters(limit: int, query: string, sort: string, order: string)

  /** `validate_query_parameters`. */
  function ValidateQueryParameters(params: map<string, Json>): (r: QueryParameters)
    ensures 1 <= r.limit <= 100
    ensures |r.query| <= MaxQueryLength
    ensures r.sort in Sorts && r.order in Orders
    ensures "query" in params && params["query"].JStr? ==>
              var t := Strip(params["query"].s);
              |r.query| == (if |t| < MaxQueryLength then |t| else MaxQueryLength) && r.query == t[..|r.query|]
    ensures "query" !in params || !params["query"].JStr? ==> r.query == ""
  {
    var query := Get(params, "query", JStr(""));
    QueryParameters(
      QueryLimit(Get(params, "limit", JInt(10))),
      if query.JStr? then Take(Strip(query.s), MaxQueryLength) else "",
      AllowedStr(Get(params, "sort", JStr("created_at")), Sorts, "created_at"),
      AllowedStr(Get(params, "order", JStr("desc")), Orders, "desc"))
  }

  /** A limit written as decimal text is read back and clamped. */
  lemma LimitFromText(params: map<string, Json>, n: int)
    requires "limit" in params && params["limit"] == JStr(IntStr(n))
    ensures ValidateQueryParameters(params).limit == Clamp(n, 1, 100)
  {
    ParseIntStr(n);
  }

  // ---------------------------------------------------------------------------------------
  // User preferences
  // ---------------------------------------------------------------------------------------

  const PreferenceLanguages: seq<string> := ["English", "Spanish", "French", "German", "Chinese", "Japanese"]

  const BooleanPreferences: seq<string> :=
    ["include_timestamps", "include_sentiment", "include_topics", "auto_save_sessions"]

  const Themes: seq<string> := ["light", "dark"]

  /** The history bound: `int(v)` clamped to [1, 500], or 50 where `int()` raises. */
  function HistoryBound(v: Json): (n: int)
    ensures 1 <= n <= 500
    ensures PyInt(v).None? ==> n == 50
    ensures PyInt(v).Some? ==> n == Clamp(PyInt(v).value, 1, 500)
  {
    match PyInt(v)
    case Some(n) => Clamp(n, 1, 500)
    case None => 50
  }

  /** The dict `validate_user_preferences` builds: always these nine keys. */
  datatype Preferences = Preferences(
    defaultSummaryType: string,
    defaultLanguage: string,
    includeTimestamps: bool,
    includeSentiment: bool,
    includeTopics: bool,
    autoSaveSessions: bool,
    exportFormat: string,
    maxSessionHistory: int,
    theme: string)

  /** `validate_user_preferences`: `None` stands for the empty dict returned for an empty
      or non-dict argument. */
  function ValidateUserPreferences(prefs: Json): (r: Option<Preferences>)
    ensures r.None? <==> !prefs.JObj? || prefs.fields == map[]
    ensures r.Some? ==> PreferencesValid(r.value)
  {
    if !prefs.JObj? || prefs.fields == map[] then None
    else
      var p := prefs.fields;
      Some(Preferences(
        AllowedStr(Get(p, "default_summary_type", JStr("Comprehensive")), SummaryTypes, "Comprehensive"),
        AllowedStr(Get(p, "default_language", JStr("English")), PreferenceLanguages, "English"),
        Truthy(Get(p, "include_timestamps", JBool(true))),
        Truthy(Get(p, "include_sentiment", JBool(true))),
        Truthy(Get(p, "include_topics", JBool(true))),
        Truthy(Get(p, "auto_save_sessions", JBool(true))),
        ValidateExportFormat(Get(p, "export_format", JStr("PDF"))),
        HistoryBound(Get(p, "max_session_history", JInt(50))),
        AllowedStr(Get(p, "theme", JStr("light")), Themes, "light")))
  }

  /** Every value of validated preferences is in its allow-list or range. */
  predicate PreferencesValid(r: Preferences) {
    r.defaultSummaryType in SummaryTypes
    && r.defaultLanguage in PreferenceLanguages
    && r.exportFormat in ExportFormats
    && 1 <= r.maxSessionHistory <= 500
    && r.theme in Themes
  }

  /** Preferences written back as the dict they stand for. */
  function PreferencesDict(r: Preferences): map<string, Json> {
    map[
      "default_summary_type" := JStr(r.defaultSummaryType),
      "default_language" := JStr(r.defaultLanguage),
      "include_timestamps" := JBool(r.includeTimestamps),
      "include_sentiment" := JBool(r.includeSentiment),
      "include_topics" := JBool(r.includeTopics),
      "auto_save_sessions" := JBool(r.autoSaveSessions),
      "export_format" := JStr(r.exportFormat),
      "max_session_history" := JInt(r.maxSessionHistory),
      "theme" := JStr(r.theme)
    ]
  }

  /** Reading each key of the written-back dict gives the field it was written from. */
  lemma PreferencesDictLookups(r: Preferences)
    ensures var d := PreferencesDict(r);
            && Get(d, "default_summary_type", JStr("Comprehensive")) == JStr(r.defaultSummaryType)
            && Get(d, "default_language", JStr("English")) == JStr(r.defaultLanguage)
            && Get(d, "include_timestamps", JBool(true)) == JBool(r.includeTimestamps)
            && Get(d, "include_sentiment", JBool(true)) == JBool(r.includeSentiment)
            && Get(d, "include_topics", JBool(true)) == JBool(r.includeTopics)
            && Get(d, "auto_save_sessions", JBool(true)) == JBool(r.autoSaveSessions)
            && Get(d, "export_format", JStr("PDF")) == JStr(r.exportFormat)
            && Get(d, "max_session_history", JInt(50)) == JInt(r.maxSessionHistory)
            && Get(d, "theme", JStr("light")) == JStr(r.theme)
  {
  }

  /** Valid preferences are their own validation, so validating twice is validating once. */
  lemma PreferencesFixed(r: Preferences)
    requires PreferencesValid(r)
    ensures ValidateUserPreferences(JObj(PreferencesDict(r))) == Some(r)
  {
    var d := PreferencesDict(r);
    PreferencesDictLookups(r);
    assert d != map[] by {
      assert "theme" in d;
    }
    var v := ValidateUserPreferences(JObj(d)).value;
    assert v.exportFormat == r.exportFormat by {
      ExportFormatFixed(r.exportFormat);
    }
    assert v.maxSessionHistory == r.maxSessionHistory;
    assert v.defaultSummaryType == r.defaultSummaryType;
    assert v.defaultLanguage == r.defaultLanguage;
    assert v.theme == r.theme;
  }
}
