/**
 * The prompts the analyzer sends with a transcript: the summary prompt for each summary
 * type, the takeaways prompt, and the chat prompt that carries the recent conversation.
 *
 * The fixed instruction prose of the templates is a `Wording` value: the model keeps where
 * each fixed text goes, which one each summary type selects, and how the video details
 * and the conversation are spliced in, but not the sentences themselves.
 */
module Prompts {
  import opened Text
  import opened Seqs

  /** The summary types that have an instruction text of their own. */
  const SummaryKinds: seq<string> := ["Comprehensive", "Brief", "Bullet Points", "Academic", "Business", "Creative"]

  /** Which instruction text a summary prompt ends with. */
  datatype SummaryKind = Comprehensive | Brief | BulletPoints | Academic | Business | Creative | Balanced

  /** The fixed prose of the templates. */
  datatype Wording = Wording(
    intro: string,              // the analyst role, up to the title label
    channelLabel: string,
    durationLabel: string,
    languageLabel: string,
    baseClose: string,
    summaryText: SummaryKind -> string,
    takeawaysBase: string,
    academicFocus: string,
    businessFocus: string,
    genericFocus: string,
    historyHeader: string,      // "Previous conversation:" with its line breaks
    chatHead: string,           // the assistant role and guidelines, up to the transcript
    chatMiddle: string,
    chatTail: string)

  // ---------------------------------------------------------------------------------------
  // Summary prompt.
  // ---------------------------------------------------------------------------------------

  /** The `summary_type` value that selects each kind; `Balanced` is what any other value
      selects, and it answers to no name of its own. */
  function KindName(k: SummaryKind): (name: string)
    ensures k != Balanced <==> name in SummaryKinds
  {
    match k
    case Comprehensive => "Comprehensive"
    case Brief => "Brief"
    case BulletPoints => "Bullet Points"
    case Academic => "Academic"
    case Business => "Business"
    case Creative => "Creative"
    case Balanced => ""
  }

  /** The `if`/`elif` chain of `get_summary_prompt`. */
  function KindOf(summaryType: string): (k: SummaryKind)
    ensures k == Balanced <==> summaryType !in SummaryKinds
    ensures k != Balanced ==> KindName(k) == summaryType
  {
    if summaryType == "Comprehensive" then Comprehensive
    else if summaryType == "Brief" then Brief
    else if summaryType == "Bullet Points" then BulletPoints
    else if summaryType == "Academic" then Academic
    else if summaryType == "Business" then Business
    else if summaryType == "Creative" then Creative
    else Balanced
  }

  /** Each named kind is selected by its own name. */
  lemma KindOfName(k: SummaryKind)
    requires k != Balanced
    ensures KindOf(KindName(k)) == k
  {
  }

  /** `video_info.get(key, 'Unknown')`. */
  function InfoField(info: map<string, string>, key: string): (v: string)
    ensures key in info ==> v == info[key]
    ensures key !in info ==> v == "Unknown"
  {
    if key in info then info[key] else "Unknown"
  }

  /** The opening every summary prompt shares: title, channel and duration of the video,
      and the language to write in. */
  function BaseContext(w: Wording, title: string, channel: string, duration: string, language: string): string
  {
    w.intro + title + w.channelLabel + channel + w.durationLabel + duration
      + w.languageLabel + language + w.baseClose
  }

  /** The base context as `get_summary_prompt` fills it in from `video_info`. */
  function VideoContext(w: Wording, language: string, info: map<string, string>): string
  {
    BaseContext(w, InfoField(info, "title"), InfoField(info, "channel"), InfoField(info, "duration"), language)
  }

  /** `get_summary_prompt(summary_type, language, video_info)`. */
  function SummaryPrompt(w: Wording, summaryType: string, language: string, info: map<string, string>): (r: string)
    ensures StartsWith(r, VideoContext(w, language, info))
    ensures summaryType in SummaryKinds ==> EndsWith(r, w.summaryText(KindOf(summaryType)))
    ensures summaryType !in SummaryKinds ==> EndsWith(r, w.summaryText(Balanced))
  {
    var base := VideoContext(w, language, info);
    ConcatStartsWith(base, w.summaryText(KindOf(summaryType)));
    ConcatEndsWith(base, w.summaryText(KindOf(summaryType)));
    base + w.summaryText(KindOf(summaryType))
  }

  /** The seven instruction texts are different from one another, as in the templates. */
  predicate DistinctSummaryTexts(w: Wording) {
    forall k1: SummaryKind, k2: SummaryKind :: w.summaryText(k1) == w.summaryText(k2) ==> k1 == k2
  }

  /** Two texts with a common front are equal exactly when what follows it is. */
  lemma CommonFront(front: string, a: string, b: string)
    ensures front + a == front + b <==> a == b
  {
    if front + a == front + b {
      assert a == (front + a)[|front|..];
      assert b == (front + b)[|front|..];
    }
  }

  /** Each of the six recognised summary types gives a prompt of its own, and every other
      value gives the same balanced prompt. */
  lemma SummaryPromptSelects(w: Wording, a: string, b: string, language: string, info: map<string, string>)
    requires DistinctSummaryTexts(w)
    ensures SummaryPrompt(w, a, language, info) == SummaryPrompt(w, b, language, info) <==>
            a == b || (a !in SummaryKinds && b !in SummaryKinds)
  {
    CommonFront(VideoContext(w, language, info), w.summaryText(KindOf(a)), w.summaryText(KindOf(b)));
    if KindOf(a) == KindOf(b) && KindOf(a) != Balanced {
      assert a == KindName(KindOf(a)) == b;
    }
  }

  // ---------------------------------------------------------------------------------------
  // Takeaways prompt.
  // ---------------------------------------------------------------------------------------

  /** The focus text of the takeaways prompt. */
  function TakeawaysFocus(w: Wording, summaryType: string): string
  {
    if summaryType == "Academic" then w.academicFocus
    else if summaryType == "Business" then w.businessFocus
    else w.genericFocus
  }

  /** `get_takeaways_prompt(summary_type)`. */
  function TakeawaysPrompt(w: Wording, summaryType: string): (r: string)
    ensures StartsWith(r, w.takeawaysBase)
    ensures summaryType == "Academic" ==> EndsWith(r, w.academicFocus)
    ensures summaryType == "Business" ==> EndsWith(r, w.businessFocus)
    ensures summaryType !in {"Academic", "Business"} ==> EndsWith(r, w.genericFocus)
  {
    ConcatStartsWith(w.takeawaysBase, TakeawaysFocus(w, summaryType));
    ConcatEndsWith(w.takeawaysBase, TakeawaysFocus(w, summaryType));
    w.takeawaysBase + TakeawaysFocus(w, summaryType)
  }

  /** The three focus texts are different from one another, as in the templates. */
  predicate DistinctFocusTexts(w: Wording) {
    w.academicFocus != w.businessFocus && w.academicFocus != w.genericFocus
      && w.businessFocus != w.genericFocus
  }

  /** Academic and Business each give a takeaways prompt of their own; every other type
      gives the generic one. */
  lemma TakeawaysPromptSelects(w: Wording, a: string, b: string)
    requires DistinctFocusTexts(w)
    ensures TakeawaysPrompt(w, a) == TakeawaysPrompt(w, b) <==>
            a == b || (a !in {"Academic", "Business"} && b !in {"Academic", "Business"})
  {
    CommonFront(w.takeawaysBase, TakeawaysFocus(w, a), TakeawaysFocus(w, b));
  }

  // ---------------------------------------------------------------------------------------
  // Chat prompt.
  // ---------------------------------------------------------------------------------------

  /** One earlier exchange: the `question` and `answer` of a chat history entry. */
  datatype Exchange = Exchange(question: string, answer: string)

  /** How one exchange is written into the prompt. */
  function ExchangeText(e: Exchange): (r: string)
    ensures StartsWith(r, "Human: ")
  {
    ConcatStartsWith("Human: ", e.question + "\nAI: " + e.answer + "\n\n");
    "Human: " + (e.question + "\nAI: " + e.answer + "\n\n")
  }

  /** The exchanges written one after the other, in order (the `+=` loop). */
  function ExchangesText(history: seq<Exchange>): string
  {
    if history == [] then ""
    else ExchangesText(history[..|history| - 1]) + ExchangeText(history[|history| - 1])
  }

  /** The history block: nothing for an empty history, else the header and the last five
      exchanges. */
  function HistoryContext(w: Wording, history: seq<Exchange>): string
  {
    if history == [] then "" else w.historyHeader + ExchangesText(Last(history, 5))
  }

  /** `get_chat_prompt(transcript_text, chat_history)`. */
  function ChatPrompt(w: Wording, transcript: string, history: seq<Exchange>): (r: string)
    ensures StartsWith(r, w.chatHead + transcript)
    ensures EndsWith(r, HistoryContext(w, history) + w.chatTail)
  {
    var front := w.chatHead + transcript;
    var back := HistoryContext(w, history) + w.chatTail;
    ConcatStartsWith(front, w.chatMiddle + back);
    ConcatEndsWith(front + w.chatMiddle, back);
    assert front + (w.chatMiddle + back) == front + w.chatMiddle + back;
    front + w.chatMiddle + back
  }

  /** The history block is empty exactly when there is no history. */
  lemma HistoryContextEmpty(w: Wording, history: seq<Exchange>)
    ensures HistoryContext(w, history) == "" <==> history == []
  {
    if history != [] {
      var recent := Last(history, 5);
      assert recent != [];
      var e := ExchangeText(recent[|recent| - 1]);
      assert |e| >= 7;
    }
  }

  /** The exchanges of two stretches of history are written one after the other. */
  lemma {:induction false} ExchangesTextConcat(a: seq<Exchange>, b: seq<Exchange>)
    ensures ExchangesText(a + b) == ExchangesText(a) + ExchangesText(b)
    decreases |b|
  {
    if b == [] {
      assert a + b == a;
    } else {
      var front, last := b[..|b| - 1], b[|b| - 1];
      assert (a + b)[..|a + b| - 1] == a + front && (a + b)[|a + b| - 1] == last;
      assert ExchangesText(a + b) == ExchangesText(a + front) + ExchangeText(last);
      assert ExchangesText(b) == ExchangesText(front) + ExchangeText(last);
      ExchangesTextConcat(a, front);
      Assoc(ExchangesText(a), ExchangesText(front), ExchangeText(last));
    }
  }

  /** The newest exchange closes the history block. */
  lemma HistoryEndsWithNewest(w: Wording, history: seq<Exchange>)
    requires history != []
    ensures EndsWith(HistoryContext(w, history), ExchangeText(history[|history| - 1]))
  {
    var recent := Last(history, 5);
    assert recent[|recent| - 1] == history[|history| - 1];
    var e := ExchangeText(recent[|recent| - 1]);
    var before := w.historyHeader + ExchangesText(recent[..|recent| - 1]);
    assert HistoryContext(w, history) == before + e;
    ConcatEndsWith(before, e);
  }

  /** Only the last five exchanges count: an exchange older than those changes nothing. */
  lemma HistoryDropsOlder(w: Wording, e: Exchange, history: seq<Exchange>)
    requires |history| >= 5
    ensures HistoryContext(w, [e] + history) == HistoryContext(w, history)
  {
    var longer := [e] + history;
    assert Last(longer, 5) == longer[|longer| - 5..] == history[|history| - 5..] == Last(history, 5);
  }

  /** Exactly the last min(5, n) exchanges appear, oldest first, each as a Human/AI pair. */
  lemma HistoryContextOf(w: Wording, history: seq<Exchange>)
    requires history != []
    ensures |history| <= 5 ==> HistoryContext(w, history) == w.historyHeader + ExchangesText(history)
    ensures |history| > 5 ==>
      HistoryContext(w, history) == w.historyHeader + ExchangesText(history[|history| - 5..])
  {
  }
}
