/**
 * The chat about a video: the conversation held in the session state, the suggested
 * questions shown beside it, and the numbers the page reports about the conversation.
 *
 * The page's session state is the `Chat` object. The model's answers come from a
 * function `ask(transcript, question)`, the clock is a string per call, and the widgets
 * that trigger the operations are not modelled.
 */
module ChatInterface {
  import opened Wrappers
  import opened Text
  import opened Seqs
  import opened ExportHandler

  /** The two kinds of message the chat writes. */
  datatype Role = User | Assistant

  /** One entry of `chat_history`. A user message carries no rating and an answer starts
      with none; both are `None` here. */
  datatype Message = Message(role: Role, content: string, timestamp: string, rating: Option<string>)

  /** `chat_context`: the transcript's `text` (when the dict has it), the video's `title`
      (when `video_info` has it), and the analysis result. */
  datatype ChatContext = ChatContext(transcriptText: Option<string>, videoTitle: Option<string>, analysis: Report)

  predicate IsUserMessage(m: Message) {
    m.role == User
  }

  predicate IsAnswer(m: Message) {
    m.role == Assistant
  }

  // ---------------------------------------------------------------------------------------
  // Suggested questions for a fresh conversation.
  // ---------------------------------------------------------------------------------------

  /** The suggestions when there is no context. */
  const DefaultSuggestions: seq<string> := [
    "What is the main topic of this video?",
    "What are the key takeaways?",
    "Can you summarize the important points?",
    "What actionable advice is given?",
    "Are there any important examples mentioned?",
    "What questions does this video answer?"]

  /** The suggestions every context gets, after those of its own. */
  const GeneralSuggestions: seq<string> := [
    "What actionable steps can I take from this video?",
    "Are there any important quotes or key phrases?",
    "What questions does this video answer?",
    "How does this relate to current trends?"]

  /** The question about the first topic. */
  function TopicQuestion(topic: string): (q: string)
    ensures StartsWith(q, "Can you explain more about ")
  {
    ConcatStartsWith("Can you explain more about ", topic + "?");
    "Can you explain more about " + (topic + "?")
  }

  /** A non-empty list under an optional key: what `analysis.get(key)` is truthy for. */
  predicate Given<T>(items: Option<seq<T>>) {
    items.Some? && items.value != []
  }

  /** The suggestions a context earns: one for a title, one for key takeaways, one about
      the first topic, and one for a timeline, in that order. */
  function ContextSuggestions(ctx: ChatContext): (r: seq<string>)
    ensures |r| <= 4
  {
    (if ctx.videoTitle.Some? && ctx.videoTitle.value != "" then ["What is the main message of this video?"] else [])
    + (if Given(ctx.analysis.keyTakeaways) then ["What are the most important points to remember?"] else [])
    + (if Given(ctx.analysis.topics) then [TopicQuestion(ctx.analysis.topics.value[0])] else [])
    + (if Given(ctx.analysis.timeline) then ["What happens at the beginning vs the end?"] else [])
  }

  /** `_generate_suggestions`: the defaults without a context; else the context's own
      suggestions, then the general ones, six at most. */
  function Suggestions(ctx: Option<ChatContext>): (r: seq<string>)
    ensures ctx.None? ==> r == DefaultSuggestions
    ensures ctx.Some? ==> 4 <= |r| <= 6
  {
    if ctx.None? then DefaultSuggestions else Take(ContextSuggestions(ctx.value) + GeneralSuggestions, 6)
  }

  /** With a context, its own suggestions come first, then the general ones in their
      order, of which at least the first two are offered. */
  lemma SuggestionsOf(ctx: ChatContext)
    ensures var r, own := Suggestions(Some(ctx)), ContextSuggestions(ctx);
      && |own| <= |r| && r[..|own|] == own
      && r[|own|..] == GeneralSuggestions[..|r| - |own|]
      && GeneralSuggestions[0] in r && GeneralSuggestions[1] in r
  {
    var own := ContextSuggestions(ctx);
    var r := Suggestions(Some(ctx));
    assert r[|own|] == GeneralSuggestions[0] && r[|own| + 1] == GeneralSuggestions[1];
  }

  // ---------------------------------------------------------------------------------------
  // Follow-up suggestions.
  // ---------------------------------------------------------------------------------------

  /** The follow-up a message suggests: only a question of the user does, after the first
      keyword its lower-cased text contains. */
  function FollowUpOf(m: Message): (r: Option<string>)
    ensures !IsUserMessage(m) ==> r.None?
  {
    if m.role != User then None
    else
      var content := Lower(m.content);
      if Contains(content, "takeaway") || Contains(content, "key point") then Some("Can you elaborate on any of these points?")
      else if Contains(content, "example") then Some("Are there other examples mentioned?")
      else if Contains(content, "action") || Contains(content, "implement") then Some("What are the first steps to get started?")
      else if Contains(content, "quote") then Some("What's the context behind these quotes?")
      else None
  }

  /** The follow-ups of some messages, in order. */
  function FollowUps(recent: seq<Message>): seq<string>
  {
    FilterMap(FollowUpOf, recent)
  }

  /** The questions mixed in after the follow-ups. */
  const GeneralFollowUps: seq<string> := [
    "What are the potential challenges mentioned?",
    "How does this apply to beginners?",
    "What tools or resources are recommended?",
    "Are there any contradictions or debates discussed?"]

  /** The candidate suggestions: the follow-ups of the last six messages, then the general
      follow-ups. */
  function Candidates(history: seq<Message>): seq<string>
  {
    FollowUps(Last(history, 6)) + GeneralFollowUps
  }

  /** Each user message suggests at most one follow-up, and answers suggest none. */
  lemma {:induction false} FollowUpsBound(recent: seq<Message>)
    ensures |FollowUps(recent)| <= CountIf(IsUserMessage, recent)
    decreases |recent|
  {
    if recent != [] {
      var front := recent[..|recent| - 1];
      FollowUpsBound(front);
    }
  }

  /** Only the last six messages count: anything said before them changes nothing. */
  lemma CandidatesRecent(earlier: seq<Message>, history: seq<Message>)
    requires |history| >= 6
    ensures Candidates(earlier + history) == Candidates(history)
  {
    var all := earlier + history;
    assert Last(all, 6) == all[|all| - 6..] == history[|history| - 6..] == Last(history, 6);
  }

  /** The first loop as the source writes it: each candidate not among the current
      suggestions, while fewer than six are kept. */
  function NewAsWritten(candidates: seq<string>, current: seq<string>): (r: seq<string>)
    ensures |r| <= 6
    ensures forall s <- r :: s in candidates && s !in current
    ensures forall s <- candidates :: s !in current && |r| < 6 ==> s in r
  {
    if candidates == [] then []
    else
      var kept := NewAsWritten(candidates[..|candidates| - 1], current);
      var c := candidates[|candidates| - 1];
      if c !in current && |kept| < 6 then kept + [c] else kept
  }

  /** The first loop as its comment intends: a candidate already kept is not kept again. */
  function NewCandidates(candidates: seq<string>, current: seq<string>): (r: seq<string>)
    ensures |r| <= 6 && NoDuplicates(r)
    ensures forall s <- r :: s in candidates && s !in current
    ensures forall s <- candidates :: s !in current && |r| < 6 ==> s in r
  {
    if candidates == [] then []
    else
      var kept := NewCandidates(candidates[..|candidates| - 1], current);
      var c := candidates[|candidates| - 1];
      if c !in current && c !in kept && |kept| < 6 then kept + [c] else kept
  }

  /** The second loop: the current suggestions not yet kept, while fewer than six are. */
  function Fill(kept: seq<string>, current: seq<string>): (r: seq<string>)
    requires |kept| <= 6
    ensures |kept| <= |r| <= 6 && r[..|kept|] == kept
    ensures forall s <- r :: s in kept || s in current
    ensures forall s <- current :: |r| < 6 ==> s in r
    ensures NoDuplicates(kept) ==> NoDuplicates(r)
  {
    if current == [] then kept
    else
      var sofar := Fill(kept, current[..|current| - 1]);
      var s := current[|current| - 1];
      if s !in sofar && |sofar| < 6 then sofar + [s] else sofar
  }

  /** The suggestion list `_update_suggestions` writes, as the source computes it. */
  function MergeAsWritten(candidates: seq<string>, current: seq<string>): (r: seq<string>)
    ensures |r| <= 6
    ensures |NewAsWritten(candidates, current)| <= |r|
    ensures r[..|NewAsWritten(candidates, current)|] == NewAsWritten(candidates, current)
    ensures forall s <- r :: s in candidates || s in current
    ensures forall s <- candidates + current :: |r| < 6 ==> s in r
  {
    var r := Fill(NewAsWritten(candidates, current), current);
    assert forall s <- candidates | s !in current :: |r| < 6 ==> s in NewAsWritten(candidates, current);
    r
  }

  /** The suggestion list `_update_suggestions` is meant to write: new candidates first,
      then the current suggestions, six at most, none twice. */
  function Merge(candidates: seq<string>, current: seq<string>): (r: seq<string>)
    ensures |r| <= 6 && NoDuplicates(r)
    ensures |NewCandidates(candidates, current)| <= |r|
    ensures r[..|NewCandidates(candidates, current)|] == NewCandidates(candidates, current)
    ensures forall s <- r :: s in candidates || s in current
    ensures forall s <- candidates + current :: |r| < 6 ==> s in r
  {
    var r := Fill(NewCandidates(candidates, current), current);
    assert forall s <- candidates | s !in current :: |r| < 6 ==> s in NewCandidates(candidates, current);
    r
  }

  /** The two first loops agree while no candidate comes twice. */
  lemma {:induction false} NewAsWrittenAgrees(candidates: seq<string>, current: seq<string>)
    requires NoDuplicates(candidates)
    ensures NewAsWritten(candidates, current) == NewCandidates(candidates, current)
  {
    if candidates != [] {
      var n := |candidates| - 1;
      var front := candidates[..n];
      assert NoDuplicates(front) by {
        forall i, j | 0 <= i < j < |front| ensures front[i] != front[j] {
          assert front[i] == candidates[i] && front[j] == candidates[j];
        }
      }
      var c, kept := candidates[n], NewCandidates(front, current);
      assert NewAsWritten(front, current) == kept by {
        NewAsWrittenAgrees(front, current);
      }
      assert c !in kept by {
        forall i | 0 <= i < n ensures front[i] != c {
          assert front[i] == candidates[i];
        }
        assert c !in front;
      }
      assert NewAsWritten(candidates, current) == if c !in current && |kept| < 6 then kept + [c] else kept;
      assert NewCandidates(candidates, current) == if c !in current && c !in kept && |kept| < 6 then kept + [c] else kept;
    }
  }

  /** So the suggestion list as written is the intended one unless a follow-up repeats. */
  lemma MergeAsWrittenAgrees(candidates: seq<string>, current: seq<string>)
    requires NoDuplicates(candidates)
    ensures MergeAsWritten(candidates, current) == Merge(candidates, current)
  {
    NewAsWrittenAgrees(candidates, current);
  }

  /** A question that mentions an example. */
  const ExampleQuestion: Message := Message(User, "example", "", None)

  /** Its follow-up is the question about other examples. */
  lemma ExampleFollowUp()
    ensures FollowUpOf(ExampleQuestion) == Some("Are there other examples mentioned?")
  {
    assert Lower("example") == "example";
    assert OccursAt("example", "example", 0);
  }

  /** The follow-up of a question about examples. */
  const ExamplesFollowUp := "Are there other examples mentioned?"

  /** A chat reachable from the page: two questions about examples, each answered, after
      `_refresh_suggestions` on a context that earned no suggestions of its own, so that
      the general suggestions are shown. The source's first loop keeps the follow-up twice,
      while the intended merge never repeats a suggestion. */
  lemma MergeAsWrittenRepeats(ctx: ChatContext, answer1: Message, answer2: Message)
    requires ContextSuggestions(ctx) == [] && answer1.role == Assistant && answer2.role == Assistant
    ensures var history, current := [ExampleQuestion, answer1, ExampleQuestion, answer2], Suggestions(Some(ctx));
      var r := MergeAsWritten(Candidates(history), current);
      |r| == 6 && r[0] == r[1] == ExamplesFollowUp
      && NoDuplicates(Merge(Candidates(history), current))
  {
    var history := [ExampleQuestion, answer1, ExampleQuestion, answer2];
    var current := Suggestions(Some(ctx));
    assert current == GeneralSuggestions by {
      assert ContextSuggestions(ctx) + GeneralSuggestions == GeneralSuggestions;
    }
    var candidates := [ExamplesFollowUp, ExamplesFollowUp] + GeneralFollowUps;
    assert Candidates(history) == candidates by {
      ExampleHistoryFollowUps(answer1, answer2);
    }
    assert MergeAsWritten(candidates, current) == candidates by {
      assert forall c <- candidates :: c !in current by {
        CandidatesNotShown();
      }
      NewAsWrittenAll(candidates, current);
      FillFull(candidates, current);
    }
    assert |candidates| == 6 && candidates[0] == candidates[1] == ExamplesFollowUp;
  }

  /** Six kept suggestions leave no room for the current ones. */
  lemma FillFull(kept: seq<string>, current: seq<string>)
    requires |kept| == 6
    ensures Fill(kept, current) == kept
  {
    var r := Fill(kept, current);
    assert r == r[..|kept|];
  }

  /** Two questions about examples and their answers give the follow-up twice. */
  lemma ExampleHistoryFollowUps(answer1: Message, answer2: Message)
    requires answer1.role == Assistant && answer2.role == Assistant
    ensures FollowUps([ExampleQuestion, answer1, ExampleQuestion, answer2]) == [ExamplesFollowUp, ExamplesFollowUp]
  {
    var h := [ExampleQuestion, answer1, ExampleQuestion, answer2];
    ExampleFollowUp();
    assert FilterMap(FollowUpOf, h[..1]) == [ExamplesFollowUp] by {
      assert h[..1][..0] == [];
    }
    assert FilterMap(FollowUpOf, h[..2]) == [ExamplesFollowUp] by {
      assert h[..2][..1] == h[..1];
    }
    assert FilterMap(FollowUpOf, h[..3]) == [ExamplesFollowUp, ExamplesFollowUp] by {
      assert h[..3][..2] == h[..2];
    }
    assert h[..4] == h;
  }

  /** None of those candidates is among the general suggestions. */
  lemma CandidatesNotShown()
    ensures forall c <- [ExamplesFollowUp, ExamplesFollowUp] + GeneralFollowUps :: c !in GeneralSuggestions
  {
  }

  /** With no candidate among the current suggestions and at most six candidates, the
      source's first loop keeps them all, repeats included. */
  lemma {:induction false} NewAsWrittenAll(candidates: seq<string>, current: seq<string>)
    requires |candidates| <= 6
    requires forall c <- candidates :: c !in current
    ensures NewAsWritten(candidates, current) == candidates
    decreases |candidates|
  {
    if candidates != [] {
      var front := candidates[..|candidates| - 1];
      NewAsWrittenAll(front, current);
      assert front + [candidates[|candidates| - 1]] == candidates;
    }
  }

  // ---------------------------------------------------------------------------------------
  // Conversation insights.
  // ---------------------------------------------------------------------------------------

  /** What `get_chat_insights` reports about a conversation that has begun. */
  datatype Insights = Insights(
    totalMessages: nat,
    userQuestions: nat,
    aiResponses: nat,
    averageQuestionLength: real,
    topicsExplored: nat,
    conversationDuration: nat,
    engagementLevel: string)

  /** The number of words in each question, added up. */
  function QuestionWords(questions: seq<Message>): nat
  {
    if questions == [] then 0
    else QuestionWords(questions[..|questions| - 1]) + |Words(questions[|questions| - 1].content)|
  }

  /** The first three lower-cased words of a question, joined by spaces. */
  function TopicKey(m: Message): string
  {
    Join(Take(Words(Lower(m.content)), 3), " ")
  }

  /** The different topic keys of some questions. */
  function TopicKeys(questions: seq<Message>): (keys: set<string>)
    ensures |keys| <= |questions|
    ensures questions != [] ==> |keys| >= 1
    ensures forall m <- questions :: TopicKey(m) in keys
  {
    if questions == [] then {}
    else TopicKeys(questions[..|questions| - 1]) + {TopicKey(questions[|questions| - 1])}
  }

  /** Every topic key is the key of some question. */
  lemma {:induction false} TopicKeysOfQuestions(questions: seq<Message>)
    ensures forall k <- TopicKeys(questions) :: exists m <- questions :: TopicKey(m) == k
    decreases |questions|
  {
    if questions != [] {
      var init, last := questions[..|questions| - 1], questions[|questions| - 1];
      TopicKeysOfQuestions(init);
      assert TopicKeys(questions) == TopicKeys(init) + {TopicKey(last)};
      forall k <- TopicKeys(questions) ensures exists m <- questions :: TopicKey(m) == k {
        if k == TopicKey(last) {
          assert last in questions;
        } else {
          var m :| m in init && TopicKey(m) == k;
          assert m in questions;
        }
      }
    }
  }

  /** `'High'` past ten messages, `'Medium'` past five, else `'Low'`. */
  function Engagement(total: nat): (level: string)
    ensures level == "High" <==> total > 10
    ensures level == "Medium" <==> 5 < total <= 10
    ensures level == "Low" <==> total <= 5
  {
    if total > 10 then "High" else if total > 5 then "Medium" else "Low"
  }

  /** Every message is a question or an answer. */
  lemma {:induction false} RolesPartition(history: seq<Message>)
    ensures CountIf(IsUserMessage, history) + CountIf(IsAnswer, history) == |history|
    decreases |history|
  {
    if history != [] {
      RolesPartition(history[..|history| - 1]);
    }
  }

  /** The mean of `n` numbers that add up to `total`; `0` when there are none. */
  function Mean(total: nat, n: nat): (m: real)
    ensures n > 0 ==> m * (n as real) == total as real
    ensures n == 0 ==> m == 0.0
  {
    if n > 0 then total as real / n as real else 0.0
  }

  /** `get_chat_insights`: nothing for an empty conversation; otherwise the questions are
      the user's messages, the responses the assistant's, and the topics the different
      first-three-word keys of the questions. */
  function ChatInsights(history: seq<Message>): (r: Option<Insights>)
    ensures r.None? <==> history == []
    ensures r.Some? ==> r.value.totalMessages == r.value.conversationDuration == |history|
    ensures r.Some? ==> r.value.userQuestions == CountIf(IsUserMessage, history)
    ensures r.Some? ==> r.value.aiResponses == CountIf(IsAnswer, history)
    ensures r.Some? ==> r.value.topicsExplored == |TopicKeys(Filter(IsUserMessage, history))|
    ensures r.Some? ==> r.value.userQuestions + r.value.aiResponses == r.value.totalMessages
    ensures r.Some? ==> r.value.topicsExplored <= r.value.userQuestions
    ensures r.Some? ==> (r.value.topicsExplored == 0 <==> r.value.userQuestions == 0)
    ensures r.Some? ==>
      r.value.averageQuestionLength == Mean(QuestionWords(Filter(IsUserMessage, history)), r.value.userQuestions)
    ensures r.Some? ==> r.value.engagementLevel == Engagement(|history|)
  {
    if history == [] then None
    else
      var questions := Filter(IsUserMessage, history);
      var answers := Filter(IsAnswer, history);
      RolesPartition(history);
      var average := Mean(QuestionWords(questions), |questions|);
      Some(Insights(|history|, |questions|, |answers|, average, |TopicKeys(questions)|, |history|, Engagement(|history|)))
  }

  // ---------------------------------------------------------------------------------------
  // The chat state.
  // ---------------------------------------------------------------------------------------

  /** What `_regenerate_answer` adds to the original question. */
  const RetryNote: string := " (Please provide a different perspective or more details)"

  /** Whether the chat can put a question to the model: the context and its transcript text
      are there (else reading them raises). */
  predicate Answerable(ctx: Option<ChatContext>) {
    ctx.Some? && ctx.value.transcriptText.Some?
  }

  /** The chat part of the page's session state. */
  class Chat {
    var history: seq<Message>
    var suggestions: seq<string>
    var context: Option<ChatContext>

    /** `ChatInterface.__init__` on a fresh session. */
    constructor ()
      ensures history == [] && suggestions == [] && context == None
    {
      history := [];
      suggestions := [];
      context := None;
    }

    /** `render_chat_interface` records the context once, on first use. */
    method SetContext(ctx: ChatContext)
      modifies this
      ensures context == if old(context).None? then Some(ctx) else old(context)
      ensures history == old(history) && suggestions == old(suggestions)
    {
      if context.None? {
        context := Some(ctx);
      }
    }

    /** `_ask_question(question)`: a blank question does nothing; otherwise the question is
        recorded, and, when the model can be asked, its answer follows with no rating and
        the suggestions are updated. */
    method AskQuestion(question: string, askedAt: string, answeredAt: string, ask: (string, string) -> string)
      modifies this
      ensures context == old(context)
      ensures Strip(question) == [] ==> history == old(history) && suggestions == old(suggestions)
      ensures Strip(question) != [] && !Answerable(old(context)) ==>
        history == old(history) + [Message(User, question, askedAt, None)] && suggestions == old(suggestions)
      ensures Strip(question) != [] && Answerable(old(context)) ==>
        history == old(history) + [Message(User, question, askedAt, None),
                                   Message(Assistant, ask(old(context).value.transcriptText.value, question), answeredAt, None)]
        && suggestions == MergeAsWritten(Candidates(history), old(suggestions))
    {
      if Strip(question) == [] {
        return;
      }
      var asked := Message(User, question, askedAt, None);
      ghost var before := history;
      history := history + [asked];
      if Answerable(context) {
        var response := ask(context.value.transcriptText.value, question);
        var answer := Message(Assistant, response, answeredAt, None);
        history := history + [answer];
        TwoMore(before, asked, answer);
        UpdateSuggestions();
      }
    }

    /** `_update_suggestions`: the follow-ups of the last six messages and the general
        follow-ups, merged ahead of the current suggestions. */
    method UpdateSuggestions()
      modifies this
      ensures suggestions == MergeAsWritten(Candidates(old(history)), old(suggestions))
      ensures history == old(history) && context == old(context)
    {
      var candidates := CollectFollowUps(Last(history, 6));
      candidates := candidates + GeneralFollowUps;
      var updated := KeepNew(candidates, suggestions);
      updated := FillFrom(updated, suggestions);
      suggestions := updated;
    }

    /** `_rate_message(index, rating)`: an index inside the conversation rates that message;
        nothing else changes. */
    method RateMessage(index: nat, rating: string)
      modifies this
      ensures index < |old(history)| ==> history == old(history)[index := old(history)[index].(rating := Some(rating))]
      ensures index >= |old(history)| ==> history == old(history)
      ensures suggestions == old(suggestions) && context == old(context)
    {
      if index < |history| {
        history := history[index := history[index].(rating := Some(rating))];
      }
    }

    /** `_regenerate_answer(index)`: when the message before `index` is a question and the
        model can be asked, the message at `index` gets a new answer to that question, a new
        time and no rating; nothing else changes. */
    method RegenerateAnswer(index: nat, regeneratedAt: string, ask: (string, string) -> string)
      modifies this
      ensures var h := old(history);
        0 < index < |h| && h[index - 1].role == User && Answerable(old(context)) ==>
        history == h[index := h[index].(content := ask(old(context).value.transcriptText.value, h[index - 1].content + RetryNote),
                                         timestamp := regeneratedAt, rating := None)]
      ensures var h := old(history);
        !(0 < index < |h| && h[index - 1].role == User && Answerable(old(context))) ==> history == h
      ensures suggestions == old(suggestions) && context == old(context)
    {
      if 0 < index < |history| && history[index - 1].role == User && Answerable(context) {
        var question := history[index - 1].content;
        var response := ask(context.value.transcriptText.value, question + RetryNote);
        history := history[index := history[index].(content := response, timestamp := regeneratedAt, rating := None)];
      }
    }

    /** `_clear_chat`: no messages, and freshly generated suggestions. */
    method ClearChat()
      modifies this
      ensures history == [] && suggestions == Suggestions(old(context))
      ensures context == old(context)
    {
      history := [];
      suggestions := Suggestions(context);
    }

    /** `_refresh_suggestions`: freshly generated suggestions. */
    method RefreshSuggestions()
      modifies this
      ensures suggestions == Suggestions(old(context))
      ensures history == old(history) && context == old(context)
    {
      suggestions := Suggestions(context);
    }
  }

  /** The first loop of `_update_suggestions`: the follow-up of each recent message, in
      order. */
  method CollectFollowUps(recent: seq<Message>) returns (candidates: seq<string>)
    ensures candidates == FollowUps(recent)
  {
    candidates := [];
    for i := 0 to |recent|
      invariant candidates == FollowUps(recent[..i])
    {
      FilterMapStep(FollowUpOf, recent, i);
      var next := FollowUpOf(recent[i]);
      if next.Some? {
        candidates := candidates + [next.value];
      }
    }
    assert recent[..|recent|] == recent;
  }

  /** The candidates not among the current suggestions, six at most; a candidate that
      comes twice is kept twice. */
  method KeepNew(candidates: seq<string>, current: seq<string>) returns (kept: seq<string>)
    ensures kept == NewAsWritten(candidates, current)
  {
    kept := [];
    for i := 0 to |candidates|
      invariant kept == NewAsWritten(candidates[..i], current)
    {
      assert candidates[..i + 1][..i] == candidates[..i];
      var c := candidates[i];
      if c !in current && |kept| < 6 {
        kept := kept + [c];
      }
    }
    assert candidates[..|candidates|] == candidates;
  }

  /** The second loop: the current suggestions not yet kept, while fewer than six are. */
  method FillFrom(kept: seq<string>, current: seq<string>) returns (updated: seq<string>)
    requires |kept| <= 6
    ensures updated == Fill(kept, current)
  {
    updated := kept;
    for i := 0 to |current|
      invariant updated == Fill(kept, current[..i])
    {
      assert current[..i + 1][..i] == current[..i];
      var s := current[i];
      if s !in updated && |updated| < 6 {
        updated := updated + [s];
      }
    }
    assert current[..|current|] == current;
  }

  /** Two appends are one. */
  lemma TwoMore<T>(s: seq<T>, x: T, y: T)
    ensures s + [x] + [y] == s + [x, y]
  {
  }

  /** An answered question adds one question and one answer to the insights. */
  lemma ExchangeInsights(history: seq<Message>, question: Message, answer: Message)
    requires question.role == User && answer.role == Assistant
    ensures var before, after := ChatInsights(history), ChatInsights(history + [question, answer]);
      && after.Some?
      && after.value.totalMessages == |history| + 2
      && after.value.userQuestions == (if before.Some? then before.value.userQuestions else 0) + 1
      && after.value.aiResponses == (if before.Some? then before.value.aiResponses else 0) + 1
  {
    var longer := history + [question, answer];
    var asked := history + [question];
    assert longer[..|longer| - 1] == asked;
    assert asked[..|asked| - 1] == history;
    assert Filter(IsUserMessage, longer) == Filter(IsUserMessage, history) + [question];
    assert Filter(IsAnswer, longer) == Filter(IsAnswer, history) + [answer];
  }
}
