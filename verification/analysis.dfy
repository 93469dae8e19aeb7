/**
 * The parsing halves of the analysis steps: each step sends a prompt to the language
 * model and turns the reply into a list or a dict line by line. Replies are inputs here;
 * a reply that could not be obtained is `None`, and the step then yields its fallback.
 */
module Analysis {
  import opened Wrappers
  import opened Text
  import opened Seqs
  import opened Decimal
  import opened JsonValues
  import Urls

  // ---------------------------------------------------------------------------------------
  // Character classes.
  // ---------------------------------------------------------------------------------------

  /** The bullets a list line may begin with: `•`, `-` and `*`. */
  predicate IsListMark(c: char) {
    c == '\U{2022}' || c == '-' || c == '*'
  }

  /** The class `[\d\-\•\*\s]` of the marker-removing substitution. */
  const MarkerChars: set<char> := set c: char | c <= '\U{3000}' && (IsDigit(c) || IsListMark(c) || SpaceChar(c))

  /** `re.sub(r'^[\d\-\•\*\s]+', '', s)`. */
  function DropMarkers(s: string): (r: string)
    ensures |r| <= |s| && r == s[|s| - |r|..]
    ensures r == [] || (!IsDigit(r[0]) && !IsListMark(r[0]) && !IsSpace(r[0]))
  {
    LStripSet(s, MarkerChars)
  }

  /** `re.sub(r'^\d+\.?\s*', '', s)`: a leading number, one optional dot and the spaces
      after it; `s` itself when it does not begin with a digit. */
  function DropNumber(s: string): (r: string)
    ensures |r| <= |s| && r == s[|s| - |r|..]
    ensures s != [] && IsDigit(s[0]) ==> r == [] || !IsSpace(r[0])
  {
    var n := DigitSpan(s);
    if n == 0 then s
    else
      var rest := s[n..];
      LStrip(if rest != [] && rest[0] == '.' then rest[1..] else rest)
  }

  // ---------------------------------------------------------------------------------------
  // Key takeaways and action items.
  // ---------------------------------------------------------------------------------------

  /** The rule both `_extract_key_takeaways` and `_generate_action_items` apply to a line:
      a bulleted line gives its text after the bullet, a line beginning with a digit from
      1 to 9 gives its text after the number, and every other line gives nothing. */
  function ListItem(line: string): (r: Option<string>)
    ensures r.Some? <==> Strip(line) != [] && (IsListMark(Strip(line)[0]) || '1' <= Strip(line)[0] <= '9')
  {
    var l := Strip(line);
    if l != [] && IsListMark(l[0]) then Some(Strip(l[1..]))
    else if l != [] && '1' <= l[0] <= '9' then Some(DropNumber(l))
    else None
  }

  /** What a line whose stripped text begins with a bullet gives. */
  lemma BulletLine(line: string)
    requires Strip(line) != [] && IsListMark(Strip(line)[0])
    ensures ListItem(line) == Some(Strip(Strip(line)[1..]))
  {
  }

  /** Spaces around a text with non-space ends are what `strip()` removes. */
  lemma StripAround(indent: string, core: string, trail: string)
    requires forall c <- indent :: IsSpace(c)
    requires forall c <- trail :: IsSpace(c)
    requires core != [] && !IsSpace(core[0]) && !IsSpace(core[|core| - 1])
    ensures Strip(indent + core + trail) == core
  {
    LStripSetPrefix(indent, core + trail, Whitespace);
    assert indent + core + trail == indent + (core + trail);
    RStripSetSuffix(core, trail, Whitespace);
    StripSetEnds(indent + core + trail, Whitespace);
  }

  /** A bulleted line, however indented, gives the stripped text after its bullet. */
  lemma BulletedItem(indent: string, bullet: char, text: string, trail: string)
    requires forall c <- indent :: IsSpace(c)
    requires forall c <- trail :: IsSpace(c)
    requires IsListMark(bullet)
    requires text == [] || !IsSpace(text[|text| - 1])
    ensures ListItem(indent + [bullet] + text + trail) == Some(Strip(text))
  {
    var core := [bullet] + text;
    var line := indent + [bullet] + text + trail;
    assert Strip(line) == core by {
      assert core[0] == bullet && core[|core| - 1] == if text == [] then bullet else text[|text| - 1];
      assert !IsSpace(bullet);
      Assoc(indent, [bullet], text);
      StripAround(indent, core, trail);
    }
    assert core[1..] == text;
    BulletLine(line);
  }

  /** `str(n)` of a positive number begins with a digit from 1 to 9. */
  lemma {:induction false} NatStrLead(n: nat)
    requires n >= 1
    ensures '1' <= NatStr(n)[0] <= '9'
    decreases n
  {
    if n >= 10 {
      NatStrLead(n / 10);
      assert NatStr(n)[0] == NatStr(n / 10)[0];
    }
  }

  /** A string that begins and ends with non-space characters is its own `strip()`. */
  lemma StripNoop(s: string)
    requires s != [] && !IsSpace(s[0]) && !IsSpace(s[|s| - 1])
    ensures Strip(s) == s
  {
    StripSetNoop(s, Whitespace);
  }

  /** The number, the dot and the space go; the text stays. */
  lemma DropNumberOf(digits: string, text: string)
    requires digits != [] && AllDigits(digits)
    requires text == [] || !IsSpace(text[0])
    ensures DropNumber(digits + ". " + text) == text
  {
    var line, rest := digits + ". " + text, ". " + text;
    assert DigitSpan(line) == |digits| && line[|digits|..] == rest by {
      assert line == digits + rest;
      DigitSpanOf(digits, rest);
    }
    assert rest[0] == '.' && rest[1..] == [' '] + text;
    assert LStrip([' '] + text) == text by {
      assert ' ' in Whitespace;
      LStripSetPrefix([' '], text, Whitespace);
    }
  }

  /** A stripped line that begins with a digit from 1 to 9 gives its text after the
      number. */
  lemma NumberedLine(line: string)
    requires Strip(line) != [] && '1' <= Strip(line)[0] <= '9'
    ensures ListItem(line) == Some(DropNumber(Strip(line)))
  {
    var l := Strip(line);
    assert !IsListMark(l[0]);
  }

  /** A numbered line `n. text` gives `text`. */
  lemma NumberedItem(n: nat, text: string)
    requires n >= 1
    requires text != [] && !IsSpace(text[0]) && !IsSpace(text[|text| - 1])
    ensures ListItem(NatStr(n) + ". " + text) == Some(text)
  {
    var digits := NatStr(n);
    var line := digits + ". " + text;
    assert '1' <= line[0] <= '9' && line[|line| - 1] == text[|text| - 1] by {
      NatStrLead(n);
      ConcatEnds(digits + ". ", text);
      ConcatEnds(digits, ". ");
    }
    assert Strip(line) == line by {
      StripNoop(line);
    }
    assert DropNumber(line) == text by {
      DropNumberOf(digits, text);
    }
    NumberedLine(line);
  }

  /** The items of every line, in order, before the cap. */
  function ListItems(reply: string): seq<string>
  {
    FilterMap(ListItem, Lines(reply))
  }

  /** An item comes from the reply exactly when some line gives it. */
  lemma ListItemsExact(reply: string, item: string)
    ensures item in ListItems(reply) <==> exists line <- Lines(reply) :: ListItem(line) == Some(item)
  {
    FilterMapMembership(ListItem, Lines(reply), item);
  }

  // ---------------------------------------------------------------------------------------
  // The line loop every list-producing step runs.
  // ---------------------------------------------------------------------------------------

  /** `for line in reply.split('\n')`, appending what `rule` makes of each line, then the
      first `cap` results. */
  method CollectLines<T>(rule: string -> Option<T>, reply: string, cap: nat) returns (items: seq<T>)
    ensures |items| <= cap
    ensures items == Take(FilterMap(rule, Lines(reply)), cap)
  {
    var lines := Lines(reply);
    var all: seq<T> := [];
    for i := 0 to |lines|
      invariant all == FilterMap(rule, lines[..i])
    {
      FilterMapStep(rule, lines, i);
      var r := rule(lines[i]);
      if r.Some? {
        all := all + [r.value];
      }
    }
    assert lines[..|lines|] == lines;
    items := Take(all, cap);
  }

  /** The takeaways kept from a reply: at most ten. */
  function KeyTakeaways(reply: Option<string>): (r: seq<string>)
    ensures |r| <= 10
    ensures reply.Some? ==> r == Take(ListItems(reply.value), 10)
    ensures reply.None? ==> r == []
  {
    if reply.Some? then Take(ListItems(reply.value), 10) else []
  }

  /** `_extract_key_takeaways` after the model call. */
  method ExtractKeyTakeaways(reply: Option<string>) returns (takeaways: seq<string>)
    ensures takeaways == KeyTakeaways(reply)
  {
    takeaways := [];
    if reply.Some? {
      takeaways := CollectLines(ListItem, reply.value, 10);
    }
  }

  /** The action items kept from a reply: the same rule, at most eight. */
  function ActionItems(reply: Option<string>): (r: seq<string>)
    ensures |r| <= 8
    ensures reply.Some? ==> r == Take(ListItems(reply.value), 8)
    ensures reply.None? ==> r == []
  {
    if reply.Some? then Take(ListItems(reply.value), 8) else []
  }

  /** `_generate_action_items` after the model call. */
  method GenerateActionItems(reply: Option<string>) returns (items: seq<string>)
    ensures items == ActionItems(reply)
  {
    items := [];
    if reply.Some? {
      items := CollectLines(ListItem, reply.value, 8);
    }
  }

  /** The action items are the first eight of the items the takeaways rule finds, so they
      agree with the takeaways of the same reply as far as both go. */
  lemma ActionItemsPrefix(reply: string)
    ensures ActionItems(Some(reply)) == Take(KeyTakeaways(Some(reply)), 8)
  {
  }

  // ---------------------------------------------------------------------------------------
  // Quotes.
  // ---------------------------------------------------------------------------------------

  const QuoteMarks: set<char> := {'"', '\''}

  /** `_extract_important_quotes`' rule for a line: one holding a quotation mark loses its
      list markers and its surrounding quotation marks, and counts if more than ten
      characters remain. */
  function QuoteOf(line: string): (r: Option<string>)
    ensures r.Some? ==> '"' in Strip(line) || '\'' in Strip(line)
    ensures r.Some? ==> |r.value| > 10 && r.value[0] !in QuoteMarks && r.value[|r.value| - 1] !in QuoteMarks
  {
    var l := Strip(line);
    if l != [] && ('"' in l || '\'' in l) then
      var quote := StripSet(DropMarkers(l), QuoteMarks);
      if |quote| > 10 then Some(quote) else None
    else None
  }

  /** A stripped line holding a quotation mark gives what is left of it once its markers
      and quotation marks go, if that is long enough. */
  lemma QuoteOfStripped(line: string, quote: string)
    requires Strip(line) == line && '"' in line
    requires StripSet(DropMarkers(line), QuoteMarks) == quote && |quote| > 10
    ensures QuoteOf(line) == Some(quote)
  {
  }

  /** A quotation after list markers gives its inner text. */
  lemma QuotedLine(markers: string, quote: string)
    requires forall c <- markers :: c in MarkerChars
    requires markers == [] || !IsSpace(markers[0])
    requires |quote| > 10 && quote[0] !in QuoteMarks && quote[|quote| - 1] !in QuoteMarks
    ensures QuoteOf(markers + "\"" + quote + "\"") == Some(quote)
  {
    var quoted := "\"" + quote + "\"";
    var line := markers + quoted;
    assert markers + "\"" + quote + "\"" == line;
    QuotesAround(quote);
    assert DropMarkers(line) == quoted by { QuotedStripped(markers, quoted); }
    assert Strip(line) == line && '"' in line by { QuotedStripped(markers, quoted); }
    QuoteOfStripped(line, quote);
  }

  /** A line made of markers and a quotation strips to itself, holds a quotation mark,
      and loses exactly its markers. */
  lemma QuotedStripped(markers: string, quoted: string)
    requires forall c <- markers :: c in MarkerChars
    requires markers == [] || !IsSpace(markers[0])
    requires |quoted| >= 2 && quoted[0] == '"' && quoted[|quoted| - 1] == '"'
    ensures Strip(markers + quoted) == markers + quoted
    ensures '"' in markers + quoted
    ensures DropMarkers(markers + quoted) == quoted
  {
    var line := markers + quoted;
    assert line[|line| - 1] == '"';
    NotMarker('"');
    LStripSetPrefix(markers, quoted, MarkerChars);
    assert !IsSpace(line[0]) by {
      assert line[0] == if markers == [] then '"' else markers[0];
    }
    StripNoop(line);
  }

  /** Characters outside the marker class. */
  lemma NotMarker(c: char)
    requires !IsDigit(c) && !IsListMark(c) && !SpaceChar(c)
    ensures c !in MarkerChars
  {
  }

  /** The quotation marks around a quote go, and only they. */
  lemma QuotesAround(quote: string)
    requires quote != [] && quote[0] !in QuoteMarks && quote[|quote| - 1] !in QuoteMarks
    ensures StripSet("\"" + quote + "\"", QuoteMarks) == quote
  {
    assert "\"" + quote + "\"" == ['"'] + (quote + "\"");
    LStripSetPrefix(['"'], quote + "\"", QuoteMarks);
    RStripSetSuffix(quote, "\"", QuoteMarks);
    StripSetEnds("\"" + quote + "\"", QuoteMarks);
  }

  /** The quotes kept from a reply: at most five. */
  function ImportantQuotes(reply: Option<string>): (r: seq<string>)
    ensures |r| <= 5
    ensures forall q <- r :: |q| > 10
  {
    if reply.Some? then
      var all := FilterMap(QuoteOf, Lines(reply.value));
      assert forall q <- all :: |q| > 10 by {
        forall q <- all
          ensures |q| > 10
        {
          FilterMapMembership(QuoteOf, Lines(reply.value), q);
        }
      }
      Take(all, 5)
    else []
  }

  /** `_extract_important_quotes` after the model call. */
  method ExtractImportantQuotes(reply: Option<string>) returns (quotes: seq<string>)
    ensures quotes == ImportantQuotes(reply)
  {
    quotes := [];
    if reply.Some? {
      quotes := CollectLines(QuoteOf, reply.value, 5);
    }
  }

  /** A kept quote comes from a line that holds a quotation mark. */
  lemma QuotesFromQuotedLines(reply: string, quote: string)
    requires quote in ImportantQuotes(Some(reply))
    ensures exists line <- Lines(reply) :: QuoteOf(line) == Some(quote) && ('"' in Strip(line) || '\'' in Strip(line))
  {
    var all := FilterMap(QuoteOf, Lines(reply));
    assert quote in all;
    FilterMapMembership(QuoteOf, Lines(reply), quote);
  }

  // ---------------------------------------------------------------------------------------
  // Topics.
  // ---------------------------------------------------------------------------------------

  const TopicPunctuation: set<char> := {'.', ',', ';', ':'}

  /** `_extract_topics`' rule for a line: a non-heading line loses its list markers and
      surrounding punctuation, and counts if more than two characters remain. */
  function TopicOf(line: string): (r: Option<string>)
    ensures r.Some? ==> Strip(line) != [] && Strip(line)[0] != '#'
    ensures r.Some? ==> |r.value| > 2 && r.value[0] !in TopicPunctuation && r.value[|r.value| - 1] !in TopicPunctuation
  {
    var l := Strip(line);
    if l != [] && l[0] != '#' then
      var topic := StripSet(DropMarkers(l), TopicPunctuation);
      if |topic| > 2 then Some(topic) else None
    else None
  }

  /** A topic after list markers gives itself. */
  lemma TopicLine(markers: string, topic: string)
    requires forall c <- markers :: c in MarkerChars
    requires markers == [] || !IsSpace(markers[0])
    requires |topic| > 2 && topic[0] !in MarkerChars && topic[0] !in TopicPunctuation && topic[0] != '#'
    requires topic[|topic| - 1] !in TopicPunctuation && !IsSpace(topic[|topic| - 1])
    ensures TopicOf(markers + topic) == Some(topic)
  {
    var line := markers + topic;
    assert Strip(line) == line && line[0] != '#' by {
      TopicLineStripped(markers, topic);
    }
    assert StripSet(DropMarkers(line), TopicPunctuation) == topic by {
      TopicLineCore(markers, topic);
    }
    TopicOfParts(line, topic);
  }

  /** A stripped non-heading line gives what remains of it after the markers and the
      punctuation, when that is long enough. */
  lemma TopicOfParts(line: string, topic: string)
    requires Strip(line) == line && line != [] && line[0] != '#'
    requires StripSet(DropMarkers(line), TopicPunctuation) == topic && |topic| > 2
    ensures TopicOf(line) == Some(topic)
  {
  }

  /** The markers go and the topic's ends are no punctuation. */
  lemma TopicLineCore(markers: string, topic: string)
    requires forall c <- markers :: c in MarkerChars
    requires topic != [] && topic[0] !in MarkerChars && topic[0] !in TopicPunctuation
    requires topic[|topic| - 1] !in TopicPunctuation
    ensures StripSet(DropMarkers(markers + topic), TopicPunctuation) == topic
  {
    LStripSetPrefix(markers, topic, MarkerChars);
    StripSetNoop(topic, TopicPunctuation);
  }

  /** A line of list markers and a topic is already stripped and is no heading. */
  lemma TopicLineStripped(markers: string, topic: string)
    requires forall c <- markers :: c in MarkerChars
    requires markers == [] || !IsSpace(markers[0])
    requires topic != [] && topic[0] !in MarkerChars && topic[0] != '#' && !IsSpace(topic[|topic| - 1])
    ensures Strip(markers + topic) == markers + topic && (markers + topic)[0] != '#'
  {
    var line := markers + topic;
    if markers != [] {
      ConcatEnds(markers, topic);
      assert markers[0] in MarkerChars;
    } else {
      assert line == topic;
    }
    assert topic[0] !in Whitespace;
    assert line[|line| - 1] == topic[|topic| - 1];
    StripSetNoop(line, Whitespace);
  }

  /** A heading line never gives a topic. */
  lemma HeadingNoTopic(line: string)
    requires Strip(line) != [] && Strip(line)[0] == '#'
    ensures TopicOf(line) == None
  {
  }

  /** The topics kept from a reply: at most twelve. */
  function Topics(reply: Option<string>): (r: seq<string>)
    ensures |r| <= 12
    ensures forall t <- r :: |t| > 2
  {
    if reply.Some? then
      var all := FilterMap(TopicOf, Lines(reply.value));
      assert forall t <- all :: |t| > 2 by {
        forall t <- all
          ensures |t| > 2
        {
          FilterMapMembership(TopicOf, Lines(reply.value), t);
        }
      }
      Take(all, 12)
    else []
  }

  /** `_extract_topics` after the model call. */
  method ExtractTopics(reply: Option<string>) returns (topics: seq<string>)
    ensures topics == Topics(reply)
  {
    topics := [];
    if reply.Some? {
      topics := CollectLines(TopicOf, reply.value, 12);
    }
  }

  // ---------------------------------------------------------------------------------------
  // Timeline.
  // ---------------------------------------------------------------------------------------

  /** One timeline entry: `{'timestamp': ..., 'description': ...}`. */
  datatype Event = Event(timestamp: string, description: string)

  /** `_generate_timeline`'s rule for a line, as written: split at the first colon, strip
      both halves, drop the markers and digits that open the first half, and keep the entry
      if both halves are left nonempty. */
  function TimelineEventAsWritten(line: string): (r: Option<Event>)
    ensures r.Some? ==> ':' in Strip(line) && r.value.timestamp != [] && r.value.description != []
  {
    var l := Strip(line);
    if ':' in l then
      var timestamp := DropMarkers(Strip(Urls.Before(l, ':')));
      var description := Strip(Urls.After(l, ':'));
      if timestamp != [] && description != [] then Some(Event(timestamp, description)) else None
    else None
  }

  /** A stripped line that starts with a number and a colon has only digits before its
      first colon, and the rule as written drops them all. */
  lemma TimelineDropsClockLine(digits: string, rest: string)
    requires digits != [] && AllDigits(digits)
    requires rest == [] || !IsSpace(rest[|rest| - 1])
    ensures TimelineEventAsWritten(digits + ":" + rest) == None
  {
    var line := digits + ":" + rest;
    assert ':' !in digits by {
      forall i | 0 <= i < |digits| ensures digits[i] != ':' {
        assert IsDigit(digits[i]);
      }
    }
    assert Urls.Before(line, ':') == digits by {
      assert line == digits + ([':'] + rest);
      SpanNotConcat(digits, [':'] + rest, {':'});
    }
    assert Strip(digits) == digits by {
      assert IsDigit(digits[0]) && IsDigit(digits[|digits| - 1]);
      StripNoop(digits);
    }
    assert DropMarkers(digits) == [] by {
      forall c <- digits ensures c in MarkerChars {
        assert IsDigit(c);
      }
      LStripSetPrefix(digits, [], MarkerChars);
      assert digits + [] == digits;
    }
    assert Strip(line) == line by {
      assert line[0] == digits[0] && IsDigit(digits[0]);
      assert line[|line| - 1] == if rest == [] then ':' else rest[|rest| - 1];
      StripNoop(line);
    }
    TimelineAsWrittenOfStripped(line);
  }

  /** The rule as written, on a line that is already stripped and holds a colon. */
  lemma TimelineAsWrittenOfStripped(line: string)
    requires Strip(line) == line && ':' in line
    requires DropMarkers(Strip(Urls.Before(line, ':'))) == []
    ensures TimelineEventAsWritten(line) == None
  {
  }

  /** A timestamp the rule as written gives back whole: it holds no colon, opens with no
      digit, bullet or space, and ends with a non-space. */
  predicate IsPlainStamp(t: string) {
    t != [] && ':' !in t && !IsDigit(t[0]) && !IsListMark(t[0]) && !IsSpace(t[0]) && !IsSpace(t[|t| - 1])
  }

  /** Every entry the rule as written gives has such a timestamp. */
  lemma AsWrittenStampPlain(line: string)
    requires TimelineEventAsWritten(line).Some?
    ensures IsPlainStamp(TimelineEventAsWritten(line).value.timestamp)
  {
    var l := Strip(line);
    var head := Strip(Urls.Before(l, ':'));
    var t := DropMarkers(head);
    assert ':' !in head by {
      StripSetKeeps(Urls.Before(l, ':'), Whitespace);
    }
    assert t == head[|head| - |t|..];
    assert t[|t| - 1] == head[|head| - 1];
    assert ':' !in t by {
      forall i | 0 <= i < |t| ensures t[i] != ':' {
        assert t[i] == head[|head| - |t| + i];
      }
    }
  }

  /** The line `timestamp: description`, as the full text report writes an entry, gives the
      entry back under the rule as written when the timestamp is plain. */
  lemma EventLineAsWritten(timestamp: string, description: string)
    requires IsPlainStamp(timestamp)
    requires description != [] && !IsSpace(description[0]) && !IsSpace(description[|description| - 1])
    ensures TimelineEventAsWritten(timestamp + ": " + description) == Some(Event(timestamp, description))
  {
    var line := timestamp + ": " + description;
    assert Urls.Before(line, ':') == timestamp && Urls.After(line, ':') == " " + description by {
      assert line == timestamp + ([':'] + (" " + description));
      SpanNotConcat(timestamp, [':'] + (" " + description), {':'});
      assert line == timestamp + [':'] + (" " + description);
    }
    assert DropMarkers(timestamp) == timestamp by {
      assert timestamp[0] !in MarkerChars;
      LStripSetPrefix([], timestamp, MarkerChars);
      assert [] + timestamp == timestamp;
    }
    assert line[0] == timestamp[0] && line[|line| - 1] == description[|description| - 1];
    assert Strip(" " + description) == description by {
      StripAround(" ", description, "");
      assert " " + description + "" == " " + description;
    }
    assert Strip(timestamp) == timestamp by {
      StripNoop(timestamp);
    }
    assert Strip(line) == line by {
      StripNoop(line);
    }
    TimelineAsWrittenOfLine(line, timestamp, description);
  }

  /** The rule as written, on a stripped line whose halves are already known. */
  lemma TimelineAsWrittenOfLine(line: string, timestamp: string, description: string)
    requires Strip(line) == line && ':' in line
    requires DropMarkers(Strip(Urls.Before(line, ':'))) == timestamp && timestamp != []
    requires Strip(Urls.After(line, ':')) == description && description != []
    ensures TimelineEventAsWritten(line) == Some(Event(timestamp, description))
  {
  }

  /** A line whose stripped text has only digits before its first colon, as every line in
      the `05:30: ...` format the timeline prompt asks for has. */
  predicate ClockLed(line: string) {
    var l := Strip(line);
    ':' in l && Urls.Before(l, ':') != [] && AllDigits(Urls.Before(l, ':'))
  }

  /** The rule as written drops every clock-led line. */
  lemma ClockLedDropped(line: string)
    requires ClockLed(line)
    ensures TimelineEventAsWritten(line) == None
  {
    var head := Urls.Before(Strip(line), ':');
    assert Strip(head) == head by {
      assert IsDigit(head[0]) && IsDigit(head[|head| - 1]);
      StripNoop(head);
    }
    assert DropMarkers(head) == [] by {
      forall c <- head ensures c in MarkerChars {
        assert IsDigit(c);
      }
      LStripSetPrefix(head, [], MarkerChars);
      assert head + [] == head;
    }
  }

  /** A reply in the format the timeline prompt asks for, every line led by a clock time,
      gives an empty timeline. */
  lemma ClockReplyNoTimeline(reply: string)
    requires forall line <- Lines(reply) :: ClockLed(line)
    ensures Timeline(Some(reply)) == []
  {
    var all := FilterMap(TimelineEventAsWritten, Lines(reply));
    if all != [] {
      FilterMapMembership(TimelineEventAsWritten, Lines(reply), all[0]);
      var line :| line in Lines(reply) && TimelineEventAsWritten(line) == Some(all[0]);
      ClockLedDropped(line);
    }
  }

  /** The bullets and spaces that may open a timeline entry. */
  const BulletChars: set<char> := set c: char | c <= '\U{3000}' && (IsListMark(c) || SpaceChar(c))

  /** A colon that ends a label: one not followed by a digit, so that the colons inside a
      clock time such as `05:30` do not count. */
  predicate IsLabelEnd(s: string, i: nat) {
    i < |s| && s[i] == ':' && (i + 1 == |s| || !IsDigit(s[i + 1]))
  }

  /** The first label-ending colon at or after `i`. */
  function LabelEnd(s: string, i: nat): (r: Option<nat>)
    requires i <= |s|
    ensures r.Some? ==> i <= r.value < |s| && IsLabelEnd(s, r.value)
    ensures r.Some? ==> forall j | i <= j < r.value :: !IsLabelEnd(s, j)
    ensures r.None? ==> forall j | i <= j < |s| :: !IsLabelEnd(s, j)
    decreases |s| - i
  {
    if i == |s| then None
    else if IsLabelEnd(s, i) then Some(i)
    else LabelEnd(s, i + 1)
  }

  /** The timeline rule as the prompt's own format needs it: the label ends at the first
      colon not followed by a digit, and only bullets and spaces are cleaned from its front,
      so that a clock time survives whole. */
  function TimelineEvent(line: string): (r: Option<Event>)
    ensures r.Some? ==> r.value.timestamp != [] && r.value.description != []
    ensures r.Some? ==> r.value.timestamp[0] !in BulletChars
  {
    var l := Strip(line);
    match LabelEnd(l, 0)
    case None => None
    case Some(k) =>
      var timestamp := LStripSet(Strip(l[..k]), BulletChars);
      var description := Strip(l[k + 1..]);
      if timestamp != [] && description != [] then Some(Event(timestamp, description)) else None
  }

  /** A clock time: digits and single colons, a digit at each end. */
  predicate IsClock(c: string) {
    c != [] && IsDigit(c[0]) && IsDigit(c[|c| - 1])
    && (forall i | 0 <= i < |c| :: IsDigit(c[i]) || c[i] == ':')
    && (forall i | 0 <= i < |c| - 1 :: c[i] == ':' ==> IsDigit(c[i + 1]))
  }

  /** A line in the prompt's format, `05:30: what happens`, gives its clock time and its
      description. */
  lemma ClockLine(clock: string, description: string)
    requires IsClock(clock)
    requires description != [] && !IsSpace(description[0]) && !IsSpace(description[|description| - 1])
    ensures TimelineEvent(clock + ": " + description) == Some(Event(clock, description))
  {
    assert IsDigit(clock[0]) && IsDigit(clock[|clock| - 1]);
    EventLine(clock, description);
  }

  /** A timestamp the corrected rule reads back whole: it opens with neither a bullet nor a
      space, it ends with a non-space, and each of its colons is followed by a digit. */
  predicate IsStamp(t: string) {
    t != [] && t[0] !in BulletChars && !IsSpace(t[|t| - 1])
    && forall i | 0 <= i < |t| :: t[i] == ':' ==> i + 1 < |t| && IsDigit(t[i + 1])
  }

  /** The line `timestamp: description`, as the full text report writes an entry, gives the
      entry back. */
  lemma EventLine(timestamp: string, description: string)
    requires IsStamp(timestamp)
    requires description != [] && !IsSpace(description[0]) && !IsSpace(description[|description| - 1])
    ensures TimelineEvent(timestamp + ": " + description) == Some(Event(timestamp, description))
  {
    var line := timestamp + ": " + description;
    var k := |timestamp|;
    assert LabelEnd(line, 0) == Some(k) by {
      assert line[k] == ':' && line[k + 1] == ' ';
      assert IsLabelEnd(line, k);
      forall j | 0 <= j < k ensures !IsLabelEnd(line, j) {
        assert line[j] == timestamp[j];
        if timestamp[j] == ':' {
          assert line[j + 1] == timestamp[j + 1];
        }
      }
      LabelEndFirst(line, 0, k);
    }
    assert line[..k] == timestamp && line[k + 1..] == " " + description;
    assert !IsSpace(timestamp[0]);
    assert Strip(timestamp) == timestamp by {
      StripNoop(timestamp);
    }
    assert LStripSet(timestamp, BulletChars) == timestamp by {
      LStripSetPrefix([], timestamp, BulletChars);
      assert [] + timestamp == timestamp;
    }
    assert Strip(" " + description) == description by {
      StripAround(" ", description, "");
      assert " " + description + "" == " " + description;
    }
    assert Strip(line) == line by {
      assert line[0] == timestamp[0] && line[|line| - 1] == description[|description| - 1];
      StripNoop(line);
    }
    TimelineOfStripped(line, k);
  }

  /** The search finds the first label end. */
  lemma {:induction false} LabelEndFirst(s: string, i: nat, k: nat)
    requires i <= k < |s| && IsLabelEnd(s, k)
    requires forall j | i <= j < k :: !IsLabelEnd(s, j)
    ensures LabelEnd(s, i) == Some(k)
    decreases k - i
  {
    if i < k {
      LabelEndFirst(s, i + 1, k);
    }
  }

  /** The corrected rule on a stripped line whose label ends at `k`. */
  lemma TimelineOfStripped(line: string, k: nat)
    requires Strip(line) == line && LabelEnd(line, 0) == Some(k)
    requires LStripSet(Strip(line[..k]), BulletChars) != [] && Strip(line[k + 1..]) != []
    ensures TimelineEvent(line) == Some(Event(LStripSet(Strip(line[..k]), BulletChars), Strip(line[k + 1..])))
  {
  }

  /** The timeline kept from a reply: at most ten entries, each with a plain timestamp
      and a nonempty description. */
  function Timeline(reply: Option<string>): (r: seq<Event>)
    ensures |r| <= 10
    ensures forall e <- r :: IsPlainStamp(e.timestamp) && e.description != []
  {
    if reply.Some? then
      var all := FilterMap(TimelineEventAsWritten, Lines(reply.value));
      assert forall e <- all :: IsPlainStamp(e.timestamp) && e.description != [] by {
        forall e <- all
          ensures IsPlainStamp(e.timestamp) && e.description != []
        {
          FilterMapMembership(TimelineEventAsWritten, Lines(reply.value), e);
          var line :| line in Lines(reply.value) && TimelineEventAsWritten(line) == Some(e);
          AsWrittenStampPlain(line);
        }
      }
      Take(all, 10)
    else []
  }

  /** The timeline the corrected line rule would keep. */
  function IntendedTimeline(reply: Option<string>): (r: seq<Event>)
    ensures |r| <= 10
    ensures forall e <- r :: e.timestamp != [] && e.description != []
  {
    if reply.Some? then
      var all := FilterMap(TimelineEvent, Lines(reply.value));
      assert forall e <- all :: e.timestamp != [] && e.description != [] by {
        forall e <- all
          ensures e.timestamp != [] && e.description != []
        {
          FilterMapMembership(TimelineEvent, Lines(reply.value), e);
        }
      }
      Take(all, 10)
    else []
  }

  /** `_generate_timeline` after the model call, with its line rule as written. */
  method GenerateTimeline(reply: Option<string>) returns (timeline: seq<Event>)
    ensures timeline == Timeline(reply)
  {
    timeline := [];
    if reply.Some? {
      timeline := CollectLines(TimelineEventAsWritten, reply.value, 10);
    }
  }

  // ---------------------------------------------------------------------------------------
  // Questions and answers.
  // ---------------------------------------------------------------------------------------

  /** One entry of the result: `{'question': ..., 'answer': ...}`. */
  datatype QaPair = QaPair(question: string, answer: string)

  /** The state of `_extract_qa_pairs`' loop: the pairs so far, the current question and
      the current answer. The empty string stands for `None` as well: both fail the
      truth test that decides whether a pair is recorded, and nothing else reads them. */
  datatype QaState = QaState(pairs: seq<QaPair>, question: string, answer: string)

  const QaStart := QaState([], "", "")

  /** A stripped line that opens a question. */
  predicate IsQuestion(l: string) {
    StartsWith(l, "Q:") || StartsWith(l, "Question:")
  }

  /** A stripped line that gives an answer. */
  predicate IsAnswer(l: string) {
    StartsWith(l, "A:") || StartsWith(l, "Answer:")
  }

  /** The question a question line carries. */
  function QuestionText(l: string): string
    requires IsQuestion(l)
  {
    if StartsWith(l, "Q:") then Strip(l[2..]) else Strip(l[9..])
  }

  /** The answer an answer line carries. */
  function AnswerText(l: string): string
    requires IsAnswer(l)
  {
    if StartsWith(l, "A:") then Strip(l[2..]) else Strip(l[7..])
  }

  /** The pairs with the current question and answer recorded, if both are there. */
  function Flushed(st: QaState): (r: seq<QaPair>)
    ensures st.question != [] && st.answer != [] ==> r == st.pairs + [QaPair(st.question, st.answer)]
    ensures st.question == [] || st.answer == [] ==> r == st.pairs
  {
    if st.question != [] && st.answer != [] then st.pairs + [QaPair(st.question, st.answer)] else st.pairs
  }

  /** One iteration of the loop. */
  function QaStep(st: QaState, line: string): QaState
  {
    var l := Strip(line);
    if IsQuestion(l) then QaState(Flushed(st), QuestionText(l), "")
    else if IsAnswer(l) then st.(answer := AnswerText(l))
    else st
  }

  /** The loop over a sequence of lines. */
  function QaRun(lines: seq<string>): QaState
  {
    if lines == [] then QaStart else QaStep(QaRun(lines[..|lines| - 1]), lines[|lines| - 1])
  }

  /** Every recorded pair has both a question and an answer. */
  predicate Complete(pairs: seq<QaPair>) {
    forall p <- pairs :: p.question != [] && p.answer != []
  }

  /** The loop only ever records complete pairs. */
  lemma {:induction false} QaRunComplete(lines: seq<string>)
    ensures Complete(QaRun(lines).pairs)
    ensures Complete(Flushed(QaRun(lines)))
  {
    if lines != [] {
      var init := lines[..|lines| - 1];
      QaRunComplete(init);
      QaStepComplete(QaRun(init), lines[|lines| - 1]);
    }
  }

  /** A step keeps the recorded pairs complete. */
  lemma QaStepComplete(st: QaState, line: string)
    requires Complete(st.pairs)
    ensures Complete(QaStep(st, line).pairs) && Complete(Flushed(QaStep(st, line)))
  {
    var next := QaStep(st, line);
    assert next.pairs == st.pairs || next.pairs == Flushed(st);
    FlushedComplete(st);
    FlushedComplete(next);
  }

  /** Recording the current pair keeps the pairs complete. */
  lemma FlushedComplete(st: QaState)
    requires Complete(st.pairs)
    ensures Complete(Flushed(st))
  {
    if st.question != [] && st.answer != [] {
      var r := Flushed(st);
      assert forall i | 0 <= i < |r| :: r[i] == if i < |st.pairs| then st.pairs[i] else QaPair(st.question, st.answer);
    }
  }

  /** One more line run through the loop. */
  lemma QaRunStep(lines: seq<string>, i: nat)
    requires i < |lines|
    ensures QaRun(lines[..i + 1]) == QaStep(QaRun(lines[..i]), lines[i])
  {
    assert lines[..i + 1][..i] == lines[..i];
  }

  /** The pairs kept from a reply: at most five. */
  function QaPairs(reply: Option<string>): (r: seq<QaPair>)
    ensures |r| <= 5
    ensures Complete(r)
  {
    if reply.Some? then
      QaRunComplete(Lines(reply.value));
      Take(Flushed(QaRun(Lines(reply.value))), 5)
    else []
  }

  /** `_extract_qa_pairs` after the model call. */
  method ExtractQaPairs(reply: Option<string>) returns (qaPairs: seq<QaPair>)
    ensures qaPairs == QaPairs(reply)
  {
    qaPairs := [];
    if reply.Some? {
      var st := QaLoop(Lines(reply.value));
      var pairs := st.pairs;
      if st.question != [] && st.answer != [] {
        pairs := pairs + [QaPair(st.question, st.answer)];
      }
      qaPairs := Take(pairs, 5);
    }
  }

  /** The loop over the lines of a reply. */
  method QaLoop(lines: seq<string>) returns (st: QaState)
    ensures st == QaRun(lines)
  {
    st := QaStart;
    var i := 0;
    while i < |lines|
      invariant i <= |lines|
      invariant st == QaRun(lines[..i])
    {
      QaRunStep(lines, i);
      st := QaLine(st, lines[i]);
      i := i + 1;
    }
    assert lines[..i] == lines;
  }

  /** The body of the loop for one line. */
  method QaLine(st: QaState, line: string) returns (st': QaState)
    ensures st' == QaStep(st, line)
  {
    st' := st;
    var l := Strip(line);
    if StartsWith(l, "Q:") || StartsWith(l, "Question:") {
      var pairs := st.pairs;
      if st.question != [] && st.answer != [] {
        pairs := pairs + [QaPair(st.question, st.answer)];
      }
      var question := if StartsWith(l, "Q:") then Strip(l[2..]) else Strip(l[9..]);
      st' := QaState(pairs, question, "");
    } else if StartsWith(l, "A:") || StartsWith(l, "Answer:") {
      st' := st.(answer := if StartsWith(l, "A:") then Strip(l[2..]) else Strip(l[7..]));
    }
  }

  /** The lines that open a question. */
  predicate IsQuestionLine(line: string) {
    IsQuestion(Strip(line))
  }

  /** How many question lines the pairs and the open question of a state account for. */
  function Used(st: QaState): nat {
    |st.pairs| + if st.question != [] then 1 else 0
  }

  /** Only a question line can add to what a state accounts for, and by one at most. */
  lemma QaStepUsed(st: QaState, line: string)
    ensures Used(QaStep(st, line)) <= Used(st) + if IsQuestionLine(line) then 1 else 0
  {
  }

  /** Each recorded pair, and the question still open, used up a question line of its own. */
  lemma {:induction false} QaRunCount(lines: seq<string>)
    ensures Used(QaRun(lines)) <= CountIf(IsQuestionLine, lines)
  {
    if lines != [] {
      var init, last := lines[..|lines| - 1], lines[|lines| - 1];
      QaRunCount(init);
      QaStepUsed(QaRun(init), last);
      assert CountIf(IsQuestionLine, lines) == CountIf(IsQuestionLine, init) + if IsQuestionLine(last) then 1 else 0 by {
        FilterStep(IsQuestionLine, lines, |lines| - 1);
        assert lines[..|lines| - 1 + 1] == lines;
      }
      assert QaRun(lines) == QaStep(QaRun(init), last);
    }
  }

  /** A reply yields at most as many pairs as it has question lines. */
  lemma QaPairsCount(reply: string)
    ensures |QaPairs(Some(reply))| <= CountIf(IsQuestionLine, Lines(reply))
  {
    QaRunCount(Lines(reply));
  }

  /** A question line never starts with "A" and an answer line never with "Q". */
  lemma QuestionNotAnswer(l: string)
    requires IsAnswer(l)
    ensures !IsQuestion(l)
  {
    assert l[0] == 'A';
  }

  /** Of two answer lines in a row, only the second counts. */
  lemma LaterAnswerWins(st: QaState, first: string, second: string)
    requires IsAnswer(Strip(first)) && IsAnswer(Strip(second))
    ensures QaStep(QaStep(st, first), second) == QaStep(st, second)
  {
    QuestionNotAnswer(Strip(first));
    QuestionNotAnswer(Strip(second));
  }

  /** A question followed straight away by another question is never recorded. */
  lemma UnansweredQuestionDropped(st: QaState, first: string, second: string)
    requires IsQuestion(Strip(first)) && IsQuestion(Strip(second))
    ensures QaStep(QaStep(st, first), second) == QaState(Flushed(st), QuestionText(Strip(second)), "")
  {
  }

  /** A stripped question line records the pending pair, if complete, and opens its
      question. */
  lemma QuestionStep(st: QaState, l: string)
    requires Strip(l) == l && IsQuestion(l)
    ensures QaStep(st, l) == QaState(Flushed(st), QuestionText(l), "")
  {
  }

  /** A stripped answer line sets the answer and nothing else. */
  lemma AnswerStep(st: QaState, l: string)
    requires Strip(l) == l && IsAnswer(l)
    ensures QaStep(st, l) == st.(answer := AnswerText(l))
  {
    QuestionNotAnswer(l);
  }

  /** A text without surrounding spaces after a prefix and a space. */
  lemma AfterLabel(tag: string, text: string)
    requires |tag| == 2 && !IsSpace(tag[0])
    requires text != [] && !IsSpace(text[0]) && !IsSpace(text[|text| - 1])
    ensures Strip(tag + " " + text) == tag + " " + text
    ensures (tag + " " + text)[2..] == " " + text
    ensures Strip(" " + text) == text
  {
    var line := tag + " " + text;
    assert line[2..] == " " + text;
    assert Strip(" " + text) == text by {
      StripAround(" ", text, "");
      assert " " + text + "" == " " + text;
    }
    assert line[0] == tag[0] && line[|line| - 1] == text[|text| - 1];
    StripNoop(line);
  }

  /** The line `Q: question`, as the full text report writes it, opens `question`. */
  lemma QuestionLine(st: QaState, question: string)
    requires question != [] && !IsSpace(question[0]) && !IsSpace(question[|question| - 1])
    ensures QaStep(st, "Q: " + question) == QaState(Flushed(st), question, "")
  {
    var l := "Q: " + question;
    assert l == "Q:" + " " + question && l == "Q:" + (" " + question);
    ConcatStartsWith("Q:", " " + question);
    AfterLabel("Q:", question);
    QuestionStep(st, l);
  }

  /** The line `A: answer` sets the answer to `answer`. */
  lemma AnswerLine(st: QaState, answer: string)
    requires answer != [] && !IsSpace(answer[0]) && !IsSpace(answer[|answer| - 1])
    ensures QaStep(st, "A: " + answer) == st.(answer := answer)
  {
    var l := "A: " + answer;
    assert l == "A:" + " " + answer && l == "A:" + (" " + answer);
    ConcatStartsWith("A:", " " + answer);
    AfterLabel("A:", answer);
    AnswerStep(st, l);
  }

  /** An empty line changes nothing. */
  lemma BlankLine(st: QaState)
    ensures QaStep(st, "") == st
  {
    assert Strip("") == "";
    assert !IsQuestion("") && !IsAnswer("");
  }

  // ---------------------------------------------------------------------------------------
  // Study notes and business insights: lines sorted under keyword headings.
  // ---------------------------------------------------------------------------------------

  /** One branch of the heading chain: a line whose lower-cased text contains `keyword`
      starts the section stored under `key`. */
  datatype Rule = Rule(keyword: string, key: string)

  /** The chain of `_generate_study_notes`. */
  const StudyRules: seq<Rule> := [
    Rule("concept", "main_concepts"), Rule("definition", "definitions"),
    Rule("example", "examples"), Rule("formula", "formulas")]

  /** The chain of `_generate_business_insights`. */
  const BusinessRules: seq<Rule> := [
    Rule("strateg", "key_strategies"), Rule("market", "market_insights"),
    Rule("opportunit", "opportunities"), Rule("challenge", "challenges")]

  function Keys(rules: seq<Rule>): set<string> {
    set r <- rules :: r.key
  }

  /** The dict the parse starts from: every section, empty. */
  function NoNotes(rules: seq<Rule>): (m: map<string, seq<string>>)
    ensures m.Keys == Keys(rules)
    ensures forall k <- m :: m[k] == []
  {
    map k <- Keys(rules) :: []
  }

  /** The first branch of the chain that a lower-cased line takes, if any. */
  function Heading(rules: seq<Rule>, low: string): (r: Option<nat>)
    ensures r.Some? ==> r.value < |rules| && Contains(low, rules[r.value].keyword)
    ensures r.Some? ==> forall j | 0 <= j < r.value :: !Contains(low, rules[j].keyword)
    ensures r.None? ==> forall j | 0 <= j < |rules| :: !Contains(low, rules[j].keyword)
  {
    if rules == [] then None
    else if Contains(low, rules[0].keyword) then Some(0)
    else match Heading(rules[1..], low)
      case None => None
      case Some(i) => Some(i + 1)
  }

  /** The state of the loop: the sections so far and the current section. */
  datatype Notes = Notes(sections: map<string, seq<string>>, current: Option<string>)

  /** The sections are those of the chain, and the current one is one of them. */
  predicate Valid(rules: seq<Rule>, st: Notes) {
    st.sections.Keys == Keys(rules) && (st.current.Some? ==> st.current.value in st.sections)
  }

  /** One iteration: a heading line switches sections, any other nonempty line goes into
      the current section, and a line before the first heading is dropped. */
  function SectionStep(rules: seq<Rule>, st: Notes, line: string): (r: Notes)
    requires Valid(rules, st)
    ensures Valid(rules, r)
  {
    var l := Strip(line);
    match Heading(rules, Lower(l))
    case Some(i) => st.(current := Some(rules[i].key))
    case None =>
      if l != [] && st.current.Some? then
        var k := st.current.value;
        st.(sections := st.sections[k := st.sections[k] + [l]])
      else st
  }

  /** The loop over a sequence of lines. */
  function SectionRun(rules: seq<Rule>, lines: seq<string>): (r: Notes)
    ensures Valid(rules, r)
  {
    if lines == [] then Notes(NoNotes(rules), None)
    else SectionStep(rules, SectionRun(rules, lines[..|lines| - 1]), lines[|lines| - 1])
  }

  /** One more line run through the loop. */
  lemma SectionRunStep(rules: seq<Rule>, lines: seq<string>, i: nat)
    requires i < |lines|
    ensures SectionRun(rules, lines[..i + 1]) == SectionStep(rules, SectionRun(rules, lines[..i]), lines[i])
  {
    assert lines[..i + 1][..i] == lines[..i];
  }

  /** The sections parsed from a reply; `{}` when there is none. */
  function Sections(rules: seq<Rule>, reply: Option<string>): (r: map<string, seq<string>>)
    ensures reply.Some? ==> r.Keys == Keys(rules)
    ensures reply.None? ==> r == map[]
  {
    if reply.Some? then SectionRun(rules, Lines(reply.value)).sections else map[]
  }

  /** The shared loop of `_generate_study_notes` and `_generate_business_insights`. */
  method ParseSections(rules: seq<Rule>, reply: Option<string>) returns (notes: map<string, seq<string>>)
    ensures notes == Sections(rules, reply)
  {
    notes := map[];
    if reply.Some? {
      var st := SectionLoop(rules, Lines(reply.value));
      notes := st.sections;
    }
  }

  /** The loop over the lines of a reply. */
  method SectionLoop(rules: seq<Rule>, lines: seq<string>) returns (st: Notes)
    ensures st == SectionRun(rules, lines)
  {
    st := Notes(NoNotes(rules), None);
    var i := 0;
    while i < |lines|
      invariant i <= |lines|
      invariant st == SectionRun(rules, lines[..i])
    {
      SectionRunStep(rules, lines, i);
      st := SectionLine(rules, st, lines[i]);
      i := i + 1;
    }
    assert lines[..i] == lines;
  }

  /** The body of the loop for one line. */
  method SectionLine(rules: seq<Rule>, st: Notes, line: string) returns (st': Notes)
    requires Valid(rules, st)
    ensures st' == SectionStep(rules, st, line)
  {
    st' := st;
    var l := Strip(line);
    var heading := Heading(rules, Lower(l));
    if heading.Some? {
      st' := st.(current := Some(rules[heading.value].key));
    } else if l != [] && st.current.Some? {
      var k := st.current.value;
      st' := st.(sections := st.sections[k := st.sections[k] + [l]]);
    }
  }

  /** The study notes of a reply. */
  method GenerateStudyNotes(reply: Option<string>) returns (notes: map<string, seq<string>>)
    ensures reply.Some? ==> notes.Keys == {"main_concepts", "definitions", "examples", "formulas"}
    ensures notes == Sections(StudyRules, reply)
  {
    notes := ParseSections(StudyRules, reply);
  }

  /** The business insights of a reply. */
  method GenerateBusinessInsights(reply: Option<string>) returns (insights: map<string, seq<string>>)
    ensures reply.Some? ==> insights.Keys == {"key_strategies", "market_insights", "opportunities", "challenges"}
    ensures insights == Sections(BusinessRules, reply)
  {
    insights := ParseSections(BusinessRules, reply);
  }

  /** A stored line: stripped, nonempty, and no heading. */
  predicate BodyLine(rules: seq<Rule>, l: string) {
    l != [] && !IsSpace(l[0]) && !IsSpace(l[|l| - 1]) && Heading(rules, Lower(l)).None?
  }

  /** Every stored line is a body line. */
  predicate Clean(rules: seq<Rule>, sections: map<string, seq<string>>) {
    forall k <- sections :: forall l <- sections[k] :: BodyLine(rules, l)
  }

  lemma SectionStepClean(rules: seq<Rule>, st: Notes, line: string)
    requires Valid(rules, st) && Clean(rules, st.sections)
    ensures Clean(rules, SectionStep(rules, st, line).sections)
  {
  }

  /** Only stripped, nonempty lines without a heading keyword are ever stored. */
  lemma {:induction false} SectionRunClean(rules: seq<Rule>, lines: seq<string>)
    ensures Clean(rules, SectionRun(rules, lines).sections)
  {
    if lines != [] {
      var init := lines[..|lines| - 1];
      SectionRunClean(rules, init);
      SectionStepClean(rules, SectionRun(rules, init), lines[|lines| - 1]);
    }
  }

  /** Lines before the first heading are dropped: a run with no heading line stores
      nothing and opens no section. */
  lemma {:induction false} PreambleDropped(rules: seq<Rule>, lines: seq<string>)
    requires forall line <- lines :: Heading(rules, Lower(Strip(line))).None?
    ensures SectionRun(rules, lines) == Notes(NoNotes(rules), None)
  {
    if lines != [] {
      var init := lines[..|lines| - 1];
      PreambleDropped(rules, init);
    }
  }

  /** After a heading, a body line goes to the end of that heading's section and nowhere
      else. */
  lemma BodyAfterHeading(rules: seq<Rule>, st: Notes, heading: string, line: string)
    requires Valid(rules, st)
    requires Heading(rules, Lower(Strip(heading))).Some?
    requires Strip(line) != [] && Heading(rules, Lower(Strip(line))).None?
    ensures var k := rules[Heading(rules, Lower(Strip(heading))).value].key;
            var r := SectionStep(rules, SectionStep(rules, st, heading), line);
            r.sections == st.sections[k := st.sections[k] + [Strip(line)]] && r.current == Some(k)
  {
  }

  // ---------------------------------------------------------------------------------------
  // The result dict of `comprehensive_analysis`.
  // ---------------------------------------------------------------------------------------

  /** The model's reply to each step's prompt; `None` where the call raised and the step
      fell back to its default. */
  datatype Replies = Replies(
    summary: Option<string>,
    takeaways: Option<string>,
    quotes: Option<string>,
    actionItems: Option<string>,
    topics: Option<string>,
    timeline: Option<string>,
    qa: Option<string>,
    studyNotes: Option<string>,
    businessInsights: Option<string>)

  /** The four numbers `_analyze_sentiment` reads from its reply. */
  datatype Sentiment = Sentiment(positive: real, neutral: real, negative: real, overallScore: real)

  /** What `_analyze_sentiment` returns when its call raises. */
  const FallbackSentiment := Sentiment(0.33, 0.33, 0.33, 0.0)

  /** A list of strings as a JSON value. */
  function StrList(items: seq<string>): (r: Json)
    ensures r.JList? && |r.items| == |items|
    ensures forall i | 0 <= i < |items| :: r.items[i] == JStr(items[i])
  {
    JList(seq(|items|, i requires 0 <= i < |items| => JStr(items[i])))
  }

  function EventJson(e: Event): Json {
    JObj(map["timestamp" := JStr(e.timestamp), "description" := JStr(e.description)])
  }

  function QaPairJson(p: QaPair): Json {
    JObj(map["question" := JStr(p.question), "answer" := JStr(p.answer)])
  }

  function SectionsJson(sections: map<string, seq<string>>): (r: Json)
    ensures r.JObj? && r.fields.Keys == sections.Keys
  {
    JObj(map k <- sections :: StrList(sections[k]))
  }

  function SentimentJson(s: Sentiment): Json {
    JObj(map["positive" := JReal(s.positive), "neutral" := JReal(s.neutral),
             "negative" := JReal(s.negative), "overall_score" := JReal(s.overallScore)])
  }

  function EventsJson(events: seq<Event>): (r: Json)
    ensures r.JList? && |r.items| == |events|
    ensures forall i | 0 <= i < |events| :: r.items[i] == EventJson(events[i])
  {
    JList(seq(|events|, i requires 0 <= i < |events| => EventJson(events[i])))
  }

  function QaPairsJson(pairs: seq<QaPair>): (r: Json)
    ensures r.JList? && |r.items| == |pairs|
    ensures forall i | 0 <= i < |pairs| :: r.items[i] == QaPairJson(pairs[i])
  {
    JList(seq(|pairs|, i requires 0 <= i < |pairs| => QaPairJson(pairs[i])))
  }

  /** The options `comprehensive_analysis` reads from its keyword arguments. */
  datatype Options = Options(summaryType: string, includeSentiment: bool, includeTopics: bool)

  /** The options when no keyword argument is given: `summary_type='Comprehensive'`,
      `include_sentiment=True`, `include_topics=True`. */
  const DefaultOptions := Options("Comprehensive", true, true)

  /** The result dict of a run that did not fail, one field per key; an optional key is an
      `Option` field. `sentiment_score` is the overall score of `sentimentAnalysis`. */
  datatype AnalysisDict = AnalysisDict(
    mainSummary: string,
    keyTakeaways: seq<string>,
    importantQuotes: seq<string>,
    actionItems: seq<string>,
    topics: Option<seq<string>>,
    sentimentAnalysis: Option<Sentiment>,
    timeline: seq<Event>,
    questionsAndAnswers: seq<QaPair>,
    studyNotes: Option<map<string, seq<string>>>,
    businessInsights: Option<map<string, seq<string>>>)

  /** `comprehensive_analysis(transcript_text, **kwargs)` once the replies are in: each
      step runs in turn and stores its result. An exception that escapes the steps
      (`escaped`) gives `{'error': message}` instead. */
  method ComprehensiveAnalysis(opts: Options, replies: Replies, sentiment: Option<Sentiment>, escaped: Option<string>)
    returns (r: Result<AnalysisDict, string>)
    ensures escaped.Some? <==> r.Failure?
    ensures escaped.Some? ==> r.error == escaped.value
    ensures r.Success? ==> r.value.mainSummary == replies.summary.GetOr("Summary generation failed.")
    ensures r.Success? ==> r.value.keyTakeaways == KeyTakeaways(replies.takeaways)
    ensures r.Success? ==> r.value.importantQuotes == ImportantQuotes(replies.quotes)
    ensures r.Success? ==> r.value.actionItems == ActionItems(replies.actionItems)
    ensures r.Success? ==> (r.value.topics.Some? <==> opts.includeTopics)
    ensures r.Success? && opts.includeTopics ==> r.value.topics.value == Topics(replies.topics)
    ensures r.Success? ==> (r.value.sentimentAnalysis.Some? <==> opts.includeSentiment)
    ensures r.Success? && opts.includeSentiment ==> r.value.sentimentAnalysis.value == sentiment.GetOr(FallbackSentiment)
    ensures r.Success? ==> r.value.timeline == Timeline(replies.timeline)
    ensures r.Success? ==> r.value.questionsAndAnswers == QaPairs(replies.qa)
    ensures r.Success? ==> (r.value.studyNotes.Some? <==> opts.summaryType == "Academic")
    ensures r.Success? && opts.summaryType == "Academic" ==> r.value.studyNotes.value == Sections(StudyRules, replies.studyNotes)
    ensures r.Success? ==> (r.value.businessInsights.Some? <==> opts.summaryType == "Business")
    ensures r.Success? && opts.summaryType == "Business" ==> r.value.businessInsights.value == Sections(BusinessRules, replies.businessInsights)
  {
    if escaped.Some? {
      return Failure(escaped.value);
    }
    var mainSummary := replies.summary.GetOr("Summary generation failed.");
    var takeaways := ExtractKeyTakeaways(replies.takeaways);
    var quotes := ExtractImportantQuotes(replies.quotes);
    var actions := GenerateActionItems(replies.actionItems);
    var topics: Option<seq<string>> := None;
    if opts.includeTopics {
      var t := ExtractTopics(replies.topics);
      topics := Some(t);
    }
    var scores: Option<Sentiment> := None;
    if opts.includeSentiment {
      scores := Some(sentiment.GetOr(FallbackSentiment));
    }
    var timeline := GenerateTimeline(replies.timeline);
    var qaPairs := ExtractQaPairs(replies.qa);
    var notes: Option<map<string, seq<string>>> := None;
    if opts.summaryType == "Academic" {
      var n := GenerateStudyNotes(replies.studyNotes);
      notes := Some(n);
    }
    var insights: Option<map<string, seq<string>>> := None;
    if opts.summaryType == "Business" {
      var b := GenerateBusinessInsights(replies.businessInsights);
      insights := Some(b);
    }
    r := Success(AnalysisDict(mainSummary, takeaways, quotes, actions, topics, scores, timeline, qaPairs, notes, insights));
  }

  /** `m` with `k` set to `v` when `present`, else `m` itself. */
  function PutIf(m: map<string, Json>, present: bool, k: string, v: Json): (r: map<string, Json>)
    ensures r.Keys == m.Keys + if present then {k} else {}
    ensures present ==> r[k] == v
  {
    if present then m[k := v] else m
  }

  /** `PutIf` leaves every other key as it was. */
  lemma PutIfKeeps(m: map<string, Json>, present: bool, k: string, v: Json, j: string)
    requires j in m && j != k
    ensures PutIf(m, present, k, v)[j] == m[j]
  {
  }

  /** The six keys present in every result that did not fail. */
  const AlwaysKeys: set<string> :=
    {"main_summary", "key_takeaways", "important_quotes", "action_items", "timeline", "questions_and_answers"}

  /** The six entries of every result that did not fail. */
  function AlwaysEntries(a: AnalysisDict): (m: map<string, Json>)
    ensures m.Keys == AlwaysKeys
    ensures m["main_summary"] == JStr(a.mainSummary)
    ensures m["key_takeaways"] == StrList(a.keyTakeaways)
    ensures m["important_quotes"] == StrList(a.importantQuotes)
    ensures m["action_items"] == StrList(a.actionItems)
    ensures m["timeline"] == EventsJson(a.timeline)
    ensures m["questions_and_answers"] == QaPairsJson(a.questionsAndAnswers)
  {
    map["main_summary" := JStr(a.mainSummary)]
      ["key_takeaways" := StrList(a.keyTakeaways)]
      ["important_quotes" := StrList(a.importantQuotes)]
      ["action_items" := StrList(a.actionItems)]
      ["timeline" := EventsJson(a.timeline)]
      ["questions_and_answers" := QaPairsJson(a.questionsAndAnswers)]
  }

  /** The result as the dict the program returns. */
  function AsDict(r: Result<AnalysisDict, string>): (m: map<string, Json>)
    ensures r.Failure? ==> m == map["error" := JStr(r.error)]
  {
    match r
    case Failure(msg) => map["error" := JStr(msg)]
    case Success(a) =>
      var always := AlwaysEntries(a);
      var scores := a.sentimentAnalysis.GetOr(FallbackSentiment);
      var withTopics := PutIf(always, a.topics.Some?, "topics", StrList(a.topics.GetOr([])));
      var withSentiment := PutIf(withTopics, a.sentimentAnalysis.Some?, "sentiment_analysis", SentimentJson(scores));
      var withScore := PutIf(withSentiment, a.sentimentAnalysis.Some?, "sentiment_score", JReal(scores.overallScore));
      var withNotes := PutIf(withScore, a.studyNotes.Some?, "study_notes", SectionsJson(a.studyNotes.GetOr(map[])));
      PutIf(withNotes, a.businessInsights.Some?, "business_insights", SectionsJson(a.businessInsights.GetOr(map[])))
  }

  /** Which keys a result that did not fail has: the six always, each optional key exactly
      when its field is there, and never `error`. */
  lemma DictKeys(a: AnalysisDict)
    ensures AsDict(Success(a)).Keys == AlwaysKeys
      + (if a.topics.Some? then {"topics"} else {})
      + (if a.sentimentAnalysis.Some? then {"sentiment_analysis", "sentiment_score"} else {})
      + (if a.studyNotes.Some? then {"study_notes"} else {})
      + (if a.businessInsights.Some? then {"business_insights"} else {})
    ensures "error" !in AsDict(Success(a))
  {
  }

  /** The keys of `comprehensive_analysis`' result as its options decide them: `topics`
      exactly when topics are asked for, both sentiment keys exactly when sentiment is,
      study notes only for the Academic type and business insights only for the Business
      type, and the six others always. */
  lemma AnalysisKeys(opts: Options, r: Result<AnalysisDict, string>)
    requires r.Success?
    requires r.value.topics.Some? <==> opts.includeTopics
    requires r.value.sentimentAnalysis.Some? <==> opts.includeSentiment
    requires r.value.studyNotes.Some? <==> opts.summaryType == "Academic"
    requires r.value.businessInsights.Some? <==> opts.summaryType == "Business"
    ensures AsDict(r).Keys == AlwaysKeys
      + (if opts.includeTopics then {"topics"} else {})
      + (if opts.includeSentiment then {"sentiment_analysis", "sentiment_score"} else {})
      + (if opts.summaryType == "Academic" then {"study_notes"} else {})
      + (if opts.summaryType == "Business" then {"business_insights"} else {})
    ensures !("study_notes" in AsDict(r) && "business_insights" in AsDict(r))
  {
    DictKeys(r.value);
  }
}
