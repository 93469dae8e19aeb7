/**
 * The YouTube helpers: finding the video id in a link, rendering YouTube's durations and
 * transcript timestamps, and assembling, searching and scanning a transcript.
 */
module Youtube {
  import opened Wrappers
  import opened Text
  import opened Seqs
  import opened Decimal
  import opened Urls
  import Validators

  // ---------------------------------------------------------------------------------------
  // Video ids.
  // ---------------------------------------------------------------------------------------

  const ShortHost: string := "youtu.be"
  const ShortMarker: string := "youtu.be/"
  const LongHost: string := "youtube.com"

  /** The text after the last `youtu.be/` (all of `u` when there is none), cut at the
      first `?` and then at the first `&`. */
  function ShortLinkId(u: string): (id: string)
    ensures '?' !in id && '&' !in id
  {
    var pieces := SplitStr(u, ShortMarker);
    Before(Before(pieces[|pieces| - 1], '?'), '&')
  }

  /** `id` is the front of `t` up to its first `?` or `&`. */
  predicate CutAtQueryMark(t: string, id: string) {
    StartsWith(t, id) && '?' !in id && '&' !in id && (|id| == |t| || t[|id|] in {'?', '&'})
  }

  /** The group of the fallback pattern `(?:v=|/)([a-zA-Z0-9_-]{11})` where a match starts
      at `p`. */
  function IdMatchAt(u: string, p: nat): (r: Option<string>)
    ensures r.Some? ==> Validators.IsVideoIdText(r.value)
  {
    if p + 13 <= |u| && u[p..p + 2] == "v=" && Validators.IsVideoIdText(u[p + 2..p + 13]) then
      Some(u[p + 2..p + 13])
    else if p + 12 <= |u| && u[p] == '/' && Validators.IsVideoIdText(u[p + 1..p + 12]) then
      Some(u[p + 1..p + 12])
    else None
  }

  /** `re.search` of the fallback pattern from `p` on: the leftmost match. */
  function SearchIdFrom(u: string, p: nat): (r: Option<string>)
    ensures r.Some? ==> exists q | p <= q < |u| :: IdMatchAt(u, q) == r &&
                          forall j | p <= j < q :: IdMatchAt(u, j).None?
    ensures r.None? ==> forall j | p <= j < |u| :: IdMatchAt(u, j).None?
    decreases |u| - p
  {
    if p >= |u| then None
    else if IdMatchAt(u, p).Some? then IdMatchAt(u, p)
    else SearchIdFrom(u, p + 1)
  }

  /** `extract_video_id` on an already stripped URL. `None` is both "no id found" and the
      `ValueError` of `urlparse`, which the source catches. */
  function ExtractFrom(u: string): (r: Option<string>)
    ensures Contains(u, ShortHost) ==> r == Some(ShortLinkId(u))
    ensures !Contains(u, ShortHost) && !Contains(u, LongHost) ==> r == SearchIdFrom(u, 0)
  {
    if Contains(u, ShortHost) then Some(ShortLinkId(u))
    else if Contains(u, LongHost) && UrlSplit(u).Failure? then None
    else if Contains(u, LongHost) && FirstValue(QueryPairs(UrlSplit(u).value.query), "v").Some? then
      FirstValue(QueryPairs(UrlSplit(u).value.query), "v")
    else SearchIdFrom(u, 0)
  }

  /** Whether `query` names `v` in a field with a non-blank value, as `'v' in parse_qs(query)`. */
  predicate NamesV(query: string) {
    var pairs := QueryPairs(query);
    exists k | 0 <= k < |pairs| :: pairs[k].0 == "v"
  }

  /** `v` is the value of the first field of `query` that names `v` with a non-blank value:
      `parse_qs(query)['v'][0]`. */
  predicate IsFirstV(query: string, v: string) {
    var pairs := QueryPairs(query);
    v != [] && exists k | 0 <= k < |pairs| :: pairs[k] == ("v", v) && forall j | 0 <= j < k :: pairs[j].0 != "v"
  }

  /** `extract_video_id(url)`: the URL is stripped first; a `youtu.be` URL gives the text
      after its marker; a `youtube.com` URL gives its first non-blank `v` parameter, or
      nothing when `urlparse` raises; anything else falls back to the pattern search. */
  function ExtractVideoId(url: string): (r: Option<string>)
    ensures var u := Strip(url);
      Contains(u, ShortHost) ==> r == Some(ShortLinkId(u))
    ensures var u := Strip(url);
      !Contains(u, ShortHost) && Contains(u, LongHost) && UrlSplit(u).Failure? ==> r == None
    ensures var u := Strip(url);
      !Contains(u, ShortHost) && Contains(u, LongHost) && UrlSplit(u).Success? && NamesV(UrlSplit(u).value.query) ==>
        r.Some? && IsFirstV(UrlSplit(u).value.query, r.value)
    ensures var u := Strip(url);
      !Contains(u, ShortHost) && (!Contains(u, LongHost) || (UrlSplit(u).Success? && !NamesV(UrlSplit(u).value.query))) ==>
        r == SearchIdFrom(u, 0)
  {
    var u := Strip(url);
    if !Contains(u, ShortHost) && ExtractFrom(u).Some? then
      ExtractedIdNonEmpty(u);
      ExtractFrom(u)
    else ExtractFrom(u)
  }

  /** `Before(Before(t, '?'), '&')` is the front of `t` up to its first `?` or `&`. */
  lemma CutTwice(t: string)
    ensures CutAtQueryMark(t, Before(Before(t, '?'), '&'))
  {
    var a := Before(t, '?');
    var b := Before(a, '&');
    assert b == t[..|b|];
    forall c | c in b ensures c != '?' {
      var i :| 0 <= i < |b| && b[i] == c;
      assert a[i] == c;
    }
  }

  /** In the short-link branch the id follows the last `youtu.be/`, after which no other
      occurs, and runs up to the first `?` or `&`. */
  lemma ShortLinkIdAfterLastMarker(u: string)
    requires Contains(u, ShortMarker)
    ensures exists k | 0 <= k <= |u| - |ShortMarker| ::
              OccursAt(u, ShortMarker, k) && !Contains(u[k + |ShortMarker|..], ShortMarker) &&
              CutAtQueryMark(u[k + |ShortMarker|..], ShortLinkId(u))
  {
    var pieces := SplitStr(u, ShortMarker);
    var last := pieces[|pieces| - 1];
    var front := Join(pieces[..|pieces| - 1], ShortMarker);
    assert u == front + ShortMarker + last && !Contains(last, ShortMarker) by {
      SplitStrLastFree(u, ShortMarker);
      JoinSplit(u, ShortMarker);
      JoinSnoc(pieces, ShortMarker);
    }
    var k := |front|;
    assert OccursAt(u, ShortMarker, k) && u[k + |ShortMarker|..] == last by {
      assert u[k..k + |ShortMarker|] == ShortMarker;
    }
    assert CutAtQueryMark(last, ShortLinkId(u)) by {
      CutTwice(last);
    }
    assert 0 <= k <= |u| - |ShortMarker|;
  }

  /** With `youtu.be` but no `youtu.be/`, the id is the front of the whole URL. */
  lemma ShortLinkIdWithoutMarker(u: string)
    requires !Contains(u, ShortMarker)
    ensures CutAtQueryMark(u, ShortLinkId(u))
  {
    SplitStrLastFree(u, ShortMarker);
    JoinSplit(u, ShortMarker);
    CutTwice(u);
  }

  /** An id found outside the short-link branch is never empty: `parse_qs` drops blank
      values and the pattern needs eleven characters. */
  lemma ExtractedIdNonEmpty(u: string)
    requires !Contains(u, ShortHost) && ExtractFrom(u).Some?
    ensures ExtractFrom(u).value != []
  {
    if Contains(u, LongHost) && UrlSplit(u).Success? {
      var pairs := QueryPairs(UrlSplit(u).value.query);
      var v := FirstValue(pairs, "v");
      if v.Some? {
        var k :| 0 <= k < |pairs| && pairs[k] == ("v", v.value);
        FilterMapMembership(ParseField, SplitStr(UrlSplit(u).value.query, "&"), pairs[k]);
      }
    }
  }

  /** No character of `t` is whitespace at either end when both ends are id characters. */
  lemma StripOfIdEnds(t: string)
    requires |t| >= 1 && (IsLetter(t[0]) || IsDigit(t[0])) && Validators.IsIdChar(t[|t| - 1])
    ensures Strip(t) == t
  {
    Validators.PrintableNotSpace(t[0]);
    Validators.PrintableNotSpace(t[|t| - 1]);
    StripSetNoop(t, Whitespace);
  }

  /** The short link `https://youtu.be/<id>` gives the id. */
  lemma ExtractShortLink(id: string)
    requires Validators.IsVideoIdText(id)
    ensures ExtractVideoId("https://youtu.be/" + id) == Some(id)
  {
    var u := "https://youtu.be/" + id;
    ShortLinkOf(id);
    assert Strip(u) == u by {
      assert u[|u| - 1] == id[10] && id[10] in id;
      StripOfIdEnds(u);
    }
  }

  lemma ShortLinkOf(id: string)
    requires Validators.IsVideoIdText(id)
    ensures ExtractFrom("https://youtu.be/" + id) == Some(id)
  {
    var u := "https://youtu.be/" + id;
    assert u[8..16] == ShortHost;
    assert OccursAt(u, ShortHost, 8);
    ShortLinkPieces(id);
    assert '?' !in id && '&' !in id;
  }

  lemma ShortLinkPieces(id: string)
    requires Validators.IsVideoIdText(id)
    ensures SplitStr("https://youtu.be/" + id, ShortMarker) == ["https://", id]
  {
    assert "https://youtu.be/" + id == "https://" + ShortMarker + id;
    SplitStrFront("https://", ShortMarker, id);
    assert '/' !in id;
    SplitStrWholeAt(id, ShortMarker, 8);
  }

  /** `https://www.youtube.com/watch?v=` does not contain `youtu.be`, and an id adds no
      `.` that could complete one. */
  lemma WatchLinkNotShort(id: string)
    requires Validators.IsVideoIdText(id)
    ensures !Contains("https://www.youtube.com/watch?v=" + id, ShortHost)
  {
    var p := "https://www.youtube.com/watch?v=";
    var u := p + id;
    forall i | 0 <= i <= |u| - |ShortHost| ensures !OccursAt(u, ShortHost, i) {
      if i + 5 >= |p| {
        assert u[i + 5] == id[i + 5 - |p|];
        assert id[i + 5 - |p|] in id;
      } else {
        assert u[i] == p[i] && u[i + 5] == p[i + 5];
      }
      assert ShortHost[0] == 'y' && ShortHost[5] == '.';
      assert u[i..i + 8][5] == u[i + 5] && u[i..i + 8][0] == u[i];
    }
  }

  /** The query `v=<id>` has the single parameter `v` with value `<id>`. */
  lemma WatchQuery(id: string)
    requires Validators.IsVideoIdText(id)
    ensures FirstValue(QueryPairs("v=" + id), "v") == Some(id)
  {
    var field := "v=" + id;
    assert '&' !in field;
    SplitStrWhole(field, "&");
    WatchField(id);
    var fields: seq<string> := [field];
    assert fields[..0] == [];
    assert FilterMap(ParseField, fields) == [("v", id)];
  }

  lemma WatchField(id: string)
    requires Validators.IsVideoIdText(id)
    ensures ParseField("v=" + id) == Some(("v", id))
  {
    var field := "v=" + id;
    assert field[1] == '=' && field[0] != '=';
    assert Before(field, '=') == "v";
    assert After(field, '=') == id;
    assert '+' !in id;
    assert PlusToSpace(id) == id;
    assert PlusToSpace("v") == "v";
  }

  /** The watch link `https://www.youtube.com/watch?v=<id>` gives the id. */
  lemma ExtractWatchLink(id: string)
    requires Validators.IsVideoIdText(id)
    ensures ExtractVideoId("https://www.youtube.com/watch?v=" + id) == Some(id)
  {
    var u := "https://www.youtube.com/watch?v=" + id;
    WatchLinkOf(id);
    assert Strip(u) == u by {
      assert u[|u| - 1] == id[10] && id[10] in id;
      StripOfIdEnds(u);
    }
  }

  lemma WatchLinkOf(id: string)
    requires Validators.IsVideoIdText(id)
    ensures ExtractFrom("https://www.youtube.com/watch?v=" + id) == Some(id)
  {
    var u := "https://www.youtube.com/watch?v=" + id;
    WatchLinkNotShort(id);
    WatchLinkLong(id);
    WatchLinkSplit(id);
    WatchQuery(id);
  }

  lemma WatchLinkLong(id: string)
    ensures Contains("https://www.youtube.com/watch?v=" + id, LongHost)
  {
    var u := "https://www.youtube.com/watch?v=" + id;
    assert u[12..23] == LongHost;
    assert OccursAt(u, LongHost, 12);
  }

  lemma WatchLinkSplit(id: string)
    requires Validators.IsVideoIdText(id)
    ensures UrlSplit("https://www.youtube.com/watch?v=" + id).Success?
    ensures UrlSplit("https://www.youtube.com/watch?v=" + id).value.query == "v=" + id
  {
    var u := "https://www.youtube.com/watch?v=" + id;
    assert forall c <- "v=" + id :: ' ' < c && c !in Unsafe;
    WatchLinkShape(id);
    WatchLinkParts();
    QueryOf(u, "https", "www.youtube.com", "/watch", "v=" + id);
  }

  lemma WatchLinkParts()
    ensures |"https"| >= 1 && IsLetter("https"[0]) && forall c <- "https" :: IsSchemeChar(c)
    ensures forall c <- "www.youtube.com" :: c !in {'/', '?', '#', '[', ']'} && ' ' < c && c !in Unsafe
    ensures forall c <- "/watch" :: ' ' < c && c !in Unsafe
    ensures "/watch"[0] == '/' && '?' !in "/watch" && '#' !in "/watch"
  {
  }

  lemma WatchLinkShape(id: string)
    ensures "https://www.youtube.com/watch?v=" + id ==
            "https" + "://" + "www.youtube.com" + ("/watch" + "?" + ("v=" + id))
  {
    assert "https" + "://" == "https://";
    assert "https://" + "www.youtube.com" == "https://www.youtube.com";
    assert "/watch" + "?" + "v=" == "/watch?v=";
    assert "https://www.youtube.com" + "/watch?v=" == "https://www.youtube.com/watch?v=";
  }

  // ---------------------------------------------------------------------------------------
  // Durations and timestamps.
  // ---------------------------------------------------------------------------------------

  /** The value of a clock text `a:b:c` read back as seconds: each `:`-separated field a
      run of digits, worth sixty of the next one; `None` for anything else. */
  function ClockValue(fields: seq<string>): Option<nat>
  {
    if fields == [] then Some(0)
    else
      var front := ClockValue(fields[..|fields| - 1]);
      var field := fields[|fields| - 1];
      if front.None? || field == [] || !AllDigits(field) then None
      else Some(front.value * 60 + DigitsValue(field))
  }

  function ClockSeconds(t: string): Option<nat>
  {
    ClockValue(SplitStr(t, ":"))
  }

  /** `_format_timestamp(seconds)` for a whole number of seconds: `HH:MM:SS` from one hour
      on, `MM:SS` before. */
  function FormatTimestamp(seconds: nat): (r: string)
    ensures seconds < 3600 ==> |r| == 5 && r[2] == ':'
    ensures 3600 <= seconds < 360000 ==> |r| == 8 && r[2] == ':' && r[5] == ':'
  {
    var hours := seconds / 3600;
    var minutes := seconds % 3600 / 60;
    var secs := seconds % 60;
    if hours > 0 then Pad2(hours) + ":" + Pad2(minutes) + ":" + Pad2(secs)
    else Pad2(minutes) + ":" + Pad2(secs)
  }

  /** Three fields joined by `:` split back into them. */
  lemma ClockFields3(a: string, b: string, c: string)
    requires AllDigits(a) && AllDigits(b) && AllDigits(c)
    ensures SplitStr(a + ":" + b + ":" + c, ":") == [a, b, c]
  {
    assert Join([a, b, c], ":") == a + ":" + b + ":" + c by {
      assert [a, b, c][1..] == [b, c];
      assert [b, c][1..] == [c];
      assert Join([b, c], ":") == b + ":" + c;
      assert Join([a, b, c], ":") == a + ":" + (b + ":" + c);
    }
    assert ':' !in a && ':' !in b && ':' !in c;
    SplitJoin([a, b, c], ":");
  }

  /** Two fields joined by `:` split back into them. */
  lemma ClockFields2(a: string, b: string)
    requires AllDigits(a) && AllDigits(b)
    ensures SplitStr(a + ":" + b, ":") == [a, b]
  {
    assert Join([a, b], ":") == a + ":" + b by {
      assert [a, b][1..] == [b];
    }
    assert ':' !in a && ':' !in b;
    SplitJoin([a, b], ":");
  }

  /** The clock value of a text with three and with two fields. */
  lemma ClockSeconds3(a: string, b: string, c: string)
    requires a != [] && b != [] && c != [] && AllDigits(a) && AllDigits(b) && AllDigits(c)
    ensures ClockSeconds(a + ":" + b + ":" + c) == Some((DigitsValue(a) * 60 + DigitsValue(b)) * 60 + DigitsValue(c))
  {
    ClockFields3(a, b, c);
    ClockValue3(a, b, c);
  }

  lemma ClockValue3(a: string, b: string, c: string)
    requires a != [] && b != [] && c != [] && AllDigits(a) && AllDigits(b) && AllDigits(c)
    ensures ClockValue([a, b, c]) == Some((DigitsValue(a) * 60 + DigitsValue(b)) * 60 + DigitsValue(c))
  {
    assert [a, b, c][..2] == [a, b];
    ClockValue2(a, b);
  }

  lemma ClockSeconds2(a: string, b: string)
    requires a != [] && b != [] && AllDigits(a) && AllDigits(b)
    ensures ClockSeconds(a + ":" + b) == Some(DigitsValue(a) * 60 + DigitsValue(b))
  {
    ClockFields2(a, b);
    ClockValue2(a, b);
  }

  lemma ClockValue2(a: string, b: string)
    requires a != [] && b != [] && AllDigits(a) && AllDigits(b)
    ensures ClockValue([a, b]) == Some(DigitsValue(a) * 60 + DigitsValue(b))
  {
    assert [a, b][..1] == [a];
    assert [a][..0] == [];
    assert ClockValue([]) == Some(0);
    assert ClockValue([a]) == Some(DigitsValue(a));
  }

  /** Reading a formatted timestamp back gives the seconds it was made from. */
  lemma TimestampReadsBack(seconds: nat)
    ensures ClockSeconds(FormatTimestamp(seconds)) == Some(seconds)
  {
    var hours := seconds / 3600;
    var minutes := seconds % 3600 / 60;
    var secs := seconds % 60;
    HoursMinutesSeconds(seconds);
    if hours > 0 {
      PaddedReadsBack3(hours, minutes, secs);
    } else {
      PaddedReadsBack2(minutes, secs);
    }
  }

  lemma PaddedReadsBack3(h: nat, m: nat, s: nat)
    ensures ClockSeconds(Pad2(h) + ":" + Pad2(m) + ":" + Pad2(s)) == Some((h * 60 + m) * 60 + s)
  {
    ValueOfPad2(h);
    ValueOfPad2(m);
    ValueOfPad2(s);
    PadNonEmpty(h);
    PadNonEmpty(m);
    PadNonEmpty(s);
    ClockSeconds3(Pad2(h), Pad2(m), Pad2(s));
  }

  lemma PaddedReadsBack2(m: nat, s: nat)
    ensures ClockSeconds(Pad2(m) + ":" + Pad2(s)) == Some(m * 60 + s)
  {
    ValueOfPad2(m);
    ValueOfPad2(s);
    PadNonEmpty(m);
    PadNonEmpty(s);
    ClockSeconds2(Pad2(m), Pad2(s));
  }

  lemma PadNonEmpty(n: nat)
    ensures Pad2(n) != []
  {
  }

  /** The hour, minute and second fields put back together give the total. */
  lemma HoursMinutesSeconds(seconds: nat)
    ensures (seconds / 3600 * 60 + seconds % 3600 / 60) * 60 + seconds % 60 == seconds
    ensures seconds % 3600 / 60 < 60 && seconds % 60 < 60
  {
    var h := seconds / 3600;
    var rest := seconds % 3600;
    assert seconds == h * 3600 + rest;
    assert rest == rest / 60 * 60 + rest % 60;
    assert rest % 60 == seconds % 60 by {
      assert seconds == (h * 60 + rest / 60) * 60 + rest % 60;
    }
  }

  /** One optional `(\d+)X` group of the duration pattern at the front of `s`: its value
      (0 when the group does not match) and the text after it. */
  function Designator(s: string, unit: char): (r: (nat, string))
    requires !IsDigit(unit)
    ensures |r.1| <= |s|
  {
    var n := DigitSpan(s);
    if 0 < n < |s| && s[n] == unit then (DigitsValue(s[..n]), s[n + 1..]) else (0, s)
  }

  /** The hours, minutes and seconds `re.match` of `PT(?:(\d+)H)?(?:(\d+)M)?(?:(\d+)S)?`
      finds; `None` when the text does not begin with `PT`. */
  function DurationFields(d: string): (r: Option<(nat, nat, nat)>)
    ensures r.None? <==> !StartsWith(d, "PT")
  {
    if !StartsWith(d, "PT") then None
    else
      var (h, afterHours) := Designator(d[2..], 'H');
      var (m, afterMinutes) := Designator(afterHours, 'M');
      var (s, _) := Designator(afterMinutes, 'S');
      Some((h, m, s))
  }

  /** `_parse_duration(d)`: the fields rendered, or "Unknown" when the pattern does not
      match. */
  function ParseDuration(d: string): (r: string)
    ensures r == "Unknown" <==> !StartsWith(d, "PT")
  {
    match DurationFields(d)
    case None => "Unknown"
    case Some((h, m, s)) =>
      var r := DurationText(h, m, s);
      assert "Unknown"[0] == 'U';
      r
  }

  /** `h:MM:SS` when there are hours, else `m:SS`; the leading field is not padded. */
  function DurationText(h: nat, m: nat, s: nat): (r: string)
    ensures r != [] && IsDigit(r[0])
  {
    if h > 0 then NatStr(h) + ":" + Pad2(m) + ":" + Pad2(s) else NatStr(m) + ":" + Pad2(s)
  }

  /** The ISO 8601 time designators YouTube writes: `PT`, then `<h>H`, `<m>M`, `<s>S`
      each only when non-zero. */
  function IsoDuration(h: nat, m: nat, s: nat): string
  {
    "PT" + (if h > 0 then NatStr(h) + "H" else "") + (if m > 0 then NatStr(m) + "M" else "")
      + (if s > 0 then NatStr(s) + "S" else "")
  }

  /** A designator that is present is read with its value. */
  lemma DesignatorPresent(n: nat, unit: char, rest: string)
    requires !IsDigit(unit)
    ensures Designator(NatStr(n) + [unit] + rest, unit) == (n, rest)
  {
    var digits := NatStr(n);
    var s := digits + [unit] + rest;
    assert s == digits + ([unit] + rest);
    DigitSpanOf(digits, [unit] + rest);
    assert s[..|digits|] == digits;
    assert s[|digits| + 1..] == rest;
    ValueOfNatStr(n);
  }

  /** A designator that is absent reads as 0 and consumes nothing when the text goes on
      with another designator. */
  lemma DesignatorAbsent(k: nat, other: char, rest: string, unit: char)
    requires !IsDigit(unit) && !IsDigit(other) && other != unit
    ensures Designator(NatStr(k) + [other] + rest, unit) == (0, NatStr(k) + [other] + rest)
  {
    var digits := NatStr(k);
    assert digits + [other] + rest == digits + ([other] + rest);
    DigitSpanOf(digits, [other] + rest);
  }

  /** Reading the designators YouTube writes gives back the hours, minutes and seconds. */
  lemma DurationFieldsOfIso(h: nat, m: nat, s: nat)
    ensures DurationFields(IsoDuration(h, m, s)) == Some((h, m, s))
  {
    var hPart := if h > 0 then NatStr(h) + "H" else "";
    var mPart := if m > 0 then NatStr(m) + "M" else "";
    var sPart := if s > 0 then NatStr(s) + "S" else "";
    var d := IsoDuration(h, m, s);
    assert d == "PT" + (hPart + (mPart + sPart));
    assert StartsWith(d, "PT") && d[2..] == hPart + (mPart + sPart);
    HoursDesignator(h, m, s);
    MinutesDesignator(m, s);
    SecondsDesignator(s);
  }

  lemma HoursDesignator(h: nat, m: nat, s: nat)
    ensures var mPart := if m > 0 then NatStr(m) + "M" else "";
            var sPart := if s > 0 then NatStr(s) + "S" else "";
            Designator((if h > 0 then NatStr(h) + "H" else "") + (mPart + sPart), 'H') == (h, mPart + sPart)
  {
    var mPart := if m > 0 then NatStr(m) + "M" else "";
    var sPart := if s > 0 then NatStr(s) + "S" else "";
    if h > 0 {
      assert NatStr(h) + "H" + (mPart + sPart) == NatStr(h) + ['H'] + (mPart + sPart);
      DesignatorPresent(h, 'H', mPart + sPart);
    } else {
      assert "" + (mPart + sPart) == mPart + sPart;
      if m > 0 {
        assert mPart + sPart == NatStr(m) + ['M'] + sPart;
        DesignatorAbsent(m, 'M', sPart, 'H');
      } else if s > 0 {
        assert mPart + sPart == NatStr(s) + ['S'] + "";
        DesignatorAbsent(s, 'S', "", 'H');
      } else {
        assert mPart + sPart == [];
      }
    }
  }

  lemma MinutesDesignator(m: nat, s: nat)
    ensures var sPart := if s > 0 then NatStr(s) + "S" else "";
            Designator((if m > 0 then NatStr(m) + "M" else "") + sPart, 'M') == (m, sPart)
  {
    var sPart := if s > 0 then NatStr(s) + "S" else "";
    if m > 0 {
      assert NatStr(m) + "M" + sPart == NatStr(m) + ['M'] + sPart;
      DesignatorPresent(m, 'M', sPart);
    } else {
      assert "" + sPart == sPart;
      if s > 0 {
        assert sPart == NatStr(s) + ['S'] + "";
        DesignatorAbsent(s, 'S', "", 'M');
      }
    }
  }

  lemma SecondsDesignator(s: nat)
    ensures Designator(if s > 0 then NatStr(s) + "S" else "", 'S').0 == s
  {
    if s > 0 {
      assert NatStr(s) + "S" == NatStr(s) + ['S'] + "";
      DesignatorPresent(s, 'S', "");
    }
  }

  /** The rendered duration read back as a clock gives the total number of seconds, with
      minutes past 59 kept as they are when there are no hours. */
  lemma DurationReadsBack(h: nat, m: nat, s: nat)
    ensures ClockSeconds(ParseDuration(IsoDuration(h, m, s))) == Some(h * 3600 + m * 60 + s)
  {
    DurationFieldsOfIso(h, m, s);
    assert ParseDuration(IsoDuration(h, m, s)) == DurationText(h, m, s);
    DurationTextReadsBack(h, m, s);
  }

  lemma DurationTextReadsBack(h: nat, m: nat, s: nat)
    ensures ClockSeconds(DurationText(h, m, s)) == Some(h * 3600 + m * 60 + s)
  {
    if h > 0 {
      HoursTextReadsBack(h, m, s);
    } else {
      MinutesTextReadsBack(m, s);
    }
  }

  lemma HoursTextReadsBack(h: nat, m: nat, s: nat)
    requires h > 0
    ensures ClockSeconds(NatStr(h) + ":" + Pad2(m) + ":" + Pad2(s)) == Some(h * 3600 + m * 60 + s)
  {
    ValueOfPad2(m);
    ValueOfPad2(s);
    PadNonEmpty(m);
    PadNonEmpty(s);
    ValueOfNatStr(h);
    ClockSeconds3(NatStr(h), Pad2(m), Pad2(s));
  }

  lemma MinutesTextReadsBack(m: nat, s: nat)
    ensures ClockSeconds(NatStr(m) + ":" + Pad2(s)) == Some(m * 60 + s)
  {
    ValueOfPad2(s);
    PadNonEmpty(s);
    ValueOfNatStr(m);
    ClockSeconds2(NatStr(m), Pad2(s));
  }

  // ---------------------------------------------------------------------------------------
  // Transcripts.
  // ---------------------------------------------------------------------------------------

  /** One entry of the transcript service: start and duration in whole seconds. */
  datatype Entry = Entry(start: nat, duration: nat, text: string)

  /** One timestamped segment of the assembled transcript. */
  datatype Segment = Segment(timestamp: string, startTime: nat, duration: nat, text: string)

  /** The transcript record `extract_transcript` returns. */
  datatype Transcript = Transcript(
    text: string,
    segments: seq<Segment>,
    languageCodes: seq<string>,
    totalSegments: nat,
    totalDuration: nat)

  /** The segment made of one entry. */
  function SegmentOf(e: Entry): Segment
  {
    Segment(FormatTimestamp(e.start), e.start, e.duration, Strip(e.text))
  }

  /** The texts of the segments, in order. */
  function Texts(segments: seq<Segment>): (r: seq<string>)
    ensures |r| == |segments| && forall i | 0 <= i < |segments| :: r[i] == segments[i].text
  {
    seq(|segments|, i requires 0 <= i < |segments| => segments[i].text)
  }

  /** The running text the loop builds: a space before every segment's text. */
  function SpacedTexts(segments: seq<Segment>): string
  {
    if segments == [] then ""
    else SpacedTexts(segments[..|segments| - 1]) + " " + segments[|segments| - 1].text
  }

  /** The running text is a space followed by the texts joined by single spaces. */
  lemma {:induction false} SpacedTextsJoin(segments: seq<Segment>)
    requires segments != []
    ensures SpacedTexts(segments) == " " + Join(Texts(segments), " ")
  {
    var n := |segments|;
    if n == 1 {
      assert SpacedTexts(segments[..0]) == "";
    } else {
      var front := segments[..n - 1];
      SpacedTextsJoin(front);
      assert Texts(segments)[..n - 1] == Texts(front);
      JoinSnoc(Texts(segments), " ");
    }
  }

  /** The segment-building loop of `extract_transcript`: one segment per entry, the text
      of all entries joined by spaces, the count, and the end of the last entry as the
      total duration. `languages` is what listing the available transcripts gave, `None`
      when that failed. */
  method BuildTranscript(entries: seq<Entry>, languages: Option<seq<string>>) returns (t: Transcript)
    ensures |t.segments| == |entries|
    ensures forall i | 0 <= i < |entries| :: t.segments[i] == SegmentOf(entries[i])
    ensures t.text == Strip(Join(Texts(t.segments), " "))
    ensures t.totalSegments == |t.segments|
    ensures t.totalDuration == if entries == [] then 0
                               else entries[|entries| - 1].start + entries[|entries| - 1].duration
    ensures t.languageCodes == if languages.Some? then languages.value else ["en"]
  {
    var fullText := "";
    var segments: seq<Segment> := [];
    for i := 0 to |entries|
      invariant |segments| == i
      invariant forall k | 0 <= k < i :: segments[k] == SegmentOf(entries[k])
      invariant fullText == SpacedTexts(segments)
    {
      var segment := SegmentOf(entries[i]);
      fullText := fullText + " " + segment.text;
      var extended := segments + [segment];
      assert extended[..i] == segments;
      forall k | 0 <= k < i + 1 ensures extended[k] == SegmentOf(entries[k]) {
        if k < i {
          assert extended[k] == segments[k];
        }
      }
      segments := extended;
    }
    if segments != [] {
      SpacedTextsJoin(segments);
      assert ' ' in Whitespace;
      StripSetCons(' ', Join(Texts(segments), " "), Whitespace);
    }
    var codes := if languages.Some? then languages.value else ["en"];
    var total := if segments == [] then 0
                 else segments[|segments| - 1].startTime + segments[|segments| - 1].duration;
    t := Transcript(Strip(fullText), segments, codes, |segments|, total);
  }

  /** A search hit. */
  datatype Hit = Hit(timestamp: string, text: string, startTime: nat)

  /** Whether a segment's text contains the query, both lower-cased. */
  predicate Mentions(segment: Segment, query: string) {
    Contains(Lower(segment.text), Lower(query))
  }

  function HitOf(segment: Segment): Hit {
    Hit(segment.timestamp, segment.text, segment.startTime)
  }

  /** The hits the search keeps, in segment order. */
  function SearchHits(segments: seq<Segment>, query: string): seq<Hit>
  {
    FilterMap((s: Segment) => if Mentions(s, query) then Some(HitOf(s)) else None, segments)
  }

  /** `search_transcript`. */
  method SearchTranscript(segments: seq<Segment>, query: string) returns (hits: seq<Hit>)
    ensures hits == SearchHits(segments, query)
  {
    hits := [];
    for i := 0 to |segments|
      invariant hits == SearchHits(segments[..i], query)
    {
      FilterMapStep((s: Segment) => if Mentions(s, query) then Some(HitOf(s)) else None, segments, i);
      if Contains(Lower(segments[i].text), Lower(query)) {
        hits := hits + [HitOf(segments[i])];
      }
    }
    assert segments[..|segments|] == segments;
  }

  /** A hit is found exactly when some segment mentions the query and gives that hit. */
  lemma SearchHitsExact(segments: seq<Segment>, query: string, h: Hit)
    ensures h in SearchHits(segments, query) <==>
            exists s <- segments :: Mentions(s, query) && h == HitOf(s)
  {
    var f := (s: Segment) => if Mentions(s, query) then Some(HitOf(s)) else None;
    FilterMapMembership(f, segments, h);
    assert (exists s <- segments :: f(s) == Some(h)) <==>
           (exists s <- segments :: Mentions(s, query) && h == HitOf(s));
  }

  /** The keywords that mark a possible chapter title. */
  const ChapterKeywords: seq<string> := ["chapter", "section", "part", "introduction", "conclusion", "overview"]

  /** A chapter found in the transcript. */
  datatype Chapter = Chapter(timestamp: string, title: string, startTime: nat)

  predicate IsChapterText(text: string) {
    exists k | 0 <= k < |ChapterKeywords| :: Contains(Lower(text), ChapterKeywords[k])
  }

  function ChapterOf(segment: Segment): Chapter {
    Chapter(segment.timestamp, segment.text, segment.startTime)
  }

  /** The chapters kept, in segment order. */
  function Chapters(segments: seq<Segment>): seq<Chapter>
  {
    FilterMap((s: Segment) => if IsChapterText(s.text) then Some(ChapterOf(s)) else None, segments)
  }

  /** `get_video_chapters`. */
  method GetVideoChapters(segments: seq<Segment>) returns (chapters: seq<Chapter>)
    ensures chapters == Chapters(segments)
  {
    chapters := [];
    for i := 0 to |segments|
      invariant chapters == Chapters(segments[..i])
    {
      FilterMapStep((s: Segment) => if IsChapterText(s.text) then Some(ChapterOf(s)) else None, segments, i);
      var textLower := Lower(segments[i].text);
      var found := false;
      for k := 0 to |ChapterKeywords|
        invariant found <==> exists j | 0 <= j < k :: Contains(textLower, ChapterKeywords[j])
      {
        if Contains(textLower, ChapterKeywords[k]) {
          found := true;
        }
      }
      if found {
        chapters := chapters + [ChapterOf(segments[i])];
      }
    }
    assert segments[..|segments|] == segments;
  }

  /** A chapter is found exactly when some segment's text holds a keyword, with that
      segment's text as its title. */
  lemma ChaptersExact(segments: seq<Segment>, c: Chapter)
    ensures c in Chapters(segments) <==>
            exists s <- segments :: IsChapterText(s.text) && c == ChapterOf(s)
  {
    var f := (s: Segment) => if IsChapterText(s.text) then Some(ChapterOf(s)) else None;
    FilterMapMembership(f, segments, c);
    assert (exists s <- segments :: f(s) == Some(c)) <==>
           (exists s <- segments :: IsChapterText(s.text) && c == ChapterOf(s));
  }
}
