/**
 * The session store: analysis sessions saved as JSON files in the sessions directory,
 * the history of recent sessions kept in the page state, and the queries over the saved
 * sessions (recent ones, search, statistics, clean-up).
 *
 * The directory is a map from file name (without `.json`) to the stored object and its
 * modification time. What the source draws from its surroundings is a parameter: the new
 * session id (an md5 hash of URL and time), the `isoformat()` times, the modification
 * times, the order `glob` lists the files in, and the parsing of a creation date.
 */
module SessionManager {
  import opened Wrappers
  import opened Text
  import opened Seqs
  import opened JsonValues
  import Validators

  /** One file of the sessions directory. */
  datatype Stored = Stored(data: map<string, Json>, mtime: int)

  /** What one `save_session` takes from its surroundings: the generated id, the two
      `isoformat()` times and the modification time the file gets. */
  datatype Stamp = Stamp(id: string, createdAt: string, accessedAt: string, mtime: int)

  /** The preferences file shares the directory with the sessions. */
  const PreferencesFile: string := "user_preferences"

  /** `_get_default_preferences`. */
  function DefaultPreferences(): (prefs: map<string, Json>)
    ensures Get(prefs, "max_session_history", JInt(50)) == JInt(50)
  {
    var p := Validators.Preferences("Comprehensive", "English", true, true, true, true, "PDF", 50, "light");
    Validators.PreferencesDictLookups(p);
    Validators.PreferencesDict(p)
  }

  /** `dict.get(outer, {}).get(inner, default)`: `None` where the outer value is there but
      is not a dict, so that `.get` raises. */
  function Nested(data: map<string, Json>, outer: string, inner: string, default: Json): (r: Option<Json>)
    ensures outer !in data ==> r == Some(default)
    ensures outer in data && data[outer].JObj? ==> r == Some(Get(data[outer].fields, inner, default))
    ensures outer in data && !data[outer].JObj? ==> r.None?
  {
    var o := Get(data, outer, JObj(map[]));
    if o.JObj? then Some(Get(o.fields, inner, default)) else None
  }

  // ---------------------------------------------------------------------------------------
  // Saving and the in-memory history.
  // ---------------------------------------------------------------------------------------

  /** The session dict after `save_session` has stamped it. */
  function Stamped(data: map<string, Json>, s: Stamp): (r: map<string, Json>)
    ensures r.Keys == data.Keys + {"session_id", "created_at", "last_accessed"}
    ensures r["session_id"] == JStr(s.id) && r["created_at"] == JStr(s.createdAt) && r["last_accessed"] == JStr(s.accessedAt)
    ensures forall k <- data | k !in {"session_id", "created_at", "last_accessed"} :: r[k] == data[k]
  {
    data["session_id" := JStr(s.id)]["created_at" := JStr(s.createdAt)]["last_accessed" := JStr(s.accessedAt)]
  }

  /** One entry of `session_history`. */
  datatype HistoryItem = HistoryItem(sessionId: Json, title: Json, timestamp: Json, summaryType: Json)

  /** The history entry for a session dict; `None` where reading it raises. */
  function HistoryItemOf(data: map<string, Json>): (r: Option<HistoryItem>)
    ensures r.Some? ==> r.value.sessionId == Get(data, "session_id", JNull) && r.value.timestamp == Get(data, "created_at", JNull)
    ensures "video_info" !in data && "settings" !in data ==>
      r.Some? && r.value.title == JStr("Unknown Video") && r.value.summaryType == JStr("Comprehensive")
  {
    var title := Nested(data, "video_info", "title", JStr("Unknown Video"));
    var kind := Nested(data, "settings", "summary_type", JStr("Comprehensive"));
    if title.None? || kind.None? then None
    else Some(HistoryItem(Get(data, "session_id", JNull), title.value, Get(data, "created_at", JNull), kind.value))
  }

  /** The bound `[:max_history]` applies: a number (`True` and `False` count as 1 and 0);
      `None` and every other value leave the list whole (`[:None]`, or a `TypeError` after the
      insertion). */
  function HistoryLimit(v: Json): (n: Option<int>)
    ensures v.JInt? ==> n == Some(v.i)
  {
    match v
    case JInt(i) => Some(i)
    case JBool(b) => Some(if b then 1 else 0)
    case _ => None
  }

  /** `_add_to_history`: the new entry first, the earlier ones behind it in order, cut to
      `max_session_history` (50 by default). */
  function HistoryAfter(history: seq<HistoryItem>, item: Option<HistoryItem>, prefs: map<string, Json>): (r: seq<HistoryItem>)
    ensures item.None? ==> r == history
    ensures item.Some? && HistoryLimit(Get(prefs, "max_session_history", JInt(50))).None? ==> r == [item.value] + history
  {
    if item.None? then history
    else
      var longer := [item.value] + history;
      match HistoryLimit(Get(prefs, "max_session_history", JInt(50)))
      case Some(n) => SliceTo(longer, n)
      case None => longer
  }

  /** With a positive bound the new entry leads, followed by the newest earlier entries in
      their order, and there are never more entries than the bound. */
  lemma AddToHistoryBounded(history: seq<HistoryItem>, item: HistoryItem, prefs: map<string, Json>, n: int)
    requires HistoryLimit(Get(prefs, "max_session_history", JInt(50))) == Some(n) && n >= 1
    ensures var r := HistoryAfter(history, Some(item), prefs);
      && |r| <= n && r != [] && r[0] == item
      && r[1..] == Take(history, n - 1)
  {
    var r := HistoryAfter(history, Some(item), prefs);
    assert r == ([item] + history)[..|r|];
  }

  /** Without a setting, the history keeps the fifty newest entries. */
  lemma DefaultHistoryBound(history: seq<HistoryItem>, item: HistoryItem)
    ensures |HistoryAfter(history, Some(item), DefaultPreferences())| <= 50
  {
    AddToHistoryBounded(history, item, DefaultPreferences(), 50);
  }

  // ---------------------------------------------------------------------------------------
  // Ordering by modification time.
  // ---------------------------------------------------------------------------------------

  /** Every element ranks at least as high as every later one. */
  ghost predicate NonIncreasing<T>(s: seq<T>, key: T -> int) {
    forall i, j | 0 <= i < j < |s| :: key(s[i]) >= key(s[j])
  }

  /** `x` placed ahead of the first element that ranks lower, after every element that ranks
      as high: one step of a stable sort, highest first. */
  function InsertDesc<T>(x: T, s: seq<T>, key: T -> int): (r: seq<T>)
    ensures multiset(r) == multiset(s) + multiset{x} && |r| == |s| + 1
    decreases |s|
  {
    if s == [] then [x]
    else if key(s[0]) < key(x) then
      assert s == [s[0]] + s[1..];
      [x] + s
    else
      assert s == [s[0]] + s[1..];
      [s[0]] + InsertDesc(x, s[1..], key)
  }

  /** Inserting under a bound stays under it. */
  lemma {:induction false} InsertDescBelow<T>(x: T, s: seq<T>, key: T -> int, bound: int)
    requires key(x) <= bound && forall y <- s :: key(y) <= bound
    ensures forall y <- InsertDesc(x, s, key) :: key(y) <= bound
    decreases |s|
  {
    if s != [] && key(s[0]) >= key(x) {
      InsertDescBelow(x, s[1..], key, bound);
    }
  }

  /** Inserting into a ranked sequence keeps it ranked. */
  lemma {:induction false} InsertDescRanked<T>(x: T, s: seq<T>, key: T -> int)
    requires NonIncreasing(s, key)
    ensures NonIncreasing(InsertDesc(x, s, key), key)
    decreases |s|
  {
    if s != [] && key(s[0]) >= key(x) {
      var rest := InsertDesc(x, s[1..], key);
      InsertDescRanked(x, s[1..], key);
      InsertDescBelow(x, s[1..], key, key(s[0]));
      var r := [s[0]] + rest;
      assert forall j | 1 <= j < |r| :: r[j] == rest[j - 1];
    }
  }

  /** `sorted(s, key=key, reverse=True)`: highest first, equals kept in their order. */
  function SortDesc<T>(s: seq<T>, key: T -> int): (r: seq<T>)
    ensures multiset(r) == multiset(s) && |r| == |s|
  {
    if s == [] then []
    else
      var front := s[..|s| - 1];
      assert s == front + [s[|s| - 1]];
      InsertDesc(s[|s| - 1], SortDesc(front, key), key)
  }

  /** The sort ranks highest first. */
  lemma {:induction false} SortDescRanked<T>(s: seq<T>, key: T -> int)
    ensures NonIncreasing(SortDesc(s, key), key)
  {
    if s != [] {
      SortDescRanked(s[..|s| - 1], key);
      InsertDescRanked(s[|s| - 1], SortDesc(s[..|s| - 1], key), key);
    }
  }

  /** The modification time `sort` ranks a file by. */
  function MtimeOf(files: map<string, Stored>): (key: string -> int)
  {
    name => if name in files then files[name].mtime else 0
  }

  /** The files as `glob` lists them: each once, and all of them. */
  predicate IsListing(listing: seq<string>, files: map<string, Stored>) {
    NoDuplicates(listing) && (forall n <- listing :: n in files) && (forall n <- files :: n in listing)
  }

  /** The files, newest first. */
  function ByRecency(files: map<string, Stored>, listing: seq<string>): (order: seq<string>)
    requires IsListing(listing, files)
    ensures multiset(order) == multiset(listing)
    ensures forall n <- files :: n in order
    ensures forall n <- order :: n in files
    ensures forall i, j | 0 <= i < j < |order| :: files[order[i]].mtime >= files[order[j]].mtime
  {
    var order := SortDesc(listing, MtimeOf(files));
    SortDescRanked(listing, MtimeOf(files));
    assert forall n <- order :: n in files by {
      forall n <- order ensures n in files {
        assert n in multiset(listing);
      }
    }
    assert forall n <- files :: n in order by {
      forall n <- files ensures n in order {
        assert n in multiset(order);
      }
    }
    order
  }

  // ---------------------------------------------------------------------------------------
  // Recent sessions.
  // ---------------------------------------------------------------------------------------

  /** The summary `get_recent_sessions` gives of one session. */
  datatype SessionInfo = SessionInfo(
    sessionId: Json, title: Json, channel: Json, duration: Json,
    createdAt: Json, lastAccessed: Json, summaryType: Json, url: Json)

  /** The summary of a stored dict, with the fixed defaults for missing details; `None`
      where `video_info` or `settings` is not a dict, and the file is skipped. */
  function InfoOf(data: map<string, Json>): (r: Option<SessionInfo>)
    ensures r.Some? <==> Nested(data, "video_info", "title", JNull).Some? && Nested(data, "settings", "summary_type", JNull).Some?
    ensures "video_info" !in data ==>
      r.Some? ==> r.value.title == JStr("Unknown Video") && r.value.channel == JStr("Unknown Channel") && r.value.duration == JStr("Unknown")
    ensures "settings" !in data ==> r.Some? ==> r.value.summaryType == JStr("Comprehensive")
    ensures r.Some? ==> r.value.sessionId == Get(data, "session_id", JNull) && r.value.url == Get(data, "url", JStr(""))
  {
    var title := Nested(data, "video_info", "title", JStr("Unknown Video"));
    var channel := Nested(data, "video_info", "channel", JStr("Unknown Channel"));
    var duration := Nested(data, "video_info", "duration", JStr("Unknown"));
    var kind := Nested(data, "settings", "summary_type", JStr("Comprehensive"));
    if title.None? || kind.None? then None
    else
      Some(SessionInfo(Get(data, "session_id", JNull), title.value, channel.value, duration.value,
        Get(data, "created_at", JNull), Get(data, "last_accessed", JNull), kind.value, Get(data, "url", JStr(""))))
  }

  /** The summary of a listed file. */
  function FileInfo(files: map<string, Stored>): (f: string -> Option<SessionInfo>)
  {
    name => if name in files then InfoOf(files[name].data) else None
  }

  /** `session_files[:limit]`, all of them for `limit=None`. */
  function Limited<T>(s: seq<T>, limit: Option<int>): (r: seq<T>)
    ensures |r| <= |s| && r == s[..|r|]
    ensures limit.None? ==> r == s
    ensures limit.Some? && limit.value >= 0 ==> |r| <= limit.value
  {
    if limit.None? then s else SliceTo(s, limit.value)
  }

  /** `get_recent_sessions(limit)`: the summaries of the newest `limit` files, newest
      first, skipping those that cannot be summarised. */
  function RecentSessions(files: map<string, Stored>, listing: seq<string>, limit: Option<int>): (r: seq<SessionInfo>)
    requires IsListing(listing, files)
    ensures limit.Some? && limit.value >= 0 ==> |r| <= limit.value
  {
    FilterMap(FileInfo(files), Limited(ByRecency(files, listing), limit))
  }

  /** The preferences file lies in the sessions directory, so the full listing summarises
      it like any session. */
  lemma PreferencesListed(files: map<string, Stored>, listing: seq<string>)
    requires IsListing(listing, files) && PreferencesFile in files
    requires "video_info" !in files[PreferencesFile].data && "settings" !in files[PreferencesFile].data
    ensures var info := InfoOf(files[PreferencesFile].data);
      && info.Some? && info.value.title == JStr("Unknown Video")
      && info.value in RecentSessions(files, listing, None)
  {
    var order := ByRecency(files, listing);
    assert PreferencesFile in order;
    FilterMapMembership(FileInfo(files), order, InfoOf(files[PreferencesFile].data).value);
  }

  // ---------------------------------------------------------------------------------------
  // Search.
  // ---------------------------------------------------------------------------------------

  /** Whether a summary matches the lower-cased query in its title or else its channel;
      `None` where one of them is not text and `.lower()` raises. */
  function MatchOf(queryLower: string, info: SessionInfo): (r: Option<bool>)
    ensures r == Some(true) <==>
      info.title.JStr? && (Contains(Lower(info.title.s), queryLower) || (info.channel.JStr? && Contains(Lower(info.channel.s), queryLower)))
  {
    if !info.title.JStr? then None
    else if Contains(Lower(info.title.s), queryLower) then Some(true)
    else if !info.channel.JStr? then None
    else Some(Contains(Lower(info.channel.s), queryLower))
  }

  /** The matching summaries in order; `None` when any test raises, and the search gives
      nothing. */
  function SearchResult(queryLower: string, infos: seq<SessionInfo>): (r: Option<seq<SessionInfo>>)
  {
    if infos == [] then Some([])
    else
      var front := SearchResult(queryLower, infos[..|infos| - 1]);
      var m := MatchOf(queryLower, infos[|infos| - 1]);
      if front.None? || m.None? then None
      else Some(front.value + (if m.value then [infos[|infos| - 1]] else []))
  }

  /** A search that does not raise keeps exactly the matching summaries, in their order. */
  lemma {:induction false} SearchFilters(queryLower: string, infos: seq<SessionInfo>)
    requires SearchResult(queryLower, infos).Some?
    ensures SearchResult(queryLower, infos).value == Filter(i => MatchOf(queryLower, i) == Some(true), infos)
    decreases |infos|
  {
    if infos != [] {
      SearchFilters(queryLower, infos[..|infos| - 1]);
    }
  }

  /** The search finds a summary exactly when its title or channel contains the query,
      ignoring case, and never lists one twice unless it appears twice. */
  lemma SearchExact(queryLower: string, infos: seq<SessionInfo>, x: SessionInfo)
    requires SearchResult(queryLower, infos).Some?
    ensures x in SearchResult(queryLower, infos).value <==> x in infos && MatchOf(queryLower, x) == Some(true)
    ensures multiset(SearchResult(queryLower, infos).value) <= multiset(infos)
  {
    SearchFilters(queryLower, infos);
    FilterMembership(i => MatchOf(queryLower, i) == Some(true), infos, x);
    FilterMultiset(i => MatchOf(queryLower, i) == Some(true), infos);
  }

  // ---------------------------------------------------------------------------------------
  // Statistics.
  // ---------------------------------------------------------------------------------------

  /** One entry of a counting dict, in insertion order. */
  datatype Count<K> = Count(key: K, n: nat)

  /** `counts[k] = counts.get(k, 0) + 1`. */
  function Bump<K(==)>(counts: seq<Count<K>>, k: K): (r: seq<Count<K>>)
    ensures |r| == |counts| || |r| == |counts| + 1
    ensures Total(r) == Total(counts) + 1
  {
    if counts == [] then [Count(k, 1)]
    else if counts[0].key == k then
      var r := [counts[0].(n := counts[0].n + 1)] + counts[1..];
      assert r[1..] == counts[1..];
      r
    else
      var rest := Bump(counts[1..], k);
      assert ([counts[0]] + rest)[1..] == rest;
      [counts[0]] + rest
  }

  /** The counts added up. */
  function Total<K>(counts: seq<Count<K>>): nat
  {
    if counts == [] then 0 else counts[0].n + Total(counts[1..])
  }

  /** The counting dict of some keys. */
  function Tally<K(==)>(keys: seq<K>): (r: seq<Count<K>>)
    ensures Total(r) == |keys|
  {
    if keys == [] then [] else Bump(Tally(keys[..|keys| - 1]), keys[|keys| - 1])
  }

  /** `counts.get(k, 0)`. */
  function CountOf<K(==)>(counts: seq<Count<K>>, k: K): nat
  {
    if counts == [] then 0
    else if counts[0].key == k then counts[0].n
    else CountOf(counts[1..], k)
  }

  /** A dict holds each key once. */
  predicate DistinctKeys<K(==)>(counts: seq<Count<K>>) {
    forall i, j | 0 <= i < j < |counts| :: counts[i].key != counts[j].key
  }

  /** Counting one more `k` raises its count by one, leaves the others, and keeps the keys
      distinct. */
  lemma {:induction false} BumpCounts<K>(counts: seq<Count<K>>, k: K, other: K)
    requires DistinctKeys(counts)
    ensures DistinctKeys(Bump(counts, k))
    ensures CountOf(Bump(counts, k), other) == CountOf(counts, other) + (if other == k then 1 else 0)
  {
    var r := Bump(counts, k);
    if counts != [] && counts[0].key != k {
      BumpCounts(counts[1..], k, other);
      BumpKeys(counts[1..], k);
      assert r[1..] == Bump(counts[1..], k);
      forall j | 1 <= j < |r| ensures r[0].key != r[j].key {
        assert r[j] == Bump(counts[1..], k)[j - 1];
      }
    } else if counts != [] {
      assert r[1..] == counts[1..];
    }
  }

  /** Counting `k` changes no key but `k`'s entry, which may be new at the end. */
  lemma {:induction false} BumpKeys<K>(counts: seq<Count<K>>, k: K)
    ensures var r := Bump(counts, k);
      forall i | 0 <= i < |r| :: r[i].key == k || (i < |counts| && r[i].key == counts[i].key)
  {
    if counts != [] && counts[0].key != k {
      BumpKeys(counts[1..], k);
      var r := Bump(counts, k);
      assert forall i | 1 <= i < |r| :: r[i] == Bump(counts[1..], k)[i - 1];
    }
  }

  /** The counting dict of some keys counts each key's occurrences. */
  lemma {:induction false} TallyCounts<K>(keys: seq<K>, k: K)
    ensures DistinctKeys(Tally(keys))
    ensures CountOf(Tally(keys), k) == multiset(keys)[k]
  {
    if keys != [] {
      var init := keys[..|keys| - 1];
      assert keys == init + [keys[|keys| - 1]];
      TallyCounts(init, k);
      BumpCounts(Tally(init), keys[|keys| - 1], k);
    }
  }

  /** `max(counts.keys(), key=counts.get)`: the first key with the highest count. */
  function MostCounted<K>(counts: seq<Count<K>>): (c: Count<K>)
    requires counts != []
    ensures c in counts
    ensures forall d <- counts :: d.n <= c.n
    ensures exists i | 0 <= i < |counts| :: counts[i] == c && FirstAtLeast(counts, i)
  {
    if |counts| == 1 then counts[0]
    else
      var front, last := counts[..|counts| - 1], counts[|counts| - 1];
      var best := MostCounted(front);
      if last.n > best.n then
        assert FirstAtLeast(counts, |counts| - 1) by {
          forall j | 0 <= j < |counts| - 1 ensures counts[j].n < last.n {
            assert counts[j] in front;
          }
        }
        last
      else
        assert exists i | 0 <= i < |counts| :: counts[i] == best && FirstAtLeast(counts, i) by {
          var i :| 0 <= i < |front| && front[i] == best && FirstAtLeast(front, i);
          assert counts[i] == best && FirstAtLeast(counts, i);
        }
        best
  }

  /** No entry before the `i`-th is counted as often as it. */
  predicate FirstAtLeast<K>(counts: seq<Count<K>>, i: nat)
    requires i < |counts|
  {
    forall j | 0 <= j < i :: counts[j].n < counts[i].n
  }

  /** What `get_session_stats` reports: the fixed record when there are no sessions, else
      the counts; `Failed` stands for the `{}` returned when a count raises. */
  datatype SessionStats =
    | NoSessions
    | Stats(
        totalSessions: nat,
        totalVideosAnalyzed: nat,
        favoriteSummaryType: Json,
        mostActiveDay: string,
        channelsAnalyzed: seq<Count<Json>>,
        summaryTypeDistribution: seq<Count<Json>>,
        activityByDate: seq<Count<string>>)
    | Failed

  /** The date a session was created on: `datetime.fromisoformat(created_at).date()` as
      `str()` writes it, or `None` where that raises; the parsing is a parameter. */
  function DateOf(createdAt: Json, parseDate: string -> Option<string>): Option<string>
  {
    if Truthy(createdAt) && createdAt.JStr? then parseDate(createdAt.s) else None
  }

  /** The stats of summaries whose summary types and channels can be dict keys. */
  function StatsOf(sessions: seq<SessionInfo>, parseDate: string -> Option<string>): (r: SessionStats)
    requires sessions != []
    ensures r.Stats? && r.totalSessions == r.totalVideosAnalyzed == |sessions|
    ensures Total(r.summaryTypeDistribution) == |sessions|
    ensures |r.channelsAnalyzed| <= 5 && NonIncreasing(r.channelsAnalyzed, (c: Count<Json>) => c.n)
  {
    var kinds := Tally(KindsOf(sessions));
    var channels := Tally(ChannelsOf(sessions));
    var dates := Tally(FilterMap(SessionDate(parseDate), sessions));
    var ranked := SortDesc(channels, (c: Count<Json>) => c.n);
    SortDescRanked(channels, (c: Count<Json>) => c.n);
    var top := Take(ranked, 5);
    Stats(|sessions|, |sessions|, MostCounted(kinds).key,
      if dates == [] then "None" else MostCounted(dates).key,
      top, kinds, dates)
  }

  /** The summary types of some sessions, in order. */
  function KindsOf(sessions: seq<SessionInfo>): (kinds: seq<Json>)
    ensures |kinds| == |sessions| && forall i | 0 <= i < |sessions| :: kinds[i] == sessions[i].summaryType
  {
    seq(|sessions|, i requires 0 <= i < |sessions| => sessions[i].summaryType)
  }

  /** The channels of some sessions, in order. */
  function ChannelsOf(sessions: seq<SessionInfo>): (channels: seq<Json>)
    ensures |channels| == |sessions| && forall i | 0 <= i < |sessions| :: channels[i] == sessions[i].channel
  {
    seq(|sessions|, i requires 0 <= i < |sessions| => sessions[i].channel)
  }

  /** The creation date of a session, where there is one. */
  function SessionDate(parseDate: string -> Option<string>): (f: SessionInfo -> Option<string>)
  {
    (s: SessionInfo) => DateOf(s.createdAt, parseDate)
  }

  /** Whether every summary type and channel can be a dict key. */
  predicate AllHashable(sessions: seq<SessionInfo>) {
    forall s <- sessions :: Hashable(s.summaryType) && Hashable(s.channel)
  }

  /** `get_session_stats` of the listed sessions. */
  function SessionStatsOf(sessions: seq<SessionInfo>, parseDate: string -> Option<string>): (r: SessionStats)
    ensures r.NoSessions? <==> sessions == []
    ensures r.Failed? <==> sessions != [] && !AllHashable(sessions)
  {
    if sessions == [] then NoSessions
    else if !AllHashable(sessions) then Failed
    else StatsOf(sessions, parseDate)
  }

  /** Each summary type is counted as often as sessions have it, the favourite is counted
      at least as often as any other, and the most active day has the most sessions. */
  lemma StatsCounts(sessions: seq<SessionInfo>, parseDate: string -> Option<string>, kind: Json, day: string)
    requires sessions != []
    ensures var r := StatsOf(sessions, parseDate);
      && DistinctKeys(r.summaryTypeDistribution)
      && CountOf(r.summaryTypeDistribution, kind) == multiset(KindsOf(sessions))[kind]
      && multiset(KindsOf(sessions))[kind] <= multiset(KindsOf(sessions))[r.favoriteSummaryType]
      && CountOf(r.activityByDate, day) == multiset(FilterMap(SessionDate(parseDate), sessions))[day]
  {
    var r := StatsOf(sessions, parseDate);
    var kinds := KindsOf(sessions);
    assert r.summaryTypeDistribution == Tally(kinds);
    TallyCounts(kinds, kind);
    var best := MostCounted(Tally(kinds));
    TallyCounts(kinds, best.key);
    CountOfEntry(Tally(kinds), best);
    if kind in kinds {
      TallyHas(kinds, kind);
      var c :| c in Tally(kinds) && c.key == kind;
      CountOfEntry(Tally(kinds), c);
    }
    TallyCounts(FilterMap(SessionDate(parseDate), sessions), day);
  }

  /** The reported channels are the first five of the channel counts ranked highest first
      (fewer when fewer channels were seen), each with its number of sessions, and a
      channel left out was seen no more often than the fifth one reported. */
  lemma StatsTopChannels(sessions: seq<SessionInfo>, parseDate: string -> Option<string>, channel: Json)
    requires sessions != []
    ensures var r := StatsOf(sessions, parseDate);
      var seen, top := ChannelsOf(sessions), r.channelsAnalyzed;
      var counts := Tally(seen);
      && top == SortDesc(counts, (c: Count<Json>) => c.n)[..|top|]
      && |top| == (if |counts| < 5 then |counts| else 5)
      && (forall c <- top :: c.key in seen && c.n == multiset(seen)[c.key])
      && (channel in seen ==> (exists c <- top :: c.key == channel)
                              || (|top| == 5 && multiset(seen)[channel] <= top[4].n))
  {
    var r := StatsOf(sessions, parseDate);
    var seen, top := ChannelsOf(sessions), r.channelsAnalyzed;
    var counts := Tally(seen);
    var ranked := SortDesc(counts, (c: Count<Json>) => c.n);
    assert top == Take(ranked, 5);
    RankedCounts(seen, ranked, 5);
    SortDescRanked(counts, (c: Count<Json>) => c.n);
    RankedLeftOut(seen, ranked, (c: Count<Json>) => c.n, 5, channel);
  }

  /** The first `n` entries of a ranking of the counting dict are counted keys, each with
      its number of occurrences. */
  lemma RankedCounts<K>(keys: seq<K>, ranked: seq<Count<K>>, n: nat)
    requires multiset(ranked) == multiset(Tally(keys))
    ensures forall c <- Take(ranked, n) :: c.key in keys && c.n == multiset(keys)[c.key]
  {
    TallyKeysIn(keys);
    forall c <- Take(ranked, n) ensures c.key in keys && c.n == multiset(keys)[c.key] {
      assert c in ranked;
      assert c in multiset(Tally(keys));
      TallyCounts(keys, c.key);
      CountOfEntry(Tally(keys), c);
    }
  }

  /** A counted key missing from the first `n` entries of a ranking, highest first, occurs
      no more often than the `n`-th entry's count. */
  lemma RankedLeftOut<K>(keys: seq<K>, ranked: seq<Count<K>>, key: Count<K> -> int, n: nat, k: K)
    requires n >= 1 && multiset(ranked) == multiset(Tally(keys))
    requires NonIncreasing(ranked, key) && forall c :: key(c) == c.n
    ensures var top := Take(ranked, n);
      k in keys ==> (exists c <- top :: c.key == k) || (|top| == n && multiset(keys)[k] <= top[n - 1].n)
  {
    var top := Take(ranked, n);
    if k in keys {
      TallyCounts(keys, k);
      TallyHas(keys, k);
      var e :| e in Tally(keys) && e.key == k;
      CountOfEntry(Tally(keys), e);
      assert e in multiset(ranked);
      var i :| 0 <= i < |ranked| && ranked[i] == e;
      if i < |top| {
        assert top[i] == e;
      } else {
        assert key(ranked[n - 1]) >= key(ranked[i]);
      }
    }
  }

  /** The most active day is "None" when no session has a date; otherwise it is a date of
      some session, no day has more sessions, and no day counted before it has as many. */
  lemma StatsActiveDay(sessions: seq<SessionInfo>, parseDate: string -> Option<string>, day: string)
    requires sessions != []
    ensures var r := StatsOf(sessions, parseDate);
      var dates := FilterMap(SessionDate(parseDate), sessions);
      var counts := Tally(dates);
      && (dates == [] ==> r.mostActiveDay == "None")
      && (dates != [] ==>
            && r.mostActiveDay in dates
            && multiset(dates)[day] <= multiset(dates)[r.mostActiveDay]
            && exists i | 0 <= i < |counts| :: counts[i].key == r.mostActiveDay && FirstAtLeast(counts, i))
  {
    var r := StatsOf(sessions, parseDate);
    var dates := FilterMap(SessionDate(parseDate), sessions);
    var counts := Tally(dates);
    if dates != [] {
      assert Total(counts) > 0;
      var best := MostCounted(counts);
      TallyKeysIn(dates);
      TallyCounts(dates, best.key);
      CountOfEntry(counts, best);
      TallyCounts(dates, day);
      if day in dates {
        TallyHas(dates, day);
        var c :| c in counts && c.key == day;
        CountOfEntry(counts, c);
      }
    }
  }

  /** Every entry of the counting dict is for a key that was counted. */
  lemma {:induction false} TallyKeysIn<K>(keys: seq<K>)
    ensures forall c <- Tally(keys) :: c.key in keys
  {
    if keys != [] {
      var init, last := keys[..|keys| - 1], keys[|keys| - 1];
      assert keys == init + [last];
      TallyKeysIn(init);
      BumpKeys(Tally(init), last);
      forall c <- Tally(keys) ensures c.key in keys {
        var i :| 0 <= i < |Tally(keys)| && Tally(keys)[i] == c;
        if c.key != last {
          assert Tally(init)[i] in Tally(init);
        }
      }
    }
  }

  /** An entry of a dict with distinct keys is what `get` finds for its key. */
  lemma {:induction false} CountOfEntry<K>(counts: seq<Count<K>>, c: Count<K>)
    requires DistinctKeys(counts) && c in counts
    ensures CountOf(counts, c.key) == c.n
  {
    if counts[0] != c {
      assert c in counts[1..];
      CountOfEntry(counts[1..], c);
    }
  }

  /** Every counted key has an entry. */
  lemma {:induction false} TallyHas<K>(keys: seq<K>, k: K)
    requires k in keys
    ensures exists c <- Tally(keys) :: c.key == k
  {
    var init, last := keys[..|keys| - 1], keys[|keys| - 1];
    assert keys == init + [last];
    var r := Tally(keys);
    if k == last {
      BumpHas(Tally(init), last);
    } else {
      TallyHas(init, k);
      var c :| c in Tally(init) && c.key == k;
      BumpKeeps(Tally(init), last, c);
    }
  }

  /** After counting `k` there is an entry for it. */
  lemma {:induction false} BumpHas<K>(counts: seq<Count<K>>, k: K)
    ensures exists c <- Bump(counts, k) :: c.key == k
  {
    if counts != [] && counts[0].key != k {
      BumpHas(counts[1..], k);
      var c :| c in Bump(counts[1..], k) && c.key == k;
      assert c in Bump(counts, k);
    } else {
      assert Bump(counts, k)[0].key == k;
    }
  }

  /** Counting keeps an entry for every key already counted. */
  lemma {:induction false} BumpKeeps<K>(counts: seq<Count<K>>, k: K, c: Count<K>)
    requires c in counts
    ensures exists d <- Bump(counts, k) :: d.key == c.key
  {
    if counts[0].key == k || counts[0] == c {
      assert Bump(counts, k)[0].key == counts[0].key;
    } else {
      assert c in counts[1..];
      BumpKeeps(counts[1..], k, c);
      var d :| d in Bump(counts[1..], k) && d.key == c.key;
      assert d in Bump(counts, k);
    }
  }

  // ---------------------------------------------------------------------------------------
  // The store.
  // ---------------------------------------------------------------------------------------

  /** The expired files: modified strictly before the cutoff. */
  function Expired(files: map<string, Stored>, cutoff: int): (names: set<string>)
    ensures forall n :: n in names <==> n in files && files[n].mtime < cutoff
  {
    set n | n in files && files[n].mtime < cutoff
  }

  /** The sessions directory and the page state `SessionManager` keeps. */
  class SessionStore {
    var files: map<string, Stored>
    var history: seq<HistoryItem>
    var current: Option<map<string, Json>>
    var preferences: map<string, Json>

    /** A store over a directory, with a fresh page state: empty history, no current
        session, and the preferences from their file or else the defaults. */
    constructor(directory: map<string, Stored>)
      ensures files == directory && history == [] && current == None
      ensures preferences == if PreferencesFile in directory then directory[PreferencesFile].data else DefaultPreferences()
    {
      files := directory;
      history := [];
      current := None;
      preferences := if PreferencesFile in directory then directory[PreferencesFile].data else DefaultPreferences();
    }

    /** `save_session`: the stamped session is written under its new id, becomes the
        current session and heads the history. */
    method SaveSession(data: map<string, Json>, stamp: Stamp) returns (id: string, saved: map<string, Json>)
      modifies this
      ensures id == stamp.id && saved == Stamped(data, stamp)
      ensures files == old(files)[id := Stored(saved, stamp.mtime)]
      ensures current == Some(saved)
      ensures history == HistoryAfter(old(history), HistoryItemOf(saved), old(preferences))
      ensures preferences == old(preferences)
    {
      id := stamp.id;
      saved := data;
      saved := saved["session_id" := JStr(id)];
      saved := saved["created_at" := JStr(stamp.createdAt)];
      saved := saved["last_accessed" := JStr(stamp.accessedAt)];
      files := files[id := Stored(saved, stamp.mtime)];
      current := Some(saved);
      AddToHistory(HistoryItemOf(saved));
    }

    /** `_add_to_history`: insert at the front, then cut to the preferred length. */
    method AddToHistory(item: Option<HistoryItem>)
      modifies this
      ensures history == HistoryAfter(old(history), item, preferences)
      ensures files == old(files) && current == old(current) && preferences == old(preferences)
    {
      if item.None? {
        return;
      }
      history := [item.value] + history;
      var bound := HistoryLimit(Get(preferences, "max_session_history", JInt(50)));
      if bound.Some? {
        history := SliceTo(history, bound.value);
      }
    }

    /** `load_session`: an unknown id gives nothing and changes nothing; a known one is
        saved again as a new session, and that copy is returned. */
    method LoadSession(id: string, stamp: Stamp) returns (r: Option<map<string, Json>>)
      modifies this
      ensures id !in old(files) ==> r.None? && files == old(files) && history == old(history) && current == old(current)
      ensures id in old(files) ==>
        && r == Some(Stamped(old(files)[id].data, stamp))
        && files == old(files)[stamp.id := Stored(r.value, stamp.mtime)]
        && current == r
        && history == HistoryAfter(old(history), HistoryItemOf(r.value), old(preferences))
      ensures preferences == old(preferences)
    {
      if id !in files {
        return None;
      }
      var data := files[id].data;
      data := data["last_accessed" := JStr(stamp.accessedAt)];
      var newId, saved := SaveSession(data, stamp);
      assert saved == Stamped(old(files)[id].data, stamp);
      r := Some(saved);
    }

    /** `get_recent_sessions(limit)`. */
    method GetRecentSessions(limit: Option<int>, listing: seq<string>) returns (infos: seq<SessionInfo>)
      requires IsListing(listing, files)
      ensures infos == RecentSessions(files, listing, limit)
    {
      infos := CollectInfos(files, Limited(ByRecency(files, listing), limit));
    }

    /** `delete_session`: true exactly when the file was there; afterwards it is not. */
    method DeleteSession(id: string) returns (deleted: bool)
      modifies this
      ensures deleted <==> id in old(files)
      ensures files == old(files) - {id}
      ensures history == old(history) && current == old(current) && preferences == old(preferences)
    {
      deleted := id in files;
      if deleted {
        files := files - {id};
      }
    }

    /** `cleanup_old_sessions`: the cutoff is `now` less `daysOld` days; every file
        modified strictly before it is deleted and counted, and no other. */
    method CleanupOldSessions(now: int, daysOld: int, listing: seq<string>) returns (count: nat)
      requires IsListing(listing, files)
      modifies this
      ensures files == old(files) - Expired(old(files), now - daysOld * 86400)
      ensures count == |Expired(old(files), now - daysOld * 86400)|
      ensures history == old(history) && current == old(current) && preferences == old(preferences)
    {
      files, count := RemoveExpired(files, now - daysOld * 86400, listing);
    }

    /** `save_user_preferences`: written to their file and kept in the page state. */
    method SaveUserPreferences(prefs: map<string, Json>, mtime: int) returns (ok: bool)
      modifies this
      ensures ok && preferences == prefs
      ensures files == old(files)[PreferencesFile := Stored(prefs, mtime)]
      ensures history == old(history) && current == old(current)
    {
      files := files[PreferencesFile := Stored(prefs, mtime)];
      preferences := prefs;
      ok := true;
    }

    /** `search_sessions(query, limit)`: the matching sessions among all of them, newest
        first, cut to `limit`; nothing when a title or channel is not text. */
    method SearchSessions(query: string, limit: int, listing: seq<string>) returns (found: seq<SessionInfo>)
      requires IsListing(listing, files)
      ensures found == match SearchResult(Lower(query), RecentSessions(files, listing, None))
                       case None => []
                       case Some(matches) => SliceTo(matches, limit)
    {
      var sessions := GetRecentSessions(None, listing);
      var matches := SearchLoop(Lower(query), sessions);
      found := if matches.None? then [] else SliceTo(matches.value, limit);
    }

    /** `get_session_stats`. */
    method GetSessionStats(listing: seq<string>, parseDate: string -> Option<string>) returns (stats: SessionStats)
      requires IsListing(listing, files)
      ensures stats == SessionStatsOf(RecentSessions(files, listing, None), parseDate)
    {
      var sessions := GetRecentSessions(None, listing);
      stats := CountSessions(sessions, parseDate);
    }
  }

  /** The loop of `get_recent_sessions` over the chosen files. */
  method CollectInfos(files: map<string, Stored>, chosen: seq<string>) returns (infos: seq<SessionInfo>)
    ensures infos == FilterMap(FileInfo(files), chosen)
  {
    infos := [];
    var i := 0;
    while i < |chosen|
      invariant 0 <= i <= |chosen|
      invariant infos == FilterMap(FileInfo(files), chosen[..i])
    {
      FilterMapStep(FileInfo(files), chosen, i);
      var info := if chosen[i] in files then InfoOf(files[chosen[i]].data) else None;
      if info.Some? {
        infos := infos + [info.value];
      }
      i := i + 1;
    }
    assert chosen[..i] == chosen;
  }

  /** The loop of `cleanup_old_sessions`: what is left, and how many were deleted. */
  method RemoveExpired(files: map<string, Stored>, cutoff: int, listing: seq<string>) returns (kept: map<string, Stored>, count: nat)
    requires IsListing(listing, files)
    ensures kept == files - Expired(files, cutoff)
    ensures count == |Expired(files, cutoff)|
  {
    kept := files;
    count := 0;
    var i := 0;
    while i < |listing|
      invariant 0 <= i <= |listing|
      invariant kept == files - ExpiredAmong(files, cutoff, listing[..i])
      invariant count == |ExpiredAmong(files, cutoff, listing[..i])|
    {
      var name := listing[i];
      ExpiredAmongStep(files, cutoff, listing, i);
      if kept[name].mtime < cutoff {
        kept := kept - {name};
        count := count + 1;
      }
      i := i + 1;
    }
    assert listing[..i] == listing;
    ExpiredAmongAll(files, cutoff, listing);
  }

  /** The expired files among some of the listed names. */
  ghost function ExpiredAmong(files: map<string, Stored>, cutoff: int, names: seq<string>): set<string>
  {
    set n | n in names && n in files && files[n].mtime < cutoff
  }

  /** One more listed name looked at: it is new, and if it is expired it joins the expired
      ones and leaves the kept files. */
  lemma ExpiredAmongStep(files: map<string, Stored>, cutoff: int, listing: seq<string>, i: nat)
    requires IsListing(listing, files) && i < |listing|
    ensures var name, done := listing[i], ExpiredAmong(files, cutoff, listing[..i]);
      var next := ExpiredAmong(files, cutoff, listing[..i + 1]);
      && name in files && name in files - done
      && (files[name].mtime < cutoff ==> |next| == |done| + 1 && files - next == (files - done) - {name})
      && (files[name].mtime >= cutoff ==> next == done)
  {
    var name, done := listing[i], ExpiredAmong(files, cutoff, listing[..i]);
    var next := ExpiredAmong(files, cutoff, listing[..i + 1]);
    assert name !in listing[..i];
    assert listing[..i + 1] == listing[..i] + [name];
    if files[name].mtime < cutoff {
      assert next == done + {name};
    } else {
      assert next == done;
    }
  }

  /** Among all the listed names, the expired ones are all the expired files. */
  lemma ExpiredAmongAll(files: map<string, Stored>, cutoff: int, listing: seq<string>)
    requires IsListing(listing, files)
    ensures ExpiredAmong(files, cutoff, listing) == Expired(files, cutoff)
  {
  }

  /** The loop of `search_sessions`. */
  method SearchLoop(queryLower: string, sessions: seq<SessionInfo>) returns (r: Option<seq<SessionInfo>>)
    ensures r == SearchResult(queryLower, sessions)
  {
    var matches := [];
    var i := 0;
    while i < |sessions|
      invariant 0 <= i <= |sessions|
      invariant SearchResult(queryLower, sessions[..i]) == Some(matches)
    {
      SearchStep(queryLower, sessions, i);
      var m := MatchOf(queryLower, sessions[i]);
      if m.None? {
        RaiseSpoils(queryLower, sessions, i + 1);
        return None;
      }
      if m.value {
        matches := matches + [sessions[i]];
      } else {
        assert matches + [] == matches;
      }
      i := i + 1;
    }
    assert sessions[..i] == sessions;
    r := Some(matches);
  }

  /** `get_session_stats` over the sessions: the fixed record, the failure, or the stats
      drawn from the three counting dicts. */
  method CountSessions(sessions: seq<SessionInfo>, parseDate: string -> Option<string>) returns (stats: SessionStats)
    ensures stats == SessionStatsOf(sessions, parseDate)
  {
    if sessions == [] {
      return NoSessions;
    }
    var ok, kinds, channels, dates := TallySessions(sessions, parseDate);
    if !ok {
      return Failed;
    }
    var top := Take(SortDesc(channels, (c: Count<Json>) => c.n), 5);
    var day := if dates == [] then "None" else MostCounted(dates).key;
    stats := Stats(|sessions|, |sessions|, MostCounted(kinds).key, day, top, kinds, dates);
  }

  /** The three counting dicts of `get_session_stats` after some sessions. */
  ghost predicate Tallied(done: seq<SessionInfo>, parseDate: string -> Option<string>,
    kinds: seq<Count<Json>>, channels: seq<Count<Json>>, dates: seq<Count<string>>)
  {
    && kinds == Tally(KindsOf(done))
    && channels == Tally(ChannelsOf(done))
    && dates == Tally(FilterMap(SessionDate(parseDate), done))
  }

  /** Counting one more session. */
  lemma TalliedStep(sessions: seq<SessionInfo>, i: nat, parseDate: string -> Option<string>,
    kinds: seq<Count<Json>>, channels: seq<Count<Json>>, dates: seq<Count<string>>)
    requires i < |sessions| && Tallied(sessions[..i], parseDate, kinds, channels, dates)
    ensures var s := sessions[i];
      var date := DateOf(s.createdAt, parseDate);
      Tallied(sessions[..i + 1], parseDate, Bump(kinds, s.summaryType), Bump(channels, s.channel),
        if date.Some? then Bump(dates, date.value) else dates)
  {
    var done, s := sessions[..i], sessions[i];
    assert sessions[..i + 1] == done + [s];
    KindsStep(done, s);
    ChannelsStep(done, s);
    DatesStep(done, s, parseDate);
  }

  lemma KindsStep(done: seq<SessionInfo>, s: SessionInfo)
    ensures Tally(KindsOf(done + [s])) == Bump(Tally(KindsOf(done)), s.summaryType)
  {
    assert KindsOf(done + [s]) == KindsOf(done) + [s.summaryType];
    TallySnoc(KindsOf(done), s.summaryType);
  }

  lemma ChannelsStep(done: seq<SessionInfo>, s: SessionInfo)
    ensures Tally(ChannelsOf(done + [s])) == Bump(Tally(ChannelsOf(done)), s.channel)
  {
    assert ChannelsOf(done + [s]) == ChannelsOf(done) + [s.channel];
    TallySnoc(ChannelsOf(done), s.channel);
  }

  lemma DatesStep(done: seq<SessionInfo>, s: SessionInfo, parseDate: string -> Option<string>)
    ensures var date := DateOf(s.createdAt, parseDate);
      Tally(FilterMap(SessionDate(parseDate), done + [s]))
        == if date.Some? then Bump(Tally(FilterMap(SessionDate(parseDate), done)), date.value)
           else Tally(FilterMap(SessionDate(parseDate), done))
  {
    var more := done + [s];
    assert more[..|done|] == done;
    var seen := FilterMap(SessionDate(parseDate), done);
    assert SessionDate(parseDate)(s) == DateOf(s.createdAt, parseDate);
    var date := DateOf(s.createdAt, parseDate);
    if date.Some? {
      TallySnoc(seen, date.value);
    } else {
      assert seen + [] == seen;
    }
  }

  /** The counting loop of `get_session_stats`; it stops at the first summary type or
      channel that cannot be a dict key. */
  method TallySessions(sessions: seq<SessionInfo>, parseDate: string -> Option<string>)
    returns (ok: bool, kinds: seq<Count<Json>>, channels: seq<Count<Json>>, dates: seq<Count<string>>)
    ensures ok == AllHashable(sessions)
    ensures ok ==> Tallied(sessions, parseDate, kinds, channels, dates)
  {
    kinds, channels, dates := [], [], [];
    var i := 0;
    while i < |sessions|
      invariant 0 <= i <= |sessions|
      invariant AllHashable(sessions[..i])
      invariant Tallied(sessions[..i], parseDate, kinds, channels, dates)
    {
      var s := sessions[i];
      if !Hashable(s.summaryType) || !Hashable(s.channel) {
        assert s in sessions;
        return false, kinds, channels, dates;
      }
      HashableStep(sessions, i);
      TalliedStep(sessions, i, parseDate, kinds, channels, dates);
      kinds := Bump(kinds, s.summaryType);
      channels := Bump(channels, s.channel);
      var date := DateOf(s.createdAt, parseDate);
      if date.Some? {
        dates := Bump(dates, date.value);
      }
      i := i + 1;
    }
    assert sessions[..i] == sessions;
    ok := true;
  }

  /** One more session whose keys can be hashed. */
  lemma HashableStep(sessions: seq<SessionInfo>, i: nat)
    requires i < |sessions| && AllHashable(sessions[..i])
    requires Hashable(sessions[i].summaryType) && Hashable(sessions[i].channel)
    ensures AllHashable(sessions[..i + 1])
  {
    assert sessions[..i + 1] == sessions[..i] + [sessions[i]];
  }

  /** Counting one more key. */
  lemma TallySnoc<K>(keys: seq<K>, k: K)
    ensures Tally(keys + [k]) == Bump(Tally(keys), k)
  {
    assert (keys + [k])[..|keys|] == keys;
  }

  /** One more session tested. */
  lemma SearchStep(queryLower: string, infos: seq<SessionInfo>, i: nat)
    requires i < |infos|
    ensures var r := SearchResult(queryLower, infos[..i + 1]);
      var front := SearchResult(queryLower, infos[..i]);
      var m := MatchOf(queryLower, infos[i]);
      r == if front.None? || m.None? then None else Some(front.value + (if m.value then [infos[i]] else []))
  {
    assert infos[..i + 1][..i] == infos[..i];
  }

  /** A test that raises spoils the whole search. */
  lemma {:induction false} RaiseSpoils(queryLower: string, infos: seq<SessionInfo>, n: nat)
    requires 0 < n <= |infos| && MatchOf(queryLower, infos[n - 1]).None?
    ensures SearchResult(queryLower, infos).None?
    decreases |infos|
  {
    if n < |infos| {
      assert infos[..|infos| - 1][n - 1] == infos[n - 1];
      RaiseSpoils(queryLower, infos[..|infos| - 1], n);
    }
  }
}
