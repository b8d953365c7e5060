/**
 * One collection cycle of the nginx access-log collector (`NginxLogCollector`): per-line field
 * extraction, per-cycle accumulation, the rolling unique-session history, the offsets of the
 * tailed logs and what gets published. The line pattern and `float()` are parameters; files are
 * a snapshot taken at the start of the cycle.
 */
module NginxLog {
  import opened Outcomes
  import opened Text
  import opened Metrics
  import opened NginxTail
  import opened NginxWindow
  import opened Settings

  /** The collector's settings, as the configuration reader hands them over. */
  datatype Config = Config(
    accessLogs: ConfigValue,     // the paths of the logs
    previousLogSuffix: string,   // appended to a path to find the rotated log
    sessionGroup: string,        // capture-group indices; a negative index means "not collected"
    responseTimeGroup: string,
    responseSizeGroup: string,
    responseStatusGroup: string,
    httpMethodGroup: string)

  /** The five capture-group indices once parsed with `int()`. */
  datatype Groups = Groups(session: int, responseTime: int, responseSize: int, responseStatus: int, httpMethod: int)

  /**
   * The compiled line pattern (`regex.match(line)`, giving `m.groups()`, where a group that took
   * no part in the match is `None`) and Python's `float()` on a string.
   */
  datatype Parsers = Parsers(lineMatch: string -> Option<seq<Option<string>>>, toFloat: string -> Option<real>)

  /** The five `int(self.config.get(...))` conversions; any failure raises before the cycle starts. */
  function ParseGroups(c: Config): Option<Groups>
  {
    var s, t, z := ParseInt(c.sessionGroup), ParseInt(c.responseTimeGroup), ParseInt(c.responseSizeGroup);
    var st, hm := ParseInt(c.responseStatusGroup), ParseInt(c.httpMethodGroup);
    if s.None? || t.None? || z.None? || st.None? || hm.None? then None
    else Some(Groups(s.value, t.value, z.value, st.value, hm.value))
  }

  /** `parse_number`: a group that `float()` rejects counts as 0. */
  function ParseNumber(p: Parsers, group: string): (v: real)
    ensures p.toFloat(group).None? ==> v == 0.0
    ensures p.toFloat(group).Some? ==> v == p.toFloat(group).value
  {
    match p.toFloat(group)
    case Some(v) => v
    case None => 0.0
  }

  /** `increment_dict`: an absent key starts at `incr`, a present one grows by `incr`, no other key moves. */
  function IncrementDict<K(!new)>(d: map<K, int>, key: K, incr: int): (r: map<K, int>)
    ensures key in r && r[key] == (if key in d then d[key] else 0) + incr
    ensures forall k :: k != key ==> (k in r <==> k in d)
    ensures forall k :: k != key && k in d ==> r[k] == d[k]
    ensures r.Keys == d.Keys + {key}
  {
    if key !in d then d[key := incr] else d[key := d[key] + incr]
  }

  /**
   * The per-cycle accumulator: a fresh one starts every cycle. The tables are keyed by the group
   * as read, so a group that took no part in the match is the key `None`.
   */
  datatype Tally = Tally(
    count: nat,
    responseTimeTotal: real,
    responseSizeTotal: real,
    sessions: set<string>,
    statusCounts: map<Option<string>, int>,
    methodCounts: map<Option<string>, int>)

  const EmptyTally := Tally(0, 0.0, 0.0, {}, map[], map[])

  /** A line that the pattern matches with at least one group; every other line is skipped. */
  predicate Matched(p: Parsers, line: string)
  {
    p.lineMatch(line).Some? && |p.lineMatch(line).value| > 0
  }

  /** Every collected (non-negative) index names an existing group; otherwise `m.groups()[i]` raises `IndexError`. */
  predicate GroupsInRange(g: Groups, n: nat)
  {
    g.session < n && g.responseTime < n && g.responseSize < n && g.responseStatus < n && g.httpMethod < n
  }

  /**
   * The groups of a matched line can be read: every collected index names a group, and the
   * session, time and size groups took part in the match (`len(None)` and `float(None)` raise
   * `TypeError`). A status or method group that took no part becomes the table key `None`.
   */
  predicate LineReadable(g: Groups, m: seq<Option<string>>)
  {
    GroupsInRange(g, |m|) &&
    (g.session >= 0 ==> m[g.session].Some?) &&
    (g.responseTime >= 0 ==> m[g.responseTime].Some?) &&
    (g.responseSize >= 0 ==> m[g.responseSize].Some?)
  }

  /** The line is matched and has a group at index `i`, which a negative index never names. */
  predicate HasGroup(p: Parsers, line: string, i: int)
  {
    Matched(p, line) && 0 <= i < |p.lineMatch(line).value|
  }

  /** Group `i` of a matched line, `None` when it took no part in the match. */
  function GroupAt(p: Parsers, line: string, i: int): Option<string>
    requires HasGroup(p, line, i)
  {
    p.lineMatch(line).value[i]
  }

  /** What a line adds to a sum collected from group `i`: `parse_number` of the group, or nothing. */
  function GroupNumber(p: Parsers, line: string, i: int): real
  {
    if HasGroup(p, line, i) && GroupAt(p, line, i).Some? then ParseNumber(p, GroupAt(p, line, i).value) else 0.0
  }

  /** The session a line contributes: the non-empty session group of a matched line, when sessions are collected. */
  function LineSession(g: Groups, p: Parsers, line: string): Option<string>
  {
    if HasGroup(p, line, g.session) && GroupAt(p, line, g.session).Some? && |GroupAt(p, line, g.session).value| > 0
    then GroupAt(p, line, g.session)
    else None
  }

  /**
   * Folds one line into the accumulator; `None` when reading a group raises and the cycle aborts.
   * A matched line adds one to the count, `parse_number` of its time and size groups to the sums,
   * its non-empty session to the set, and one to the tables under its status and method groups;
   * a field whose index is negative is left alone.
   */
  function ProcessLine(t: Tally, g: Groups, p: Parsers, line: string): (r: Option<Tally>)
    ensures !Matched(p, line) ==> r == Some(t)
    ensures r.None? <==> Matched(p, line) && !LineReadable(g, p.lineMatch(line).value)
    ensures r.Some? ==> r.value.count == t.count + (if Matched(p, line) then 1 else 0)
    ensures r.Some? ==> r.value.responseTimeTotal == t.responseTimeTotal + GroupNumber(p, line, g.responseTime)
    ensures r.Some? ==> r.value.responseSizeTotal == t.responseSizeTotal + GroupNumber(p, line, g.responseSize)
    ensures r.Some? ==> r.value.sessions == t.sessions + (match LineSession(g, p, line) case Some(x) => {x} case None => {})
    ensures r.Some? ==>
              r.value.statusCounts ==
                if HasGroup(p, line, g.responseStatus) then IncrementDict(t.statusCounts, GroupAt(p, line, g.responseStatus), 1)
                else t.statusCounts
    ensures r.Some? ==>
              r.value.methodCounts ==
                if HasGroup(p, line, g.httpMethod) then IncrementDict(t.methodCounts, GroupAt(p, line, g.httpMethod), 1)
                else t.methodCounts
  {
    if !Matched(p, line) then Some(t)
    else
      var m := p.lineMatch(line).value;
      if !LineReadable(g, m) then None
      else Some(Tally(
        t.count + 1,
        t.responseTimeTotal + (if g.responseTime >= 0 then ParseNumber(p, m[g.responseTime].value) else 0.0),
        t.responseSizeTotal + (if g.responseSize >= 0 then ParseNumber(p, m[g.responseSize].value) else 0.0),
        if g.session >= 0 && |m[g.session].value| > 0 then t.sessions + {m[g.session].value} else t.sessions,
        if g.responseStatus >= 0 then IncrementDict(t.statusCounts, m[g.responseStatus], 1) else t.statusCounts,
        if g.httpMethod >= 0 then IncrementDict(t.methodCounts, m[g.httpMethod], 1) else t.methodCounts))
  }

  /** Folds the lines of one read in order; once a line aborts, the whole fold does. */
  function ProcessLines(t: Tally, g: Groups, p: Parsers, lines: seq<string>): Option<Tally>
    decreases |lines|
  {
    if lines == [] then Some(t)
    else match ProcessLine(t, g, p, lines[0])
      case None => None
      case Some(t1) => ProcessLines(t1, g, p, lines[1..])
  }

  /** Folding two runs of lines is folding the first, then the second from where the first left off. */
  lemma {:induction false} ProcessLinesAppend(t: Tally, g: Groups, p: Parsers, a: seq<string>, b: seq<string>)
    ensures ProcessLines(t, g, p, a + b) ==
      match ProcessLines(t, g, p, a)
      case None => None
      case Some(t1) => ProcessLines(t1, g, p, b)
    decreases |a|
  {
    if a == [] {
      assert a + b == b;
    } else {
      assert (a + b)[0] == a[0] && (a + b)[1..] == a[1..] + b;
      match ProcessLine(t, g, p, a[0])
      case None =>
      case Some(t1) => ProcessLinesAppend(t1, g, p, a[1..], b);
    }
  }

  /** A line the pattern does not match, or matches with no group, changes no counter, sum, set or table. */
  lemma UnmatchedLineIsIgnored(t: Tally, g: Groups, p: Parsers, a: seq<string>, line: string, b: seq<string>)
    requires !Matched(p, line)
    ensures ProcessLines(t, g, p, a + [line] + b) == ProcessLines(t, g, p, a + b)
  {
    ProcessLinesAppend(t, g, p, a + [line], b);
    ProcessLinesAppend(t, g, p, a, [line]);
    ProcessLinesAppend(t, g, p, a, b);
    match ProcessLines(t, g, p, a)
    case None =>
    case Some(t1) =>
      assert [line][1..] == [];
  }

  /** How many lines of a read the pattern matches with at least one group. */
  function MatchedCount(p: Parsers, lines: seq<string>): (n: nat)
    ensures n <= |lines|
  {
    if lines == [] then 0 else (if Matched(p, lines[0]) then 1 else 0) + MatchedCount(p, lines[1..])
  }

  /** `count` grows by exactly one per matched line of a fold that did not abort. */
  lemma {:induction false} ProcessLinesCount(t: Tally, g: Groups, p: Parsers, lines: seq<string>)
    requires ProcessLines(t, g, p, lines).Some?
    ensures ProcessLines(t, g, p, lines).value.count == t.count + MatchedCount(p, lines)
    decreases |lines|
  {
    if lines != [] {
      ProcessLinesCount(ProcessLine(t, g, p, lines[0]).value, g, p, lines[1..]);
    }
  }

  /** The distinct sessions of a run of lines. */
  function SessionsOf(g: Groups, p: Parsers, lines: seq<string>): (s: set<string>)
    ensures forall x :: x in s <==> exists i :: 0 <= i < |lines| && LineSession(g, p, lines[i]) == Some(x)
    decreases |lines|
  {
    if lines == [] then {}
    else
      var rest := SessionsOf(g, p, lines[1..]);
      assert forall i :: 0 < i < |lines| ==> lines[1..][i - 1] == lines[i];
      (match LineSession(g, p, lines[0]) case Some(x) => {x} case None => {}) + rest
  }

  /** The session set of a fold that did not abort is the old set plus the distinct non-empty sessions of the lines. */
  lemma {:induction false} ProcessLinesSessions(t: Tally, g: Groups, p: Parsers, lines: seq<string>)
    requires ProcessLines(t, g, p, lines).Some?
    ensures ProcessLines(t, g, p, lines).value.sessions == t.sessions + SessionsOf(g, p, lines)
    decreases |lines|
  {
    if lines != [] {
      ProcessLinesSessions(ProcessLine(t, g, p, lines[0]).value, g, p, lines[1..]);
    }
  }

  /** The sum of what the lines add to a sum collected from group `i`. */
  function NumberSum(p: Parsers, lines: seq<string>, i: int): real
    decreases |lines|
  {
    if lines == [] then 0.0 else GroupNumber(p, lines[0], i) + NumberSum(p, lines[1..], i)
  }

  /** The number of lines whose group `i` is `k`. */
  function KeyCount(p: Parsers, lines: seq<string>, i: int, k: Option<string>): nat
    decreases |lines|
  {
    if lines == [] then 0
    else (if HasGroup(p, lines[0], i) && GroupAt(p, lines[0], i) == k then 1 else 0) + KeyCount(p, lines[1..], i, k)
  }

  /** Each sum of a fold that did not abort grows by `parse_number` of its group, summed over the matched lines. */
  lemma {:induction false} ProcessLinesSums(t: Tally, g: Groups, p: Parsers, lines: seq<string>)
    requires ProcessLines(t, g, p, lines).Some?
    ensures ProcessLines(t, g, p, lines).value.responseTimeTotal == t.responseTimeTotal + NumberSum(p, lines, g.responseTime)
    ensures ProcessLines(t, g, p, lines).value.responseSizeTotal == t.responseSizeTotal + NumberSum(p, lines, g.responseSize)
    decreases |lines|
  {
    if lines != [] {
      ProcessLinesSums(ProcessLine(t, g, p, lines[0]).value, g, p, lines[1..]);
    }
  }

  /**
   * The tables of a fold that did not abort: a key is present when it was before or some matched
   * line carries it in the table's group, and its count grows by the number of such lines.
   */
  lemma {:induction false} ProcessLinesTables(t: Tally, g: Groups, p: Parsers, lines: seq<string>)
    requires ProcessLines(t, g, p, lines).Some?
    ensures var r := ProcessLines(t, g, p, lines).value;
            forall k :: k in r.statusCounts <==> k in t.statusCounts || KeyCount(p, lines, g.responseStatus, k) > 0
    ensures var r := ProcessLines(t, g, p, lines).value;
            forall k :: k in r.statusCounts ==>
              r.statusCounts[k] == (if k in t.statusCounts then t.statusCounts[k] else 0) + KeyCount(p, lines, g.responseStatus, k)
    ensures var r := ProcessLines(t, g, p, lines).value;
            forall k :: k in r.methodCounts <==> k in t.methodCounts || KeyCount(p, lines, g.httpMethod, k) > 0
    ensures var r := ProcessLines(t, g, p, lines).value;
            forall k :: k in r.methodCounts ==>
              r.methodCounts[k] == (if k in t.methodCounts then t.methodCounts[k] else 0) + KeyCount(p, lines, g.httpMethod, k)
    decreases |lines|
  {
    if lines != [] {
      ProcessLinesTables(ProcessLine(t, g, p, lines[0]).value, g, p, lines[1..]);
    }
  }

  /** The offsets and, unless a log aborted the cycle, the accumulator while the logs are scanned. */
  datatype Scan = Scan(offsets: Offsets, tally: Option<Tally>)

  /**
   * One pass of the loop over `access_logs`. A log seen for the first time gets its current size
   * as offset and adds nothing (a log that cannot be sized gets no entry); a known log that cannot
   * be opened aborts the cycle; a known log is read from its offset to the end, its lines folded
   * in, and its offset becomes the position after the read.
   */
  function ScanLog(offsets: Offsets, t: Tally, path: string, g: Groups, p: Parsers, fs: FileSystem): Scan
  {
    if path !in offsets then Scan(if path in fs then offsets[path := |fs[path]|] else offsets, Some(t))
    else if path !in fs then Scan(offsets, None)
    else
      var read := ReadFrom(fs[path], offsets[path]);
      match ProcessLines(t, g, p, read.lines)
      case None => Scan(offsets, None)
      case Some(t1) => Scan(offsets[path := read.tell], Some(t1))
  }

  /**
   * One log touches only its own offset. A first sight adds nothing and records the size (when the
   * log exists); a known log that is missing aborts; a known log that exists folds in the lines
   * from its offset to the end; an abort moves no offset; a known log read to the end gets the
   * larger of its old offset and its size.
   */
  lemma ScanLogMeaning(offsets: Offsets, t: Tally, path: string, g: Groups, p: Parsers, fs: FileSystem)
    ensures var s := ScanLog(offsets, t, path, g, p, fs);
            && (forall q :: q != path ==> (q in s.offsets <==> q in offsets))
            && (forall q :: q != path && q in offsets ==> s.offsets[q] == offsets[q])
            && (path !in offsets ==> s.tally == Some(t))
            && (path !in offsets ==> (path in s.offsets <==> path in fs))
            && (path !in offsets && path in fs ==> s.offsets[path] == |fs[path]|)
            && (path in offsets && path !in fs ==> s == Scan(offsets, None))
            && (path in offsets && path in fs ==> s.tally == ProcessLines(t, g, p, ReadFrom(fs[path], offsets[path]).lines))
            && (s.tally.None? ==> s.offsets == offsets)
            && (path in offsets && s.tally.Some? ==>
                  path in s.offsets && s.offsets[path] == (if offsets[path] <= |fs[path]| then |fs[path]| else offsets[path]))
  {
  }

  /** The loop over `access_logs`, in configured order; an abort stops it with the offsets committed so far. */
  function ScanLogs(s: Scan, paths: seq<string>, g: Groups, p: Parsers, fs: FileSystem): Scan
    decreases |paths|
  {
    if paths == [] || s.tally.None? then s
    else ScanLogs(ScanLog(s.offsets, s.tally.value, paths[0], g, p, fs), paths[1..], g, p, fs)
  }

  /** The loop leaves the offsets of logs it does not list alone, and an aborted scan stays as it is. */
  lemma {:induction false} ScanLogsFrame(s: Scan, paths: seq<string>, g: Groups, p: Parsers, fs: FileSystem)
    ensures var r := ScanLogs(s, paths, g, p, fs);
            && (forall q :: q !in paths ==> (q in r.offsets <==> q in s.offsets))
            && (forall q :: q !in paths && q in s.offsets ==> r.offsets[q] == s.offsets[q])
            && (s.tally.None? ==> r == s)
    decreases |paths|
  {
    if paths != [] && s.tally.Some? {
      ScanLogMeaning(s.offsets, s.tally.value, paths[0], g, p, fs);
      ScanLogsFrame(ScanLog(s.offsets, s.tally.value, paths[0], g, p, fs), paths[1..], g, p, fs);
      assert forall q :: q !in paths ==> q != paths[0] && q !in paths[1..];
    }
  }

  /** The six scalar figures of a cycle. */
  datatype Summary = Summary(
    requests: real,
    avgResponseTime: real,
    avgResponseSize: real,
    uniqueSessions1: nat,
    uniqueSessions5: nat,
    uniqueSessions15: nat)

  /**
   * The figures of a cycle: the request count, the average response time in milliseconds and
   * size (0 when nothing was counted), and the unique sessions of the last 1, 5 and 15 cycles.
   */
  function Summarize(h: seq<set<string>>, t: Tally): (s: Summary)
    requires |h| > 0
    ensures s.requests == t.count as real
    ensures t.count == 0 ==> s.avgResponseTime == 0.0 && s.avgResponseSize == 0.0
    ensures t.count > 0 ==> s.avgResponseTime * (t.count as real) == t.responseTimeTotal * 1000.0
    ensures t.count > 0 ==> s.avgResponseSize * (t.count as real) == t.responseSizeTotal
    ensures s.uniqueSessions1 == |h[|h| - 1]|
    ensures s.uniqueSessions5 == |Window(h, 5)| && s.uniqueSessions15 == |Window(h, 15)|
    ensures s.uniqueSessions1 <= s.uniqueSessions5 <= s.uniqueSessions15
  {
    WindowOfOne(h);
    WindowMonotone(h, 1, 5);
    WindowMonotone(h, 5, 15);
    Summary(
      t.count as real,
      if t.count > 0 then t.responseTimeTotal * 1000.0 / (t.count as real) else 0.0,
      if t.count > 0 then t.responseSizeTotal / (t.count as real) else 0.0,
      |Window(h, 1)|, |Window(h, 5)|, |Window(h, 15)|)
  }

  /** `publish_if_non_zero`: a zero is not published; anything else is, under its cleaned name. */
  function PublishIfNonZero(key: string, v: real): (r: seq<Point>)
    ensures r == [] <==> v == 0.0
    ensures v != 0.0 ==> r == [Point(Sanitize(key), v, 0)]
  {
    if v != 0.0 then [Point(Sanitize(key), v, 0)] else []
  }

  /** The six scalar figures, in publishing order. */
  datatype Figure = Requests | AvgResponseTime | AvgResponseSize | UniqueSessions1 | UniqueSessions5 | UniqueSessions15

  const Figures: seq<Figure> := [Requests, AvgResponseTime, AvgResponseSize, UniqueSessions1, UniqueSessions5, UniqueSessions15]

  /** The published name of a figure; none needs cleaning. */
  function FigureName(f: Figure): (name: string)
    ensures ' ' !in name && '(' !in name && ')' !in name
  {
    match f
    case Requests => "requests"
    case AvgResponseTime => "avg_response_time"
    case AvgResponseSize => "avg_response_size"
    case UniqueSessions1 => "unique_sessions_1"
    case UniqueSessions5 => "unique_sessions_5"
    case UniqueSessions15 => "unique_sessions_15"
  }

  function FigureValue(s: Summary, f: Figure): real
  {
    match f
    case Requests => s.requests
    case AvgResponseTime => s.avgResponseTime
    case AvgResponseSize => s.avgResponseSize
    case UniqueSessions1 => s.uniqueSessions1 as real
    case UniqueSessions5 => s.uniqueSessions5 as real
    case UniqueSessions15 => s.uniqueSessions15 as real
  }

  lemma SanitizeClean(key: string)
    requires ' ' !in key && '(' !in key && ')' !in key
    ensures Sanitize(key) == key
  {
    assert ReplaceChar(key, ' ', '_') == key;
    RemoveCharAbsent(key, '(');
    RemoveCharAbsent(key, ')');
  }

  lemma EveryFigureListed()
    ensures forall f :: f in Figures
  {
    forall f ensures f in Figures {
      match f
      case Requests => assert Figures[0] == f;
      case AvgResponseTime => assert Figures[1] == f;
      case AvgResponseSize => assert Figures[2] == f;
      case UniqueSessions1 => assert Figures[3] == f;
      case UniqueSessions5 => assert Figures[4] == f;
      case UniqueSessions15 => assert Figures[5] == f;
    }
  }

  /** `publish_if_non_zero` for each of the given figures in turn. */
  function GateAll(s: Summary, figures: seq<Figure>): (r: seq<Point>)
    ensures forall pt :: pt in r ==> pt.value != 0.0
    ensures forall pt :: pt in r ==> exists f :: f in figures && pt == Point(FigureName(f), FigureValue(s, f), 0)
    ensures forall f :: f in figures && FigureValue(s, f) != 0.0 ==> Point(FigureName(f), FigureValue(s, f), 0) in r
  {
    if figures == [] then []
    else
      SanitizeClean(FigureName(figures[0]));
      PublishIfNonZero(FigureName(figures[0]), FigureValue(s, figures[0])) + GateAll(s, figures[1..])
  }

  /** The scalar points of a cycle: a figure is published, under its name, exactly when it is not zero. */
  function ScalarPoints(s: Summary): (r: seq<Point>)
    ensures forall f :: Point(FigureName(f), FigureValue(s, f), 0) in r <==> FigureValue(s, f) != 0.0
    ensures forall pt :: pt in r ==> pt.value != 0.0 && exists f :: pt == Point(FigureName(f), FigureValue(s, f), 0)
  {
    EveryFigureListed();
    GateAll(s, Figures)
  }

  /**
   * `publish(prefix + key, count)` for every key of a tally table (iteration order not modelled);
   * a table holding the key `None` never gets this far.
   */
  function TablePoints(prefix: string, m: map<Option<string>, int>): (r: set<Point>)
    ensures forall k :: k in m && k.Some? ==> Point(prefix + k.value, m[k] as real, 0) in r
    ensures forall pt :: pt in r <==> exists k :: k in m && k.Some? && pt == Point(prefix + k.value, m[k] as real, 0)
    ensures forall pt :: pt in r ==> |prefix| <= |pt.name| && pt.name[..|prefix|] == prefix && pt.precision == 0
  {
    set k | k in m && k.Some? :: Point(prefix + k.value, m[k] as real, 0)
  }

  /**
   * What a cycle publishes. `Aborted`: nothing. `Published`: the scalar points in order, then one
   * point per table entry. `Interrupted`: a table holds the key `None`, so building its metric
   * name raises `TypeError` while the tables are published. The scalar points are out, and so
   * are `tables`, the table points published whatever the dictionary order: the whole status
   * table when only the method table holds `None`, and none when the status table does. Which
   * further points of the table holding `None` preceded the raise depends on dictionary order.
   */
  datatype Outcome =
    | Aborted
    | Published(tally: Tally, points: seq<Point>, tables: set<Point>)
    | Interrupted(tally: Tally, points: seq<Point>, tables: set<Point>)

  /** The table points an interrupted cycle publishes whatever the dictionary order. */
  function SurePoints(t: Tally): set<Point>
  {
    if None in t.statusCounts then {} else TablePoints("response_status.", t.statusCounts)
  }

  /**
   * The paths of `access_logs`, as the help text of the setting intends: a single value is split
   * at its commas, and a list (what the configuration reader makes of a comma-separated value)
   * is taken as it stands.
   */
  function AccessLogs(v: ConfigValue): (r: seq<string>)
    ensures v.Single? ==> Join(r, ",") == v.text && forall i :: 0 <= i < |r| ==> ',' !in r[i]
    ensures v.Multiple? ==> r == v.items
  {
    match v
    case Single(text) => JoinSplit(text, ','); Split(text, ',')
    case Multiple(items) => items
  }

  /**
   * `self.config.get("access_logs").split(",")` as written: a list has no `split`, so a
   * comma-separated setting raises `AttributeError` before anything else happens.
   */
  function AccessLogsAsWritten(v: ConfigValue): (r: Option<seq<string>>)
    ensures r.None? <==> v.Multiple?
    ensures r.Some? ==> r.value == AccessLogs(v)
  {
    match v
    case Single(text) => Some(Split(text, ','))
    case Multiple(_) => None
  }

  /** The state a cycle leaves behind and what it published. */
  datatype Cycle = Cycle(offsets: Offsets, history: seq<set<string>>, outcome: Outcome)

  /**
   * One call of `collect` given the paths it reads (`None` when reading them raised). The group
   * indices are parsed and the oldest history entry removed before any log is read; a failure
   * after that removal ends the cycle with the history one entry shorter and the offsets
   * committed so far; a cycle that gets through every log appends its session set and publishes.
   */
  function CycleFrom(logs: Option<seq<string>>, offsets: Offsets, history: seq<set<string>>, cfg: Config, p: Parsers, fs: FileSystem): Cycle
  {
    if logs.None? then Cycle(offsets, history, Aborted)
    else match ParseGroups(cfg)
    case None => Cycle(offsets, history, Aborted)
    case Some(g) =>
      if |history| == 0 then Cycle(offsets, history, Aborted)
      else
        var popped := history[1..];
        var scan := ScanLogs(Scan(offsets, Some(EmptyTally)), logs.value, g, p, fs);
        match scan.tally
        case None => Cycle(scan.offsets, popped, Aborted)
        case Some(t) =>
          var h := popped + [t.sessions];
          var points := ScalarPoints(Summarize(h, t));
          Cycle(scan.offsets, h,
            if None in t.statusCounts || None in t.methodCounts then Interrupted(t, points, SurePoints(t))
            else Published(t, points, TablePoints("response_status.", t.statusCounts) + TablePoints("http_method.", t.methodCounts)))
  }

  /** One call of `collect`, reading the paths of `access_logs` as intended. */
  function CollectCycle(offsets: Offsets, history: seq<set<string>>, cfg: Config, p: Parsers, fs: FileSystem): Cycle
  {
    CycleFrom(Some(AccessLogs(cfg.accessLogs)), offsets, history, cfg, p, fs)
  }

  /**
   * One call of `collect` as written: with a comma-separated `access_logs` every cycle aborts
   * before the history is touched, so nothing is ever read or published; otherwise it is the
   * intended cycle.
   */
  function CollectCycleAsWritten(offsets: Offsets, history: seq<set<string>>, cfg: Config, p: Parsers, fs: FileSystem): (c: Cycle)
    ensures cfg.accessLogs.Multiple? ==> c == Cycle(offsets, history, Aborted)
    ensures cfg.accessLogs.Single? ==> c == CollectCycle(offsets, history, cfg, p, fs)
  {
    CycleFrom(AccessLogsAsWritten(cfg.accessLogs), offsets, history, cfg, p, fs)
  }

  /**
   * Two new logs configured as a list: as written the cycle aborts and neither gets an offset;
   * as intended both get their sizes as offsets and the cycle publishes.
   */
  lemma ListedLogsAsWritten(offsets: Offsets, history: seq<set<string>>, cfg: Config, p: Parsers, fs: FileSystem, a: string, b: string)
    requires cfg.accessLogs == Multiple([a, b]) && a != b
    requires a !in offsets && b !in offsets && a in fs && b in fs
    requires ParseGroups(cfg).Some? && |history| > 0
    ensures CollectCycleAsWritten(offsets, history, cfg, p, fs).offsets == offsets
    ensures CollectCycleAsWritten(offsets, history, cfg, p, fs).outcome.Aborted?
    ensures var c := CollectCycle(offsets, history, cfg, p, fs);
            c.offsets == offsets[a := |fs[a]|][b := |fs[b]|] && c.outcome.Published?
  {
    var g := ParseGroups(cfg).value;
    var s1 := ScanLog(offsets, EmptyTally, a, g, p, fs);
    assert s1 == Scan(offsets[a := |fs[a]|], Some(EmptyTally));
    var s2 := ScanLog(s1.offsets, EmptyTally, b, g, p, fs);
    assert s2 == Scan(offsets[a := |fs[a]|][b := |fs[b]|], Some(EmptyTally));
    assert [a, b][0] == a && [a, b][1..] == [b] && [b][1..] == [];
    assert ScanLogs(s2, [], g, p, fs) == s2;
    assert ScanLogs(s1, [b], g, p, fs) == s2;
    assert ScanLogs(Scan(offsets, Some(EmptyTally)), [a, b], g, p, fs) == s2;
  }

  /**
   * A cycle with an empty history aborts and changes nothing. Otherwise the oldest history entry
   * is dropped, and a cycle that read every log appends its own sessions; it is interrupted
   * exactly when a table holds the key `None`, and then the whole status table is still out
   * unless it is the status table that holds `None`. Offsets of logs not listed in `access_logs` never
   * change.
   */
  lemma CollectCycleMeaning(offsets: Offsets, history: seq<set<string>>, cfg: Config, p: Parsers, fs: FileSystem)
    ensures var c := CollectCycle(offsets, history, cfg, p, fs);
            var logs := AccessLogs(cfg.accessLogs);
            && (|history| == 0 ==> c == Cycle(offsets, history, Aborted))
            && (c.outcome.Aborted? ==> c.history == history || (|history| > 0 && c.history == history[1..]))
            && (!c.outcome.Aborted? ==> |history| > 0 && c.history == history[1..] + [c.outcome.tally.sessions])
            && (c.outcome.Interrupted? <==>
                  !c.outcome.Aborted? && (None in c.outcome.tally.statusCounts || None in c.outcome.tally.methodCounts))
            && (c.outcome.Published? ==>
                  c.outcome.tables ==
                    TablePoints("response_status.", c.outcome.tally.statusCounts) +
                    TablePoints("http_method.", c.outcome.tally.methodCounts))
            && (c.outcome.Interrupted? && None !in c.outcome.tally.statusCounts ==>
                  c.outcome.tables == TablePoints("response_status.", c.outcome.tally.statusCounts))
            && (c.outcome.Interrupted? && None in c.outcome.tally.statusCounts ==> c.outcome.tables == {})
            && (forall q :: q !in logs ==> (q in c.offsets <==> q in offsets))
            && (forall q :: q !in logs && q in offsets ==> c.offsets[q] == offsets[q])
  {
    CycleTables(Some(AccessLogs(cfg.accessLogs)), offsets, history, cfg, p, fs);
    if ParseGroups(cfg).Some? {
      ScanLogsFrame(Scan(offsets, Some(EmptyTally)), AccessLogs(cfg.accessLogs), ParseGroups(cfg).value, p, fs);
    }
  }

  /**
   * The table points of a cycle: a published cycle has both tables out in full; an interrupted
   * one has the whole status table out unless the status table holds `None`, and then none.
   */
  lemma CycleTables(logs: Option<seq<string>>, offsets: Offsets, history: seq<set<string>>, cfg: Config, p: Parsers, fs: FileSystem)
    ensures var o := CycleFrom(logs, offsets, history, cfg, p, fs).outcome;
            && (o.Published? ==>
                  o.tables == TablePoints("response_status.", o.tally.statusCounts) + TablePoints("http_method.", o.tally.methodCounts))
            && (o.Interrupted? && None !in o.tally.statusCounts ==> o.tables == TablePoints("response_status.", o.tally.statusCounts))
            && (o.Interrupted? && None in o.tally.statusCounts ==> o.tables == {})
  {
  }

  /**
   * The published unique-session figures: the 1-cycle figure is the number of distinct non-empty
   * sessions of this cycle, the 5- and 15-cycle figures count the distinct sessions of the newest
   * 5 and 15 entries of the advanced history, and they never decrease in that order.
   */
  lemma PublishedUniqueSessions(offsets: Offsets, history: seq<set<string>>, cfg: Config, p: Parsers, fs: FileSystem)
    requires !CollectCycle(offsets, history, cfg, p, fs).outcome.Aborted?
    ensures var c := CollectCycle(offsets, history, cfg, p, fs);
            var h := history[1..] + [c.outcome.tally.sessions];
            var s := Summarize(c.history, c.outcome.tally);
            && c.history == h
            && c.outcome.points == ScalarPoints(s)
            && s.uniqueSessions1 == |c.outcome.tally.sessions|
            && s.uniqueSessions5 == |Window(h, 5)|
            && s.uniqueSessions15 == |Window(h, 15)|
            && s.uniqueSessions1 <= s.uniqueSessions5 <= s.uniqueSessions15
  {
    var g := ParseGroups(cfg).value;
    var scan := ScanLogs(Scan(offsets, Some(EmptyTally)), AccessLogs(cfg.accessLogs), g, p, fs);
    var t := scan.tally.value;
    var h := history[1..] + [t.sessions];
    assert CollectCycle(offsets, history, cfg, p, fs).outcome.tally == t;
    assert CollectCycle(offsets, history, cfg, p, fs).outcome.points == ScalarPoints(Summarize(h, t));
    assert h[|h| - 1] == t.sessions;
  }

  /**
   * A known log that has disappeared aborts the cycle after the oldest history entry was removed:
   * the history shrinks by one and no offset moves. Fifteen such cycles empty the history, and
   * from then on every cycle aborts without changing anything.
   */
  lemma MissingLogShrinksHistory(offsets: Offsets, history: seq<set<string>>, cfg: Config, p: Parsers, fs: FileSystem)
    requires ParseGroups(cfg).Some? && |history| > 0
    requires var logs := AccessLogs(cfg.accessLogs); |logs| > 0 && logs[0] in offsets && logs[0] !in fs
    ensures CollectCycle(offsets, history, cfg, p, fs) == Cycle(offsets, history[1..], Aborted)
  {
    var logs := AccessLogs(cfg.accessLogs);
    var g := ParseGroups(cfg).value;
    var s := Scan(offsets, Some(EmptyTally));
    assert ScanLog(offsets, EmptyTally, logs[0], g, p, fs) == Scan(offsets, None);
    assert ScanLogs(s, logs, g, p, fs) == ScanLogs(Scan(offsets, None), logs[1..], g, p, fs);
    assert ScanLogs(Scan(offsets, None), logs[1..], g, p, fs) == Scan(offsets, None);
  }

  /** A cycle whose reads add no matched line publishes neither a request count nor an average. */
  lemma QuietCycleIsSilent(offsets: Offsets, history: seq<set<string>>, cfg: Config, p: Parsers, fs: FileSystem)
    requires !CollectCycle(offsets, history, cfg, p, fs).outcome.Aborted?
    requires CollectCycle(offsets, history, cfg, p, fs).outcome.tally.count == 0
    ensures var c := CollectCycle(offsets, history, cfg, p, fs);
            var s := Summarize(c.history, c.outcome.tally);
            forall f :: f in {Requests, AvgResponseTime, AvgResponseSize} ==>
              Point(FigureName(f), FigureValue(s, f), 0) !in c.outcome.points
  {
    var g := ParseGroups(cfg).value;
    var scan := ScanLogs(Scan(offsets, Some(EmptyTally)), AccessLogs(cfg.accessLogs), g, p, fs);
    var t := scan.tally.value;
    var h := history[1..] + [t.sessions];
    var c := CollectCycle(offsets, history, cfg, p, fs);
    assert c.history == h && c.outcome.tally == t && c.outcome.points == ScalarPoints(Summarize(h, t));
    var s := Summarize(h, t);
    assert FigureValue(s, Requests) == 0.0 && FigureValue(s, AvgResponseTime) == 0.0 && FigureValue(s, AvgResponseSize) == 0.0;
  }

  /** One more log of the loop over `access_logs`, from position `i` on. */
  lemma ScanLogsStep(s: Scan, paths: seq<string>, i: nat, g: Groups, p: Parsers, fs: FileSystem)
    requires i < |paths| && s.tally.Some?
    ensures ScanLogs(s, paths[i..], g, p, fs)
            == ScanLogs(ScanLog(s.offsets, s.tally.value, paths[i], g, p, fs), paths[i + 1..], g, p, fs)
  {
    assert paths[i..][0] == paths[i] && paths[i..][1..] == paths[i + 1..];
  }

  /** The body of `collect`'s line loop for one line: `None` when a group lookup raised. */
  method TallyLine(t: Tally, g: Groups, p: Parsers, line: string) returns (r: Option<Tally>)
    ensures r == ProcessLine(t, g, p, line)
  {
    var count, timeTotal, sizeTotal := t.count, t.responseTimeTotal, t.responseSizeTotal;
    var sessions, statusCounts, methodCounts := t.sessions, t.statusCounts, t.methodCounts;
    var m := p.lineMatch(line);
    if m.Some? && |m.value| > 0 {
      var groupValues := m.value;
      count := count + 1;
      if g.session >= 0 {
        if g.session >= |groupValues| || groupValues[g.session].None? {
          // IndexError, or len(None) raises TypeError
          return None;
        }
        var session := groupValues[g.session].value;
        if |session| > 0 {
          sessions := sessions + {session};
        }
      }
      if g.responseTime >= 0 {
        if g.responseTime >= |groupValues| || groupValues[g.responseTime].None? {
          // IndexError, or float(None) raises TypeError, which parse_number does not catch
          return None;
        }
        timeTotal := timeTotal + ParseNumber(p, groupValues[g.responseTime].value);
      }
      if g.responseSize >= 0 {
        if g.responseSize >= |groupValues| || groupValues[g.responseSize].None? {
          return None;
        }
        sizeTotal := sizeTotal + ParseNumber(p, groupValues[g.responseSize].value);
      }
      if g.responseStatus >= 0 {
        if g.responseStatus >= |groupValues| {
          return None;
        }
        statusCounts := IncrementDict(statusCounts, groupValues[g.responseStatus], 1);
      }
      if g.httpMethod >= 0 {
        if g.httpMethod >= |groupValues| {
          return None;
        }
        methodCounts := IncrementDict(methodCounts, groupValues[g.httpMethod], 1);
      }
    }
    return Some(Tally(count, timeTotal, sizeTotal, sessions, statusCounts, methodCounts));
  }

  /** The fold from line `j` on, one line unfolded. */
  lemma ProcessLinesStep(t: Tally, g: Groups, p: Parsers, lines: seq<string>, j: nat)
    requires j < |lines|
    ensures ProcessLines(t, g, p, lines[j..]) ==
              match ProcessLine(t, g, p, lines[j])
              case None => None
              case Some(t1) => ProcessLines(t1, g, p, lines[j + 1..])
  {
    assert lines[j..][0] == lines[j] && lines[j..][1..] == lines[j + 1..];
  }

  /**
   * The loop of `collect` over the lines of one read: `None` when a group lookup raised, and the
   * accumulator otherwise.
   */
  method TallyLines(start: Tally, g: Groups, p: Parsers, lines: seq<string>) returns (r: Option<Tally>)
    ensures r == ProcessLines(start, g, p, lines)
  {
    var tally := start;
    var j := 0;
    while j < |lines|
      invariant 0 <= j <= |lines|
      invariant ProcessLines(tally, g, p, lines[j..]) == ProcessLines(start, g, p, lines)
    {
      ProcessLinesStep(tally, g, p, lines, j);
      var next := TallyLine(tally, g, p, lines[j]);
      if next.None? {
        return None;
      }
      tally := next.value;
      j := j + 1;
    }
    assert lines[|lines|..] == [];
    return Some(tally);
  }

  /** The collector object: the offsets and the session history survive from one cycle to the next. */
  class Collector {
    var lastLogBytes: Offsets
    var lastUniqueSessions: seq<set<string>>

    /** The history never grows beyond the size it starts with. */
    ghost predicate Valid()
      reads this
    {
      |lastUniqueSessions| <= HistoryLength
    }

    constructor ()
      ensures Valid() && lastLogBytes == map[] && lastUniqueSessions == InitialHistory()
    {
      var history := [];
      var i := 0;
      while i < HistoryLength
        invariant 0 <= i <= HistoryLength && history == Empties(i)
      {
        history := history + [{}];
        i := i + 1;
      }
      lastLogBytes := map[];
      lastUniqueSessions := history;
    }

    /** `collect`: one cycle, leaving the state and publishing what `CollectCycle` says. */
    method Collect(cfg: Config, p: Parsers, fs: FileSystem) returns (outcome: Outcome)
      requires Valid()
      modifies this
      ensures Valid()
      ensures var c := CollectCycle(old(lastLogBytes), old(lastUniqueSessions), cfg, p, fs);
              lastLogBytes == c.offsets && lastUniqueSessions == c.history && outcome == c.outcome
    {
      var groups := ParseGroups(cfg);
      if groups.None? {
        return Aborted;
      }
      var g := groups.value;
      if |lastUniqueSessions| == 0 {
        // pop(0) on an empty list raises IndexError
        return Aborted;
      }
      lastUniqueSessions := lastUniqueSessions[1..];
      var logs := AccessLogs(cfg.accessLogs);
      ghost var goal := ScanLogs(Scan(lastLogBytes, Some(EmptyTally)), logs, g, p, fs);
      var tally := EmptyTally;
      var i := 0;
      while i < |logs|
        invariant 0 <= i <= |logs|
        invariant lastUniqueSessions == old(lastUniqueSessions)[1..]
        invariant ScanLogs(Scan(lastLogBytes, Some(tally)), logs[i..], g, p, fs) == goal
      {
        var path := logs[i];
        ScanLogsStep(Scan(lastLogBytes, Some(tally)), logs, i, g, p, fs);
        if path !in lastLogBytes {
          if path in fs {
            lastLogBytes := lastLogBytes[path := |fs[path]|];
          }
          i := i + 1;
          continue;
        }
        if path !in fs {
          // open() raises IOError
          return Aborted;
        }
        var read := ReadFrom(fs[path], lastLogBytes[path]);
        var next := TallyLines(tally, g, p, read.lines);
        if next.None? {
          return Aborted;
        }
        tally := next.value;
        lastLogBytes := lastLogBytes[path := read.tell];
        i := i + 1;
      }
      assert logs[|logs|..] == [];
      lastUniqueSessions := lastUniqueSessions + [tally.sessions];
      var points := ScalarPoints(Summarize(lastUniqueSessions, tally));
      if None in tally.statusCounts || None in tally.methodCounts {
        // "response_status." + None raises TypeError while the tables are published
        return Interrupted(tally, points, SurePoints(tally));
      }
      outcome := Published(tally, points,
        TablePoints("response_status.", tally.statusCounts) + TablePoints("http_method.", tally.methodCounts));
    }

    /**
     * `yield_line` with its offsets read and written through the collector, as its comments and
     * the rest of the class intend: the lines the rotation rule yields for one log, and that log's
     * new offset.
     */
    method YieldLine(path: string, cfg: Config, fs: FileSystem) returns (lines: seq<string>)
      modifies this`lastLogBytes
      ensures var t := RotationRead(old(lastLogBytes), fs, path, cfg.previousLogSuffix);
              lines == t.lines && lastLogBytes == t.offsets
    {
      var suffix := cfg.previousLogSuffix;
      lines := [];
      if path !in fs {
        // os.path.getsize fails; the error is logged
        return;
      }
      var fileSize := |fs[path]|;
      if path !in lastLogBytes {
        lastLogBytes := lastLogBytes[path := fileSize];
        return;
      }
      if lastLogBytes[path] > fileSize {
        if suffix != "" && path + suffix in fs {
          lines := ReadFrom(fs[path + suffix], lastLogBytes[path]).lines;
        }
        lastLogBytes := lastLogBytes[path := 0];
      }
      var current := ReadFrom(fs[path], lastLogBytes[path]);
      lines := lines + current.lines;
      lastLogBytes := lastLogBytes[path := current.tell];
    }
  }
}
