/**
 * The RabbitMQ collector that reads `rabbitmqctl` listings: the connection count, per-vhost and
 * per-queue message counts, exchange and binding counts, and their grand totals. Each listing
 * arrives as lines, or as `None` when running the command fails.
 */
module RabbitMqCtl {
  import opened Outcomes
  import opened Text
  import opened Metrics

  /** Above this many queues in a vhost only the vhost's total is published. */
  const MaxIndividualQueueStatsPerVhost: nat := 20

  /** The vhost cleaning: every `/` and every space becomes `_`. */
  function Sanitize(vhost: string): (r: string)
    ensures |r| == |vhost|
    ensures forall i :: 0 <= i < |vhost| ==> r[i] == (if vhost[i] == '/' || vhost[i] == ' ' then '_' else vhost[i])
    ensures '/' !in r && ' ' !in r
  {
    ReplaceChar(ReplaceChar(vhost, '/', '_'), ' ', '_')
  }

  /** Cleaning a clean name changes nothing. */
  lemma SanitizeIdempotent(vhost: string)
    ensures Sanitize(Sanitize(vhost)) == Sanitize(vhost)
  {
  }

  /** The listings `collect` asks `rabbitmqctl` for; `None` where the command fails. */
  datatype Ctl = Ctl(connections: Option<seq<string>>, vhosts: Option<seq<string>>,
                     queues: string -> Option<seq<string>>, exchanges: string -> Option<seq<string>>,
                     bindings: string -> Option<seq<string>>)

  /** A queue line: exactly two tab-separated fields, a queue name and an integer size. */
  function QueueLine(line: string): Option<(string, int)>
  {
    var fields := Split(line, '\t');
    if |fields| != 2 then None
    else match ParseInt(fields[1])
      case None => None
      case Some(size) => Some((fields[0], size))
  }

  /** A line made of a queue name without tabs, a tab and a printed integer reads back as that queue and size. */
  lemma QueueLineRoundTrip(queue: string, size: int)
    requires '\t' !in queue
    ensures QueueLine(queue + "\t" + IntToString(size)) == Some((queue, size))
  {
    var digits := IntToString(size);
    assert '\t' !in digits by {
      if size < 0 {
        assert digits == "-" + NatToString(-size);
      }
    }
    var line := queue + "\t" + digits;
    assert line == queue + ['\t'] + digits;
    SplitAtFirst(queue, digits, '\t');
    assert Split(digits, '\t') == [digits];
    var fields := Split(line, '\t');
    assert fields == [queue, digits];
    ParseIntOfIntToString(size);
    assert ParseInt(fields[1]) == Some(size);
  }

  /** All queue lines read, or `None` when one of them is malformed. */
  function QueueLines(lines: seq<string>): (r: Option<seq<(string, int)>>)
    ensures r.None? <==> exists j :: 0 <= j < |lines| && QueueLine(lines[j]).None?
    ensures r.Some? ==> |r.value| == |lines| && forall j :: 0 <= j < |lines| ==> QueueLine(lines[j]) == Some(r.value[j])
  {
    if lines == [] then Some([])
    else
      var rest := QueueLines(lines[1..]);
      assert forall j :: 1 <= j < |lines| ==> lines[1..][j - 1] == lines[j];
      match QueueLine(lines[0])
      case None => None
      case Some(q) =>
        match rest
        case None => None
        case Some(qs) => Some([q] + qs)
  }

  /** The sum of the queue sizes. */
  function SumSizes(qs: seq<(string, int)>): int
  {
    if qs == [] then 0 else qs[0].1 + SumSizes(qs[1..])
  }

  /** The per-queue points of a vhost, in line order. */
  function QueuePoints(name: string, qs: seq<(string, int)>): (r: seq<Point>)
    ensures |r| == |qs|
    ensures forall j :: 0 <= j < |qs| ==> r[j] == Point("messages." + name + "." + qs[j].0, qs[j].1 as real, 0)
  {
    if qs == [] then []
    else [Point("messages." + name + "." + qs[0].0, qs[0].1 as real, 0)] + QueuePoints(name, qs[1..])
  }

  /**
   * The queue loop of one vhost: the per-queue points it publishes (when `each`) up to the end or
   * to the first malformed line, and the message count when every line is well formed.
   */
  function QueueRun(name: string, lines: seq<string>, each: bool): (seq<Point>, Option<int>)
    decreases |lines|
  {
    if lines == [] then ([], Some(0))
    else match QueueLine(lines[0])
      case None => ([], None)
      case Some(q) =>
        var rest := QueueRun(name, lines[1..], each);
        var here := if each then [Point("messages." + name + "." + q.0, q.1 as real, 0)] else [];
        (here + rest.0, AddCount(q.1, rest.1))
  }

  /** A count added to a count that may have failed. */
  function AddCount(m: int, o: Option<int>): Option<int>
  {
    if o.Some? then Some(m + o.value) else None
  }

  /** The queue loop from line `i` on, one line unfolded. */
  lemma QueueRunStep(name: string, lines: seq<string>, i: nat, each: bool)
    requires i < |lines|
    ensures QueueLine(lines[i]).None? ==> QueueRun(name, lines[i..], each) == ([], None)
    ensures QueueLine(lines[i]).Some? ==>
              var q := QueueLine(lines[i]).value;
              var rest := QueueRun(name, lines[i + 1..], each);
              QueueRun(name, lines[i..], each) ==
                ((if each then [Point("messages." + name + "." + q.0, q.1 as real, 0)] else []) + rest.0, AddCount(q.1, rest.1))
  {
    assert lines[i..][0] == lines[i] && lines[i..][1..] == lines[i + 1..];
  }

  /** The queue loop's count is the sum of the sizes when every line is well formed, and fails otherwise. */
  lemma {:induction false} QueueRunCount(name: string, lines: seq<string>, each: bool)
    ensures QueueRun(name, lines, each).1 ==
              if QueueLines(lines).Some? then Some(SumSizes(QueueLines(lines).value)) else None
  {
    if lines != [] {
      QueueRunCount(name, lines[1..], each);
      if QueueLine(lines[0]).Some? && QueueLines(lines[1..]).Some? {
        var q := QueueLine(lines[0]).value;
        var qs := QueueLines(lines[1..]).value;
        assert QueueLines(lines).value == [q] + qs;
        assert ([q] + qs)[1..] == qs;
      }
    }
  }

  /** Per-queue points, when published, are one per line, in order; otherwise there are none. */
  lemma {:induction false} QueueRunPoints(name: string, lines: seq<string>, each: bool)
    ensures !each ==> QueueRun(name, lines, each).0 == []
    ensures each && QueueLines(lines).Some? ==> QueueRun(name, lines, each).0 == QueuePoints(name, QueueLines(lines).value)
  {
    if lines != [] {
      QueueRunPoints(name, lines[1..], each);
      if each && QueueLine(lines[0]).Some? && QueueLines(lines[1..]).Some? {
        var q := QueueLine(lines[0]).value;
        var qs := QueueLines(lines[1..]).value;
        assert QueueLines(lines).value == [q] + qs;
        assert ([q] + qs)[0] == q && ([q] + qs)[1..] == qs;
      }
    }
  }

  /** What one vhost adds to the grand totals. */
  datatype Totals = Totals(messages: int, exchanges: int, bindings: int)

  /**
   * One vhost of the loop in `collect`: the points it publishes, and its totals when all its
   * listings are read without an error.
   */
  function VhostRun(ctl: Ctl, vhost: string): (seq<Point>, Option<Totals>)
  {
    match ctl.queues(vhost)
    case None => ([], None)
    case Some(lines) =>
      var name := Sanitize(vhost);
      var queues := QueueRun(name, lines, |lines| <= MaxIndividualQueueStatsPerVhost);
      if queues.1.None? then (queues.0, None)
      else
        var messages := queues.0 + [Point("messages." + name + ".total", queues.1.value as real, 0)];
        match ctl.exchanges(vhost)
        case None => (messages, None)
        case Some(ex) =>
          var exchanges := messages + [Point("exchanges." + name + ".total", |ex| as real, 0)];
          match ctl.bindings(vhost)
          case None => (exchanges, None)
          case Some(b) =>
            (exchanges + [Point("bindings." + name + ".total", |b| as real, 0)], Some(Totals(queues.1.value, |ex|, |b|)))
  }

  /** A vhost's totals read directly off its listings: message sizes summed, exchange and binding lines counted. */
  function VhostTotals(ctl: Ctl, vhost: string): Option<Totals>
  {
    if ctl.queues(vhost).Some? && QueueLines(ctl.queues(vhost).value).Some? &&
       ctl.exchanges(vhost).Some? && ctl.bindings(vhost).Some?
    then Some(Totals(SumSizes(QueueLines(ctl.queues(vhost).value).value),
                     |ctl.exchanges(vhost).value|, |ctl.bindings(vhost).value|))
    else None
  }

  /**
   * A vhost's published figures: per-queue sizes only when it has at most 20 queue lines, then its
   * message, exchange and binding totals, which are those of its listings; it fails exactly when a
   * listing cannot be read or a queue line is malformed.
   */
  lemma VhostRunMeaning(ctl: Ctl, vhost: string)
    ensures VhostRun(ctl, vhost).1 == VhostTotals(ctl, vhost)
    ensures VhostTotals(ctl, vhost).Some? ==>
              var name, t := Sanitize(vhost), VhostTotals(ctl, vhost).value;
              var lines := ctl.queues(vhost).value;
              VhostRun(ctl, vhost).0 ==
                (if |lines| <= MaxIndividualQueueStatsPerVhost then QueuePoints(name, QueueLines(lines).value) else []) +
                [Point("messages." + name + ".total", t.messages as real, 0),
                 Point("exchanges." + name + ".total", t.exchanges as real, 0),
                 Point("bindings." + name + ".total", t.bindings as real, 0)]
  {
    if ctl.queues(vhost).Some? {
      var lines := ctl.queues(vhost).value;
      QueueRunCount(Sanitize(vhost), lines, |lines| <= MaxIndividualQueueStatsPerVhost);
      QueueRunPoints(Sanitize(vhost), lines, |lines| <= MaxIndividualQueueStatsPerVhost);
    }
  }

  function AddTotals(a: Totals, b: Totals): Totals
  {
    Totals(a.messages + b.messages, a.exchanges + b.exchanges, a.bindings + b.bindings)
  }

  /** A vhost's points and, unless it failed, its totals. */
  type VhostResult = (seq<Point>, Option<Totals>)

  /** Totals added to totals that may have failed. */
  function AddTotalsTo(a: Totals, o: Option<Totals>): Option<Totals>
  {
    if o.Some? then Some(AddTotals(a, o.value)) else None
  }

  /**
   * The vhost loop over the vhosts' own results: their points in turn, stopping after the first
   * vhost that fails, and the summed totals when none fails.
   */
  function Combine(runs: seq<VhostResult>): VhostResult
  {
    if runs == [] then ([], Some(Totals(0, 0, 0)))
    else if runs[0].1.None? then (runs[0].0, None)
    else
      var rest := Combine(runs[1..]);
      (runs[0].0 + rest.0, AddTotalsTo(runs[0].1.value, rest.1))
  }

  /** The loop from result `i` on, one result unfolded. */
  lemma CombineStep(runs: seq<VhostResult>, i: nat)
    requires i < |runs|
    ensures Combine(runs[i..]) ==
              if runs[i].1.None? then (runs[i].0, None)
              else (runs[i].0 + Combine(runs[i + 1..]).0, AddTotalsTo(runs[i].1.value, Combine(runs[i + 1..]).1))
  {
    assert runs[i..][0] == runs[i] && runs[i..][1..] == runs[i + 1..];
  }

  /** Each vhost's result, in order. */
  function VhostRuns(ctl: Ctl, vhosts: seq<string>): seq<VhostResult>
  {
    seq(|vhosts|, j requires 0 <= j < |vhosts| => VhostRun(ctl, vhosts[j]))
  }

  /** The vhost loop of `collect`. */
  function VhostsRun(ctl: Ctl, vhosts: seq<string>): VhostResult
  {
    Combine(VhostRuns(ctl, vhosts))
  }

  /** The sum of the vhosts' totals, `None` when one of them fails. */
  function SumTotals(ctl: Ctl, vhosts: seq<string>): (r: Option<Totals>)
    ensures r.Some? <==> forall v :: v in vhosts ==> VhostTotals(ctl, v).Some?
  {
    if vhosts == [] then Some(Totals(0, 0, 0))
    else
      assert forall v :: v in vhosts <==> v == vhosts[0] || v in vhosts[1..];
      match (VhostTotals(ctl, vhosts[0]), SumTotals(ctl, vhosts[1..]))
      case (Some(a), Some(b)) => Some(AddTotals(a, b))
      case _ => None
  }

  /** The grand totals are the sums of the vhosts' totals, and exist exactly when no vhost fails. */
  lemma {:induction false} VhostsRunTotals(ctl: Ctl, vhosts: seq<string>)
    ensures VhostsRun(ctl, vhosts).1 == SumTotals(ctl, vhosts)
  {
    if vhosts != [] {
      VhostRunMeaning(ctl, vhosts[0]);
      VhostsRunTotals(ctl, vhosts[1..]);
      assert VhostRuns(ctl, vhosts)[0] == VhostRun(ctl, vhosts[0]);
      assert VhostRuns(ctl, vhosts)[1..] == VhostRuns(ctl, vhosts[1..]);
    }
  }

  /** What a `collect` cycle published, and whether it finished without an error. */
  datatype Run = Run(points: seq<Point>, completed: bool)

  /**
   * A whole `collect`: the connection count, the vhost loop, then the three grand totals. An error
   * ends the cycle; the points published before it stand.
   */
  function CollectRun(ctl: Ctl): Run
  {
    match ctl.connections
    case None => Run([], false)
    case Some(conns) =>
      var connections := [Point("connections", |conns| as real, 0)];
      match ctl.vhosts
      case None => Run(connections, false)
      case Some(vhosts) =>
        var loop := VhostsRun(ctl, vhosts);
        match loop.1
        case None => Run(connections + loop.0, false)
        case Some(t) =>
          Run(connections + loop.0 + [Point("messages.total", t.messages as real, 0),
                                     Point("exchanges.total", t.exchanges as real, 0),
                                     Point("bindings.total", t.bindings as real, 0)], true)
  }

  /**
   * The cycle runs to the end exactly when every listing is read and every queue line is well
   * formed. It then starts with the number of connection lines and ends with the grand totals, each
   * the sum of the vhosts' totals.
   */
  lemma CollectRunMeaning(ctl: Ctl)
    ensures CollectRun(ctl).completed <==>
              ctl.connections.Some? && ctl.vhosts.Some? && forall v :: v in ctl.vhosts.value ==> VhostTotals(ctl, v).Some?
    ensures ctl.connections.Some? ==> CollectRun(ctl).points[0] == Point("connections", |ctl.connections.value| as real, 0)
    ensures CollectRun(ctl).completed ==>
              var t := SumTotals(ctl, ctl.vhosts.value).value;
              var n := |CollectRun(ctl).points|;
              n >= 4 &&
              CollectRun(ctl).points[n - 3..] == [Point("messages.total", t.messages as real, 0),
                                                  Point("exchanges.total", t.exchanges as real, 0),
                                                  Point("bindings.total", t.bindings as real, 0)]
  {
    if ctl.connections.Some? && ctl.vhosts.Some? {
      VhostsRunTotals(ctl, ctl.vhosts.value);
    }
  }

  /** One more queue line taken in: the running points and count still lead to the queue loop's result. */
  lemma QueueAdvance(name: string, lines: seq<string>, i: nat, each: bool, goal: (seq<Point>, Option<int>),
                     points: seq<Point>, total: int)
    requires i < |lines|
    requires goal.0 == points + QueueRun(name, lines[i..], each).0
    requires goal.1 == AddCount(total, QueueRun(name, lines[i..], each).1)
    ensures QueueLine(lines[i]).None? ==> goal == (points, None)
    ensures QueueLine(lines[i]).Some? ==>
              var q := QueueLine(lines[i]).value;
              var here := if each then [Point("messages." + name + "." + q.0, q.1 as real, 0)] else [];
              goal.0 == (points + here) + QueueRun(name, lines[i + 1..], each).0 &&
              goal.1 == AddCount(total + q.1, QueueRun(name, lines[i + 1..], each).1)
  {
    QueueRunStep(name, lines, i, each);
    if QueueLine(lines[i]).None? {
      assert points + [] == points;
    } else {
      var q := QueueLine(lines[i]).value;
      var here := if each then [Point("messages." + name + "." + q.0, q.1 as real, 0)] else [];
      var rest := QueueRun(name, lines[i + 1..], each);
      assert points + (here + rest.0) == (points + here) + rest.0;
    }
  }

  /** The queue loop of one vhost: the per-queue points (when `each`) and the message count. */
  method QueueStats(name: string, lines: seq<string>, each: bool) returns (points: seq<Point>, messages: Option<int>)
    ensures (points, messages) == QueueRun(name, lines, each)
  {
    ghost var goal := QueueRun(name, lines, each);
    var total := 0;
    points := [];
    var i := 0;
    while i < |lines|
      invariant 0 <= i <= |lines|
      invariant goal.0 == points + QueueRun(name, lines[i..], each).0
      invariant goal.1 == AddCount(total, QueueRun(name, lines[i..], each).1)
    {
      QueueAdvance(name, lines, i, each, goal, points, total);
      var q := QueueLine(lines[i]);
      if q.None? {
        return points, None;
      }
      var queue, size := q.value.0, q.value.1;
      var here := if each then [Point("messages." + name + "." + queue, size as real, 0)] else [];
      points := points + here;
      total := total + size;
      i := i + 1;
    }
    assert lines[|lines|..] == [];
    assert points + [] == points;
    return points, Some(total);
  }

  /** One vhost of the loop in `collect`: its queue loop, then its exchange and binding listings. */
  method VhostStats(ctl: Ctl, vhost: string) returns (points: seq<Point>, totals: Option<Totals>)
    ensures (points, totals) == VhostRun(ctl, vhost)
  {
    var queueStats := ctl.queues(vhost);
    if queueStats.None? {
      return [], None;
    }
    var lines := queueStats.value;
    var name := Sanitize(vhost);
    var messages;
    points, messages := QueueStats(name, lines, |lines| <= MaxIndividualQueueStatsPerVhost);
    if messages.None? {
      return points, None;
    }
    points := points + [Point("messages." + name + ".total", messages.value as real, 0)];
    var exchanges := ctl.exchanges(vhost);
    if exchanges.None? {
      return points, None;
    }
    points := points + [Point("exchanges." + name + ".total", |exchanges.value| as real, 0)];
    var bindings := ctl.bindings(vhost);
    if bindings.None? {
      return points, None;
    }
    points := points + [Point("bindings." + name + ".total", |bindings.value| as real, 0)];
    totals := Some(Totals(messages.value, |exchanges.value|, |bindings.value|));
  }

  /** One more vhost result taken in: the running points and totals still lead to the combined result. */
  lemma CombineAdvance(runs: seq<VhostResult>, i: nat, goal: VhostResult, points: seq<Point>, sum: Totals, result: VhostResult)
    requires i < |runs| && runs[i] == result
    requires goal.0 == points + Combine(runs[i..]).0
    requires goal.1 == AddTotalsTo(sum, Combine(runs[i..]).1)
    ensures result.1.None? ==> goal == (points + result.0, None)
    ensures result.1.Some? ==>
              goal.0 == (points + result.0) + Combine(runs[i + 1..]).0 &&
              goal.1 == AddTotalsTo(AddTotals(sum, result.1.value), Combine(runs[i + 1..]).1)
  {
    CombineStep(runs, i);
    var rest := Combine(runs[i + 1..]);
    if result.1.Some? {
      assert points + (result.0 + rest.0) == (points + result.0) + rest.0;
      if rest.1.Some? {
        var b := result.1.value;
        assert AddTotals(sum, AddTotals(b, rest.1.value)) == AddTotals(AddTotals(sum, b), rest.1.value);
      }
    }
  }

  /** The vhosts' results as a sequence, each tied to its vhost only where that vhost's result is mentioned. */
  lemma ResultsOf(ctl: Ctl, vhosts: seq<string>) returns (runs: seq<VhostResult>)
    ensures |runs| == |vhosts| && Combine(runs) == VhostsRun(ctl, vhosts)
    ensures forall j {:trigger VhostRun(ctl, vhosts[j])} :: 0 <= j < |vhosts| ==> runs[j] == VhostRun(ctl, vhosts[j])
  {
    runs := VhostRuns(ctl, vhosts);
  }

  /** The loop of `collect` over the vhosts: their points in turn, and the running totals. */
  method VhostLoop(ctl: Ctl, vhosts: seq<string>) returns (points: seq<Point>, totals: Option<Totals>)
    ensures (points, totals) == VhostsRun(ctl, vhosts)
  {
    ghost var runs := ResultsOf(ctl, vhosts);
    ghost var goal := Combine(runs);
    var totalMessages, totalExchanges, totalBindings := 0, 0, 0;
    points := [];
    var i := 0;
    while i < |vhosts|
      invariant 0 <= i <= |vhosts|
      invariant goal.0 == points + Combine(runs[i..]).0
      invariant goal.1 == AddTotalsTo(Totals(totalMessages, totalExchanges, totalBindings), Combine(runs[i..]).1)
    {
      var vhostPoints, vhostTotals := VhostStats(ctl, vhosts[i]);
      CombineAdvance(runs, i, goal, points, Totals(totalMessages, totalExchanges, totalBindings), (vhostPoints, vhostTotals));
      points := points + vhostPoints;
      if vhostTotals.None? {
        return points, None;
      }
      totalMessages := totalMessages + vhostTotals.value.messages;
      totalExchanges := totalExchanges + vhostTotals.value.exchanges;
      totalBindings := totalBindings + vhostTotals.value.bindings;
      i := i + 1;
    }
    assert runs[|vhosts|..] == [];
    assert points + [] == points;
    totals := Some(Totals(totalMessages, totalExchanges, totalBindings));
  }

  /** `collect`: the points of one cycle and whether it ran without an error. */
  method Collect(ctl: Ctl) returns (points: seq<Point>, completed: bool)
    ensures Run(points, completed) == CollectRun(ctl)
  {
    if ctl.connections.None? {
      return [], false;
    }
    points := [Point("connections", |ctl.connections.value| as real, 0)];
    if ctl.vhosts.None? {
      return points, false;
    }
    var vhostPoints, totals := VhostLoop(ctl, ctl.vhosts.value);
    points := points + vhostPoints;
    if totals.None? {
      return points, false;
    }
    points := points + [Point("messages.total", totals.value.messages as real, 0),
                        Point("exchanges.total", totals.value.exchanges as real, 0),
                        Point("bindings.total", totals.value.bindings as real, 0)];
    completed := true;
  }
}
