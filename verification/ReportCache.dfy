/** The bounded report lists of gps/core/SystemStatus.cpp. All of them follow one pattern. */
module ReportCache {
  const MAX_REPORTS := 5

  /** A report: what `equals` compares, and the two times it does not compare. */
  datatype Report<T> = Report(payload: T, utcTime: int, utcReported: int)

  /** What has been reported: through a setter, or as a default report. */
  datatype Event<T> = Event(report: Report<T>, isDefault: bool)

  // ---------- the full history ----------

  /** Event i starts an entry: it is a default report or differs from the event before it. */
  predicate IsStart<T(==)>(h: seq<Event<T>>, i: nat)
    requires i < |h|
  {
    i == 0 || h[i].isDefault || h[i].report.payload != h[i - 1].report.payload
  }

  /** Where the run that the n-th event belongs to starts: its events all report the same. */
  function RunStart<T(==)>(h: seq<Event<T>>, n: nat): (k: nat)
    requires 0 < n <= |h|
    ensures k < n && IsStart(h, k)
    ensures forall i | k <= i < n :: h[i].report.payload == h[k].report.payload
    ensures forall i | k < i < n :: !IsStart(h, i)
  {
    if IsStart(h, n - 1) then n - 1 else RunStart(h, n - 1)
  }

  /** The first n events with each run of equal reports collapsed into its first report,
      carrying the reported time of its last. */
  function Collapsed<T(==)>(h: seq<Event<T>>, n: nat): (c: seq<Report<T>>)
    requires n <= |h|
    ensures c == [] <==> n == 0
    ensures n > 0 ==> c[|c| - 1].payload == h[n - 1].report.payload
  {
    if n == 0 then []
    else
      var k := RunStart(h, n);
      Collapsed(h, k) + [h[k].report.(utcReported := h[n - 1].report.utcReported)]
  }

  function History<T(==)>(h: seq<Event<T>>): seq<Report<T>> {
    Collapsed(h, |h|)
  }

  function LastReports<T>(s: seq<T>): seq<T> {
    if |s| <= MAX_REPORTS then s else s[|s| - MAX_REPORTS..]
  }

  lemma {:induction false} RunStartIgnoresRest<T>(h: seq<Event<T>>, e: Event<T>, n: nat)
    requires 0 < n <= |h|
    ensures RunStart(h + [e], n) == RunStart(h, n)
  {
    if !IsStart(h, n - 1) {
      RunStartIgnoresRest(h, e, n - 1);
    }
  }

  lemma {:induction false} CollapsedIgnoresRest<T>(h: seq<Event<T>>, e: Event<T>, n: nat)
    requires n <= |h|
    ensures Collapsed(h + [e], n) == Collapsed(h, n)
  {
    if n > 0 {
      RunStartIgnoresRest(h, e, n);
      CollapsedIgnoresRest(h, e, RunStart(h, n));
    }
  }

  lemma StartAppends<T>(h: seq<Event<T>>, e: Event<T>)
    requires IsStart(h + [e], |h|)
    ensures History(h + [e]) == History(h) + [e.report]
  {
    CollapsedIgnoresRest(h, e, |h|);
    assert RunStart(h + [e], |h| + 1) == |h|;
  }

  lemma RepeatUpdates<T>(h: seq<Event<T>>, e: Event<T>)
    requires !IsStart(h + [e], |h|)
    ensures
      var c := History(h);
      |c| > 0 && History(h + [e]) == c[|c| - 1 := c[|c| - 1].(utcReported := e.report.utcReported)]
  {
    var k := RunStart(h, |h|);
    RunStartIgnoresRest(h, e, |h|);
    assert RunStart(h + [e], |h| + 1) == k;
    CollapsedIgnoresRest(h, e, k);
  }

  // ---------- the object ----------

  class ReportList<T(==)> {
    var entries: seq<Report<T>>
    ghost var history: seq<Event<T>>

    /** The list is the end of the collapsed history. */
    ghost predicate Valid()
      reads this
    {
      entries == LastReports(History(history))
    }

    constructor ()
      ensures Valid() && history == []
    {
      entries, history := [], [];
    }

    method pushBounded(s: Report<T>)
      modifies this`entries
      ensures entries == LastOf(old(entries), s)
    {
      entries := entries + [s];
      if |entries| > MAX_REPORTS {
        entries := entries[1..];
      }
    }

    /** A setter such as setTimeAndCLock, or eventPosition. */
    method setReport(s: Report<T>)
      requires Valid()
      modifies this
      ensures Valid() && history == old(history) + [Event(s, false)]
    {
      AppendReport(history, Event(s, false), entries);
      if entries != [] && entries[|entries| - 1].payload == s.payload {
        entries := entries[|entries| - 1 := entries[|entries| - 1].(utcReported := s.utcReported)];
      } else {
        pushBounded(s);
      }
      history := history + [Event(s, false)];
    }

    method setDefaultReport(s: Report<T>)
      requires Valid()
      modifies this
      ensures Valid() && history == old(history) + [Event(s, true)]
    {
      AppendReport(history, Event(s, true), entries);
      pushBounded(s);
      history := history + [Event(s, true)];
    }

    method getReport(isLatestOnly: bool) returns (report: seq<Report<T>>)
      requires Valid()
      ensures
        var all := History(history);
        && (!isLatestOnly ==> |report| == if |all| < 5 then |all| else 5)
        && report == if !isLatestOnly then LastReports(all) else if history == [] then [] else [all[|all| - 1]]
    {
      report := [];
      LastReportsEnd(history);
      if isLatestOnly {
        if |entries| >= 1 {
          report := report + [entries[|entries| - 1]];
        }
      } else {
        report := entries;
      }
    }
  }

  function LastOf<T>(entries: seq<Report<T>>, s: Report<T>): seq<Report<T>> {
    if |entries| + 1 > MAX_REPORTS then (entries + [s])[1..] else entries + [s]
  }

  lemma LastReportsEnd<T>(h: seq<Event<T>>)
    ensures |History(h)| > 0 <==> h != []
    ensures h != [] ==> var c, l := History(h), LastReports(History(h)); |l| > 0 && l[|l| - 1] == c[|c| - 1]
  {
  }

  lemma LastReportsPush<T>(c: seq<Report<T>>, x: Report<T>)
    ensures LastReports(c + [x]) == LastOf(LastReports(c), x)
  {
  }

  lemma LastReportsUpdate<T>(c: seq<Report<T>>, x: Report<T>)
    requires |c| > 0
    ensures var l := LastReports(c); |l| > 0 && LastReports(c[|c| - 1 := x]) == l[|l| - 1 := x]
  {
  }

  /** What a setter does to the list is what one more event does to the collapsed history. */
  lemma AppendReport<T>(h: seq<Event<T>>, e: Event<T>, entries: seq<Report<T>>)
    requires entries == LastReports(History(h))
    ensures
      LastReports(History(h + [e])) ==
        if !e.isDefault && entries != [] && entries[|entries| - 1].payload == e.report.payload
        then entries[|entries| - 1 := entries[|entries| - 1].(utcReported := e.report.utcReported)]
        else LastOf(entries, e.report)
  {
    var c := History(h);
    LastReportsEnd(h);
    if IsStart(h + [e], |h|) {
      StartAppends(h, e);
      LastReportsPush(c, e.report);
    } else {
      RepeatUpdates(h, e);
      LastReportsUpdate(c, c[|c| - 1].(utcReported := e.report.utcReported));
    }
  }
}
