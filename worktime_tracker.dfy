/**
 * The worktime log of worktime_tracker.py: a `{"data": [...]}` document whose
 * list holds one `{worktime, timestamp}` entry per logged run, the append that
 * `add_worktime` performs on it, the two read-only reports `show_summary` and
 * `show_log`, and the choice `main` makes between them.
 *
 * Worktime is in hours and is stored as two-decimal text; every report reads
 * it back with `float`. Each report is a transcript: the lines it prints, in
 * order, and the exception that ends it, if any.
 */
module WorktimeTracker {
  import opened Wrappers
  import opened Decimal

  /** The hours every logged day is expected to contribute. */
  const DailyQuota: real := 8.0

  /** One element of the `data` list; both fields are text, as the program writes them. */
  datatype Entry = Entry(worktime: string, timestamp: string)

  /** The exceptions a report can end with: `float` refusing a field of entry `index`, or a division by an empty log. */
  datatype Failure = BadWorktime(index: nat) | BadTimestamp(index: nat) | DivisionByZero

  /** A printed report line, with the number it shows (its two-decimal rendering is presentation). */
  datatype Line =
    | Logged(seconds: real, worktime: string)
    | FullWorktime(hours: real)
    | PerDay(hours: real)
    | Delta(hours: real)

  datatype Transcript = Transcript(lines: seq<Line>, failure: Option<Failure>)

  /** The worktimes of a log read as numbers, or the first entry whose worktime is not a number. */
  datatype Hours = AllHours(values: seq<real>) | BadEntry(index: nat)

  /** The entry `add_worktime` appends: the hours rounded to hundredths in two-decimal text, and the clock reading. */
  function NewEntry(hours: real, timestamp: string): (e: Entry)
    ensures ParseDecimal(e.worktime) == Some(RoundHundredths(hours) as real / 100.0)
    ensures |e.worktime| >= 4 && e.worktime[|e.worktime| - 3] == '.'
    ensures e.timestamp == timestamp
  {
    FormatParseRoundTrip(RoundHundredths(hours));
    Entry(FormatHundredths(RoundHundredths(hours)), timestamp)
  }

  /** `float(entry['worktime'])` over the whole log, in stored order, stopping at the first failure. */
  function ParseHours(entries: seq<Entry>): (r: Hours)
    ensures r.AllHours? ==> |r.values| == |entries|
    ensures r.BadEntry? ==> r.index < |entries|
    decreases |entries|
  {
    if entries == [] then AllHours([])
    else
      var last := |entries| - 1;
      match ParseHours(entries[..last])
      case BadEntry(i) => BadEntry(i)
      case AllHours(values) =>
        match ParseDecimal(entries[last].worktime)
        case None => BadEntry(last)
        case Some(v) => AllHours(values + [v])
  }

  /**
   * Reading the worktimes either gives one number per entry, each the value
   * of that entry's own text, or names the first entry whose text is not a
   * number, all earlier ones being numbers.
   */
  lemma {:induction false} ParseHoursReads(entries: seq<Entry>)
    ensures var r := ParseHours(entries);
      (r.AllHours? ==>
         forall j :: 0 <= j < |entries| ==> ParseDecimal(entries[j].worktime) == Some(r.values[j])) &&
      (r.BadEntry? ==>
         ParseDecimal(entries[r.index].worktime).None? &&
         forall j :: 0 <= j < r.index ==> ParseDecimal(entries[j].worktime).Some?)
    decreases |entries|
  {
    if entries != [] {
      var last := |entries| - 1;
      var prefix := entries[..last];
      ParseHoursReads(prefix);
      assert forall j :: 0 <= j < last ==> prefix[j] == entries[j];
    }
  }

  /** Once reading has stopped at an entry, later entries do not change the outcome. */
  lemma {:induction false} ParseHoursStops(entries: seq<Entry>, k: nat)
    requires k <= |entries|
    requires ParseHours(entries[..k]).BadEntry?
    ensures ParseHours(entries) == ParseHours(entries[..k])
    decreases |entries| - k
  {
    if k < |entries| {
      var last := |entries| - 1;
      var prefix := entries[..last];
      assert prefix[..k] == entries[..k];
      ParseHoursStops(prefix, k);
      assert ParseHours(prefix).BadEntry?;
    } else {
      assert entries[..k] == entries;
    }
  }

  /** The sum of a sequence of hours. */
  function Sum(xs: seq<real>): real {
    if xs == [] then 0.0 else xs[0] + Sum(xs[1..])
  }

  lemma {:induction false} SumAppend(xs: seq<real>, x: real)
    ensures Sum(xs + [x]) == Sum(xs) + x
  {
    if xs != [] {
      assert (xs + [x])[1..] == xs[1..] + [x];
      SumAppend(xs[1..], x);
    }
  }

  /**
   * What `show_summary` prints: the mean hours per entry and the total minus
   * the quota for every entry. A worktime that is not a number stops it first;
   * an empty log stops it at the division, before anything is printed.
   */
  function SummaryOf(entries: seq<Entry>): (t: Transcript)
    ensures t.failure.None? <==>
      |entries| > 0 && forall j :: 0 <= j < |entries| ==> ParseDecimal(entries[j].worktime).Some?
    ensures t.failure == Some(DivisionByZero) <==> entries == []
  {
    ParseHoursReads(entries);
    match ParseHours(entries)
    case BadEntry(i) => Transcript([], Some(BadWorktime(i)))
    case AllHours(values) =>
      if |values| == 0 then Transcript([], Some(DivisionByZero))
      else
        var total := Sum(values);
        Transcript([PerDay(total / |values| as real), Delta(total - DailyQuota * |values| as real)], None)
  }

  /** The entry lines `show_log` prints, one per entry in stored order, up to the first field `float` refuses. */
  function Listing(entries: seq<Entry>): (t: Transcript)
    ensures |t.lines| <= |entries|
    ensures t.failure.None? <==> |t.lines| == |entries|
    ensures t.failure != Some(DivisionByZero)
    decreases |entries|
  {
    if entries == [] then Transcript([], None)
    else
      var last := |entries| - 1;
      var before := Listing(entries[..last]);
      if before.failure.Some? then before
      else if ParseDecimal(entries[last].worktime).None? then Transcript(before.lines, Some(BadWorktime(last)))
      else
        match ParseDecimal(entries[last].timestamp)
        case None => Transcript(before.lines, Some(BadTimestamp(last)))
        case Some(seconds) => Transcript(before.lines + [Logged(seconds, entries[last].worktime)], None)
  }

  /**
   * The listing shows the entries in stored order, each as its timestamp read
   * as seconds and its worktime text, and stops at the first entry whose
   * worktime or timestamp `float` refuses, naming which of the two.
   */
  lemma {:induction false} ListingInOrder(entries: seq<Entry>)
    ensures var t := Listing(entries);
      (forall j :: 0 <= j < |t.lines| ==>
         ParseDecimal(entries[j].worktime).Some? && ParseDecimal(entries[j].timestamp).Some? &&
         t.lines[j] == Logged(ParseDecimal(entries[j].timestamp).value, entries[j].worktime)) &&
      (t.failure.Some? ==>
         (t.failure == Some(BadWorktime(|t.lines|)) && ParseDecimal(entries[|t.lines|].worktime).None?) ||
         (t.failure == Some(BadTimestamp(|t.lines|)) && ParseDecimal(entries[|t.lines|].worktime).Some? &&
          ParseDecimal(entries[|t.lines|].timestamp).None?))
    decreases |entries|
  {
    if entries != [] {
      var last := |entries| - 1;
      var prefix := entries[..last];
      ListingInOrder(prefix);
      assert forall j :: 0 <= j < last ==> prefix[j] == entries[j];
    }
  }

  /** A listing that reaches the end has read every worktime as a number. */
  lemma ListingReadsAll(entries: seq<Entry>)
    requires Listing(entries).failure.None?
    ensures ParseHours(entries).AllHours?
  {
    ListingInOrder(entries);
    ParseHoursReads(entries);
    assert forall j :: 0 <= j < |entries| ==> ParseDecimal(entries[j].worktime).Some?;
  }

  /**
   * What `show_log` prints: the entry lines, then the total hours, then the
   * mean hours per entry. On an empty log the total (zero) is printed before
   * the division fails.
   */
  function LogOf(entries: seq<Entry>): (t: Transcript)
    ensures t.failure == Some(DivisionByZero) <==> entries == []
    ensures t.failure.None? ==> |t.lines| == |entries| + 2 && t.lines[..|entries|] == Listing(entries).lines
    ensures t.failure.Some? && t.failure != Some(DivisionByZero) ==> t == Listing(entries)
  {
    var listing := Listing(entries);
    if listing.failure.Some? then listing
    else
      ListingReadsAll(entries);
      var hours := ParseHours(entries);
      var total := Sum(hours.values);
      if |entries| == 0 then Transcript(listing.lines + [FullWorktime(total)], Some(DivisionByZero))
      else Transcript(listing.lines + [FullWorktime(total), PerDay(total / |entries| as real)], None)
  }

  /** Once the listing has stopped on an entry, later entries do not change what was printed. */
  lemma {:induction false} ListingStops(entries: seq<Entry>, k: nat)
    requires k <= |entries|
    requires Listing(entries[..k]).failure.Some?
    ensures Listing(entries) == Listing(entries[..k])
    decreases |entries| - k
  {
    if k < |entries| {
      var last := |entries| - 1;
      var prefix := entries[..last];
      assert prefix[..k] == entries[..k];
      ListingStops(prefix, k);
      assert Listing(prefix).failure.Some?;
      assert Listing(entries) == Listing(prefix);
    } else {
      assert entries[..k] == entries;
    }
  }

  /** `show_summary`: one pass that accumulates the total and the running delta against the quota. */
  method ShowSummary(entries: seq<Entry>) returns (t: Transcript)
    ensures t == SummaryOf(entries)
  {
    var fullWorktime, delta := 0.0, 0.0;
    var size := |entries|;
    var i := 0;
    while i < |entries|
      invariant 0 <= i <= |entries|
      invariant ParseHours(entries[..i]).AllHours?
      invariant fullWorktime == Sum(ParseHours(entries[..i]).values)
      invariant delta == fullWorktime - DailyQuota * i as real
    {
      var value := ParseDecimal(entries[i].worktime);
      if value.None? {
        assert ParseHours(entries[..i + 1]) == BadEntry(i) by {
          assert entries[..i + 1][..i] == entries[..i];
        }
        ParseHoursStops(entries, i + 1);
        return Transcript([], Some(BadWorktime(i)));
      }
      assert entries[..i + 1][..i] == entries[..i];
      SumAppend(ParseHours(entries[..i]).values, value.value);
      fullWorktime := fullWorktime + value.value;
      delta := delta + (value.value - DailyQuota);
      i := i + 1;
    }
    assert entries[..i] == entries;
    if size == 0 {
      return Transcript([], Some(DivisionByZero));
    }
    t := Transcript([PerDay(fullWorktime / size as real), Delta(delta)], None);
  }

  /** `show_log`: one pass that prints each entry in stored order and accumulates the total. */
  method ShowLog(entries: seq<Entry>) returns (t: Transcript)
    ensures t == LogOf(entries)
  {
    var fullWorktime := 0.0;
    var lines: seq<Line> := [];
    var size := |entries|;
    var i := 0;
    while i < |entries|
      invariant 0 <= i <= |entries|
      invariant Listing(entries[..i]) == Transcript(lines, None)
      invariant ParseHours(entries[..i]).AllHours?
      invariant fullWorktime == Sum(ParseHours(entries[..i]).values)
    {
      var entry := entries[i];
      assert entries[..i + 1][..i] == entries[..i];
      var value := ParseDecimal(entry.worktime);
      if value.None? {
        ListingStops(entries, i + 1);
        return Transcript(lines, Some(BadWorktime(i)));
      }
      SumAppend(ParseHours(entries[..i]).values, value.value);
      fullWorktime := fullWorktime + value.value;
      var seconds := ParseDecimal(entry.timestamp);
      if seconds.None? {
        ListingStops(entries, i + 1);
        return Transcript(lines, Some(BadTimestamp(i)));
      }
      lines := lines + [Logged(seconds.value, entry.worktime)];
      i := i + 1;
    }
    assert entries[..i] == entries;
    lines := lines + [FullWorktime(fullWorktime)];
    if size == 0 {
      return Transcript(lines, Some(DivisionByZero));
    }
    t := Transcript(lines + [PerDay(fullWorktime / size as real)], None);
  }

  /** Where both reports finish, they agree: the same mean per entry, and the delta is the listed total minus the quota per entry. */
  lemma SummaryLogAgree(entries: seq<Entry>)
    requires LogOf(entries).failure.None?
    ensures var n := |entries|;
      var summary, log := SummaryOf(entries), LogOf(entries);
      summary.failure.None? && log.lines[n].FullWorktime? &&
      summary.lines == [log.lines[n + 1], Delta(log.lines[n].hours - DailyQuota * n as real)]
  {
    var n := |entries|;
    var listing := Listing(entries);
    assert listing.failure.None? && |listing.lines| == n;
    ListingReadsAll(entries);
    var hours := ParseHours(entries);
    var total := Sum(hours.values);
    assert n > 0;
    var log := LogOf(entries);
    assert log.lines == listing.lines + [FullWorktime(total), PerDay(total / n as real)];
    assert SummaryOf(entries).lines == [PerDay(total / n as real), Delta(total - DailyQuota * n as real)];
  }

  /** A worktime that stops the listing stops the summary at the same entry. */
  lemma UnreadableWorktimeStopsBoth(entries: seq<Entry>, i: nat)
    requires LogOf(entries).failure == Some(BadWorktime(i))
    ensures SummaryOf(entries).failure == Some(BadWorktime(i))
  {
    ListingInOrder(entries);
    ParseHoursReads(entries);
    var listing := Listing(entries);
    assert listing.failure == Some(BadWorktime(i)) && |listing.lines| == i;
    assert forall j :: 0 <= j < i ==> ParseDecimal(entries[j].worktime).Some?;
    assert ParseDecimal(entries[i].worktime).None?;
    var r := ParseHours(entries);
    assert r.BadEntry? && r.index == i;
  }

  /** The mean minus the quota, over `n` entries, is the total minus the quota for each of them. */
  lemma MeanShortfall(total: real, n: nat)
    requires n > 0
    ensures (total / n as real - DailyQuota) * n as real == total - DailyQuota * n as real
    ensures total - DailyQuota * n as real >= 0.0 <==> total / n as real >= DailyQuota
  {
    var m := n as real;
    assert (total / m) * m == total;
    assert (total / m - DailyQuota) * m == (total / m) * m - DailyQuota * m;
    if total / m >= DailyQuota {
      assert (total / m - DailyQuota) * m >= 0.0;
    } else {
      assert (total / m - DailyQuota) * m < 0.0;
    }
  }

  /** The delta is the quota shortfall or surplus of the mean, summed over the entries: it is non-negative exactly when the mean meets the quota. */
  lemma DeltaTracksQuota(entries: seq<Entry>)
    requires SummaryOf(entries).failure.None?
    ensures var t, n := SummaryOf(entries), |entries| as real;
      |t.lines| == 2 && t.lines[0].PerDay? && t.lines[1].Delta? &&
      t.lines[1].hours == (t.lines[0].hours - DailyQuota) * n &&
      (t.lines[1].hours >= 0.0 <==> t.lines[0].hours >= DailyQuota)
  {
    var hours := ParseHours(entries);
    assert hours.AllHours?;
    var total := Sum(hours.values);
    var n := |entries|;
    assert SummaryOf(entries).lines == [PerDay(total / n as real), Delta(total - DailyQuota * n as real)];
    MeanShortfall(total, n);
  }

  /** A whole number of hours, as `-t` supplies, is stored and read back exactly. */
  lemma WholeHoursExact(hours: int, timestamp: string)
    ensures ParseDecimal(NewEntry(hours as real, timestamp).worktime) == Some(hours as real)
  {
    var r := RoundHundredths(hours as real);
    var d := r - 100 * hours;
    assert d as real == r as real - 100.0 * hours as real;
    assert -0.5 <= d as real <= 0.5;
    assert d == 0;
    var e := NewEntry(hours as real, timestamp);
    assert ParseDecimal(e.worktime) == Some(r as real / 100.0);
  }

  /**
   * Appending an entry to a log whose worktimes all read back makes the
   * summary succeed, with the new rounded hours added to the total and the
   * delta moved by those hours minus the quota.
   */
  lemma {:induction false} AppendMovesDelta(entries: seq<Entry>, hours: real, timestamp: string)
    requires ParseHours(entries).AllHours?
    ensures var logged := RoundHundredths(hours) as real / 100.0;
      var values := ParseHours(entries).values;
      var after := SummaryOf(entries + [NewEntry(hours, timestamp)]);
      ParseHours(entries + [NewEntry(hours, timestamp)]) == AllHours(values + [logged]) &&
      after.failure.None? &&
      after.lines[1] == Delta(Sum(values) + logged - DailyQuota * (|entries| + 1) as real) &&
      (entries != [] ==> after.lines[1].hours == SummaryOf(entries).lines[1].hours + logged - DailyQuota)
  {
    var e := NewEntry(hours, timestamp);
    var logged := RoundHundredths(hours) as real / 100.0;
    var values := ParseHours(entries).values;
    assert (entries + [e])[..|entries|] == entries;
    assert ParseHours(entries + [e]) == AllHours(values + [logged]);
    SumAppend(values, logged);
  }

  /** An appended entry is listed last, after the earlier entries exactly as they were listed before. */
  lemma AppendListedLast(entries: seq<Entry>, hours: real, timestamp: string)
    requires Listing(entries).failure.None?
    requires ParseDecimal(timestamp).Some?
    ensures var e := NewEntry(hours, timestamp);
      Listing(entries + [e]) ==
        Transcript(Listing(entries).lines + [Logged(ParseDecimal(timestamp).value, e.worktime)], None)
  {
    var e := NewEntry(hours, timestamp);
    assert (entries + [e])[..|entries|] == entries;
  }

  /** The `{"data": [...]}` document the program loads, changes and writes back. */
  class Log {
    var data: seq<Entry>

    constructor (entries: seq<Entry>)
      ensures data == entries
    {
      data := entries;
    }

    /**
     * `add_worktime`: append the rounded worktime and the clock reading as
     * the new last entry. Without a worktime, `round` raises before anything
     * is appended.
     */
    method AddWorktime(worktime: Option<real>, timestamp: string) returns (appended: bool)
      modifies this
      ensures appended <==> worktime.Some?
      ensures appended ==>
        |data| == |old(data)| + 1 && data[..|old(data)|] == old(data) &&
        data[|old(data)|] == NewEntry(worktime.value, timestamp)
      ensures !appended ==> data == old(data)
    {
      if worktime.None? {
        return false;
      }
      data := data + [NewEntry(worktime.value, timestamp)];
      appended := true;
    }
  }

  /** The command-line flags `main` acts on. */
  datatype Args = Args(time: Option<int>, uptime: bool, summary: bool, log: bool)

  datatype Mode = LogView | SummaryView | Append

  /** The listing wins over the summary; only with neither flag is a worktime appended. */
  function SelectMode(args: Args): (m: Mode)
    ensures m == LogView <==> args.log
    ensures m == SummaryView <==> !args.log && args.summary
    ensures m == Append <==> !args.log && !args.summary
  {
    if args.log then LogView else if args.summary then SummaryView else Append
  }

  /** The worktime to log: the uptime in hours when `-u` is given, else the `-t` value, else none. */
  function SelectWorktime(args: Args, uptimeSeconds: real): (w: Option<real>)
    ensures w.Some? <==> args.uptime || args.time.Some?
    ensures args.uptime ==> w.value * 3600.0 == uptimeSeconds
    ensures !args.uptime && args.time.Some? ==> w.value == args.time.value as real
  {
    if args.uptime then Some(uptimeSeconds / 3600.0)
    else if args.time.Some? then Some(args.time.value as real)
    else None
  }

  datatype Outcome = Reported(transcript: Transcript) | Appended | NoWorktime

  /**
   * `main`: load the log (an absent store is the empty log), then list it,
   * summarise it, or append to it. The reports leave the log as loaded.
   */
  method Run(args: Args, stored: Option<seq<Entry>>, uptimeSeconds: real, timestamp: string)
    returns (log: Log, outcome: Outcome)
    ensures fresh(log)
    ensures var loaded := if stored.Some? then stored.value else [];
      match SelectMode(args)
      case LogView => outcome == Reported(LogOf(loaded)) && log.data == loaded
      case SummaryView => outcome == Reported(SummaryOf(loaded)) && log.data == loaded
      case Append =>
        var worktime := SelectWorktime(args, uptimeSeconds);
        if worktime.Some? then outcome == Appended && log.data == loaded + [NewEntry(worktime.value, timestamp)]
        else outcome == NoWorktime && log.data == loaded
  {
    var worktime := SelectWorktime(args, uptimeSeconds);
    log := new Log(if stored.Some? then stored.value else []);
    match SelectMode(args)
    case LogView =>
      var t := ShowLog(log.data);
      outcome := Reported(t);
    case SummaryView =>
      var t := ShowSummary(log.data);
      outcome := Reported(t);
    case Append =>
      var appended := log.AddWorktime(worktime, timestamp);
      outcome := if appended then Appended else NoWorktime;
  }
}
