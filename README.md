# Worktime tracker: the in-memory log and its reports

worktime_tracker.py keeps a personal log of hours worked. The log is a
`{"data": [...]}` document. Each entry in its list is
`{"worktime": <hours as two-decimal text>, "timestamp": <clock reading as text>}`.
The program does one of three things on each run:

- it appends a new entry (`add_worktime`);
- it prints the mean hours per entry and the running delta against an 8-hour
  daily quota (`show_summary`);
- it lists every entry, then prints the total and the mean (`show_log`).

This project models that log and those three operations:

- `decimal.dfy` (module `Decimal`) models the Python number handling the log
  relies on:
  - `round(x, 2)`: the nearest hundredth, ties to even, on exact reals;
  - `"{0:.2f}".format`: the two-decimal text;
  - `float`: reads that text back.
- `worktime_tracker.dfy` (module `WorktimeTracker`) holds:
  - the entry type;
  - the `Log` class, whose `data` field `AddWorktime` appends to;
  - the two report loops `ShowSummary` and `ShowLog`, each proved equal to a
    specification function (`SummaryOf`, `LogOf`);
  - the mode choice and start-up of `main` (`SelectMode`, `SelectWorktime`,
    `Run`).
- `wrappers.dfy` holds `Option`.

A report is modelled as a transcript. It holds the lines printed, in order.
It also holds the exception that ended the report, if any:

- `float` refused the worktime or the timestamp of entry *i* (the date conversion's own range errors are left out, see below);
- the mean divided by zero because the log is empty.

`show_log` prints the total before it divides. So on an empty log its
transcript holds the total line (zero) and the division failure. `show_summary`
divides before it prints anything.

The program's units and quota, as the code has them:

- worktime is in hours;
- every run that logs time appends a new entry, even on a day that already has one;
- the daily quota is the literal 8 hours;
- both reports on an empty log end with a division by zero.

## Model

| member | source | states |
|---|---|---|
| `Decimal.RoundHundredths` | worktime_tracker.py:49 | `round(worktime, 2)` gives the whole number of hundredths nearest to the hours, within half a hundredth; an exact tie goes to the even one |
| `Decimal.FormatHundredths` | worktime_tracker.py:49 | the stored text has exactly two digits after a dot, starts with `-` exactly when the value is negative, and has a digit right after any sign (no `+` or other prefix) |
| `Decimal.ScanNat` | worktime_tracker.py:24 | `float` reading the whole-hours digits before the dot builds exactly the number they were printed from |
| `Decimal.NatToDigits` | worktime_tracker.py:49 | the whole hours are printed as a non-empty run of digits with no leading zero (only zero itself is `0`) |
| `Decimal.FormatParseRoundTrip` | worktime_tracker.py:49 | `float` of the two-decimal text written at line 49 gives back exactly the value it was made from (hundredths ÷ 100), as lines 24 and 34 read it |
| `WorktimeTracker.NewEntry` | worktime_tracker.py:49 | the appended entry reads back as the hours rounded to hundredths, its text has two fractional digits, and it carries the clock reading given |
| `WorktimeTracker.WholeHoursExact` | worktime_tracker.py:49 | a whole number of hours (the integer `-t` value) is stored and read back unchanged |
| `WorktimeTracker.ParseHoursReads` | worktime_tracker.py:23-24 | reading every worktime in stored order either gives one number per entry, each the value of that entry's own text, or names the first entry whose worktime `float` refuses, all earlier ones being numbers |
| `WorktimeTracker.ParseHoursStops` | worktime_tracker.py:23-24 | once `float` has refused an entry's worktime, the entries after it do not change the outcome |
| `WorktimeTracker.SumAppend` | worktime_tracker.py:25 | adding one more entry's hours to the running total gives the sum of the longer list |
| `WorktimeTracker.SummaryOf` | worktime_tracker.py:20-28 | the summary finishes exactly when the log is non-empty and every worktime is a number; it fails with division by zero exactly when the log is empty |
| `WorktimeTracker.ShowSummary` | worktime_tracker.py:20-28 | the loop keeps `delta == full_worktime - 8 * i` and `full_worktime` equal to the sum of the first `i` worktimes; its transcript is the summary: mean per entry, then the delta, or the first unreadable entry, or division by zero on an empty log |
| `WorktimeTracker.DeltaTracksQuota` | worktime_tracker.py:26-28 | the printed delta equals (mean per entry − 8) × number of entries, so it is non-negative exactly when the mean meets the 8-hour quota |
| `WorktimeTracker.ListingInOrder` | worktime_tracker.py:33-36 | the entry lines are one per entry in stored order, each the entry's timestamp read as seconds and its worktime text; they stop at the first entry whose worktime or timestamp `float` refuses, naming which (the date conversion's range errors are not modelled) |
| `WorktimeTracker.ListingReadsAll` | worktime_tracker.py:33-34 | a listing that reaches the end has read every worktime as a number, so the total is defined |
| `WorktimeTracker.ListingStops` | worktime_tracker.py:33-36 | once the listing has stopped at an entry, the entries after it change nothing in the output |
| `WorktimeTracker.LogOf` | worktime_tracker.py:30-38 | the listing fails with division by zero exactly when the log is empty; when it finishes it has printed the entry lines of `Listing`, then the total and the mean; when an entry stops it, the transcript is the listing up to that entry |
| `WorktimeTracker.ShowLog` | worktime_tracker.py:30-38 | the loop prints the entries in stored order while it adds up the total; its transcript is the listing, followed by the total and the mean, or it ends at the first unreadable field or the division by zero |
| `WorktimeTracker.UnreadableWorktimeStopsBoth` | worktime_tracker.py:24-34 | when the listing stops at an entry whose worktime `float` refuses, the summary stops at that same entry |
| `WorktimeTracker.SummaryLogAgree` | worktime_tracker.py:20-38 | when the listing finishes, the summary finishes too; it prints the same mean, and its delta is the listed total minus 8 per entry |
| `WorktimeTracker.AppendMovesDelta` | worktime_tracker.py:48-49 | after an append to a log whose worktimes all read back, the summary finishes; the new rounded hours are the last value read, and the delta moves by those hours minus 8 |
| `WorktimeTracker.AppendListedLast` | worktime_tracker.py:48-49 | an appended entry is listed last; the earlier entries are listed exactly as before |
| `WorktimeTracker.Log.constructor` | worktime_tracker.py:57 | the in-memory document holds the stored entries, or none when there is no store |
| `WorktimeTracker.Log.AddWorktime` | worktime_tracker.py:48-49 | with a worktime, the list grows by one: earlier entries are unchanged and in place, and the new entry is last. Without a worktime, `round(None, 2)` fails and nothing is appended |
| `WorktimeTracker.SelectMode` | worktime_tracker.py:58-63 | the listing is chosen exactly when `-l` is set; the summary exactly when `-s` is set without `-l`; an append exactly when neither is set |
| `WorktimeTracker.SelectWorktime` | worktime_tracker.py:56 | there is a worktime exactly when `-u` or `-t` is given; `-u` wins and gives uptime seconds ÷ 3600, and otherwise the `-t` integer is used |
| `WorktimeTracker.Run` | worktime_tracker.py:53-63 | a missing store is the empty log; the listing and the summary report on the loaded log and leave it as loaded; an append adds the new entry last, or nothing when no worktime was given |

## Left out

- JSON reading and writing of the store (`read_db`, the write in `add_worktime`): the log goes in and out of `Run` as a value. Whether the store exists is a parameter.
- Stores whose entries are not two text fields are not modelled; `Entry` holds a text `worktime` and a text `timestamp`. The source's behaviour on other shapes differs by mode:
  - a missing `data` key raises `KeyError` in every mode;
  - `show_summary` never reads `timestamp` and `float` accepts a JSON number, so it reports normally on entries with a numeric worktime or with no timestamp; it raises on a missing worktime (`KeyError`) or a `null` one (`TypeError`);
  - `show_log` raises on a missing worktime or timestamp (`KeyError`), on a `null` worktime (`TypeError` in `float`), and on a numeric worktime (`TypeError` at the text concatenation of line 36); a numeric timestamp is accepted;
  - `add_worktime` appends to any such list without reading it.
- `os.umask`, the `~/.worktime` path, and argparse parsing are not modelled. `Args` holds the parsed flags.
- `read_uptime` and `time.time()` read the operating system and the clock. The uptime seconds and the timestamp text are parameters. When `-u` is given, the source reads the uptime in every mode; the model only uses it to append.
- `print`, the `{0:.2f}` rendering of report numbers, and the date rendering of timestamps in `show_log` are not modelled. A report line holds the exact number it shows.
- Binary floating point is not modelled. Hours are exact reals, so sums and means have no float error. `round` on a float's exact binary value is modelled as round-half-even on the real.
- `Decimal.FormatHundredths`: Python prints a negative float that rounds to zero as `-0.00`; the model prints `0.00`. Only a negative non-integer worktime reaches this, and neither `-t` (an integer) nor the uptime (positive) supplies one. Both texts read back as zero.
- `Decimal.ParseDecimal` accepts an optional sign, digits, and an optional dot with more digits. That covers everything `add_worktime` and `str(time.time())` write. `float` also accepts exponents, `inf`/`nan`, surrounding whitespace, digit underscores and non-ASCII decimal digits (`float("٨.٥")` is 8.5); the model reports those texts as unreadable.
- `WorktimeTracker.ListingInOrder`: the listing stops only where `float` refuses a field. At worktime_tracker.py:35 `datetime.datetime.fromtimestamp` also raises (OverflowError, OSError or ValueError) for a timestamp outside the platform's range, such as `"99999999999999999999"`; the model lists such an entry and goes on. The date conversion is not modelled.
- `WorktimeTracker.WholeHoursExact`: the `-t` integer reads back unchanged only because hours are exact reals here. At worktime_tracker.py:49 `"{0:.2f}".format` turns the integer into a float: above 2**53 the stored text is a nearby float (`-t 9007199254740993` stores `"9007199254740992.00"`), and above about 1.8e308 the call raises OverflowError and nothing is appended. `Log.AddWorktime` does not model either limit.
