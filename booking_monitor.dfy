/** booking_monitor.py: the capped booking history, the six-hour quiet period
    for negative notices, and one round of the monitoring loop.

    The two JSON files the module keeps (`booking_history.json` and
    `last_notification.json`) are the fields of `BookingFiles`; whether reading
    or writing a file succeeded is a parameter. Timestamps are microseconds, as
    in `DateUtils`. */
module BookingMonitor {
  import opened Common

  const HistoryLimit: nat := 100
  const RandomIntervalMin: int := 120
  const RandomIntervalMax: int := 240
  /** Seconds slept after an exception before the loop restarts itself. */
  const RestartDelay: int := 60
  /** Six hours, in microseconds. */
  const QuietPeriod: int := 6 * 3600 * 1_000_000

  datatype HistoryEntry = HistoryEntry(timestamp: int, available: Availability, message: string)

  /** `if len(history) > 100: history = history[-100:]`. */
  function CapHistory(h: seq<HistoryEntry>): (r: seq<HistoryEntry>)
    ensures |r| <= HistoryLimit
    ensures |r| == if |h| <= HistoryLimit then |h| else HistoryLimit
    ensures r == h[|h| - |r|..]
  {
    if |h| > HistoryLimit then h[|h| - HistoryLimit..] else h
  }

  /** Saving appends exactly one record at the end and keeps at most the last
      99 of the earlier ones. */
  lemma SaveKeepsNewestEntries(h: seq<HistoryEntry>, e: HistoryEntry)
    ensures var r := CapHistory(h + [e]);
      |r| <= HistoryLimit && r[|r| - 1] == e
      && r == h[|h| - (if |h| < HistoryLimit then |h| else HistoryLimit - 1)..] + [e]
  {
    var k := if |h| < HistoryLimit then |h| else HistoryLimit - 1;
    var r := CapHistory(h + [e]);
    assert |r| == k + 1;
    assert (h + [e])[|h| + 1 - |r|..] == h[|h| - k..] + [e];
  }

  /** What `last_notification.json` holds: nothing, a time, or something that
      does not read back as a time. */
  datatype LastNotice = NeverSent | SentAt(time: int) | Unreadable

  /** `should_send_notification(status, message)` with `datetime.now()` passed
      in: a positive result always notifies; a negative one only when no
      notice was recorded less than six hours ago. An unreadable record fails
      open. */
  function ShouldSendNotification(status: Availability, last: LastNotice, now: int): (r: bool)
    ensures status.Truthy() ==> r
    ensures last.NeverSent? || last.Unreadable? ==> r
    ensures !status.Truthy() && last.SentAt? ==> (r <==> now - last.time >= QuietPeriod)
  {
    if status.Truthy() then true
    else match last
      case SentAt(t) => !(now - t < QuietPeriod)
      case _ => true
  }

  /** The notification-time rule of `check_booking_availability`: the time is
      written after every notice, positive or negative, and only then. */
  function NextLastNotice(last: LastNotice, notified: bool, now: int, written: bool): (r: LastNotice)
    ensures r != last ==> notified && written && r == SentAt(now)
  {
    if notified && written then SentAt(now) else last
  }

  function NotificationText(available: Availability, message: string): string {
    "🔔 *Проверка доступности слотов*\n\n"
    + if available.Truthy()
      then "✅ *НАЙДЕНЫ ДОСТУПНЫЕ СЛОТЫ!*\n\n" + message + "\n\nСрочно перейдите на сайт бронирования!"
      else "❌ Слоты недоступны\n\n" + message
  }

  // ---------------------------------------------------------------------------
  // Runs of checks, as pure sequences, for the quiet-period property

  /** One call of `check_booking_availability`: when it ran, what the probe
      said, and whether `last_notification.json` could be written. */
  datatype Check = Check(time: int, available: Availability, message: string, timeWritten: bool)

  predicate Chronological(checks: seq<Check>) {
    forall i, j :: 0 <= i < j < |checks| ==> checks[i].time <= checks[j].time
  }

  /** The checks that sent a notice, when the send is followed by recording
      the time (the evidently intended behaviour). */
  function Notices(last: LastNotice, checks: seq<Check>): seq<Check>
    decreases |checks|
  {
    if checks == [] then []
    else
      var c := checks[0];
      var send := ShouldSendNotification(c.available, last, c.time);
      (if send then [c] else []) + Notices(NextLastNotice(last, send, c.time, c.timeWritten), checks[1..])
  }

  /** The notice record after `checks`, with the time recorded after every
      notice whose write succeeded. */
  function LastAfter(last: LastNotice, checks: seq<Check>): LastNotice
    decreases |checks|
  {
    if checks == [] then last
    else
      var c := checks[0];
      LastAfter(NextLastNotice(last, ShouldSendNotification(c.available, last, c.time), c.time, c.timeWritten),
                checks[1..])
  }

  /** The texts sent for the notices `n`, in order. */
  function NoticeTexts(n: seq<Check>): seq<string>
    decreases |n|
  {
    if n == [] then [] else [NotificationText(n[0].available, n[0].message)] + NoticeTexts(n[1..])
  }

  lemma {:induction false} NoticesAreChecks(last: LastNotice, checks: seq<Check>)
    ensures forall e :: e in Notices(last, checks) ==> e in checks
    decreases |checks|
  {
    if checks != [] {
      var c := checks[0];
      var send := ShouldSendNotification(c.available, last, c.time);
      NoticesAreChecks(NextLastNotice(last, send, c.time, c.timeWritten), checks[1..]);
    }
  }

  /** Every negative notice in `n` comes at least six hours after `t`. */
  predicate QuietAfter(t: int, n: seq<Check>) {
    forall j :: 0 <= j < |n| && !n[j].available.Truthy() ==> n[j].time - t >= QuietPeriod
  }

  /** Every negative notice in `n` comes at least six hours after each notice
      before it. */
  predicate NegativesSpaced(n: seq<Check>) {
    forall i, j :: 0 <= i < j < |n| && !n[j].available.Truthy() ==> n[j].time - n[i].time >= QuietPeriod
  }

  /** With the time recorded after every notice, a negative notice comes at
      least six hours after the recorded time and after every earlier notice of
      either kind; positive notices are never held back. */
  lemma {:induction false} NegativeNoticesSpaced(last: LastNotice, checks: seq<Check>)
    requires Chronological(checks)
    requires forall i :: 0 <= i < |checks| ==> checks[i].timeWritten
    requires last.SentAt? ==> forall i :: 0 <= i < |checks| ==> last.time <= checks[i].time
    ensures last.SentAt? ==> QuietAfter(last.time, Notices(last, checks))
    ensures NegativesSpaced(Notices(last, checks))
    decreases |checks|
  {
    if checks != [] {
      var c := checks[0];
      var send := ShouldSendNotification(c.available, last, c.time);
      var next := NextLastNotice(last, send, c.time, c.timeWritten);
      var rest := checks[1..];
      assert forall i :: 0 <= i < |rest| ==> rest[i] == checks[i + 1];
      assert forall i :: 0 <= i < |rest| ==> c.time <= rest[i].time;
      NegativeNoticesSpaced(next, rest);
      var tail := Notices(next, rest);
      var n := Notices(last, checks);
      var off := if send then 1 else 0;
      assert n == (if send then [c] else []) + tail;
      assert |n| == |tail| + off;
      assert forall j :: off <= j < |n| ==> n[j] == tail[j - off];
      forall j | 0 <= j < |n| && !n[j].available.Truthy() && last.SentAt?
        ensures n[j].time - last.time >= QuietPeriod
      {
        if j < off {
          assert n[j] == c;
        } else {
          var e := tail[j - off];
          assert n[j] == e && !e.available.Truthy();
          assert next.SentAt?;
          assert e.time - next.time >= QuietPeriod;
        }
      }
      forall i, j | 0 <= i < j < |n| && !n[j].available.Truthy()
        ensures n[j].time - n[i].time >= QuietPeriod
      {
        var e := tail[j - off];
        assert n[j] == e && !e.available.Truthy();
        if i < off {
          assert n[i] == c;
          assert next == SentAt(c.time);
          assert e.time - next.time >= QuietPeriod;
        } else {
          assert n[i] == tail[i - off];
        }
      }
    }
  }

  /** Positive results are never held back by the quiet period. */
  lemma {:induction false} PositiveChecksAlwaysNotify(last: LastNotice, checks: seq<Check>, k: nat)
    requires k < |checks| && checks[k].available.Truthy()
    ensures checks[k] in Notices(last, checks)
    decreases k
  {
    var c := checks[0];
    var send := ShouldSendNotification(c.available, last, c.time);
    if k > 0 {
      PositiveChecksAlwaysNotify(NextLastNotice(last, send, c.time, c.timeWritten), checks[1..], k - 1);
    }
  }

  // ---------------------------------------------------------------------------
  // The files and one round of the loop

  /** What one call of `check_booking_availability` ends with: it returns the
      probe's pair, or an exception escapes to the caller. */
  datatype CheckOutcome = Returned(available: Availability, message: string) | Raised(error: string)

  /** The exception a call of `send_telegram_notification` with only one
      argument raises: its `message` parameter has no default. */
  const SendArityError: string := "send_telegram_notification() missing 1 required positional argument: 'message'"

  /** The contents of the two files. */
  datatype Files = Files(history: seq<HistoryEntry>, last: LastNotice)

  class BookingFiles {
    /** booking_history.json */
    var history: seq<HistoryEntry>
    /** last_notification.json */
    var lastNotice: LastNotice

    constructor ()
      ensures history == [] && lastNotice == NeverSent
    {
      history := [];
      lastNotice := NeverSent;
    }

    /** `save_booking_status`: `stored` is whether reading and rewriting the
        history file succeeded; on failure nothing is written. */
    method SaveBookingStatus(status: Availability, message: string, now: int, stored: bool)
      returns (ok: bool)
      modifies this`history
      ensures ok == stored
      ensures history == if ok then CapHistory(old(history) + [HistoryEntry(now, status, message)])
                         else old(history)
    {
      if !stored {
        return false;
      }
      var h := history + [HistoryEntry(now, status, message)];
      if |h| > HistoryLimit {
        h := h[|h| - HistoryLimit..];
      }
      history := h;
      ok := true;
    }

    /** `save_notification_time`. */
    method SaveNotificationTime(now: int, written: bool) returns (ok: bool)
      modifies this`lastNotice
      ensures ok == written
      ensures lastNotice == if written then SentAt(now) else old(lastNotice)
    {
      if written {
        lastNotice := SentAt(now);
      }
      ok := written;
    }

    /** `check_booking_availability` as written: the notice is sent with
        `send_telegram_notification(notification_text)`, which raises, so the
        time is never recorded and the exception escapes. */
    method CheckBookingAvailabilityAsWritten(available: Availability, message: string, now: int,
                                             stored: bool)
      returns (outcome: CheckOutcome)
      modifies this
      ensures history == if stored then CapHistory(old(history) + [HistoryEntry(now, available, message)])
                         else old(history)
      ensures lastNotice == old(lastNotice)
      ensures outcome == if ShouldSendNotification(available, old(lastNotice), now)
                         then Raised(SendArityError) else Returned(available, message)
    {
      var _ := SaveBookingStatus(available, message, now, stored);
      if ShouldSendNotification(available, lastNotice, now) {
        return Raised(SendArityError);
      }
      outcome := Returned(available, message);
    }

    /** `check_booking_availability` with the notice delivered to the chat:
        the history gets one record, a notice goes out when the quiet-period
        rule allows it, and its time is then recorded. The send's own success
        is not looked at. */
    method CheckBookingAvailability(available: Availability, message: string, now: int,
                                    stored: bool, timeWritten: bool)
      returns (outcome: CheckOutcome, notice: Option<string>)
      modifies this
      ensures outcome == Returned(available, message)
      ensures history == if stored then CapHistory(old(history) + [HistoryEntry(now, available, message)])
                         else old(history)
      ensures notice.Some? == ShouldSendNotification(available, old(lastNotice), now)
      ensures notice.Some? ==> notice.value == NotificationText(available, message)
      ensures lastNotice == NextLastNotice(old(lastNotice), notice.Some?, now, timeWritten)
    {
      var _ := SaveBookingStatus(available, message, now, stored);
      notice := None;
      if ShouldSendNotification(available, lastNotice, now) {
        notice := Some(NotificationText(available, message));
        var _ := SaveNotificationTime(now, timeWritten);
      }
      outcome := Returned(available, message);
    }
  }

  /** As written, two negative results a second apart both try to notify: the
      quiet period never starts because the time is never recorded. */
  lemma AsWrittenNeverRecordsTime()
    ensures ShouldSendNotification(Unavailable, NeverSent, 0)
    ensures ShouldSendNotification(Unavailable, NeverSent, 1_000_000)
    ensures 1_000_000 - 0 < QuietPeriod
  {
  }

  /** With the time recorded, the same two results give one notice. */
  lemma CorrectedSuppressesSecondNegative()
    ensures Notices(NeverSent, [Check(0, Unavailable, "x", true), Check(1_000_000, Unavailable, "x", true)])
            == [Check(0, Unavailable, "x", true)]
  {
  }

  // ---------------------------------------------------------------------------
  // run_monitoring

  /** One probe of the site: `run_selenium_side_script`'s pair, or an exception
      (for instance from `init_driver`, which runs outside the `try`). */
  datatype Probe = Probed(available: Availability, message: string) | ProbeRaised(error: string)

  /** One round of the `while True` loop, with its environment. */
  datatype Round = Round(probe: Probe, time: int, stored: bool, timeWritten: bool, draw: int)

  /** The pause after a round: a random 120..240 seconds after a normal check,
      60 seconds after an exception (the recursive restart). */
  function PauseAfter(outcome: CheckOutcome, draw: int): (w: int)
    ensures outcome.Raised? ==> w == RestartDelay
    ensures outcome.Returned? ==> RandomIntervalMin <= w <= RandomIntervalMax
  {
    if outcome.Raised? then RestartDelay else RandInt(RandomIntervalMin, RandomIntervalMax, draw)
  }

  /** What the check of round `r` ends with as written: a due notice raises
      the `TypeError`, and the record it is decided against never changes. */
  function OutcomeAsWritten(last: LastNotice, r: Round): CheckOutcome {
    match r.probe
    case ProbeRaised(e) => Raised(e)
    case Probed(a, m) => if ShouldSendNotification(a, last, r.time) then Raised(SendArityError) else Returned(a, m)
  }

  /** The history after the check of round `r`. */
  function RecordRound(h: seq<HistoryEntry>, r: Round): seq<HistoryEntry> {
    match r.probe
    case ProbeRaised(_) => h
    case Probed(a, m) => if r.stored then CapHistory(h + [HistoryEntry(r.time, a, m)]) else h
  }

  /** The history after `rounds`. */
  function HistoryAfter(h: seq<HistoryEntry>, rounds: seq<Round>): seq<HistoryEntry>
    decreases |rounds|
  {
    if rounds == [] then h else HistoryAfter(RecordRound(h, rounds[0]), rounds[1..])
  }

  /** The notice text round `r` sends with the notice delivered, if one is
      due. */
  function RoundNotice(last: LastNotice, r: Round): seq<string> {
    match r.probe
    case ProbeRaised(_) => []
    case Probed(a, m) => if ShouldSendNotification(a, last, r.time) then [NotificationText(a, m)] else []
  }

  /** The notice record after round `r`, with the notice delivered. */
  function RecordAfterRound(last: LastNotice, r: Round): LastNotice {
    match r.probe
    case ProbeRaised(_) => last
    case Probed(a, _) => NextLastNotice(last, ShouldSendNotification(a, last, r.time), r.time, r.timeWritten)
  }

  /** The pause after round `r` with the notice delivered: a check that
      returns is followed by the random interval. */
  function RoundPause(r: Round): (w: int)
    ensures r.probe.ProbeRaised? ==> w == RestartDelay
    ensures r.probe.Probed? ==> RandomIntervalMin <= w <= RandomIntervalMax
  {
    PauseAfter(if r.probe.ProbeRaised? then Raised(r.probe.error) else Returned(r.probe.available, r.probe.message),
               r.draw)
  }

  /** The notice texts sent over `rounds`, round by round. */
  function RunNotices(last: LastNotice, rounds: seq<Round>): seq<string>
    decreases |rounds|
  {
    if rounds == [] then []
    else RoundNotice(last, rounds[0]) + RunNotices(RecordAfterRound(last, rounds[0]), rounds[1..])
  }

  /** The files after round `r`, with the notice delivered. */
  function RoundFiles(f: Files, r: Round): Files {
    Files(RecordRound(f.history, r), RecordAfterRound(f.last, r))
  }

  /** The files after `rounds`, round by round. */
  function RunFiles(f: Files, rounds: seq<Round>): Files
    decreases |rounds|
  {
    if rounds == [] then f else RunFiles(RoundFiles(f, rounds[0]), rounds[1..])
  }

  /** The pauses over `rounds`, round by round. */
  function RunPauses(rounds: seq<Round>): (r: seq<int>)
    decreases |rounds|
  {
    if rounds == [] then [] else [RoundPause(rounds[0])] + RunPauses(rounds[1..])
  }

  lemma {:induction false} RunPausesAt(rounds: seq<Round>)
    ensures |RunPauses(rounds)| == |rounds|
    ensures forall i :: 0 <= i < |rounds| ==> RunPauses(rounds)[i] == RoundPause(rounds[i])
    decreases |rounds|
  {
    if rounds != [] {
      RunPausesAt(rounds[1..]);
      assert forall i :: 1 <= i < |rounds| ==> rounds[1..][i - 1] == rounds[i];
    }
  }

  /** The checks of the rounds whose probe returned, in order. */
  function ChecksOf(rounds: seq<Round>): seq<Check>
    decreases |rounds|
  {
    if rounds == [] then []
    else
      (match rounds[0].probe
       case Probed(a, m) => [Check(rounds[0].time, a, m, rounds[0].timeWritten)]
       case ProbeRaised(_) => [])
      + ChecksOf(rounds[1..])
  }

  /** Round by round, the loop sends exactly the notices the quiet-period
      rule lets through among the rounds' checks, and leaves the record the
      checks leave and the history the rounds' saves leave. */
  lemma {:induction false} RunNoticesAreNotices(f: Files, rounds: seq<Round>)
    ensures RunNotices(f.last, rounds) == NoticeTexts(Notices(f.last, ChecksOf(rounds)))
    ensures RunFiles(f, rounds).last == LastAfter(f.last, ChecksOf(rounds))
    ensures RunFiles(f, rounds).history == HistoryAfter(f.history, rounds)
    decreases |rounds|
  {
    if rounds != [] {
      var r := rounds[0];
      var next := RoundFiles(f, r);
      RunNoticesAreNotices(next, rounds[1..]);
      var rest := ChecksOf(rounds[1..]);
      match r.probe {
        case ProbeRaised(_) =>
          assert ChecksOf(rounds) == rest;
          assert RunNotices(f.last, rounds) == [] + RunNotices(next.last, rounds[1..]);
        case Probed(a, m) =>
          var c := Check(r.time, a, m, r.timeWritten);
          assert ChecksOf(rounds) == [c] + rest;
          NoticeStep(f.last, c, rest);
      }
    }
  }

  /** One check at the front of the fold: its notice text, if due, followed by
      the rest from the record it leaves. */
  lemma NoticeStep(last: LastNotice, c: Check, rest: seq<Check>)
    ensures var send := ShouldSendNotification(c.available, last, c.time);
      var next := NextLastNotice(last, send, c.time, c.timeWritten);
      NoticeTexts(Notices(last, [c] + rest))
        == (if send then [NotificationText(c.available, c.message)] else []) + NoticeTexts(Notices(next, rest))
      && LastAfter(last, [c] + rest) == LastAfter(next, rest)
  {
    var send := ShouldSendNotification(c.available, last, c.time);
    var next := NextLastNotice(last, send, c.time, c.timeWritten);
    assert ([c] + rest)[0] == c && ([c] + rest)[1..] == rest;
    var tail := Notices(next, rest);
    if send {
      assert ([c] + tail)[0] == c && ([c] + tail)[1..] == tail;
    } else {
      assert [] + tail == tail;
    }
  }

  /** The folds over `rounds[i..]` are round `i`'s part followed by the folds
      over `rounds[i + 1..]`; `done` is what was sent before round `i`. */
  lemma RunStep(done: seq<string>, paused: seq<int>, f: Files, rounds: seq<Round>, i: nat)
    requires i < |rounds|
    ensures var next := RoundFiles(f, rounds[i]);
      done + RunNotices(f.last, rounds[i..]) == (done + RoundNotice(f.last, rounds[i])) + RunNotices(next.last, rounds[i + 1..])
      && paused + RunPauses(rounds[i..]) == (paused + [RoundPause(rounds[i])]) + RunPauses(rounds[i + 1..])
      && RunFiles(f, rounds[i..]) == RunFiles(next, rounds[i + 1..])
  {
    assert rounds[i..][0] == rounds[i];
    assert rounds[i..][1..] == rounds[i + 1..];
  }

  /** `HistoryAfter` at round `i`. */
  lemma HistoryStep(h: seq<HistoryEntry>, rounds: seq<Round>, i: nat)
    requires i < |rounds|
    ensures HistoryAfter(h, rounds[i..]) == HistoryAfter(RecordRound(h, rounds[i]), rounds[i + 1..])
  {
    assert rounds[i..][0] == rounds[i];
    assert rounds[i..][1..] == rounds[i + 1..];
  }

  /** `run_monitoring` as written over a finite number of rounds. Every round
      whose check has a notice due ends in the `TypeError`, the handler's
      60-second sleep and the restart; no notice goes out and the notice
      record is never written (see `AsWrittenRestartsEveryMinute`). The
      restart is a recursive call, so the real loop ends after about a
      thousand restarts; the model does not count them. */
  method RunMonitoringAsWritten(files: BookingFiles, rounds: seq<Round>) returns (pauses: seq<int>)
    modifies files
    ensures |pauses| == |rounds|
    ensures forall i :: 0 <= i < |rounds| ==>
      pauses[i] == PauseAfter(OutcomeAsWritten(old(files.lastNotice), rounds[i]), rounds[i].draw)
    ensures files.lastNotice == old(files.lastNotice)
    ensures files.history == HistoryAfter(old(files.history), rounds)
  {
    ghost var last := files.lastNotice;
    ghost var finalHistory := HistoryAfter(files.history, rounds);
    pauses := [];
    var i := 0;
    while i < |rounds|
      invariant 0 <= i <= |rounds|
      invariant |pauses| == i
      invariant forall k :: 0 <= k < i ==> pauses[k] == PauseAfter(OutcomeAsWritten(last, rounds[k]), rounds[k].draw)
      invariant files.lastNotice == last
      invariant finalHistory == HistoryAfter(files.history, rounds[i..])
    {
      HistoryStep(files.history, rounds, i);
      var pause := MonitorRoundAsWritten(files, rounds[i]);
      pauses := pauses + [pause];
      i := i + 1;
    }
    assert rounds[i..] == [];
  }

  /** As written, with no notice on record (or an unreadable one) every
      round ends in an exception: the probe's own, or the `TypeError` of the
      notice that is always due. Every pause is the 60-second restart. */
  lemma AsWrittenRestartsEveryMinute(last: LastNotice, rounds: seq<Round>)
    requires last.NeverSent? || last.Unreadable?
    ensures forall i :: 0 <= i < |rounds| ==>
      OutcomeAsWritten(last, rounds[i]).Raised?
      && PauseAfter(OutcomeAsWritten(last, rounds[i]), rounds[i].draw) == RestartDelay
  {
  }

  /** One round of `run_monitoring` as written: the check, or the exception
      of the probe, then the pause its outcome calls for. */
  method MonitorRoundAsWritten(files: BookingFiles, r: Round) returns (pause: int)
    modifies files
    ensures pause == PauseAfter(OutcomeAsWritten(old(files.lastNotice), r), r.draw)
    ensures files.lastNotice == old(files.lastNotice)
    ensures files.history == RecordRound(old(files.history), r)
  {
    var outcome: CheckOutcome;
    match r.probe {
      case ProbeRaised(e) =>
        outcome := Raised(e);
      case Probed(available, message) =>
        outcome := files.CheckBookingAvailabilityAsWritten(available, message, r.time, r.stored);
    }
    pause := PauseAfter(outcome, r.draw);
  }

  /** One round of `run_monitoring` with the notice delivered: the check, or
      the exception of the probe, then the pause. */
  method MonitorRound(files: BookingFiles, r: Round) returns (pause: int, notice: seq<string>)
    modifies files
    ensures pause == RoundPause(r)
    ensures notice == RoundNotice(old(files.lastNotice), r)
    ensures Files(files.history, files.lastNotice) == RoundFiles(Files(old(files.history), old(files.lastNotice)), r)
  {
    var outcome: CheckOutcome;
    notice := [];
    match r.probe {
      case ProbeRaised(e) =>
        outcome := Raised(e);
      case Probed(available, message) =>
        var sent;
        outcome, sent := files.CheckBookingAvailability(available, message, r.time, r.stored, r.timeWritten);
        if sent.Some? {
          notice := [sent.value];
        }
    }
    pause := PauseAfter(outcome, r.draw);
  }

  /** `run_monitoring` with the notice delivered by the check, over a finite
      number of rounds: every round runs one check and then pauses; the
      notices sent are those the quiet-period rule lets through among the
      checks, and the record and the history end as the checks leave them. */
  method RunMonitoring(files: BookingFiles, rounds: seq<Round>)
    returns (pauses: seq<int>, notices: seq<string>)
    modifies files
    ensures |pauses| == |rounds|
    ensures forall i :: 0 <= i < |rounds| ==> pauses[i] == RoundPause(rounds[i])
    ensures notices == NoticeTexts(Notices(old(files.lastNotice), ChecksOf(rounds)))
    ensures files.lastNotice == LastAfter(old(files.lastNotice), ChecksOf(rounds))
    ensures files.history == HistoryAfter(old(files.history), rounds)
  {
    ghost var f0 := Files(files.history, files.lastNotice);
    ghost var allPauses := RunPauses(rounds);
    ghost var allNotices := RunNotices(f0.last, rounds);
    ghost var final := RunFiles(f0, rounds);
    RunNoticesAreNotices(f0, rounds);
    RunPausesAt(rounds);
    pauses, notices := [], [];
    var i := 0;
    while i < |rounds|
      invariant 0 <= i <= |rounds|
      invariant allPauses == pauses + RunPauses(rounds[i..])
      invariant allNotices == notices + RunNotices(files.lastNotice, rounds[i..])
      invariant final == RunFiles(Files(files.history, files.lastNotice), rounds[i..])
    {
      RunStep(notices, pauses, Files(files.history, files.lastNotice), rounds, i);
      var pause, notice := MonitorRound(files, rounds[i]);
      notices := notices + notice;
      pauses := pauses + [pause];
      i := i + 1;
    }
    assert rounds[i..] == [];
    assert pauses + [] == pauses && notices + [] == notices;
  }
}
