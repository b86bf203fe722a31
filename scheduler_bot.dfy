/** The bot of telegram/bot.py: exact text commands behind an optional
    allowlist, a start/stop flag pair, one-off checks whose positive results
    go to every active user, and a background loop built on the
    booking_monitor.py functions.

    The database is two in-memory logs and a status map; the Telegram and
    browser calls are inputs. */
module SchedulerBot {
  import opened Common
  import opened BookingMonitor

  // ---------------------------------------------------------------------------
  // Replies

  const DeniedReply: string := "У вас нет доступа к этому боту."
  const HelpReply: string :=
    "Я не понимаю эту команду. Доступные команды:\n"
    + "*старт* - запустить периодическую проверку\n"
    + "*стоп* - остановить проверку\n"
    + "*статус* - узнать текущий статус\n"
    + "*проверить* - выполнить одну проверку сейчас"
  const AlreadyCheckingReply: string := "Проверка уже запущена!"
  const AlreadyStoppedReply: string := "Проверка уже остановлена!"
  const StoppedReply: string := "❌ Проверка остановлена."
  const MonitoringRunningReply: string := "Мониторинг уже запущен!"
  const MonitoringStartedReply: string :=
    "✅ Мониторинг запущен! Вы получите уведомление, когда появятся доступные слоты."
  const CheckingNowReply: string := "🔍 Проверяю наличие доступных слотов..."

  /** The exception `handle_message` raises for "проверить": the method it
      calls is not defined on the class. */
  const MissingSingleCheckError: string := "'TelegramBot' object has no attribute 'run_single_check'"

  /** The reply of `start_checking`, with the interval in whole minutes
      (`CHECK_INTERVAL // 60`, a floor division). */
  function StartedReply(checkInterval: int): (r: string)
    ensures checkInterval >= 0 ==>
      r == "✅ Проверка запущена! Буду проверять наличие слотов каждые "
           + NatToString(checkInterval / 60) + " минут."
  {
    "✅ Проверка запущена! Буду проверять наличие слотов каждые "
    + IntToString(checkInterval / 60) + " минут."
  }

  function StatusReply(checking: bool): string {
    "Проверка доступности слотов: " + if checking then "✅ активна" else "❌ неактивна"
  }

  /** The broadcast of `send_availability_notification`. */
  function AvailabilityMessage(details: string, siteUrl: string): string {
    "🎉 *ДОСТУПНЫ СЛОТЫ ДЛЯ БРОНИРОВАНИЯ!*\n\n" + details
    + "\n\n🔗 [Перейти на сайт бронирования](" + siteUrl + ")"
  }

  // ---------------------------------------------------------------------------
  // Commands

  datatype Command = StartCmd | StopCmd | StatusCmd | CheckCmd | Unknown

  /** The text after `lower()` and `strip()`, matched exactly. */
  function Classify(text: string): (c: Command)
    ensures c == StartCmd <==> Strip(Lower(text)) == "старт"
    ensures c == StopCmd <==> Strip(Lower(text)) == "стоп"
    ensures c == StatusCmd <==> Strip(Lower(text)) == "статус"
    ensures c == CheckCmd <==> Strip(Lower(text)) == "проверить"
    ensures c == Unknown <==>
      Strip(Lower(text)) != "старт" && Strip(Lower(text)) != "стоп"
      && Strip(Lower(text)) != "статус" && Strip(Lower(text)) != "проверить"
  {
    var t := Strip(Lower(text));
    if t == "старт" then StartCmd
    else if t == "стоп" then StopCmd
    else if t == "статус" then StatusCmd
    else if t == "проверить" then CheckCmd
    else Unknown
  }

  /** The allowlist test: an empty list lets everybody in. */
  predicate Refused(allowed: seq<int>, userId: int) {
    |allowed| > 0 && userId !in allowed
  }

  /** A leading blank and a trailing newline do not change the command. */
  lemma ClassifyIgnoresSurroundingBlanks(text: string)
    ensures Classify(" " + text + "\n") == Classify(text)
  {
    NormalFormIgnoresSurroundingBlanks(text);
  }

  lemma NormalFormIgnoresSurroundingBlanks(text: string)
    ensures Strip(Lower(" " + text + "\n")) == Strip(Lower(text))
  {
    var l := Lower(text);
    LowerSurrounded(text);
    StripLeftDropsBlank(l + "\n");
    assert " " + l + "\n" == " " + (l + "\n");
    StripRightNewline(l);
  }

  lemma LowerSurrounded(text: string)
    ensures Lower(" " + text + "\n") == " " + Lower(text) + "\n"
  {
  }

  lemma StripLeftDropsBlank(s: string)
    ensures StripLeft(" " + s) == StripLeft(s)
  {
    var x := " " + s;
    assert x[0] == ' ' && IsSpace(x[0]);
    assert x[1..] == s;
  }

  lemma {:induction false} StripRightNewline(s: string)
    ensures Strip(s + "\n") == Strip(s)
  {
    StripLeftAppendNewline(s);
    var l := StripLeft(s);
    if l == [] {
      assert StripLeft(s + "\n") == StripLeft("\n");
      assert StripLeft("\n") == StripLeft("\n"[1..]);
    } else {
      assert StripLeft(s + "\n") == l + "\n";
      assert (l + "\n")[..|l + "\n"| - 1] == l;
    }
  }

  /** Stripping the front of `s + "\n"` keeps the newline when `s` has a
      character that is not blank. */
  lemma {:induction false} StripLeftAppendNewline(s: string)
    ensures StripLeft(s) == [] ==> StripLeft(s + "\n") == StripLeft("\n")
    ensures StripLeft(s) != [] ==> StripLeft(s + "\n") == StripLeft(s) + "\n"
  {
    if s != [] {
      assert (s + "\n")[0] == s[0];
      assert (s + "\n")[1..] == s[1..] + "\n";
      if IsSpace(s[0]) {
        StripLeftAppendNewline(s[1..]);
        assert StripLeft(s) == StripLeft(s[1..]);
        assert StripLeft(s + "\n") == StripLeft(s[1..] + "\n");
      } else {
        assert StripLeft(s) == s;
        assert StripLeft(s + "\n") == s + "\n";
      }
    } else {
      assert s + "\n" == "\n";
    }
  }

  // ---------------------------------------------------------------------------
  // One-off checks

  /** What `booking_checker.perform_full_check` gives: a pair or an exception. */
  datatype FullCheck = Checked(available: Availability, details: string) | CheckRaised(error: string)

  /** An active user and whether `send_message` to them succeeds. */
  datatype Recipient = Recipient(userId: int, reachable: bool)

  /** Whether one of the first `n` recipients is `u` and can be reached. */
  predicate Reaches(rs: seq<Recipient>, n: nat, u: int)
    requires n <= |rs|
  {
    exists k :: 0 <= k < n && rs[k].reachable && rs[k].userId == u
  }

  /** What `get_active_users` gives. */
  datatype ActiveUsers = Users(recipients: seq<Recipient>) | UsersRaised(error: string)

  /** A row of the checks table. */
  datatype CheckLogEntry = CheckLogEntry(available: Availability, details: string)

  /** A row of the notifications table. */
  datatype NotificationLogEntry = NotificationLogEntry(checkId: int, userId: int, delivered: bool)

  // ---------------------------------------------------------------------------
  // The background loop

  /** How the loop's notice is sent: as written, with one argument too few,
      or with the notice delivered. */
  datatype Sender = AsWritten | Corrected

  /** One round of `monitoring_thread` with its environment: the probe, the
      clock, whether the history and the notice time could be written, the
      random draw, and the first tick check at which a stop is seen (a stop
      that arrives during the round ends the loop after it). */
  datatype Round = Round(probe: Probe, time: int, stored: bool, timeWritten: bool, draw: int,
                         stopFrom: Option<nat>)

  /** What the loop does that can be observed. */
  datatype Event =
    | Notified(text: string)
    | Paused(seconds: nat)
    /** The handler's 60-second sleep after an exception. */
    | RetriedAfterError(error: string)

  /** `randint(120, 240) // 5`: the five-second ticks of one wait. */
  function PauseTicks(draw: int): (t: nat)
    ensures RandomIntervalMin / 5 <= t <= RandomIntervalMax / 5
    ensures RandomIntervalMin <= 5 * t + 4 && 5 * t <= RandomIntervalMax
  {
    RandInt(RandomIntervalMin, RandomIntervalMax, draw) / 5
  }

  function PauseSeconds(r: Round): nat {
    5 * TicksBeforeStop(PauseTicks(r.draw), r.stopFrom)
  }

  function RoundEvents(f: Files, r: Round, s: Sender): seq<Event> {
    match r.probe
    case ProbeRaised(e) => [RetriedAfterError(e)]
    case Probed(a, m) =>
      var send := ShouldSendNotification(a, f.last, r.time);
      if s == AsWritten then
        (if send then [RetriedAfterError(SendArityError)] else [Paused(PauseSeconds(r))])
      else
        (if send then [Notified(NotificationText(a, m))] else []) + [Paused(PauseSeconds(r))]
  }

  function NextFiles(f: Files, r: Round, s: Sender): Files {
    match r.probe
    case ProbeRaised(_) => f
    case Probed(a, m) =>
      var h := if r.stored then CapHistory(f.history + [HistoryEntry(r.time, a, m)]) else f.history;
      if s == AsWritten then Files(h, f.last)
      else Files(h, NextLastNotice(f.last, ShouldSendNotification(a, f.last, r.time), r.time, r.timeWritten))
  }

  /** The events of the loop over `rounds`, until the round in which a stop
      arrives. */
  function Sched(f: Files, rounds: seq<Round>, s: Sender): seq<Event>
    decreases |rounds|
  {
    if rounds == [] then []
    else RoundEvents(f, rounds[0], s)
         + if rounds[0].stopFrom.Some? then [] else Sched(NextFiles(f, rounds[0], s), rounds[1..], s)
  }

  /** The files when the loop over `rounds` ends. */
  function SchedFiles(f: Files, rounds: seq<Round>, s: Sender): Files
    decreases |rounds|
  {
    if rounds == [] then f
    else if rounds[0].stopFrom.Some? then NextFiles(f, rounds[0], s)
    else SchedFiles(NextFiles(f, rounds[0], s), rounds[1..], s)
  }

  /** As written the loop never notifies, and the notice time it reads is
      never rewritten. */
  lemma {:induction false} AsWrittenNeverNotifies(f: Files, rounds: seq<Round>)
    ensures forall e :: e in Sched(f, rounds, AsWritten) ==> !e.Notified?
    ensures SchedFiles(f, rounds, AsWritten).last == f.last
    decreases |rounds|
  {
    if rounds != [] && rounds[0].stopFrom.None? {
      AsWrittenNeverNotifies(NextFiles(f, rounds[0], AsWritten), rounds[1..]);
    }
  }

  /** As written, with no notice time on record, every check that returns
      ends in the exception handler: the loop never waits its random interval
      and probes again a minute later, for ever. */
  lemma {:induction false} AsWrittenRetriesEveryMinute(f: Files, rounds: seq<Round>)
    requires f.last == NeverSent
    requires forall i :: 0 <= i < |rounds| ==> rounds[i].probe.Probed?
    ensures forall e :: e in Sched(f, rounds, AsWritten) ==> e == RetriedAfterError(SendArityError)
    decreases |rounds|
  {
    if rounds != [] && rounds[0].stopFrom.None? {
      AsWrittenRetriesEveryMinute(NextFiles(f, rounds[0], AsWritten), rounds[1..]);
    }
  }

  /** The checks the loop over `rounds` makes: one for each round whose probe
      returned, up to and including the round in which a stop arrives. */
  function SchedChecks(rounds: seq<Round>): seq<Check>
    decreases |rounds|
  {
    if rounds == [] then []
    else
      var r := rounds[0];
      (match r.probe
       case Probed(a, m) => [Check(r.time, a, m, r.timeWritten)]
       case ProbeRaised(_) => [])
      + if r.stopFrom.Some? then [] else SchedChecks(rounds[1..])
  }

  /** The texts of the notices among `events`, in order. */
  function NotifiedTexts(events: seq<Event>): seq<string>
    decreases |events|
  {
    if events == [] then []
    else (if events[0].Notified? then [events[0].text] else []) + NotifiedTexts(events[1..])
  }

  lemma {:induction false} NotifiedTextsAppend(a: seq<Event>, b: seq<Event>)
    ensures NotifiedTexts(a + b) == NotifiedTexts(a) + NotifiedTexts(b)
    decreases |a|
  {
    if a == [] {
      assert a + b == b;
    } else {
      assert (a + b)[0] == a[0];
      assert (a + b)[1..] == a[1..] + b;
      NotifiedTextsAppend(a[1..], b);
    }
  }

  /** With the notice delivered, the loop's notices are exactly those the
      quiet-period rule of booking_monitor.py lets through among its checks,
      as `BookingMonitor.Notices` folds them. */
  lemma {:induction false} CorrectedNoticesFollowRule(f: Files, rounds: seq<Round>)
    ensures NotifiedTexts(Sched(f, rounds, Corrected)) == NoticeTexts(Notices(f.last, SchedChecks(rounds)))
    decreases |rounds|
  {
    if rounds != [] {
      var r := rounds[0];
      var next := NextFiles(f, r, Corrected);
      var tail := if r.stopFrom.Some? then [] else Sched(next, rounds[1..], Corrected);
      var restChecks := if r.stopFrom.Some? then [] else SchedChecks(rounds[1..]);
      if r.stopFrom.None? {
        CorrectedNoticesFollowRule(next, rounds[1..]);
      }
      assert NotifiedTexts(tail) == NoticeTexts(Notices(next.last, restChecks));
      RoundNotifiedTexts(f, r, tail, restChecks);
    }
  }

  /** One round at the front of the loop: its notice, if due, followed by the
      notices of the rest from the record it leaves. */
  lemma RoundNotifiedTexts(f: Files, r: Round, tail: seq<Event>, restChecks: seq<Check>)
    requires NotifiedTexts(tail) == NoticeTexts(Notices(NextFiles(f, r, Corrected).last, restChecks))
    ensures NotifiedTexts(RoundEvents(f, r, Corrected) + tail)
            == NoticeTexts(Notices(f.last, (match r.probe
                                            case Probed(a, m) => [Check(r.time, a, m, r.timeWritten)]
                                            case ProbeRaised(_) => []) + restChecks))
  {
    var head := RoundEvents(f, r, Corrected);
    NotifiedTextsAppend(head, tail);
    RoundHeadTexts(f, r);
    match r.probe {
      case ProbeRaised(e) =>
        assert [] + restChecks == restChecks;
      case Probed(a, m) =>
        NoticeStep(f.last, Check(r.time, a, m, r.timeWritten), restChecks);
    }
  }

  /** The notice of one round, if due. */
  lemma RoundHeadTexts(f: Files, r: Round)
    ensures r.probe.ProbeRaised? ==> NotifiedTexts(RoundEvents(f, r, Corrected)) == []
    ensures r.probe.Probed? ==>
      NotifiedTexts(RoundEvents(f, r, Corrected))
        == (if ShouldSendNotification(r.probe.available, f.last, r.time)
            then [NotificationText(r.probe.available, r.probe.message)] else [])
  {
    var head := RoundEvents(f, r, Corrected);
    var wait := [Paused(PauseSeconds(r))];
    assert NotifiedTexts(wait) == [] by {
      assert wait[1..] == [];
    }
    if r.probe.Probed? {
      var a, m := r.probe.available, r.probe.message;
      var first := if ShouldSendNotification(a, f.last, r.time) then [Notified(NotificationText(a, m))] else [];
      assert head == first + wait;
      NotifiedTextsAppend(first, wait);
      assert NotifiedTexts(first) == if ShouldSendNotification(a, f.last, r.time) then [NotificationText(a, m)] else [] by {
        if first != [] {
          assert first[1..] == [];
        }
      }
    } else {
      assert head == [RetriedAfterError(r.probe.error)];
      assert head[1..] == [];
    }
  }

  /** With the notice delivered and its time written, negative notices of the
      loop are six hours apart from every earlier notice, and from the notice
      on record when the loop starts. */
  lemma CorrectedNegativeNoticesSpaced(f: Files, rounds: seq<Round>)
    requires Chronological(SchedChecks(rounds))
    requires forall i :: 0 <= i < |SchedChecks(rounds)| ==> SchedChecks(rounds)[i].timeWritten
    requires f.last.SentAt? ==> forall i :: 0 <= i < |SchedChecks(rounds)| ==> f.last.time <= SchedChecks(rounds)[i].time
    ensures var n := Notices(f.last, SchedChecks(rounds));
      NotifiedTexts(Sched(f, rounds, Corrected)) == NoticeTexts(n)
      && NegativesSpaced(n)
      && (f.last.SentAt? ==> QuietAfter(f.last.time, n))
  {
    CorrectedNoticesFollowRule(f, rounds);
    NegativeNoticesSpaced(f.last, SchedChecks(rounds));
  }

  /** With the notice delivered, two negative results a second apart give
      one notice: the quiet period starts with the first. */
  lemma CorrectedSecondNegativeSilent(a: Round, b: Round)
    requires a.probe == Probed(Unavailable, "x") && a.time == 0 && a.timeWritten && a.stopFrom.None?
    requires b.probe == Probed(Unavailable, "x") && b.time == 1_000_000
    ensures Sched(Files([], NeverSent), [a, b], Corrected)
            == [Notified(NotificationText(Unavailable, "x")), Paused(PauseSeconds(a)), Paused(PauseSeconds(b))]
  {
    var f0 := Files([], NeverSent);
    FirstNegativeNotifies(a);
    var f1 := NextFiles(f0, a, Corrected);
    QuietRoundOnlyWaits(f1, b);
    assert [a, b][1..] == [b];
    assert Sched(f0, [a, b], Corrected) == RoundEvents(f0, a, Corrected) + Sched(f1, [b], Corrected);
  }

  /** With nothing on record, a negative result is announced and its time
      written. */
  lemma FirstNegativeNotifies(a: Round)
    requires a.probe == Probed(Unavailable, "x") && a.time == 0 && a.timeWritten
    ensures RoundEvents(Files([], NeverSent), a, Corrected)
            == [Notified(NotificationText(Unavailable, "x")), Paused(PauseSeconds(a))]
    ensures NextFiles(Files([], NeverSent), a, Corrected).last == SentAt(0)
  {
  }

  /** A negative result a second after a notice only waits, and nothing
      follows a single round. */
  lemma QuietRoundOnlyWaits(f: Files, b: Round)
    requires f.last == SentAt(0)
    requires b.probe == Probed(Unavailable, "x") && b.time == 1_000_000
    ensures Sched(f, [b], Corrected) == [Paused(PauseSeconds(b))]
  {
    assert !ShouldSendNotification(Unavailable, SentAt(0), 1_000_000);
    assert RoundEvents(f, b, Corrected) == [Paused(PauseSeconds(b))];
    assert [b][1..] == [];
  }

  /** How many rounds the events account for: every round ends in exactly one
      wait or one retry. */
  function Completed(events: seq<Event>): nat {
    if events == [] then 0
    else (if events[0].Notified? then 0 else 1) + Completed(events[1..])
  }

  lemma {:induction false} CompletedAppend(a: seq<Event>, b: seq<Event>)
    ensures Completed(a + b) == Completed(a) + Completed(b)
  {
    if a == [] {
      assert a + b == b;
    } else {
      assert (a + b)[0] == a[0];
      assert (a + b)[1..] == a[1..] + b;
      CompletedAppend(a[1..], b);
    }
  }

  /** Errors never end the loop: without a stop, every round is carried out,
      whatever the probes raise. */
  lemma {:induction false} ErrorsNeverEndLoop(f: Files, rounds: seq<Round>, s: Sender)
    requires forall i :: 0 <= i < |rounds| ==> rounds[i].stopFrom.None?
    ensures Completed(Sched(f, rounds, s)) == |rounds|
    decreases |rounds|
  {
    if rounds != [] {
      var head := RoundEvents(f, rounds[0], s);
      ErrorsNeverEndLoop(NextFiles(f, rounds[0], s), rounds[1..], s);
      CompletedAppend(head, Sched(NextFiles(f, rounds[0], s), rounds[1..], s));
      assert Completed(head) == 1 by {
        match rounds[0].probe {
          case ProbeRaised(_) =>
          case Probed(a, m) =>
            if s == Corrected && ShouldSendNotification(a, f.last, rounds[0].time) {
              assert head == [Notified(NotificationText(a, m)), Paused(PauseSeconds(rounds[0]))];
              assert head[1..] == [Paused(PauseSeconds(rounds[0]))];
            }
        }
      }
    }
  }

  /** Waits last at most 240 seconds in whole five-second ticks, and one
      shorter than the 120-second minimum only happens when a stop cut it
      short, so it is the loop's last event. */
  predicate PausesBounded(events: seq<Event>) {
    forall i :: 0 <= i < |events| && events[i].Paused? ==>
      events[i].seconds <= RandomIntervalMax && events[i].seconds % 5 == 0
      && (events[i].seconds + 4 < RandomIntervalMin ==> i == |events| - 1)
  }

  lemma {:induction false} PausesAreBounded(f: Files, rounds: seq<Round>, s: Sender)
    ensures PausesBounded(Sched(f, rounds, s))
    decreases |rounds|
  {
    if rounds != [] {
      var r := rounds[0];
      var head := RoundEvents(f, r, s);
      var tail := if r.stopFrom.Some? then [] else Sched(NextFiles(f, r, s), rounds[1..], s);
      assert head + tail == Sched(f, rounds, s);
      if r.stopFrom.None? {
        PausesAreBounded(NextFiles(f, r, s), rounds[1..], s);
      }
      RoundPauseBounded(f, r, s);
      PausesBoundedAppend(head, tail);
    }
  }

  /** A round waits at most once, as its last event, and only a stop cuts the
      wait below the minimum. */
  lemma RoundPauseBounded(f: Files, r: Round, s: Sender)
    ensures var head := RoundEvents(f, r, s);
      && PausesBounded(head)
      && (r.stopFrom.None? ==> forall k :: 0 <= k < |head| && head[k].Paused? ==> RandomIntervalMin <= head[k].seconds + 4)
  {
    var head := RoundEvents(f, r, s);
    assert forall k :: 0 <= k < |head| && head[k].Paused? ==> head[k] == Paused(PauseSeconds(r)) && k == |head| - 1;
    if r.stopFrom.None? {
      assert PauseSeconds(r) == 5 * PauseTicks(r.draw);
    }
  }

  /** Bounded waits stay bounded after a head of bounded waits, all of them
      long enough, except at the very end. */
  lemma PausesBoundedAppend(head: seq<Event>, tail: seq<Event>)
    requires PausesBounded(head) && PausesBounded(tail)
    requires tail != [] ==> forall k :: 0 <= k < |head| && head[k].Paused? ==> RandomIntervalMin <= head[k].seconds + 4
    ensures PausesBounded(head + tail)
  {
    var ev := head + tail;
    assert forall k :: 0 <= k < |head| ==> ev[k] == head[k];
    assert forall k :: |head| <= k < |ev| ==> ev[k] == tail[k - |head|];
  }

  /** The step the loop takes in one round, from the current files. */
  lemma RoundAdvance(f: Files, rounds: seq<Round>, i: nat, s: Sender)
    requires i < |rounds|
    ensures Sched(f, rounds[i..], s) == RoundEvents(f, rounds[i], s)
      + if rounds[i].stopFrom.Some? then [] else Sched(NextFiles(f, rounds[i], s), rounds[i + 1..], s)
    ensures SchedFiles(f, rounds[i..], s) ==
      if rounds[i].stopFrom.Some? then NextFiles(f, rounds[i], s)
      else SchedFiles(NextFiles(f, rounds[i], s), rounds[i + 1..], s)
  {
    assert rounds[i..][0] == rounds[i];
    assert rounds[i..][1..] == rounds[i + 1..];
  }

  lemma EventsAssoc(a: seq<Event>, b: seq<Event>, c: seq<Event>)
    ensures a + (b + c) == (a + b) + c
  {
  }

  // ---------------------------------------------------------------------------
  // The bot

  class TelegramBot {
    var isChecking: bool
    /** `stop_event`. */
    var stopRequested: bool
    /** The database's checking status per user. */
    var checkingStatus: map<int, bool>
    /** The database's table of checks. */
    var checkLog: seq<CheckLogEntry>
    /** The database's table of notifications. */
    var notificationLog: seq<NotificationLogEntry>

    constructor ()
      ensures !isChecking && !stopRequested && checkingStatus == map[]
      ensures checkLog == [] && notificationLog == []
    {
      isChecking := false;
      stopRequested := false;
      checkingStatus := map[];
      checkLog := [];
      notificationLog := [];
    }

    /** `start_checking`: `fromUser` is whether an update is there to reply
        to. The scheduler thread it starts is not part of this model. */
    method StartChecking(fromUser: bool, checkInterval: int) returns (reply: Option<string>)
      modifies this`isChecking, this`stopRequested
      ensures old(isChecking) ==> isChecking && stopRequested == old(stopRequested)
      ensures !old(isChecking) ==> isChecking && !stopRequested
      ensures reply == if !fromUser then None
                       else if old(isChecking) then Some(AlreadyCheckingReply)
                       else Some(StartedReply(checkInterval))
    {
      if isChecking {
        reply := if fromUser then Some(AlreadyCheckingReply) else None;
        return;
      }
      isChecking := true;
      stopRequested := false;
      reply := if fromUser then Some(StartedReply(checkInterval)) else None;
    }

    /** `stop_checking`: a second stop only replies. */
    method StopChecking(fromUser: bool) returns (reply: Option<string>)
      modifies this`isChecking, this`stopRequested
      ensures old(isChecking) ==> stopRequested && !isChecking
      ensures !old(isChecking) ==> stopRequested == old(stopRequested) && !isChecking
      ensures reply == if !fromUser then None
                       else if old(isChecking) then Some(StoppedReply) else Some(AlreadyStoppedReply)
    {
      if !isChecking {
        reply := if fromUser then Some(AlreadyStoppedReply) else None;
        return;
      }
      stopRequested := true;
      isChecking := false;
      reply := if fromUser then Some(StoppedReply) else None;
    }

    /** The guard of `run_background_monitoring`; `user` is the sender of the
        update, if any. The thread it starts is `MonitoringThread`. */
    method RunBackgroundMonitoring(user: Option<int>) returns (reply: Option<string>)
      modifies this`isChecking, this`stopRequested, this`checkingStatus
      ensures old(isChecking) ==>
        isChecking && stopRequested == old(stopRequested) && checkingStatus == old(checkingStatus)
        && reply == if user.Some? then Some(MonitoringRunningReply) else None
      ensures !old(isChecking) ==>
        isChecking && !stopRequested
        && checkingStatus == (if user.Some? then old(checkingStatus)[user.value := true] else old(checkingStatus))
        && reply == if user.Some? then Some(MonitoringStartedReply) else None
    {
      if isChecking {
        reply := if user.Some? then Some(MonitoringRunningReply) else None;
        return;
      }
      isChecking := true;
      stopRequested := false;
      reply := None;
      if user.Some? {
        checkingStatus := checkingStatus[user.value := true];
        reply := Some(MonitoringStartedReply);
      }
    }

    /** The branch `handle_message` takes for a recognised or unknown
        command. */
    method ExecuteCommand(userId: int, c: Command) returns (replies: seq<string>, raised: Option<string>)
      modifies this`isChecking, this`stopRequested, this`checkingStatus
      ensures c == StartCmd ==>
        replies == [if old(isChecking) then MonitoringRunningReply else MonitoringStartedReply]
        && raised == None && isChecking
        && (!old(isChecking) ==> !stopRequested && checkingStatus == old(checkingStatus)[userId := true])
        && (old(isChecking) ==> stopRequested == old(stopRequested) && checkingStatus == old(checkingStatus))
      ensures c == StopCmd ==>
        replies == [if old(isChecking) then StoppedReply else AlreadyStoppedReply]
        && raised == None && !isChecking && (old(isChecking) ==> stopRequested)
        && (!old(isChecking) ==> stopRequested == old(stopRequested))
        && checkingStatus == old(checkingStatus)
      ensures c == StatusCmd ==> replies == [StatusReply(old(isChecking))] && raised == None
      ensures c == CheckCmd ==> replies == [] && raised == Some(MissingSingleCheckError)
      ensures c == Unknown ==> replies == [HelpReply] && raised == None
      ensures c != StartCmd && c != StopCmd ==>
        isChecking == old(isChecking) && stopRequested == old(stopRequested)
        && checkingStatus == old(checkingStatus)
    {
      raised := None;
      match c {
        case StartCmd =>
          var r := RunBackgroundMonitoring(Some(userId));
          replies := [r.value];
        case StopCmd =>
          var r := StopChecking(true);
          replies := [r.value];
        case StatusCmd =>
          replies := [StatusReply(isChecking)];
        case CheckCmd =>
          replies, raised := [], Some(MissingSingleCheckError);
        case Unknown =>
          replies := [HelpReply];
      }
    }

    /** `handle_message`. Users outside a non-empty allowlist are refused
        before the text is looked at; "проверить" raises, since the method it
        calls does not exist, and gets no reply. */
    method HandleMessage(userId: int, text: string, allowed: seq<int>)
      returns (replies: seq<string>, raised: Option<string>)
      modifies this`isChecking, this`stopRequested, this`checkingStatus
      ensures Refused(allowed, userId) ==>
        replies == [DeniedReply] && raised == None
        && isChecking == old(isChecking) && stopRequested == old(stopRequested)
        && checkingStatus == old(checkingStatus)
      ensures !Refused(allowed, userId) && Classify(text) == StartCmd ==>
        replies == [if old(isChecking) then MonitoringRunningReply else MonitoringStartedReply]
        && raised == None && isChecking
        && (!old(isChecking) ==> !stopRequested && checkingStatus == old(checkingStatus)[userId := true])
        && (old(isChecking) ==> stopRequested == old(stopRequested) && checkingStatus == old(checkingStatus))
      ensures !Refused(allowed, userId) && Classify(text) == StopCmd ==>
        replies == [if old(isChecking) then StoppedReply else AlreadyStoppedReply]
        && raised == None && !isChecking && (old(isChecking) ==> stopRequested)
        && (!old(isChecking) ==> stopRequested == old(stopRequested))
        && checkingStatus == old(checkingStatus)
      ensures !Refused(allowed, userId) && Classify(text) == StatusCmd ==>
        replies == [StatusReply(old(isChecking))] && raised == None
      ensures !Refused(allowed, userId) && Classify(text) == CheckCmd ==>
        replies == [] && raised == Some(MissingSingleCheckError)
      ensures !Refused(allowed, userId) && Classify(text) == Unknown ==>
        replies == [HelpReply] && raised == None
      ensures Refused(allowed, userId) || (Classify(text) != StartCmd && Classify(text) != StopCmd) ==>
        isChecking == old(isChecking) && stopRequested == old(stopRequested)
        && checkingStatus == old(checkingStatus)
    {
      if Refused(allowed, userId) {
        return [DeniedReply], None;
      }
      replies, raised := ExecuteCommand(userId, Classify(text));
    }

    /** `send_availability_notification`: one notification record per
        active user, in order, delivered exactly when the send succeeded. An
        exception from `get_active_users` escapes before anything is
        logged. */
    method SendAvailabilityNotification(details: string, checkId: int, users: ActiveUsers,
                                        siteUrl: string)
      returns (sent: seq<int>, raised: Option<string>)
      modifies this`notificationLog
      ensures users.UsersRaised? ==>
        raised == Some(users.error) && sent == [] && notificationLog == old(notificationLog)
      ensures users.Users? ==> raised == None
      ensures users.Users? ==>
        |notificationLog| == |old(notificationLog)| + |users.recipients|
        && notificationLog[..|old(notificationLog)|] == old(notificationLog)
        && forall k :: 0 <= k < |users.recipients| ==>
             notificationLog[|old(notificationLog)| + k]
             == NotificationLogEntry(checkId, users.recipients[k].userId, users.recipients[k].reachable)
      ensures users.Users? ==>
        forall u :: u in sent <==> Reaches(users.recipients, |users.recipients|, u)
      ensures users.Users? ==> |sent| <= |users.recipients|
    {
      if users.UsersRaised? {
        return [], Some(users.error);
      }
      var message := AvailabilityMessage(details, siteUrl);
      var rs := users.recipients;
      ghost var log0 := notificationLog;
      sent, raised := [], None;
      var i := 0;
      while i < |rs|
        invariant 0 <= i <= |rs|
        invariant |sent| <= i
        invariant |notificationLog| == |log0| + i && notificationLog[..|log0|] == log0
        invariant forall k :: 0 <= k < i ==>
          notificationLog[|log0| + k] == NotificationLogEntry(checkId, rs[k].userId, rs[k].reachable)
        invariant forall u :: u in sent <==> Reaches(rs, i, u)
      {
        if rs[i].reachable {
          sent := sent + [rs[i].userId];
        }
        notificationLog := notificationLog + [NotificationLogEntry(checkId, rs[i].userId, rs[i].reachable)];
        i := i + 1;
      }
    }

    /** `perform_check`; `fromUser` is whether a manual request is there to
        reply to, `checkId` what `log_check_result` returns. A positive
        result goes to every active user; a negative one is answered only
        to the requester; an exception is reported to the requester. */
    method PerformCheck(fromUser: bool, result: FullCheck, checkId: int, users: ActiveUsers,
                        siteUrl: string)
      returns (reply: Option<string>, sent: seq<int>)
      modifies this`checkLog, this`notificationLog
      ensures result.CheckRaised? ==>
        reply == (if fromUser then Some("⚠️ Ошибка при проверке: " + result.error) else None)
        && sent == [] && checkLog == old(checkLog) && notificationLog == old(notificationLog)
      ensures result.Checked? ==> checkLog == old(checkLog) + [CheckLogEntry(result.available, result.details)]
      ensures result.Checked? && !result.available.Truthy() ==>
        reply == (if fromUser then Some("❌ " + result.details) else None)
        && sent == [] && notificationLog == old(notificationLog)
      ensures result.Checked? && result.available.Truthy() && users.UsersRaised? ==>
        reply == (if fromUser then Some("⚠️ Ошибка при проверке: " + users.error) else None)
        && sent == [] && notificationLog == old(notificationLog)
      ensures result.Checked? && result.available.Truthy() && users.Users? ==>
        reply == None
        && |notificationLog| == |old(notificationLog)| + |users.recipients|
        && notificationLog[..|old(notificationLog)|] == old(notificationLog)
        && (forall k :: 0 <= k < |users.recipients| ==>
              notificationLog[|old(notificationLog)| + k]
              == NotificationLogEntry(checkId, users.recipients[k].userId, users.recipients[k].reachable))
        && (forall u :: u in sent <==> Reaches(users.recipients, |users.recipients|, u))
    {
      reply, sent := None, [];
      match result {
        case CheckRaised(e) =>
          if fromUser {
            reply := Some("⚠️ Ошибка при проверке: " + e);
          }
        case Checked(available, details) =>
          checkLog := checkLog + [CheckLogEntry(available, details)];
          if available.Truthy() {
            var raised;
            sent, raised := SendAvailabilityNotification(details, checkId, users, siteUrl);
            if raised.Some? && fromUser {
              reply := Some("⚠️ Ошибка при проверке: " + raised.value);
            }
          } else if fromUser {
            reply := Some("❌ " + details);
          }
      }
    }

    /** `check_now` followed by the `perform_check` it starts: the
        requester is told the check is under way, then gets its answer. */
    method CheckNow(fromUser: bool, result: FullCheck, checkId: int, users: ActiveUsers,
                    siteUrl: string)
      returns (replies: seq<string>, sent: seq<int>)
      modifies this`checkLog, this`notificationLog
      ensures fromUser ==> |replies| >= 1 && replies[0] == CheckingNowReply
      ensures !fromUser ==> replies == []
      ensures |replies| <= 2
      ensures result.Checked? ==> checkLog == old(checkLog) + [CheckLogEntry(result.available, result.details)]
      ensures result.CheckRaised? ==> checkLog == old(checkLog)
    {
      replies := if fromUser then [CheckingNowReply] else [];
      var reply;
      reply, sent := PerformCheck(fromUser, result, checkId, users, siteUrl);
      if reply.Some? {
        replies := replies + [reply.value];
      }
    }

    /** One round of `monitoring_thread`'s `try` body: the check of
        booking_monitor.py inlined, then the interruptible wait when the
        check did not raise. */
    method MonitorRound(files: BookingFiles, r: Round, s: Sender) returns (step: seq<Event>)
      modifies files
      ensures step == RoundEvents(Files(old(files.history), old(files.lastNotice)), r, s)
      ensures Files(files.history, files.lastNotice)
              == NextFiles(Files(old(files.history), old(files.lastNotice)), r, s)
    {
      match r.probe {
        case ProbeRaised(e) =>
          step := [RetriedAfterError(e)];
        case Probed(a, m) =>
          if s == AsWritten {
            var outcome := files.CheckBookingAvailabilityAsWritten(a, m, r.time, r.stored);
            if outcome.Raised? {
              return [RetriedAfterError(outcome.error)];
            }
            var ticks := WaitTicks(PauseTicks(r.draw), r.stopFrom);
            step := [Paused(5 * ticks)];
          } else {
            var outcome, notice := files.CheckBookingAvailability(a, m, r.time, r.stored, r.timeWritten);
            var ticks := WaitTicks(PauseTicks(r.draw), r.stopFrom);
            step := (if notice.Some? then [Notified(notice.value)] else []) + [Paused(5 * ticks)];
          }
      }
    }

    /** `monitoring_thread`: rounds until a stop is seen, then the flag is
        cleared. A stop from another handler is `stop_checking` without an
        update; the stored checking status is left as it is.
        `requires isChecking` stands for the order of the source: the flag
        is raised before the thread is spawned, and a stop landing in
        between is not modelled. */
    method MonitoringThread(files: BookingFiles, rounds: seq<Round>, s: Sender)
      returns (events: seq<Event>)
      requires isChecking
      modifies this`isChecking, this`stopRequested, files
      ensures var f0 := Files(old(files.history), old(files.lastNotice));
        events == (if old(stopRequested) then [] else Sched(f0, rounds, s))
        && Files(files.history, files.lastNotice) == (if old(stopRequested) then f0 else SchedFiles(f0, rounds, s))
      ensures !isChecking
    {
      ghost var f0 := Files(files.history, files.lastNotice);
      ghost var all := if stopRequested then [] else Sched(f0, rounds, s);
      ghost var final := if stopRequested then f0 else SchedFiles(f0, rounds, s);
      events := [];
      var i := 0;
      while !stopRequested && i < |rounds|
        invariant 0 <= i <= |rounds|
        invariant !stopRequested ==> isChecking
        invariant !stopRequested ==>
          all == events + Sched(Files(files.history, files.lastNotice), rounds[i..], s)
          && final == SchedFiles(Files(files.history, files.lastNotice), rounds[i..], s)
        invariant stopRequested ==> all == events && final == Files(files.history, files.lastNotice)
        decreases |rounds| - i
      {
        ghost var f := Files(files.history, files.lastNotice);
        RoundAdvance(f, rounds, i, s);
        var step := MonitorRound(files, rounds[i], s);
        EventsAssoc(events, step,
          if rounds[i].stopFrom.Some? then [] else Sched(NextFiles(f, rounds[i], s), rounds[i + 1..], s));
        events := events + step;
        if rounds[i].stopFrom.Some? {
          assert events + [] == events;
          var _ := StopChecking(false);
        }
        i := i + 1;
      }
      if !stopRequested {
        assert rounds[i..] == [];
        assert events + [] == events;
      }
      isChecking := false;
    }
  }
}
