/** The bot of telegram_bot/bot.py: one `is_checking` flag and one stop event
    per bot instance, the text commands, the date-range buttons, and the
    background thread that runs the browser script with an error budget.

    The browser script, the database and the Telegram sends are observations:
    each round of the thread is given as what the script did, whether the
    result could be stored, the random draw of the wait, and the tick from
    which a stop (sent from another handler) is visible. */
module MonitorBot {
  import opened Common

  const MaxErrors: nat := 3
  /** `time.sleep(30)` after an exception. */
  const ErrorBackoff: nat := 30
  /** `random.randint(240, 420)` one-second ticks between rounds. */
  const WaitMin: nat := 240
  const WaitMax: nat := 420

  const UnknownResultText := "Неизвестный результат проверки"
  const StartedNoticeText := "✅ *Мониторинг запущен и работает*\n\nВы получите уведомление при появлении слотов в выбранном диапазоне."
  const FailureNoticeText := "⚠️ *Мониторинг остановлен из-за повторяющихся ошибок*\n\nПожалуйста, перезапустите командой 'старт'"

  // ---------------------------------------------------------------------------
  // The monitoring thread

  /** What `run_selenium_side_script` returned: a 2-tuple, or anything else. */
  datatype ScriptResult = Pair(available: bool, message: string) | NotPair

  /** One round's `try` body: the browser raised, or the script returned and
      `save_check_result` either stored the result or raised. */
  datatype Attempt = Raised | Returned(result: ScriptResult, saved: bool)

  /** A round: its attempt, the draw of the wait, and the tick of that wait
      from which the stop event is set (`None`: not during this round). A stop
      that arrives during the probe or the 30-second back-off is `Some(0)`. */
  datatype Round = Round(attempt: Attempt, draw: int, stopFrom: Option<nat>)

  datatype CheckRecord = CheckRecord(available: bool, message: string)

  /** What the thread does, in order. */
  datatype Event =
    | Saved(record: CheckRecord)   // `save_check_result` stored this
    | StartedNotice
    | FailureNotice
    | Waited(ticks: nat)
    | BackedOff

  /** The text each notice sends to the chat that started the monitoring. */
  function NoticeText(e: Event): Option<string> {
    match e
    case StartedNotice => Some(StartedNoticeText)
    case FailureNotice => Some(FailureNoticeText)
    case _ => None
  }

  /** A result that is not a 2-tuple is read as a negative one. */
  function Normalise(result: ScriptResult): (r: CheckRecord)
    ensures result.NotPair? ==> !r.available && r.message == UnknownResultText
    ensures result.Pair? ==> r.available == result.available && r.message == result.message
  {
    match result
    case Pair(available, message) => CheckRecord(available, message)
    case NotPair => CheckRecord(false, UnknownResultText)
  }

  function WaitTime(draw: int): nat {
    RandInt(WaitMin, WaitMax, draw)
  }

  /** The error counter after a round: an exception adds one; a returned
      result resets it, and a store that then raises adds one to the reset
      counter. */
  function NextErrors(errors: nat, a: Attempt): nat {
    match a
    case Raised => errors + 1
    case Returned(_, saved) => if saved then 0 else 1
  }

  /** `first_run` is cleared by the first stored result only. */
  function NextFirstRun(firstRun: bool, a: Attempt): bool {
    if a.Returned? && a.saved then false else firstRun
  }

  /** The events of one round. */
  function RoundEvents(firstRun: bool, r: Round): seq<Event> {
    match r.attempt
    case Raised => [BackedOff]
    case Returned(result, saved) =>
      if !saved then [BackedOff]
      else
        [Saved(Normalise(result))]
        + (if firstRun then [StartedNotice] else [])
        + [Waited(TicksBeforeStop(WaitTime(r.draw), r.stopFrom))]
  }

  /** The thread's events from a state with `errors` consecutive errors and the
      `first_run` flag, over the rounds still to come; the loop ends at a
      stop, at the error budget, or when the rounds run out. */
  function Monitor(errors: nat, firstRun: bool, rounds: seq<Round>): seq<Event>
    decreases |rounds|
  {
    if errors >= MaxErrors then [FailureNotice]
    else if rounds == [] then []
    else
      RoundEvents(firstRun, rounds[0])
      + (if rounds[0].stopFrom.None?
         then Monitor(NextErrors(errors, rounds[0].attempt), NextFirstRun(firstRun, rounds[0].attempt), rounds[1..])
         else [])
  }

  /** The rest of the thread after its first round. */
  function Later(errors: nat, firstRun: bool, rounds: seq<Round>): seq<Event>
    requires rounds != []
  {
    if rounds[0].stopFrom.None?
    then Monitor(NextErrors(errors, rounds[0].attempt), NextFirstRun(firstRun, rounds[0].attempt), rounds[1..])
    else []
  }

  /** The rounds whose attempt counts as an error. */
  function Failures(rounds: seq<Round>): (n: nat)
    ensures n <= |rounds|
  {
    if rounds == [] then 0
    else (if rounds[0].attempt.Returned? && rounds[0].attempt.saved then 0 else 1) + Failures(rounds[1..])
  }

  predicate FailureLast(ev: seq<Event>) {
    forall i :: 0 <= i < |ev| && ev[i] == FailureNotice ==> i == |ev| - 1
  }

  /** The failure notice is always the thread's last event. */
  lemma {:induction false} FailureNoticeIsLast(errors: nat, firstRun: bool, rounds: seq<Round>)
    ensures FailureLast(Monitor(errors, firstRun, rounds))
    decreases |rounds|
  {
    if errors < MaxErrors && rounds != [] {
      var r := rounds[0];
      var head := RoundEvents(firstRun, r);
      var tail := Later(errors, firstRun, rounds);
      assert Monitor(errors, firstRun, rounds) == head + tail;
      FailureNoticeIsLast(NextErrors(errors, r.attempt), NextFirstRun(firstRun, r.attempt), rounds[1..]);
      RoundHasNoFailureNotice(firstRun, r);
      FailureLastAppend(head, tail);
    }
  }

  /** A round on its own never sends the failure notice. */
  lemma RoundHasNoFailureNotice(firstRun: bool, r: Round)
    ensures FailureNotice !in RoundEvents(firstRun, r)
  {
  }

  lemma FailureLastAppend(head: seq<Event>, tail: seq<Event>)
    requires FailureNotice !in head && FailureLast(tail)
    ensures FailureLast(head + tail)
  {
    var ev := head + tail;
    assert forall k :: 0 <= k < |head| ==> ev[k] == head[k];
    assert forall k :: |head| <= k < |ev| ==> ev[k] == tail[k - |head|];
  }

  /** The failure notice needs at least `MaxErrors - errors` failed rounds:
      three in a row from a fresh start, since a stored result resets the
      counter. */
  lemma {:induction false} FailureNeedsFailedRounds(errors: nat, firstRun: bool, rounds: seq<Round>)
    ensures FailureNotice in Monitor(errors, firstRun, rounds) ==> Failures(rounds) + errors >= MaxErrors
    decreases |rounds|
  {
    if errors < MaxErrors && rounds != [] {
      var r := rounds[0];
      assert Monitor(errors, firstRun, rounds) == RoundEvents(firstRun, r) + Later(errors, firstRun, rounds);
      FailureNeedsFailedRounds(NextErrors(errors, r.attempt), NextFirstRun(firstRun, r.attempt), rounds[1..]);
    }
  }

  /** Three exceptions in a row from a fresh counter end the thread with one
      failure notice, and no later round is probed. */
  lemma ThreeFailuresEndRun(firstRun: bool, rounds: seq<Round>)
    requires |rounds| >= 3
    requires forall i :: 0 <= i < 3 ==> rounds[i].attempt == Raised && rounds[i].stopFrom.None?
    ensures Monitor(0, firstRun, rounds) == [BackedOff, BackedOff, BackedOff, FailureNotice]
  {
    assert rounds[1..][0] == rounds[1] && rounds[1..][1..][0] == rounds[2];
    assert Monitor(3, firstRun, rounds[1..][1..][1..]) == [FailureNotice];
    assert Monitor(2, firstRun, rounds[1..][1..]) == [BackedOff, FailureNotice];
    assert Monitor(1, firstRun, rounds[1..]) == [BackedOff, BackedOff, FailureNotice];
  }

  /** The "monitoring started" notice is sent at most once, and never once
      `first_run` is cleared. */
  lemma {:induction false} StartedNoticeAtMostOnce(errors: nat, firstRun: bool, rounds: seq<Round>)
    ensures multiset(Monitor(errors, firstRun, rounds))[StartedNotice] <= if firstRun then 1 else 0
    decreases |rounds|
  {
    if errors < MaxErrors && rounds != [] {
      var r := rounds[0];
      var head := RoundEvents(firstRun, r);
      var tail := Later(errors, firstRun, rounds);
      assert Monitor(errors, firstRun, rounds) == head + tail;
      StartedNoticeAtMostOnce(NextErrors(errors, r.attempt), NextFirstRun(firstRun, r.attempt), rounds[1..]);
      assert multiset(tail)[StartedNotice] <= if NextFirstRun(firstRun, r.attempt) then 1 else 0;
      RoundStartedCount(firstRun, r);
      assert multiset(head + tail) == multiset(head) + multiset(tail);
    }
  }

  /** A round sends the started notice exactly when it clears `first_run`. */
  lemma RoundStartedCount(firstRun: bool, r: Round)
    ensures multiset(RoundEvents(firstRun, r))[StartedNotice]
            == if firstRun && !NextFirstRun(firstRun, r.attempt) then 1 else 0
  {
    if r.attempt.Returned? && r.attempt.saved {
      var saved := Saved(Normalise(r.attempt.result));
      var wait := Waited(TicksBeforeStop(WaitTime(r.draw), r.stopFrom));
      if firstRun {
        assert RoundEvents(firstRun, r) == [saved, StartedNotice, wait];
      } else {
        assert RoundEvents(firstRun, r) == [saved, wait];
      }
    }
  }

  /** What the started notice is preceded by. */
  predicate StartedAfterFirstSave(ev: seq<Event>) {
    forall i :: 0 <= i < |ev| && ev[i] == StartedNotice ==>
      0 < i && ev[i - 1].Saved? && forall j :: 0 <= j < i - 1 ==> !ev[j].Saved?
  }

  /** The "monitoring started" notice follows the first stored result and
      nothing else: no result is stored before it. */
  lemma {:induction false} StartedNoticeFollowsFirstSave(errors: nat, firstRun: bool, rounds: seq<Round>)
    ensures StartedAfterFirstSave(Monitor(errors, firstRun, rounds))
    decreases |rounds|
  {
    if errors < MaxErrors && rounds != [] {
      var r := rounds[0];
      var head := RoundEvents(firstRun, r);
      var tail := Later(errors, firstRun, rounds);
      var ev := Monitor(errors, firstRun, rounds);
      assert ev == head + tail;
      if head == [BackedOff] {
        StartedNoticeFollowsFirstSave(NextErrors(errors, r.attempt), NextFirstRun(firstRun, r.attempt), rounds[1..]);
        ShiftedByBackOff(tail);
      } else {
        var saved := Saved(Normalise(r.attempt.result));
        var wait := Waited(TicksBeforeStop(WaitTime(r.draw), r.stopFrom));
        StartedNoticeAtMostOnce(0, false, rounds[1..]);
        assert StartedNotice !in tail;
        assert head == if firstRun then [saved, StartedNotice, wait] else [saved, wait];
        StartedAfterSavingRound(head, tail);
      }
    }
  }

  /** A round that stores a result, perhaps announces, then waits, followed
      by events without the started notice. */
  lemma StartedAfterSavingRound(head: seq<Event>, tail: seq<Event>)
    requires |head| == 2 || |head| == 3
    requires head[0].Saved? && head[|head| - 1].Waited?
    requires |head| == 3 ==> head[1] == StartedNotice
    requires StartedNotice !in tail
    ensures StartedAfterFirstSave(head + tail)
  {
    var ev := head + tail;
    assert forall k :: 0 <= k < |head| ==> ev[k] == head[k];
    assert forall k :: |head| <= k < |ev| ==> ev[k] == tail[k - |head|];
  }

  /** The started-notice property carries over a leading back-off. */
  lemma ShiftedByBackOff(tail: seq<Event>)
    requires StartedAfterFirstSave(tail)
    ensures StartedAfterFirstSave([BackedOff] + tail)
  {
    var ev := [BackedOff] + tail;
    forall i | 0 <= i < |ev| && ev[i] == StartedNotice
      ensures 0 < i && ev[i - 1].Saved? && forall j :: 0 <= j < i - 1 ==> !ev[j].Saved?
    {
      assert ev[i] == tail[i - 1];
      forall j | 0 <= j < i - 1
        ensures !ev[j].Saved?
      {
        if j > 0 {
          assert ev[j] == tail[j - 1];
        }
      }
    }
  }

  /** The bounds of the waits. */
  predicate WaitsBounded(ev: seq<Event>) {
    forall i :: 0 <= i < |ev| && ev[i].Waited? ==>
      ev[i].ticks <= WaitMax && (ev[i].ticks < WaitMin ==> i == |ev| - 1)
  }

  /** Every wait is at most 420 ticks, and a wait cut short by a stop is the
      thread's last event. */
  lemma {:induction false} ShortWaitEndsRun(errors: nat, firstRun: bool, rounds: seq<Round>)
    ensures WaitsBounded(Monitor(errors, firstRun, rounds))
    decreases |rounds|
  {
    if errors < MaxErrors && rounds != [] {
      var r := rounds[0];
      var head := RoundEvents(firstRun, r);
      var tail := Later(errors, firstRun, rounds);
      var ev := Monitor(errors, firstRun, rounds);
      assert ev == head + tail;
      ShortWaitEndsRun(NextErrors(errors, r.attempt), NextFirstRun(firstRun, r.attempt), rounds[1..]);
      forall i | 0 <= i < |ev| && ev[i].Waited?
        ensures ev[i].ticks <= WaitMax && (ev[i].ticks < WaitMin ==> i == |ev| - 1)
      {
        if i >= |head| {
          assert ev[i] == tail[i - |head|];
        } else {
          assert ev[i] == head[|head| - 1];
          if ev[i].ticks < WaitMin {
            assert r.stopFrom.Some?;
          }
        }
      }
    }
  }

  /** Once a result is stored, the errors that came before it no longer
      matter. */
  lemma SuccessForgetsEarlierErrors(e1: nat, e2: nat, firstRun: bool, rounds: seq<Round>)
    requires e1 < MaxErrors && e2 < MaxErrors
    requires rounds != [] && rounds[0].attempt.Returned? && rounds[0].attempt.saved
    ensures Monitor(e1, firstRun, rounds) == Monitor(e2, firstRun, rounds)
  {
  }

  /** The `try` body of one round: the counter and flag updates, the store,
      the started notice and the wait. */
  method CheckRound(r: Round, errors: nat, firstRun: bool) returns (errors': nat, firstRun': bool, step: seq<Event>)
    ensures step == RoundEvents(firstRun, r)
    ensures errors' == NextErrors(errors, r.attempt) && firstRun' == NextFirstRun(firstRun, r.attempt)
  {
    errors', firstRun' := errors, firstRun;
    match r.attempt {
      case Raised =>
        errors' := errors' + 1;
        step := [BackedOff];
      case Returned(result, saved) =>
        errors' := 0;
        if !saved {
          errors' := errors' + 1;
          step := [BackedOff];
        } else {
          var record := Normalise(result);
          step := [Saved(record)];
          if firstRun' {
            step := step + [StartedNotice];
            firstRun' := false;
          }
          var ticks := WaitTicks(WaitTime(r.draw), r.stopFrom);
          step := step + [Waited(ticks)];
        }
    }
  }

  /** The loop's bookkeeping across one round: what is still to come after
      it. */
  lemma RoundAdvance(all: seq<Event>, events: seq<Event>, errors: nat, firstRun: bool,
                     errors': nat, firstRun': bool, rounds: seq<Round>, i: nat, step: seq<Event>)
    requires i < |rounds| && errors < MaxErrors
    requires all == events + Monitor(errors, firstRun, rounds[i..])
    requires step == RoundEvents(firstRun, rounds[i])
    requires errors' == NextErrors(errors, rounds[i].attempt) && firstRun' == NextFirstRun(firstRun, rounds[i].attempt)
    ensures rounds[i].stopFrom.None? ==> all == (events + step) + Monitor(errors', firstRun', rounds[i + 1..])
    ensures rounds[i].stopFrom.Some? ==> all == events + step
  {
    assert rounds[i..][0] == rounds[i] && rounds[i..][1..] == rounds[i + 1..];
    EventsAssoc(events, step, Later(errors, firstRun, rounds[i..]));
  }

  lemma EventsAssoc(a: seq<Event>, b: seq<Event>, c: seq<Event>)
    ensures (a + b) + c == a + (b + c)
  {
  }

  // ---------------------------------------------------------------------------
  // Commands

  datatype Command = StartCmd | StopCmd | StatusCmd | CheckCmd | Unknown

  const StartWords: seq<string> := ["старт", "start", "запустить", "начать"]
  const StopWords: seq<string> := ["стоп", "stop", "остановить", "хватит"]
  const StatusWords: seq<string> := ["статус", "status"]
  const CheckWords: seq<string> := ["проверить", "check", "тест", "test"]

  /** No word is in two lists: each pair differs in length or first letter. */
  lemma CommandWordListsDisjoint()
    ensures forall w :: w in StopWords ==> w !in StartWords
    ensures forall w :: w in StatusWords ==> w !in StartWords + StopWords
    ensures forall w :: w in CheckWords ==> w !in StartWords + StopWords + StatusWords
  {
    // no two words share both their length and their first letter
    assert WordKey("старт") == (5, 'с') && WordKey("start") == (5, 's');
    assert WordKey("запустить") == (9, 'з') && WordKey("начать") == (6, 'н');
    assert WordKey("стоп") == (4, 'с') && WordKey("stop") == (4, 's');
    assert WordKey("остановить") == (10, 'о') && WordKey("хватит") == (6, 'х');
    assert WordKey("статус") == (6, 'с') && WordKey("status") == (6, 's');
    assert WordKey("проверить") == (9, 'п') && WordKey("check") == (5, 'c');
    assert WordKey("тест") == (4, 'т') && WordKey("test") == (4, 't');
  }

  /** The length and first letter of a word. */
  function WordKey(w: string): (int, char) {
    if w == [] then (0, ' ') else (|w|, w[0])
  }

  /** The command a text message names, after `lower()` and `strip()`; each
      word names the command of its own list. */
  function Classify(text: string): (c: Command)
    ensures var w := Strip(Lower(text));
      && (c == StartCmd <==> w in StartWords)
      && (c == StopCmd <==> w in StopWords)
      && (c == StatusCmd <==> w in StatusWords)
      && (c == CheckCmd <==> w in CheckWords)
  {
    CommandWordListsDisjoint();
    var w := Strip(Lower(text));
    if w in StartWords then StartCmd
    else if w in StopWords then StopCmd
    else if w in StatusWords then StatusCmd
    else if w in CheckWords then CheckCmd
    else Unknown
  }

  /** `str.lower()` leaves lower-case text alone. */
  lemma {:induction false} LowerIdempotent(s: string)
    ensures Lower(Lower(s)) == Lower(s)
  {
    var l := Lower(s);
    assert forall i :: 0 <= i < |s| ==> LowerChar(l[i]) == l[i];
    assert Lower(l) == l;
  }

  /** Letter case does not matter to the command. */
  lemma ClassifyIgnoresCase(text: string)
    ensures Classify(Lower(text)) == Classify(text)
  {
    LowerIdempotent(text);
  }

  /** Neither does a leading blank. */
  lemma ClassifyIgnoresLeadingBlank(c: char, text: string)
    requires IsSpace(c)
    ensures Classify([c] + text) == Classify(text)
  {
    var l := [c] + Lower(text);
    assert Lower([c] + text) == l;
    assert l[1..] == Lower(text);
    assert StripLeft(l) == StripLeft(Lower(text));
    assert Strip(Lower([c] + text)) == Strip(Lower(text));
  }

  const StartingReply := "Запускаю мониторинг в видимом режиме..."
  const CheckingReply := "Запускаю проверку в видимом режиме..."
  const SingleCheckReply := "🔍 Проверяю наличие доступных слотов..."
  const AlreadyRunningReply := "⚠️ Мониторинг уже запущен."
  const AlreadyStoppedReply := "Проверка уже остановлена!"
  const StoppedReply := "❌ Проверка остановлена."
  const AskRangePrompt := "Выберите предпочтительный диапазон дат для мониторинга.\n\nВы получите <b>срочное</b> уведомление только если появятся слоты в выбранном диапазоне."
  const HelpReply := "Не понимаю команду. Доступные команды:\n*старт* - запустить мониторинг\n*стоп* - остановить мониторинг\n*статус* - проверить статус мониторинга\n*проверить* - выполнить однократную проверку"

  function StatusReply(checking: bool): string {
    "Проверка доступности слотов: " + (if checking then "✅ активна" else "❌ неактивна")
  }

  // ---------------------------------------------------------------------------
  // Date-range buttons

  const RangePrefix := "date_range_"
  const KnownRanges: seq<string> := ["any", "week", "two_weeks", "month"]

  /** The range a button's suffix selects; anything else becomes `'any'`. */
  function NormaliseRange(suffix: string): (r: string)
    ensures r in KnownRanges
    ensures suffix in KnownRanges ==> r == suffix
    ensures suffix !in KnownRanges ==> r == "any"
  {
    if suffix in KnownRanges then suffix else "any"
  }

  /** The text that replaces the keyboard message. */
  function RangeChosenText(suffix: string): string {
    if suffix == "any" then "Вы выбрали мониторинг для <b>любых дат</b>.\n\nЗапускаю проверку..."
    else if suffix == "week" then "Вы выбрали мониторинг для дат <b>в течение недели</b>.\n\nЗапускаю проверку..."
    else if suffix == "two_weeks" then "Вы выбрали мониторинг для дат <b>в течение 2 недель</b>.\n\nЗапускаю проверку..."
    else if suffix == "month" then "Вы выбрали мониторинг для дат <b>в течение месяца</b>.\n\nЗапускаю проверку..."
    else "Неизвестный диапазон. Выбраны <b>любые даты</b>.\n\nЗапускаю проверку..."
  }

  /** The range a callback stores: `replace` removes every occurrence of the
      prefix, and the remainder is normalised. */
  function CallbackRange(data: string): string {
    NormaliseRange(RemoveAll(data, RangePrefix))
  }

  /** Removing a leading copy of the pattern leaves the removal of the rest. */
  lemma RemoveAllLeading(pat: string, rest: string)
    requires pat != []
    ensures RemoveAll(pat + rest, pat) == RemoveAll(rest, pat)
  {
    assert (pat + rest)[..|pat|] == pat;
    assert (pat + rest)[|pat|..] == rest;
  }

  /** Each of the four keyboard buttons selects its own range, and a doubled
      prefix is removed entirely. */
  lemma KeyboardRangesRoundTrip(k: string)
    requires k in KnownRanges
    ensures CallbackRange(RangePrefix + k) == k
    ensures CallbackRange(RangePrefix + RangePrefix + k) == k
  {
    RemoveAllLeading(RangePrefix, k);
    RemoveAllLeading(RangePrefix, RangePrefix + k);
    assert RangePrefix + RangePrefix + k == RangePrefix + (RangePrefix + k);
    assert |k| < |RangePrefix|;
  }

  // ---------------------------------------------------------------------------
  // The bot

  class TelegramBot {
    var isChecking: bool
    /** `stop_event`. */
    var stopRequested: bool
    /** The database's checking status per chat. */
    var checkingStatus: map<int, bool>
    /** The database's preferred date range per chat. */
    var preferredDates: map<int, string>
    /** The users whose `user_data` carries `starting_monitoring`. */
    var startingMonitoring: set<int>

    constructor ()
      ensures !isChecking && !stopRequested
      ensures checkingStatus == map[] && preferredDates == map[] && startingMonitoring == {}
    {
      isChecking := false;
      stopRequested := false;
      checkingStatus := map[];
      preferredDates := map[];
      startingMonitoring := {};
    }

    /** `stop_checking`; `fromUser` is whether an update is there to reply to. */
    method StopChecking(fromUser: bool) returns (reply: Option<string>)
      modifies this`isChecking, this`stopRequested
      ensures old(isChecking) ==> stopRequested && !isChecking
      ensures !old(isChecking) ==> stopRequested == old(stopRequested) && !isChecking
      ensures reply == if !fromUser then None
                       else if old(isChecking) then Some(StoppedReply) else Some(AlreadyStoppedReply)
    {
      if !isChecking {
        reply := if fromUser then Some(AlreadyStoppedReply) else None;
        return;
      }
      stopRequested := true;
      isChecking := false;
      reply := if fromUser then Some(StoppedReply) else None;
    }

    /** `run_background_monitoring`: refuses while checking, otherwise asks
        for a date range and marks the user as starting. */
    method RunBackgroundMonitoring(userId: int) returns (reply: string)
      modifies this`startingMonitoring
      ensures old(isChecking) ==> reply == AlreadyRunningReply && startingMonitoring == old(startingMonitoring)
      ensures !old(isChecking) ==> reply == AskRangePrompt && startingMonitoring == old(startingMonitoring) + {userId}
    {
      if isChecking {
        return AlreadyRunningReply;
      }
      reply := AskRangePrompt;
      startingMonitoring := startingMonitoring + {userId};
    }

    /** `handle_message`. The single check's thread is started with one
        argument too few and raises at once, so a check command only
        replies. */
    method HandleMessage(userId: int, text: string) returns (replies: seq<string>)
      modifies this`isChecking, this`stopRequested, this`startingMonitoring
      ensures Classify(text) == StartCmd ==>
        replies == [StartingReply, if old(isChecking) then AlreadyRunningReply else AskRangePrompt]
        && isChecking == old(isChecking) && stopRequested == old(stopRequested)
        && startingMonitoring == if old(isChecking) then old(startingMonitoring) else old(startingMonitoring) + {userId}
      ensures Classify(text) == StopCmd ==>
        replies == [if old(isChecking) then StoppedReply else AlreadyStoppedReply]
        && !isChecking && (old(isChecking) ==> stopRequested)
        && (!old(isChecking) ==> stopRequested == old(stopRequested))
        && startingMonitoring == old(startingMonitoring)
      ensures Classify(text) == StatusCmd ==> replies == [StatusReply(old(isChecking))]
      ensures Classify(text) == CheckCmd ==> replies == [CheckingReply, SingleCheckReply]
      ensures Classify(text) == Unknown ==> replies == [HelpReply]
      ensures Classify(text) != StopCmd ==> isChecking == old(isChecking) && stopRequested == old(stopRequested)
      ensures Classify(text) != StartCmd ==> startingMonitoring == old(startingMonitoring)
    {
      match Classify(text) {
        case StartCmd =>
          var r := RunBackgroundMonitoring(userId);
          replies := [StartingReply, r];
        case StopCmd =>
          var r := StopChecking(true);
          replies := [r.value];
        case StatusCmd =>
          replies := [StatusReply(isChecking)];
        case CheckCmd =>
          replies := [CheckingReply, SingleCheckReply];
        case Unknown =>
          replies := [HelpReply];
      }
    }

    /** The loop of `monitoring_thread`, then its clean-up. A stop from another
        handler is `stop_checking` without an update. `requires isChecking`
        stands for the order of the source: the flag is raised before the
        thread is spawned, and a stop landing in between is not modelled. */
    method MonitoringThread(chatId: int, rounds: seq<Round>) returns (events: seq<Event>)
      requires isChecking
      modifies this`isChecking, this`stopRequested, this`checkingStatus
      ensures events == if old(stopRequested) then [] else Monitor(0, true, rounds)
      ensures !isChecking
      ensures checkingStatus == old(checkingStatus)[chatId := false]
    {
      events := [];
      var errors: nat := 0;
      var firstRun := true;
      var i := 0;
      ghost var all := if stopRequested then [] else Monitor(0, true, rounds);
      assert rounds[0..] == rounds;
      while !stopRequested
        invariant 0 <= i <= |rounds|
        invariant checkingStatus == old(checkingStatus)
        invariant !stopRequested ==> isChecking
        invariant stopRequested || all == events + Monitor(errors, firstRun, rounds[i..])
        invariant stopRequested ==> all == events
        decreases |rounds| - i
      {
        if errors >= MaxErrors {
          assert Monitor(errors, firstRun, rounds[i..]) == [FailureNotice];
          events := events + [FailureNotice];
          break;
        }
        if i == |rounds| {
          assert rounds[i..] == [];
          assert events + [] == events;
          break;
        }
        var r := rounds[i];
        var step;
        ghost var errors0, firstRun0 := errors, firstRun;
        errors, firstRun, step := CheckRound(r, errors, firstRun);
        RoundAdvance(all, events, errors0, firstRun0, errors, firstRun, rounds, i, step);
        events := events + step;
        if r.stopFrom.Some? {
          var _ := StopChecking(false);
          assert stopRequested;
        } else {
          assert all == events + Monitor(errors, firstRun, rounds[i + 1..]);
        }
        i := i + 1;
        assert stopRequested || all == events + Monitor(errors, firstRun, rounds[i..]);
      }
      isChecking := false;
      checkingStatus := checkingStatus[chatId := false];
    }

    /** `start_monitoring_with_range`: the stored status is set, the stop
        event set and cleared, the flag raised, and the thread run. */
    method StartMonitoringWithRange(chatId: int, rounds: seq<Round>) returns (events: seq<Event>)
      modifies this`isChecking, this`stopRequested, this`checkingStatus
      ensures events == Monitor(0, true, rounds)
      ensures !isChecking
      ensures checkingStatus == old(checkingStatus)[chatId := false]
    {
      checkingStatus := checkingStatus[chatId := true];
      stopRequested := true;
      stopRequested := false;
      isChecking := true;
      events := MonitoringThread(chatId, rounds);
    }

    /** `button_callback`: a `date_range_` button stores the normalised range
        and starts monitoring with it; any other button does nothing. */
    method ButtonCallback(chatId: int, data: string, rounds: seq<Round>)
      returns (edited: Option<string>, events: seq<Event>)
      modifies this`isChecking, this`stopRequested, this`checkingStatus, this`preferredDates
      ensures !StartsWith(data, RangePrefix) ==>
        edited == None && events == [] && preferredDates == old(preferredDates)
        && isChecking == old(isChecking) && stopRequested == old(stopRequested)
        && checkingStatus == old(checkingStatus)
      ensures StartsWith(data, RangePrefix) ==>
        edited == Some(RangeChosenText(RemoveAll(data, RangePrefix)))
        && preferredDates == old(preferredDates)[chatId := CallbackRange(data)]
        && events == Monitor(0, true, rounds)
        && !isChecking && checkingStatus == old(checkingStatus)[chatId := false]
    {
      if !StartsWith(data, RangePrefix) {
        return None, [];
      }
      var suffix := RemoveAll(data, RangePrefix);
      edited := Some(RangeChosenText(suffix));
      preferredDates := preferredDates[chatId := NormaliseRange(suffix)];
      events := StartMonitoringWithRange(chatId, rounds);
    }
  }
}
