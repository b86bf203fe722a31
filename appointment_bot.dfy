/** The command bot of bot/bot.py: `/check` starts a loop that loads the
    appointment page once a minute until slots turn up, an error occurs or
    `/stop` clears the flag; `/stop` clears the flag and closes the browser.

    A browser driver is a handle; closing one appends it to `closedDrivers`.
    The page visit of each round is given with its outcome, the verdict of
    `check_slots` (module `SlotScan`) or the exception of `driver.get`. */
module AppointmentBot {
  import opened Common

  const SiteUrl: string := "https://www.berlin.de/labo/mobil/dienstleistungen/termin/"
  const AlreadyRunningReply: string := "Checking is already running!"
  const StartingReply: string := "Starting to check for slots..."
  const NotRunningReply: string := "Checking is not running!"
  const StoppingReply: string := "Stopping the check..."
  /** The pause between two page loads, in seconds. */
  const CheckPause: nat := 60

  /** The alert; its first four characters are the party-popper emoji as the
      file spells it, UTF-8 bytes read as Windows-1252. */
  function FoundReply(message: string): string {
    "\U{F0}\U{178}\U{17D}\U{2030} Available slots found!\n" + message + "\nGo to: " + SiteUrl
  }

  function ErrorReply(error: string): string {
    "An error occurred: " + error
  }

  /** One page load: `check_slots`'s pair, or the exception of `driver.get`. */
  datatype Visit = Checked(hasSlots: bool, message: string) | GetRaised(error: string)

  /** One round of the loop; `stopDuringWait` is whether `/stop` runs while
      the loop sleeps after this round. */
  datatype Round = Round(visit: Visit, stopDuringWait: bool)

  datatype Event = Reply(text: string) | Slept(seconds: nat)

  /** What the loop does over `rounds`: a minute's sleep after every page
      without slots, until slots are found, an error occurs or a stop
      arrives. */
  function Hunt(rounds: seq<Round>): seq<Event>
    decreases |rounds|
  {
    if rounds == [] then []
    else match rounds[0].visit
      case GetRaised(e) => [Reply(ErrorReply(e))]
      case Checked(has, message) =>
        if has then [Reply(FoundReply(message))]
        else [Slept(CheckPause)] + if rounds[0].stopDuringWait then [] else Hunt(rounds[1..])
  }

  /** Every event of the loop but the last is a one-minute sleep: the loop
      ends at its first message, whether slots or an error. */
  predicate SleepsThenOneReply(events: seq<Event>) {
    forall i :: 0 <= i < |events| && events[i].Reply? ==> i == |events| - 1
  }

  lemma {:induction false} HuntSleepsThenReplies(rounds: seq<Round>)
    ensures SleepsThenOneReply(Hunt(rounds))
    ensures forall e :: e in Hunt(rounds) && e.Slept? ==> e.seconds == CheckPause
    decreases |rounds|
  {
    if rounds != [] && rounds[0].visit.Checked? && !rounds[0].visit.hasSlots && !rounds[0].stopDuringWait {
      var tail := Hunt(rounds[1..]);
      HuntSleepsThenReplies(rounds[1..]);
      assert Hunt(rounds) == [Slept(CheckPause)] + tail;
      assert forall k :: 1 <= k < |Hunt(rounds)| ==> Hunt(rounds)[k] == tail[k - 1];
    }
  }

  /** Pages are loaded until the first one with slots: if the first `k`
      rounds show none and none carries a stop, the loop sleeps `k` times
      and then reports round `k`'s slots. */
  lemma {:induction false} HuntFindsFirstSlots(rounds: seq<Round>, k: nat)
    requires k < |rounds|
    requires forall i :: 0 <= i < k ==> rounds[i].visit.Checked? && !rounds[i].visit.hasSlots
    requires forall i :: 0 <= i < k ==> !rounds[i].stopDuringWait
    requires rounds[k].visit.Checked? && rounds[k].visit.hasSlots
    ensures Hunt(rounds) == seq(k, _ => Slept(CheckPause)) + [Reply(FoundReply(rounds[k].visit.message))]
    decreases k
  {
    if k == 0 {
      assert seq(0, _ => Slept(CheckPause)) == [];
    } else {
      assert rounds[0].visit.Checked? && !rounds[0].visit.hasSlots;
      HuntFindsFirstSlots(rounds[1..], k - 1);
      assert seq(k, _ => Slept(CheckPause)) == [Slept(CheckPause)] + seq(k - 1, _ => Slept(CheckPause));
    }
  }

  class AppointmentBot {
    var checking: bool
    /** `self.driver`: the handle of the open browser, if any. */
    var driver: Option<nat>
    /** The drivers handed to `browser.close`, in order. */
    var closedDrivers: seq<nat>

    /** No browser stays open while no check runs. */
    predicate Valid()
      reads this
    {
      !checking ==> driver == None
    }

    constructor ()
      ensures Valid() && !checking && driver == None && closedDrivers == []
    {
      checking := false;
      driver := None;
      closedDrivers := [];
    }

    /** `stop_command`; `hasMessage` is whether the update carries a message,
        without which the handler returns at once. */
    method StopCommand(hasMessage: bool) returns (reply: Option<string>)
      modifies this
      ensures !hasMessage ==>
        reply == None && checking == old(checking) && driver == old(driver) && closedDrivers == old(closedDrivers)
      ensures hasMessage && !old(checking) ==>
        reply == Some(NotRunningReply) && !checking && driver == old(driver) && closedDrivers == old(closedDrivers)
      ensures hasMessage && old(checking) ==>
        reply == Some(StoppingReply) && !checking && driver == None
        && closedDrivers == old(closedDrivers) + (if old(driver).Some? then [old(driver).value] else [])
      ensures old(Valid()) ==> Valid()
    {
      if !hasMessage {
        return None;
      }
      if !checking {
        return Some(NotRunningReply);
      }
      checking := false;
      reply := Some(StoppingReply);
      if driver.Some? {
        closedDrivers := closedDrivers + [driver.value];
        driver := None;
      }
    }

    /** `check_command`. `initError` is the exception of `init_driver`, which
        escapes the handler after the clean-up, and `handle` the driver it
        returns otherwise. Whichever way the loop ends, the flag is down and
        the driver closed exactly once and cleared. */
    method CheckCommand(hasMessage: bool, initError: Option<string>, handle: nat, rounds: seq<Round>)
      returns (events: seq<Event>, raised: Option<string>)
      requires Valid()
      modifies this
      ensures Valid()
      ensures !hasMessage ==>
        events == [] && raised == None
        && checking == old(checking) && driver == old(driver) && closedDrivers == old(closedDrivers)
      ensures hasMessage && old(checking) ==>
        events == [Reply(AlreadyRunningReply)] && raised == None
        && checking && driver == old(driver) && closedDrivers == old(closedDrivers)
      ensures hasMessage && !old(checking) && initError.Some? ==>
        events == [Reply(StartingReply)] && raised == initError
        && !checking && driver == None && closedDrivers == old(closedDrivers)
      ensures hasMessage && !old(checking) && initError.None? ==>
        events == [Reply(StartingReply)] + Hunt(rounds) && raised == None
        && !checking && driver == None && closedDrivers == old(closedDrivers) + [handle]
    {
      raised := None;
      if !hasMessage {
        return [], None;
      }
      if checking {
        return [Reply(AlreadyRunningReply)], None;
      }
      checking := true;
      events := [Reply(StartingReply)];
      if initError.Some? {
        checking := false;
        return events, initError;
      }
      driver := Some(handle);
      ghost var closed0 := closedDrivers;
      ghost var all := events + Hunt(rounds);
      ghost var pending := Hunt(rounds);
      var i := 0;
      while checking && i < |rounds|
        invariant 0 <= i <= |rounds|
        invariant all == events + pending
        invariant checking ==> pending == Hunt(rounds[i..]) && driver == Some(handle) && closedDrivers == closed0
        invariant !checking ==> pending == [] && driver == None && closedDrivers == closed0 + [handle]
        decreases |rounds| - i
      {
        var r := rounds[i];
        assert rounds[i..][0] == r;
        assert rounds[i..][1..] == rounds[i + 1..];
        match r.visit {
          case GetRaised(e) =>
            events := events + [Reply(ErrorReply(e))];
            pending := [];
            break;
          case Checked(has, message) =>
            if has {
              events := events + [Reply(FoundReply(message))];
              pending := [];
              break;
            }
            events := events + [Slept(CheckPause)];
            if r.stopDuringWait {
              pending := [];
              var _ := StopCommand(true);
            } else {
              pending := Hunt(rounds[i + 1..]);
            }
        }
        i := i + 1;
      }
      assert pending == [] by {
        if checking && i == |rounds| {
          assert rounds[i..] == [];
        }
      }
      assert events + [] == events;
      checking := false;
      if driver.Some? {
        closedDrivers := closedDrivers + [driver.value];
        driver := None;
      }
    }
  }
}
