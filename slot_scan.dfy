/** The scan of the location page's "auswählen" buttons, which
    bot/browser.py (`check_slots`) and browser_manager/browser.py
    (`check_slots_on_location_page`) carry out with the same loop.

    Each button is observed as whether it is displayed and enabled and what its
    table row says; reading a row can fail after the button has already been
    counted as clickable. */
module SlotScan {
  import opened Common
  import DateUtils

  /** The row of a button: the stripped text of its "Termine verfügbar ab"
      element, or a lookup that raised. */
  datatype RowObs = RowText(text: string) | RowMissing

  /** A button whose `is_displayed()` or `is_enabled()` raises is `Stale`. */
  datatype ButtonObs = Button(displayed: bool, enabled: bool, row: RowObs) | Stale

  predicate Clickable(b: ButtonObs) {
    b.Button? && b.displayed && b.enabled
  }

  // ---------------------------------------------------------------------------
  // re.search(r'(\d{2}\.\d{2}\.\d{4})', text)

  /** The leftmost position at or after `from` where a `DD.MM.YYYY` shape starts. */
  function FindDate(s: string, from: nat): (r: Option<nat>)
    requires from <= |s|
    ensures r.Some? ==> from <= r.value <= |s| - 10 && DateUtils.DayFirstPrefix(s[r.value..])
    ensures r.Some? ==> forall j :: from <= j < r.value ==> !DateUtils.DayFirstPrefix(s[j..])
    ensures r.None? ==> forall j :: from <= j <= |s| ==> !DateUtils.DayFirstPrefix(s[j..])
    decreases |s| - from
  {
    if from + 10 > |s| then None
    else if DateUtils.DayFirstPrefix(s[from..]) then Some(from)
    else FindDate(s, from + 1)
  }

  /** Whether a text starts with the date shape depends on its first ten
      characters only. */
  lemma DayFirstPrefixTake(s: string)
    requires |s| >= 10
    ensures DateUtils.DayFirstPrefix(s) <==> DateUtils.DayFirstPrefix(s[..10])
  {
    var t := s[..10];
    assert t[..2] == s[..2] && t[3..5] == s[3..5] && t[6..10] == s[6..10];
    assert t[2] == s[2] && t[5] == s[5];
  }

  /** The first match of the date pattern anywhere in `text`. */
  function FirstDateMatch(text: string): (r: Option<string>)
    ensures r.Some? ==> |r.value| == 10 && DateUtils.DayFirstPrefix(r.value)
    ensures r.None? ==> forall j :: 0 <= j <= |text| ==> !DateUtils.DayFirstPrefix(text[j..])
  {
    match FindDate(text, 0)
    case None => None
    case Some(i) =>
      assert text[i..i + 10] == text[i..][..10];
      DayFirstPrefixTake(text[i..]);
      Some(text[i..i + 10])
  }

  /** A date after a lead-in without digits is found, whatever follows it. */
  lemma DateAfterLabelFound(lead: string, date: string, rest: string)
    requires |date| == 10 && DateUtils.DayFirstPrefix(date)
    requires forall j :: 0 <= j < |lead| ==> !IsDigit(lead[j])
    ensures FirstDateMatch(lead + date + rest) == Some(date)
  {
    var s := lead + date + rest;
    forall j | 0 <= j < |lead|
      ensures !DateUtils.DayFirstPrefix(s[j..])
    {
      assert s[j..][0] == lead[j];
      assert s[j..][..2][0] == lead[j];
    }
    assert s[|lead|..] == date + rest;
    assert (date + rest)[..10] == date;
    DayFirstPrefixTake(date + rest);
    assert DateUtils.DayFirstPrefix(s[|lead|..]);
    var r := FindDate(s, 0);
    assert r == Some(|lead|);
    assert s[|lead|..|lead| + 10] == date;
  }

  // ---------------------------------------------------------------------------
  // The scan

  /** The date a button contributes: the first match in its row, only for a
      clickable button whose row could be read. */
  function ButtonDate(b: ButtonObs): Option<string> {
    if Clickable(b) && b.row.RowText? then FirstDateMatch(Strip(b.row.text)) else None
  }

  function ClickableCount(buttons: seq<ButtonObs>): (n: nat)
    ensures n <= |buttons|
  {
    if buttons == [] then 0
    else (if Clickable(buttons[0]) then 1 else 0) + ClickableCount(buttons[1..])
  }

  /** `ButtonDate` as a sequence of at most one date. */
  function ButtonDates(b: ButtonObs): seq<string> {
    match ButtonDate(b) case Some(d) => [d] case None => []
  }

  /** The dates found, in button order. */
  function ScanDates(buttons: seq<ButtonObs>): seq<string> {
    if buttons == [] then []
    else ButtonDates(buttons[0]) + ScanDates(buttons[1..])
  }

  /** Every clickable button counts, so there are never more dates than
      clickable buttons, and every date has the `DD.MM.YYYY` shape. */
  lemma {:induction false} DatesBoundedByClickable(buttons: seq<ButtonObs>)
    ensures |ScanDates(buttons)| <= ClickableCount(buttons)
    ensures forall d :: d in ScanDates(buttons) ==> |d| == 10 && DateUtils.DayFirstPrefix(d)
  {
    if buttons != [] {
      DatesBoundedByClickable(buttons[1..]);
    }
  }

  /** A clickable button whose row cannot be read still counts. */
  lemma {:induction false} UnreadableRowStillCounts(buttons: seq<ButtonObs>, b: ButtonObs)
    requires Clickable(b) && b.row.RowMissing?
    ensures ClickableCount(buttons + [b]) == ClickableCount(buttons) + 1
    ensures ScanDates(buttons + [b]) == ScanDates(buttons)
  {
    ScanSnoc(buttons, b);
  }

  lemma ScanAppend(a: seq<ButtonObs>, b: seq<ButtonObs>)
    ensures ClickableCount(a + b) == ClickableCount(a) + ClickableCount(b)
    ensures ScanDates(a + b) == ScanDates(a) + ScanDates(b)
  {
    ClickableAppend(a, b);
    DatesAppend(a, b);
  }

  lemma {:induction false} ClickableAppend(a: seq<ButtonObs>, b: seq<ButtonObs>)
    ensures ClickableCount(a + b) == ClickableCount(a) + ClickableCount(b)
  {
    if a == [] {
      assert a + b == b;
    } else {
      assert (a + b)[0] == a[0];
      assert (a + b)[1..] == a[1..] + b;
      ClickableAppend(a[1..], b);
    }
  }

  lemma {:induction false} DatesAppend(a: seq<ButtonObs>, b: seq<ButtonObs>)
    ensures ScanDates(a + b) == ScanDates(a) + ScanDates(b)
  {
    if a == [] {
      assert a + b == b;
    } else {
      assert (a + b)[0] == a[0];
      assert (a + b)[1..] == a[1..] + b;
      DatesAppend(a[1..], b);
      assert ScanDates(a + b) == ButtonDates(a[0]) + ScanDates(a[1..] + b);
    }
  }

  /** One more button adds its own count and date at the end. */
  lemma ScanSnoc(a: seq<ButtonObs>, b: ButtonObs)
    ensures ClickableCount(a + [b]) == ClickableCount(a) + (if Clickable(b) then 1 else 0)
    ensures ScanDates(a + [b]) == ScanDates(a) + ButtonDates(b)
  {
    ScanAppend(a, [b]);
    assert [b][1..] == [];
    assert ScanDates([b]) == ButtonDates(b) + ScanDates([]);
  }

  /** The loop both modules run over the buttons. */
  method ScanButtons(buttons: seq<ButtonObs>) returns (clickable: nat, dates: seq<string>)
    ensures clickable == ClickableCount(buttons)
    ensures dates == ScanDates(buttons)
  {
    clickable, dates := 0, [];
    var i := 0;
    while i < |buttons|
      invariant 0 <= i <= |buttons|
      invariant clickable == ClickableCount(buttons[..i])
      invariant dates == ScanDates(buttons[..i])
    {
      var b := buttons[i];
      ScanSnoc(buttons[..i], b);
      assert buttons[..i + 1] == buttons[..i] + [b];
      match b {
        case Stale =>
          assert ButtonDates(b) == [];
        case Button(displayed, enabled, row) =>
          if displayed && enabled {
            clickable := clickable + 1;
            match row {
              case RowMissing =>
                assert ButtonDates(b) == [];
              case RowText(text) =>
                var m := FirstDateMatch(Strip(text));
                assert ButtonDate(b) == m;
                if m.Some? {
                  dates := dates + [m.value];
                }
            }
          } else {
            assert ButtonDates(b) == [];
          }
      }
      i := i + 1;
    }
    assert buttons[..i] == buttons;
  }

  // ---------------------------------------------------------------------------
  // bot/browser.py: check_slots

  /** What `driver.find_elements` gives: the buttons, or an exception. */
  datatype PageObs = Page(buttons: seq<ButtonObs>) | PageError(error: string)

  /** `check_slots`. */
  method CheckSlots(page: PageObs) returns (found: bool, message: string)
    ensures page.PageError? ==> !found && message == "Error: " + page.error
    ensures page.Page? ==> (found <==> ClickableCount(page.buttons) > 0)
    ensures page.Page? && found && ScanDates(page.buttons) != [] ==>
      message == "Available dates: " + Join(ScanDates(page.buttons), ", ")
    ensures page.Page? && found && ScanDates(page.buttons) == [] ==>
      message == "Found " + NatToString(ClickableCount(page.buttons)) + " available slots"
    ensures page.Page? && !found ==> message == "No available slots"
  {
    match page {
      case PageError(e) =>
        return false, "Error: " + e;
      case Page(buttons) =>
        var clickable, dates := ScanButtons(buttons);
        if clickable > 0 {
          if |dates| > 0 {
            return true, "Available dates: " + Join(dates, ", ");
          }
          return true, "Found " + NatToString(clickable) + " available slots";
        }
        return false, "No available slots";
    }
  }
}
