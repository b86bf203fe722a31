/** browser_manager/browser.py: the step-name truncation and message routing
    of `take_screenshot_and_update`, the per-subscriber decision of
    `check_slots_on_location_page`, and the early-return chain of
    `run_selenium_side_script`.

    Page observations come from `SlotScan`; Telegram responses, the stored
    preferences and the clock are inputs. */
module BrowserManager {
  import opened Common
  import DateUtils
  import SlotChecker
  import SlotScan
  import Notification

  // ---------------------------------------------------------------------------
  // take_screenshot_and_update

  const StepNameLimit: nat := 100
  const ErrorPrefix: string := "ОШИБКА"
  const StepNameSuffix: string := "... [смотрите логи для деталей]"

  /** The cut applied to a step name: only a long name that starts with
      "ОШИБКА" (the script's own error caption) is shortened. */
  function TruncateStepName(stepName: string): (r: string)
    ensures |stepName| > StepNameLimit && StartsWith(stepName, ErrorPrefix) ==>
      r == stepName[..StepNameLimit] + StepNameSuffix
    ensures !(|stepName| > StepNameLimit && StartsWith(stepName, ErrorPrefix)) ==> r == stepName
    ensures |r| <= StepNameLimit + |StepNameSuffix| || r == stepName
  {
    if |stepName| > StepNameLimit && StartsWith(stepName, ErrorPrefix) then
      stepName[..StepNameLimit] + StepNameSuffix
    else stepName
  }

  /** The cut is stable: a truncated name is still long and still starts
      with "ОШИБКА", and truncating it again gives the same text. */
  lemma TruncateStepNameIdempotent(stepName: string)
    ensures TruncateStepName(TruncateStepName(stepName)) == TruncateStepName(stepName)
  {
    var r := TruncateStepName(stepName);
    if r != stepName {
      assert r[..StepNameLimit] == stepName[..StepNameLimit];
      assert r[..|ErrorPrefix|] == stepName[..|ErrorPrefix|];
    }
  }

  /** The responses one chat's photo update meets: the first post, and the
      fallback photo post with whether the fallback posts went through. */
  datatype Delivery = Delivery(primary: Notification.HttpResponse, fallback: Notification.HttpResponse, fallbackOk: bool)

  /** Where a caption went: an edit of the stored message, or a new photo. */
  datatype Route = Edited(chatId: int, messageId: int) | SentNew(chatId: int)

  /** The routing rule: the stored id is looked up under `chat_id` as given. */
  function RouteFor(ids: map<Notification.ChatKey, int>, chatId: int): (r: Route)
    ensures r.Edited? <==> Notification.IntKey(chatId) in ids
  {
    if Notification.IntKey(chatId) in ids then Edited(chatId, ids[Notification.IntKey(chatId)]) else SentNew(chatId)
  }

  /** The registry after one routed delivery. */
  function AfterRoute(ids: map<Notification.ChatKey, int>, chatId: int, d: Delivery): map<Notification.ChatKey, int> {
    var stored :=
      if Notification.IntKey(chatId) in ids then
        d.primary.Http? && d.primary.status != 200
        && Notification.ContainsText(d.primary.body, Notification.TooLongMarker)
        && Notification.PhotoStored(d.fallback)
      else Notification.PhotoStored(d.primary);
    var r := if Notification.IntKey(chatId) in ids then d.fallback else d.primary;
    if stored then ids[Notification.IntKey(chatId) := r.messageId.value] else ids
  }

  /** Routing for a list of chats, the registry carried from one to the next. */
  function RouteAll(ids: map<Notification.ChatKey, int>, chatIds: seq<int>, deliver: nat -> Delivery)
    : (seq<Route>, map<Notification.ChatKey, int>)
  {
    if chatIds == [] then ([], ids)
    else
      var n := |chatIds| - 1;
      var (routes, m) := RouteAll(ids, chatIds[..n], deliver);
      (routes + [RouteFor(m, chatIds[n])], AfterRoute(m, chatIds[n], deliver(n)))
  }

  /** A registry holding only `str(chat_id)` keys (the keys
      `send_telegram_notification` and `load_last_message_ids` write) never
      leads to an edit: each distinct chat gets a new photo message. */
  lemma {:induction false} StringKeysNeverEdited(ids: map<Notification.ChatKey, int>, chatIds: seq<int>,
                                                 deliver: nat -> Delivery)
    requires forall c :: Notification.IntKey(c) !in ids
    requires forall i, j :: 0 <= i < j < |chatIds| ==> chatIds[i] != chatIds[j]
    ensures var (routes, m) := RouteAll(ids, chatIds, deliver);
      |routes| == |chatIds| && (forall k :: 0 <= k < |routes| ==> routes[k] == SentNew(chatIds[k]))
      && (forall c :: Notification.IntKey(c) in m ==> c in chatIds)
  {
    if chatIds != [] {
      var n := |chatIds| - 1;
      StringKeysNeverEdited(ids, chatIds[..n], deliver);
      var (routes, m) := RouteAll(ids, chatIds[..n], deliver);
      assert chatIds[n] !in chatIds[..n];
      assert forall c :: Notification.IntKey(c) in m ==> c in chatIds;
    }
  }

  /** `take_screenshot_and_update`: the caption is the truncated step name;
      once the screenshot is saved each chat's stored message (looked up
      under `chat_id` as given) is edited, or a new photo is sent. A failed
      screenshot sends nothing. */
  method TakeScreenshotAndUpdate(registry: Notification.MessageRegistry, stepName: string, chatIds: seq<int>,
                                 screenshotSaved: bool, deliver: nat -> Delivery)
    returns (path: Option<string>, caption: string, routes: seq<Route>)
    modifies registry
    ensures caption == TruncateStepName(stepName)
    ensures !screenshotSaved ==>
      path == None && routes == [] && registry.lastMessageIds == old(registry.lastMessageIds)
    ensures screenshotSaved ==>
      path == Some("current_state.png")
      && (routes, registry.lastMessageIds) == RouteAll(old(registry.lastMessageIds), chatIds, deliver)
  {
    caption := TruncateStepName(stepName);
    if !screenshotSaved {
      return None, caption, [];
    }
    routes := [];
    var i := 0;
    while i < |chatIds|
      invariant 0 <= i <= |chatIds|
      invariant (routes, registry.lastMessageIds) == RouteAll(old(registry.lastMessageIds), chatIds[..i], deliver)
    {
      var chatId := chatIds[i];
      var d := deliver(i);
      assert chatIds[..i + 1][..i] == chatIds[..i];
      var key := Notification.IntKey(chatId);
      if key in registry.lastMessageIds {
        var messageId := registry.lastMessageIds[key];
        routes := routes + [Edited(chatId, messageId)];
        var _ := registry.UpdateMessageWithPhoto(chatId, messageId, caption, d.primary, d.fallback, d.fallbackOk);
      } else {
        routes := routes + [SentNew(chatId)];
        var sent, parts := registry.SendPhotoWithCaption(chatId, caption, d.primary, d.fallbackOk);
      }
      i := i + 1;
    }
    assert chatIds[..i] == chatIds;
    path := Some("current_state.png");
  }

  // ---------------------------------------------------------------------------
  // check_slots_on_location_page

  /** `db.get_user_preferred_dates(chat_id)`: a stored value, nothing, or an
      exception (which skips that chat). */
  datatype PrefLookup = PrefStored(range: string) | PrefRaised

  /** The range a chat is judged by: `stored or 'any'`. */
  function PreferredRange(prefs: map<int, PrefLookup>, chatId: int): string
    requires chatId !in prefs || prefs[chatId].PrefStored?
  {
    if chatId in prefs && prefs[chatId].range != "" then prefs[chatId].range else "any"
  }

  /** `is_preferred`: true unless dates were found and the range is not
      `'any'`, when the date matcher decides. */
  function IsPreferred(dates: seq<string>, preferredRange: string, now: int): (r: bool)
    ensures dates == [] || preferredRange == "any" ==> r
  {
    if dates != [] && preferredRange != "any" then DateUtils.CheckIfDatesInRange(dates, preferredRange, now)
    else true
  }

  /** This module and core/slot_checker.py apply the same rule. */
  lemma PreferenceRulesAgree(dates: seq<string>, preferredRange: string, now: int)
    ensures IsPreferred(dates, preferredRange, now) == SlotChecker.CheckDatesInRange(dates, preferredRange, now)
  {
  }

  function Summary(dates: seq<string>, clickable: nat): string {
    if dates != [] then "Доступна запись на даты: " + Join(dates, ", ")
    else "Найдено " + NatToString(clickable) + " доступных слотов (даты не определены)"
  }

  function AlertText(message: string, rangeText: string): string {
    "🚨 *СРОЧНО! НАЙДЕНЫ СЛОТЫ!*\n\n✅ " + message
    + "\n📅 Даты соответствуют выбранному диапазону: *" + rangeText
    + "*\n\n❗️ Перейдите на сайт и нажмите кнопку 'auswählen'!"
  }

  function OutOfRangeText(message: string, rangeText: string): string {
    "ℹ️ *Статус мониторинга*\n\n👉 " + message + "\n⚠️ Найденные даты вне выбранного диапазона\n📅 Ваш диапазон: *"
    + rangeText + "*\n\n_Используйте команду 'старт' для изменения диапазона_"
  }

  const NoSlotsStatus: string := "ℹ️ *Статус мониторинга*\n\n❌ Нет доступных слотов"
  const NoSlotsResult: string := "Нет доступных слотов"

  function ErrorStatus(error: string): string {
    "ℹ️ *Статус мониторинга*\n\n⚠️ Ошибка при проверке: " + error
  }

  /** What the page check asks for on behalf of a chat: a new audible photo
      message (`send_telegram_notification`) or an in-place refresh
      (`take_screenshot_and_update`). */
  datatype ChatAction = Alert(chatId: int, text: string) | Refresh(chatId: int, text: string)

  /** The action for one chat, or none when its preference lookup raised. */
  function ChatActionFor(prefs: map<int, PrefLookup>, chatId: int, dates: seq<string>, message: string, now: int)
    : (r: Option<ChatAction>)
    ensures r.None? <==> chatId in prefs && prefs[chatId].PrefRaised?
    ensures r.Some? ==> r.value.chatId == chatId
    ensures chatId !in prefs ==> r.Some? && r.value.Alert?
  {
    if chatId in prefs && prefs[chatId].PrefRaised? then None
    else
      var range := PreferredRange(prefs, chatId);
      var rangeText := SlotChecker.GetRangeText(range);
      if IsPreferred(dates, range, now) then Some(Alert(chatId, AlertText(message, rangeText)))
      else Some(Refresh(chatId, OutOfRangeText(message, rangeText)))
  }

  function ChatActions(prefs: map<int, PrefLookup>, chatIds: seq<int>, dates: seq<string>, message: string, now: int)
    : seq<ChatAction>
  {
    if chatIds == [] then []
    else
      var n := |chatIds| - 1;
      ChatActions(prefs, chatIds[..n], dates, message, now)
      + match ChatActionFor(prefs, chatIds[n], dates, message, now) case Some(a) => [a] case None => []
  }

  /** Chats with no stored preference, or an empty one, are judged by `'any'`
      and so always get the audible alert. */
  lemma {:induction false} NoPreferenceMeansAlert(prefs: map<int, PrefLookup>, chatIds: seq<int>,
                                                  dates: seq<string>, message: string, now: int)
    requires forall c :: c in chatIds ==> c !in prefs
    ensures |ChatActions(prefs, chatIds, dates, message, now)| == |chatIds|
    ensures forall a :: a in ChatActions(prefs, chatIds, dates, message, now) ==> a.Alert?
  {
    if chatIds != [] {
      var n := |chatIds| - 1;
      assert forall c :: c in chatIds[..n] ==> c in chatIds;
      NoPreferenceMeansAlert(prefs, chatIds[..n], dates, message, now);
      var last := ChatActionFor(prefs, chatIds[n], dates, message, now);
      assert ChatActions(prefs, chatIds, dates, message, now)
             == ChatActions(prefs, chatIds[..n], dates, message, now) + (match last case Some(a) => [a] case None => []);
    }
  }

  /** An action goes only to the chats asked about, and never more than one
      per chat entry. */
  lemma {:induction false} ActionsStayWithChats(prefs: map<int, PrefLookup>, chatIds: seq<int>,
                                                dates: seq<string>, message: string, now: int)
    ensures |ChatActions(prefs, chatIds, dates, message, now)| <= |chatIds|
    ensures forall a :: a in ChatActions(prefs, chatIds, dates, message, now) ==> a.chatId in chatIds
  {
    if chatIds != [] {
      var n := |chatIds| - 1;
      assert forall c :: c in chatIds[..n] ==> c in chatIds;
      ActionsStayWithChats(prefs, chatIds[..n], dates, message, now);
      var pre := ChatActions(prefs, chatIds[..n], dates, message, now);
      var last := ChatActionFor(prefs, chatIds[n], dates, message, now);
      var post: seq<ChatAction> := match last case Some(a) => [a] case None => [];
      assert ChatActions(prefs, chatIds, dates, message, now) == pre + post;
      forall a | a in pre + post
        ensures a.chatId in chatIds
      {
        if a in pre {
          assert a.chatId in chatIds[..n];
        } else {
          assert a.chatId == chatIds[n];
        }
      }
    }
  }

  /** The refresh every chat gets when the page shows nothing, or an error. */
  function RefreshAll(chatIds: seq<int>, text: string): (r: seq<ChatAction>)
    ensures |r| == |chatIds|
    ensures forall k :: 0 <= k < |r| ==> r[k] == Refresh(chatIds[k], text)
  {
    if chatIds == [] then [] else [Refresh(chatIds[0], text)] + RefreshAll(chatIds[1..], text)
  }

  /** One more chat adds its own action, if any, at the end. */
  lemma ChatActionsSnoc(prefs: map<int, PrefLookup>, chatIds: seq<int>, i: nat, dates: seq<string>,
                        message: string, now: int)
    requires i < |chatIds|
    ensures ChatActions(prefs, chatIds[..i + 1], dates, message, now)
            == ChatActions(prefs, chatIds[..i], dates, message, now)
               + match ChatActionFor(prefs, chatIds[i], dates, message, now) case Some(a) => [a] case None => []
  {
    assert chatIds[..i + 1][..i] == chatIds[..i];
  }

  /** The body of that loop for one chat: a lookup that raised skips it. */
  method ActionForChat(prefs: map<int, PrefLookup>, chatId: int, dates: seq<string>, message: string, now: int)
    returns (action: Option<ChatAction>)
    ensures action == ChatActionFor(prefs, chatId, dates, message, now)
  {
    if chatId in prefs && prefs[chatId].PrefRaised? {
      return None;
    }
    var range := if chatId in prefs && prefs[chatId].range != "" then prefs[chatId].range else "any";
    var preferred := true;
    if |dates| > 0 && range != "any" {
      preferred := DateUtils.CheckIfDatesInRange(dates, range, now);
    }
    var rangeText := SlotChecker.GetRangeText(range);
    assert range == PreferredRange(prefs, chatId) && preferred == IsPreferred(dates, range, now);
    if preferred {
      action := Some(Alert(chatId, AlertText(message, rangeText)));
    } else {
      action := Some(Refresh(chatId, OutOfRangeText(message, rangeText)));
    }
  }

  /** The per-chat loop of `check_slots_on_location_page`. */
  method NotifyChats(prefs: map<int, PrefLookup>, chatIds: seq<int>, dates: seq<string>, message: string, now: int)
    returns (actions: seq<ChatAction>)
    ensures actions == ChatActions(prefs, chatIds, dates, message, now)
  {
    actions := [];
    var i := 0;
    while i < |chatIds|
      invariant 0 <= i <= |chatIds|
      invariant actions == ChatActions(prefs, chatIds[..i], dates, message, now)
    {
      ChatActionsSnoc(prefs, chatIds, i, dates, message, now);
      var action := ActionForChat(prefs, chatIds[i], dates, message, now);
      if action.Some? {
        actions := actions + [action.value];
      }
      i := i + 1;
    }
    assert chatIds[..i] == chatIds;
  }

  /** `check_slots_on_location_page`: `(True, summary)` exactly when some
      button is clickable, with one action per chat whose lookup worked;
      otherwise every chat gets a status refresh. */
  method CheckSlotsOnLocationPage(page: SlotScan.PageObs, chatIds: seq<int>, prefs: map<int, PrefLookup>, now: int)
    returns (found: bool, message: string, actions: seq<ChatAction>)
    ensures page.PageError? ==>
      !found && message == "Ошибка: " + page.error && actions == RefreshAll(chatIds, ErrorStatus(page.error))
    ensures page.Page? ==> (found <==> SlotScan.ClickableCount(page.buttons) > 0)
    ensures page.Page? && found ==>
      message == Summary(SlotScan.ScanDates(page.buttons), SlotScan.ClickableCount(page.buttons))
      && actions == ChatActions(prefs, chatIds, SlotScan.ScanDates(page.buttons), message, now)
    ensures page.Page? && !found ==> message == NoSlotsResult && actions == RefreshAll(chatIds, NoSlotsStatus)
  {
    match page {
      case PageError(e) =>
        return false, "Ошибка: " + e, RefreshAll(chatIds, ErrorStatus(e));
      case Page(buttons) =>
        var clickable, dates := SlotScan.ScanButtons(buttons);
        if clickable > 0 {
          message := Summary(dates, clickable);
          actions := NotifyChats(prefs, chatIds, dates, message, now);
          return true, message, actions;
        }
        return false, NoSlotsResult, RefreshAll(chatIds, NoSlotsStatus);
    }
  }

  // ---------------------------------------------------------------------------
  // run_selenium_side_script

  /** How a step ended: done, or an exception, raised before or after the
      step's own screenshot caption was posted. */
  datatype StepOutcome = Done | Failed(error: string, afterCaption: bool)

  /** Steps 4 to 12, as the failure messages name them. */
  const StepLabels: seq<string> := [
    "выбрать категорию", "выбрать услугу", "нажать кнопку продолжить",
    "установить галочку согласия", "нажать кнопку weiter", "заполнить поле имени",
    "заполнить поле фамилии", "заполнить поле email", "перейти к выбору локации"]

  /** The caption each of steps 4 to 12 posts before acting; step 10 posts
      none and step 11 posts its caption only once the field is filled. */
  const StepCaptions: seq<Option<string>> := [
    Some("4. Выбираем категорию"), Some("5. Выбираем услугу"), Some("6. Нажимаем 'продолжить'"),
    Some("7. Устанавливаем галочку согласия"), Some("8. Нажимаем кнопку 'weiter'"),
    Some("9. Заполняем поле имени"), None, None,
    Some("12. Нажимаем кнопку 'weiter' для перехода к выбору локации")]
  const EmailStepCaption: string := "11. Форма персональных данных заполнена"
  const EmailStep: nat := 7

  const NoDriverResult: string := "Ошибка: Браузер не запустился"

  /** One run of the script: the driver, steps 1 to 3 (`openPage`, `resize`,
      `modal`), steps 4 to 12 by index, and the location page. */
  datatype ScriptObs = ScriptObs(driverPresent: bool, openPage: StepOutcome, resize: StepOutcome,
                                 modal: StepOutcome, step: nat -> StepOutcome, page: SlotScan.PageObs)

  /** The first of steps 4 to 12, from index `from` on, that fails. */
  function FirstFailure(step: nat -> StepOutcome, from: nat): (r: Option<nat>)
    requires from <= |StepLabels|
    ensures r.Some? ==> from <= r.value < |StepLabels| && step(r.value).Failed?
    ensures r.Some? ==> forall k :: from <= k < r.value ==> step(k).Done?
    ensures r.None? ==> forall k :: from <= k < |StepLabels| ==> step(k).Done?
    decreases |StepLabels| - from
  {
    if from == |StepLabels| then None
    else if step(from).Failed? then Some(from)
    else FirstFailure(step, from + 1)
  }

  function StepFailureMessage(k: nat, error: string): string
    requires k < |StepLabels|
  {
    "Не удалось " + StepLabels[k] + ": " + error
  }

  /** No caption the script writes itself is long enough to be cut. */
  lemma ScriptCaptionsKept()
    ensures forall k :: 0 <= k < |StepCaptions| && StepCaptions[k].Some? ==> |StepCaptions[k].value| <= StepNameLimit
    ensures forall k :: 0 <= k < |StepLabels| ==> |"Ошибка: не удалось " + StepLabels[k]| <= StepNameLimit
    ensures |EmailStepCaption| <= StepNameLimit
  {
  }

  /** Steps 4 to 12 in order: the first failing step ends them, after its
      caption (when the failure came after it was posted) and the error
      caption; `captions` are those posted, none of them cut. */
  method RunSteps(step: nat -> StepOutcome) returns (failure: Option<nat>, captions: seq<string>)
    ensures failure == FirstFailure(step, 0)
    ensures failure.Some? ==> captions != [] && captions[|captions| - 1] == "Ошибка: не удалось " + StepLabels[failure.value]
    ensures forall c :: c in captions ==> |c| <= StepNameLimit
  {
    ScriptCaptionsKept();
    captions := [];
    var k := 0;
    while k < |StepLabels|
      invariant 0 <= k <= |StepLabels|
      invariant FirstFailure(step, 0) == FirstFailure(step, k)
      invariant forall c :: c in captions ==> |c| <= StepNameLimit
    {
      match step(k) {
        case Failed(e, afterCaption) =>
          if afterCaption && k != EmailStep && StepCaptions[k].Some? {
            captions := captions + [StepCaptions[k].value];
          }
          captions := captions + ["Ошибка: не удалось " + StepLabels[k]];
          return Some(k), captions;
        case Done =>
          if StepCaptions[k].Some? {
            captions := captions + [StepCaptions[k].value];
          }
          if k == EmailStep {
            captions := captions + [EmailStepCaption];
          }
      }
      k := k + 1;
    }
    return None, captions;
  }

  /** A caption no longer than the limit is never cut. */
  lemma ShortCaptionsKept(captions: seq<string>)
    requires forall c :: c in captions ==> |c| <= StepNameLimit
    ensures forall c :: c in captions ==> c == TruncateStepName(c)
  {
  }

  /** The captions of step 3: the modal closed, or not found (after its
      caption when the failure came late). */
  function ModalCaptions(modal: StepOutcome): (r: seq<string>)
    ensures forall c :: c in r ==> |c| <= StepNameLimit
  {
    match modal
    case Done => ["3. Закрываем модальное окно"]
    case Failed(_, afterCaption) =>
      (if afterCaption then ["3. Закрываем модальное окно"] else []) + ["3. Модальное окно не найдено"]
  }

  /** `run_selenium_side_script`: no driver, a failure in step 1 or 2 (the
      outer `except`), or the first failing step among 4 to 12 ends the run
      with `False`; step 3 may fail; after step 12 the location page decides.
      `captions` are the step names posted with screenshots, in order. */
  method RunSideScript(script: ScriptObs, givenChats: seq<int>, usersFile: Notification.UsersFile,
                       prefs: map<int, PrefLookup>, now: int)
    returns (ok: bool, message: string, captions: seq<string>, actions: seq<ChatAction>)
    ensures !script.driverPresent ==> !ok && message == NoDriverResult && captions == [] && actions == []
    ensures script.driverPresent && script.openPage.Failed? ==>
      !ok && message == script.openPage.error && actions == []
      && captions == [TruncateStepName("ОШИБКА: " + script.openPage.error)]
    ensures script.driverPresent && script.openPage.Done? && script.resize.Failed? ==>
      !ok && message == script.resize.error && actions == [] && |captions| == 2
      && captions[1] == TruncateStepName("ОШИБКА: " + script.resize.error)
    ensures script.driverPresent && script.openPage.Done? && script.resize.Done? ==>
      match FirstFailure(script.step, 0)
      case Some(k) =>
        !ok && message == StepFailureMessage(k, script.step(k).error)
        && actions == [] && captions != [] && captions[|captions| - 1] == "Ошибка: не удалось " + StepLabels[k]
      case None =>
        var chats := if givenChats == [] then Notification.LoadChatIds(usersFile) else givenChats;
        (ok <==> script.page.Page? && SlotScan.ClickableCount(script.page.buttons) > 0)
        && (script.page.Page? && ok ==>
              message == Summary(SlotScan.ScanDates(script.page.buttons), SlotScan.ClickableCount(script.page.buttons))
              && actions == ChatActions(prefs, chats, SlotScan.ScanDates(script.page.buttons), message, now))
        && (script.page.Page? && !ok ==> message == NoSlotsResult && actions == RefreshAll(chats, NoSlotsStatus))
        && (script.page.PageError? ==>
              message == "Ошибка: " + script.page.error && actions == RefreshAll(chats, ErrorStatus(script.page.error)))
    ensures forall c :: c in captions ==> c == TruncateStepName(c)
  {
    var chats := givenChats;
    if chats == [] {
      chats := Notification.LoadChatIds(usersFile);
    }
    captions, actions := [], [];
    if !script.driverPresent {
      return false, NoDriverResult, [], [];
    }
    if script.openPage.Failed? {
      var c := TruncateStepName("ОШИБКА: " + script.openPage.error);
      TruncateStepNameIdempotent("ОШИБКА: " + script.openPage.error);
      return false, script.openPage.error, [c], [];
    }
    if script.resize.Failed? {
      var c := TruncateStepName("ОШИБКА: " + script.resize.error);
      TruncateStepNameIdempotent("ОШИБКА: " + script.resize.error);
      return false, script.resize.error, ["1. Открываем страницу", c], [];
    }
    var rest;
    ok, message, rest, actions := RunFromModal(script, chats, prefs, now);
    captions := ["1. Открываем страницу", "2. Установка размера окна"] + rest;
    ShortCaptionsKept(captions);
  }

  /** Step 3 onwards, once the page is open and sized. */
  method RunFromModal(script: ScriptObs, chats: seq<int>, prefs: map<int, PrefLookup>, now: int)
    returns (ok: bool, message: string, captions: seq<string>, actions: seq<ChatAction>)
    ensures match FirstFailure(script.step, 0)
      case Some(k) =>
        !ok && message == StepFailureMessage(k, script.step(k).error)
        && actions == [] && captions != [] && captions[|captions| - 1] == "Ошибка: не удалось " + StepLabels[k]
      case None =>
        (ok <==> script.page.Page? && SlotScan.ClickableCount(script.page.buttons) > 0)
        && (script.page.Page? && ok ==>
              message == Summary(SlotScan.ScanDates(script.page.buttons), SlotScan.ClickableCount(script.page.buttons))
              && actions == ChatActions(prefs, chats, SlotScan.ScanDates(script.page.buttons), message, now))
        && (script.page.Page? && !ok ==> message == NoSlotsResult && actions == RefreshAll(chats, NoSlotsStatus))
        && (script.page.PageError? ==>
              message == "Ошибка: " + script.page.error && actions == RefreshAll(chats, ErrorStatus(script.page.error)))
    ensures forall c :: c in captions ==> |c| <= StepNameLimit
  {
    var failure, stepCaptions := RunSteps(script.step);
    captions := ModalCaptions(script.modal) + stepCaptions;
    if failure.Some? {
      var k := failure.value;
      return false, StepFailureMessage(k, script.step(k).error), captions, [];
    }
    captions := captions + ["13. После перехода на страницу выбора локации"];
    ok, message, actions := CheckSlotsOnLocationPage(script.page, chats, prefs, now);
  }
}
