/** utils/notification.py: message truncation, the 4000-character fallback
    chunks, and the module-global `last_message_ids` registry that the send
    and update functions keep.

    Every Telegram call is an input: `SendResponse` for the python-telegram-bot
    calls (a message, or an exception) and `HttpResponse` for the raw Bot API
    posts. Whether the screenshot file exists is a parameter too. */
module Notification {
  import opened Common

  const DefaultMaxLength: int := 1000
  /** Telegram's caption limit, which both photo functions truncate to. */
  const CaptionLimit: int := 1024
  const ChunkSize: nat := 4000
  const TruncationMark: string := "... [обрезано]"
  const TooLongMarker: string := "caption is too long"

  // ---------------------------------------------------------------------------
  // truncate_message

  /** `truncate_message(message, max_length)`. The cut is Python's
      `message[:max_length - 20]`, which counts from the end when
      `max_length` is below 20. */
  function TruncateMessage(message: string, maxLength: int): (r: string)
    ensures message == [] || |message| <= maxLength ==> r == message
    ensures message != [] && |message| > maxLength ==>
      |TruncationMark| <= |r| <= |message| + |TruncationMark| && r[|r| - |TruncationMark|..] == TruncationMark
      && r[..|r| - |TruncationMark|] == message[..|r| - |TruncationMark|]
    ensures 20 <= maxLength < |message| ==> |r| == maxLength - 6
  {
    if message == [] || |message| <= maxLength then message
    else
      var kept := PySliceTo(message, maxLength - 20);
      var r := kept + TruncationMark;
      assert r[..|kept|] == kept;
      r
  }

  /** With a limit of at least 20 the result fits the limit, so truncating
      twice is truncating once. */
  lemma TruncateIdempotent(message: string, maxLength: int)
    requires 20 <= maxLength
    ensures |TruncateMessage(message, maxLength)| <= maxLength
    ensures TruncateMessage(TruncateMessage(message, maxLength), maxLength) == TruncateMessage(message, maxLength)
  {
  }

  // ---------------------------------------------------------------------------
  // The fallback chunks

  function Concat(parts: seq<string>): string {
    if parts == [] then [] else Concat(parts[..|parts| - 1]) + parts[|parts| - 1]
  }

  /** How many parts `range(0, len(caption), 4000)` produces. */
  function PartCount(n: nat): nat {
    (n + ChunkSize - 1) / ChunkSize
  }

  /** `[caption[i:i+4000] for i in range(0, len(caption), 4000)]`, as the
      loop of `send_photo_with_caption` posts them. */
  method SplitCaption(caption: string) returns (parts: seq<string>)
    ensures Concat(parts) == caption
    ensures forall i :: 0 <= i < |parts| ==> 0 < |parts[i]| <= ChunkSize
    ensures |parts| == PartCount(|caption|)
  {
    parts := [];
    var i := 0;
    while i < |caption|
      invariant i == |parts| * ChunkSize
      invariant i <= |caption| ==> Concat(parts) == caption[..i]
      invariant i > |caption| ==> Concat(parts) == caption && |parts| == PartCount(|caption|)
      invariant forall k :: 0 <= k < |parts| ==> 0 < |parts[k]| <= ChunkSize
      decreases |caption| - i
    {
      var end := if i + ChunkSize <= |caption| then i + ChunkSize else |caption|;
      var part := caption[i..end];
      assert Concat(parts + [part]) == Concat(parts) + part;
      assert caption[..i] + part == caption[..end];
      parts := parts + [part];
      i := i + ChunkSize;
      if end == |caption| {
        assert caption[..end] == caption;
      }
    }
    if i <= |caption| {
      assert caption[..i] == caption;
    }
  }

  /** A caption cut to the 1024-character limit always fits one part, so the
      chunk loop posts it as a single message. */
  lemma TruncatedCaptionIsOnePart(caption: string)
    ensures PartCount(|TruncateMessage(caption, CaptionLimit)|) <= 1
  {
    TruncateIdempotent(caption, CaptionLimit);
  }

  /** `"caption is too long" in response.text`. */
  predicate ContainsText(s: string, t: string) {
    exists i :: 0 <= i <= |s| && OccursAt(s, t, i)
  }

  predicate OccursAt(s: string, t: string, i: int) {
    0 <= i <= |s| - |t| && s[i..i + |t|] == t
  }

  // ---------------------------------------------------------------------------
  // load_chat_ids

  /** telegram_users.json: absent, not readable as a JSON object, or an
      object with or without a `chat_ids` entry. */
  datatype UsersFile = NoUsersFile | CorruptUsers | UsersJson(chatIds: Option<seq<int>>)

  /** `load_chat_ids`: a missing or unreadable file gives no chats. */
  function LoadChatIds(file: UsersFile): (r: seq<int>)
    ensures file.NoUsersFile? || file.CorruptUsers? ==> r == []
    ensures file.UsersJson? && file.chatIds.Some? ==> r == file.chatIds.value
    ensures file.UsersJson? && file.chatIds.None? ==> r == []
  {
    match file
    case UsersJson(Some(ids)) => ids
    case _ => []
  }

  // ---------------------------------------------------------------------------
  // The registry

  /** A key of `last_message_ids`: Python keeps `str(chat_id)` and a plain
      `chat_id` as different keys. */
  datatype ChatKey = IntKey(id: int) | StrKey(text: string)

  function StringKey(chatId: int): ChatKey {
    StrKey(IntToString(chatId))
  }

  lemma KeysNeverCollide(chatId: int, other: int)
    ensures IntKey(chatId) != StringKey(other)
  {
  }

  /** A python-telegram-bot call: the message it returns, or an exception. */
  datatype SendResponse = Sent(messageId: int) | SendFailed

  /** A raw Bot API post: its status, the JSON `ok` flag, the message id when
      the JSON has one, and the body text; or an exception. */
  datatype HttpResponse = Http(status: int, ok: bool, messageId: Option<int>, body: string) | HttpRaised

  /** last_message_ids.json: absent, unreadable, or a JSON object (whose keys
      are always strings). */
  datatype IdsFile = NoIdsFile | CorruptIds | IdsJson(entries: map<string, int>)

  /** `send_photo_with_caption` with its own primary response succeeded in
      storing a message id. */
  predicate PhotoStored(r: HttpResponse) {
    r.Http? && r.status == 200 && r.ok && r.messageId.Some?
  }

  /** The value `send_photo_with_caption` returns, given whether the fallback
      posts went through. */
  predicate PhotoSendOk(r: HttpResponse, fallbackOk: bool) {
    r.Http? &&
    if r.status == 200 then !(r.ok && r.messageId.None?)
    else ContainsText(r.body, TooLongMarker) && fallbackOk
  }

  class MessageRegistry {
    var lastMessageIds: map<ChatKey, int>

    constructor ()
      ensures lastMessageIds == map[]
    {
      lastMessageIds := map[];
    }

    /** `send_telegram_notification`: the photo path stores the new message's
        id under `str(chat_id)`; the text path leaves the registry alone; a
        failed call gives `None`. */
    method SendTelegramNotification(chatId: int, message: string, photoExists: bool, response: SendResponse)
      returns (sent: Option<int>)
      modifies this
      ensures sent == if response.Sent? then Some(response.messageId) else None
      ensures lastMessageIds == if photoExists && response.Sent?
                                then old(lastMessageIds)[StringKey(chatId) := response.messageId]
                                else old(lastMessageIds)
    {
      match response {
        case SendFailed =>
          return None;
        case Sent(id) =>
          if photoExists {
            lastMessageIds := lastMessageIds[StringKey(chatId) := id];
          }
          return Some(id);
      }
    }

    /** `send_photo_with_caption`: the caption is cut to 1024 characters; a
        successful post stores the id under `chat_id` as given; a "caption is
        too long" error posts the photo alone and the caption as text parts.
        `fallbackOk` is whether those posts went through. */
    method SendPhotoWithCaption(chatId: int, caption: string, response: HttpResponse, fallbackOk: bool)
      returns (ok: bool, textParts: seq<string>)
      modifies this
      ensures ok == PhotoSendOk(response, fallbackOk)
      ensures lastMessageIds == if PhotoStored(response)
                                then old(lastMessageIds)[IntKey(chatId) := response.messageId.value]
                                else old(lastMessageIds)
      ensures textParts != [] ==> ok && Concat(textParts) == TruncateMessage(caption, CaptionLimit)
      ensures |textParts| <= 1
      ensures response.Http? && response.status != 200 && ContainsText(response.body, TooLongMarker) && fallbackOk ==>
        textParts == if caption == [] then [] else [TruncateMessage(caption, CaptionLimit)]
    {
      var c := TruncateMessage(caption, CaptionLimit);
      textParts := [];
      match response {
        case HttpRaised =>
          return false, [];
        case Http(status, okFlag, messageId, body) =>
          if status == 200 {
            if okFlag {
              if messageId.None? {
                return false, [];
              }
              lastMessageIds := lastMessageIds[IntKey(chatId) := messageId.value];
            }
            return true, [];
          }
          if ContainsText(body, TooLongMarker) {
            if !fallbackOk {
              return false, [];
            }
            textParts := SplitCaption(c);
            TruncatedCaptionIsOnePart(caption);
            if caption != [] {
              assert c != [];
              assert |textParts| == 1;
              assert textParts[..|textParts| - 1] == [];
              assert Concat(textParts) == Concat([]) + textParts[0];
              assert Concat([]) == [];
              assert Concat(textParts) == c;
              assert textParts[0] == c;
              assert textParts == [textParts[0]];
            } else {
              assert |c| == 0 && PartCount(0) == 0;
              assert textParts == [];
            }
            return true, textParts;
          }
          return false, [];
      }
    }

    /** `update_message_with_photo`: an edit that succeeds touches nothing; a
        "caption is too long" error falls back to a fresh photo message. */
    method UpdateMessageWithPhoto(chatId: int, messageId: int, caption: string, response: HttpResponse,
                                  fallback: HttpResponse, fallbackOk: bool)
      returns (ok: bool)
      modifies this
      ensures response.Http? && response.status == 200 ==> ok && lastMessageIds == old(lastMessageIds)
      ensures response.HttpRaised? ==> !ok && lastMessageIds == old(lastMessageIds)
      ensures response.Http? && response.status != 200 && !ContainsText(response.body, TooLongMarker) ==>
        !ok && lastMessageIds == old(lastMessageIds)
      ensures response.Http? && response.status != 200 && ContainsText(response.body, TooLongMarker) ==>
        ok == PhotoSendOk(fallback, fallbackOk)
        && lastMessageIds == if PhotoStored(fallback)
                             then old(lastMessageIds)[IntKey(chatId) := fallback.messageId.value]
                             else old(lastMessageIds)
    {
      var c := TruncateMessage(caption, CaptionLimit);
      match response {
        case HttpRaised =>
          return false;
        case Http(status, _, _, body) =>
          if status == 200 {
            return true;
          }
          if ContainsText(body, TooLongMarker) {
            var parts;
            ok, parts := SendPhotoWithCaption(chatId, c, fallback, fallbackOk);
            return;
          }
          return false;
      }
    }

    /** `load_last_message_ids`: a readable file replaces the whole registry,
        and since JSON keys are strings no key is an integer afterwards. */
    method LoadLastMessageIds(file: IdsFile) returns (ok: bool)
      modifies this
      ensures ok <==> file.IdsJson?
      ensures ok ==> lastMessageIds == map k | k in file.entries :: StrKey(k) := file.entries[k]
      ensures ok ==> forall c :: IntKey(c) !in lastMessageIds
      ensures !ok ==> lastMessageIds == old(lastMessageIds)
    {
      match file {
        case IdsJson(entries) =>
          lastMessageIds := map k | k in entries :: StrKey(k) := entries[k];
          return true;
        case _ =>
          return false;
      }
    }

    /** `update_last_message`: without a stored id under `str(chat_id)` it
        sends afresh; with one it replaces the photo message (storing the new
        id) or edits the text; a failed replace or edit also sends afresh,
        with the `fallback` response. */
    method UpdateLastMessage(chatId: int, text: string, photoExists: bool, response: SendResponse,
                             fallback: SendResponse)
      returns (sent: Option<int>)
      modifies this
      ensures StringKey(chatId) !in old(lastMessageIds) ==>
        sent == (if response.Sent? then Some(response.messageId) else None)
        && lastMessageIds == if photoExists && response.Sent?
                             then old(lastMessageIds)[StringKey(chatId) := response.messageId]
                             else old(lastMessageIds)
      ensures StringKey(chatId) in old(lastMessageIds) && response.Sent? ==>
        sent == Some(response.messageId)
        && lastMessageIds == if photoExists
                             then old(lastMessageIds)[StringKey(chatId) := response.messageId]
                             else old(lastMessageIds)
      ensures StringKey(chatId) in old(lastMessageIds) && response.SendFailed? ==>
        sent == (if fallback.Sent? then Some(fallback.messageId) else None)
        && lastMessageIds == if photoExists && fallback.Sent?
                             then old(lastMessageIds)[StringKey(chatId) := fallback.messageId]
                             else old(lastMessageIds)
      ensures StringKey(chatId) in lastMessageIds <==>
        StringKey(chatId) in old(lastMessageIds) || (photoExists && sent.Some?)
    {
      var key := StringKey(chatId);
      if key !in lastMessageIds {
        sent := SendTelegramNotification(chatId, text, photoExists, response);
        return;
      }
      match response {
        case SendFailed =>
          sent := SendTelegramNotification(chatId, text, photoExists, fallback);
        case Sent(id) =>
          if photoExists {
            lastMessageIds := lastMessageIds[key := id];
          }
          sent := Some(id);
      }
    }
  }
}
