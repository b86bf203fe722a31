/** The `NotificationManager` of core/notifications.py: sends with a bounded
    number of attempts, edits the last message of a chat when its id is known,
    and keeps the chat → message-id registry.

    The Telegram calls it makes are not defined in the repository; here they
    are the functions `send` and `update`, giving the outcome of each
    attempt. */
module NotificationManager {
  import opened Common

  /** The defaults of config/settings.py. */
  const DefaultRetryAttempts: int := 3
  const DefaultRetryDelay: int := 5

  /** What one send attempt does: returns a value, truthy or not, or raises. */
  datatype SendResult = Returned(truthy: bool) | Raised(error: string)

  /** What the edit call does. */
  datatype UpdateResult = Updated(truthy: bool) | UpdateRaised(error: string)

  /** Which way `update_message` went. */
  datatype Route = Resent | Edited

  /** Whether one of the first `n` attempts returns a truthy value. */
  predicate SomeAttemptSucceeds(send: nat -> SendResult, n: int) {
    exists k: nat :: k < n && send(k) == Returned(true)
  }

  class NotificationManager {
    /** `last_message_ids`. */
    var lastMessageIds: map<int, int>
    const retryAttempts: int
    const retryDelay: int

    constructor (retryAttempts: int, retryDelay: int)
      ensures lastMessageIds == map[]
      ensures this.retryAttempts == retryAttempts && this.retryDelay == retryDelay
    {
      this.retryAttempts := retryAttempts;
      this.retryDelay := retryDelay;
      lastMessageIds := map[];
    }

    /** `send_notification`: at most `retry_attempts` attempts, stopping at
        the first truthy result. A falsy result is retried at once; an
        exception is followed by a sleep of `retry_delay` seconds unless it
        came from the last attempt. `sleptAfter` lists the attempts followed
        by a sleep. The registry is not touched. */
    method SendNotification(chatId: int, message: string, send: nat -> SendResult)
      returns (ok: bool, attempts: nat, sleptAfter: seq<nat>)
      ensures ok <==> SomeAttemptSucceeds(send, retryAttempts)
      ensures ok ==> 1 <= attempts <= retryAttempts && send(attempts - 1) == Returned(true)
      ensures forall k: nat :: k < attempts - 1 ==> send(k) != Returned(true)
      ensures !ok ==> attempts == if retryAttempts > 0 then retryAttempts else 0
      ensures forall k: nat :: k in sleptAfter <==> k < attempts && send(k).Raised? && k < retryAttempts - 1
    {
      ok, attempts, sleptAfter := false, 0, [];
      var attempt: nat := 0;
      while attempt < retryAttempts
        invariant retryAttempts > 0 ==> attempt <= retryAttempts
        invariant retryAttempts <= 0 ==> attempt == 0
        invariant attempts == attempt
        invariant forall k: nat :: k < attempt ==> send(k) != Returned(true)
        invariant forall k: nat :: k in sleptAfter <==> k < attempt && send(k).Raised? && k < retryAttempts - 1
        decreases retryAttempts - attempt
      {
        attempts := attempt + 1;
        match send(attempt) {
          case Returned(truthy) =>
            if truthy {
              return true, attempts, sleptAfter;
            }
          case Raised(_) =>
            if attempt < retryAttempts - 1 {
              sleptAfter := sleptAfter + [attempt];
            }
        }
        attempt := attempt + 1;
      }
    }

    /** `update_message`: a chat with no stored id gets a fresh send; otherwise
        the stored message is edited, and the edit's result (or `False` when
        it raises) is the answer. */
    method UpdateMessage(chatId: int, message: string, update: int -> UpdateResult, send: nat -> SendResult)
      returns (ok: bool, route: Route)
      ensures chatId !in lastMessageIds ==> route == Resent && (ok <==> SomeAttemptSucceeds(send, retryAttempts))
      ensures chatId in lastMessageIds ==> route == Edited && (ok <==> update(lastMessageIds[chatId]) == Updated(true))
    {
      if chatId !in lastMessageIds {
        var attempts, sleptAfter;
        ok, attempts, sleptAfter := SendNotification(chatId, message, send);
        return ok, Resent;
      }
      route := Edited;
      match update(lastMessageIds[chatId]) {
        case Updated(truthy) => ok := truthy;
        case UpdateRaised(_) => ok := false;
      }
    }

    /** `_save_message_id`: exactly the entry for `chatId` is set. */
    method SaveMessageId(chatId: int, messageId: int)
      modifies this`lastMessageIds
      ensures lastMessageIds == old(lastMessageIds)[chatId := messageId]
      ensures forall c :: c != chatId ==> (c in lastMessageIds <==> c in old(lastMessageIds))
      ensures forall c :: c != chatId && c in old(lastMessageIds) ==> lastMessageIds[c] == old(lastMessageIds)[c]
    {
      lastMessageIds := lastMessageIds[chatId := messageId];
    }

    /** A send followed by an update of the same chat: since sending never
        stores an id, the update is always a second send, and it succeeds
        exactly when one of its own attempts does. */
    method SendThenUpdate(chatId: int, first: string, second: string, send: nat -> SendResult,
                          update: int -> UpdateResult, resend: nat -> SendResult)
      returns (ok: bool, route: Route)
      requires chatId !in lastMessageIds
      ensures route == Resent
      ensures ok <==> SomeAttemptSucceeds(resend, retryAttempts)
    {
      var sent, attempts, sleptAfter := SendNotification(chatId, first, send);
      ok, route := UpdateMessage(chatId, second, update, resend);
    }
  }
}
