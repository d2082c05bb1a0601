/**
 * The Telegram side's service (pkg/tg/tg.go): the delivery retry wrapper,
 * main-group and membership checks, the routing of updates, and the
 * conversion of a Telegram message to the relay's view of it.
 */
module TgService {
  import opened Wrappers
  import opened GoStrings
  import opened GoStrconv
  import opened Records
  import Store

  /** The parts of a Telegram message the relay reads. */
  datatype TgDocument = TgDocument(fileID: string, fileName: string, mimeType: string)
  datatype TgPhotoSize = TgPhotoSize(fileID: string)
  datatype TgAudio = TgAudio(fileID: string, title: string, mimeType: string)
  datatype TgVideo = TgVideo(fileID: string, mimeType: string)

  /**
   * An incoming Telegram message. `command` is the bot command without its
   * slash ("" when the message is not a command) and `arguments` the rest of
   * the text. A location's coordinates are not modelled.
   */
  datatype TgIncoming = TgIncoming(
    messageID: int,
    chatID: int,
    fromID: int,
    fromUserName: string,
    date: int,
    forwardFromMessageID: int,
    text: string,
    command: string,
    arguments: string,
    document: Option<TgDocument>,
    photo: seq<TgPhotoSize>,
    audio: Option<TgAudio>,
    video: Option<TgVideo>,
    hasLocation: bool)

  /**
   * The error a reply reports: a store failure, a failed `strconv.ParseInt`
   * of `input`, or any other error's text.
   */
  datatype Cause = StoreCause(e: Store.StoreError) | ParseCause(input: string, err: NumError) | OtherCause(text: string)

  /**
   * A message the bot sends back to the chat: fixed text, or a text written
   * around an error (`before`, then the error's text).
   */
  datatype Notice = Say(text: string) | Failed(before: string, cause: Cause)

  /** `Message.ToAPIMessage`: chat, sender's user name, id, date, forwarded id. */
  function ToAPIMessage(m: TgIncoming): (r: TGMessage)
    ensures r.chatID == m.chatID && r.userName == m.fromUserName && r.messageID == m.messageID
    ensures r.timestamp == m.date && r.fwdMessageID == m.forwardFromMessageID
  {
    TGMessage(m.chatID, m.fromUserName, m.messageID, m.date, m.forwardFromMessageID)
  }

  // Delivery with retries (`BotSend`).

  /** A failed send: the API's structured error, or any other error text. */
  datatype SendError = ApiError(message: string, retryAfter: int) | OtherError(text: string)

  /** The outcome of one `bot.Send`. */
  datatype Attempt = Delivered(msg: TGMessage) | SendFailed(e: SendError)

  const TooManyRequests := "Too Many Requests"
  const RetryPrefix := "Too Many Requests: retry after "

  /**
   * The seconds to wait before resending, or `None` to give up. A structured
   * error is retried only on its own `RetryAfter`; any other error only when
   * its text, with every retry prefix removed and trimmed, is a number.
   */
  function RetryDelay(e: SendError): (d: Option<int>)
    ensures e.ApiError? ==> (d.Some? <==> Contains(e.message, TooManyRequests) && e.retryAfter != 0)
    ensures e.ApiError? && d.Some? ==> d.value == e.retryAfter
    ensures e.OtherError? && d.Some? ==> (Contains(e.text, RetryPrefix)
      && Atoi(TrimSpace(RemoveAll(e.text, RetryPrefix))) == Parsed(d.value, NoError))
    ensures (e.OtherError? && Contains(e.text, RetryPrefix)
      && Atoi(TrimSpace(RemoveAll(e.text, RetryPrefix))).err == NoError) ==> d.Some?
  {
    match e
    case ApiError(message, retryAfter) =>
      if Contains(message, TooManyRequests) && retryAfter != 0 then Some(retryAfter) else None
    case OtherError(text) =>
      if Contains(text, RetryPrefix) then
        var sec := Atoi(TrimSpace(RemoveAll(text, RetryPrefix)));
        if sec.err == NoError then Some(sec.value) else None
      else None
  }

  /** How a `BotSend` over a finite run of attempts ends. */
  datatype SendOutcome = Sent(msg: TGMessage) | GaveUp(e: SendError) | StillRetrying

  /** The outcome of `BotSend` over `attempts` and the waits it makes, in order. */
  function BotSendSpec(attempts: seq<Attempt>): (r: (SendOutcome, seq<int>))
    ensures |r.1| <= |attempts|
  {
    if attempts == [] then (StillRetrying, [])
    else match attempts[0]
      case Delivered(m) => (Sent(m), [])
      case SendFailed(e) =>
        match RetryDelay(e)
        case None => (GaveUp(e), [])
        case Some(d) =>
          var rest := BotSendSpec(attempts[1..]);
          (rest.0, [d] + rest.1)
  }

  /** The attempts before `k` all failed with an error that asks to retry. */
  ghost predicate RetriedUpTo(attempts: seq<Attempt>, k: nat)
    requires k <= |attempts|
  {
    forall i :: 0 <= i < k ==> attempts[i].SendFailed? && RetryDelay(attempts[i].e).Some?
  }

  /** The waits the first `k` attempts ask for. */
  function Delays(attempts: seq<Attempt>, k: nat): (ds: seq<int>)
    requires k <= |attempts| && RetriedUpTo(attempts, k)
    ensures |ds| == k
    ensures forall i :: 0 <= i < k ==> ds[i] == RetryDelay(attempts[i].e).value
  {
    if k == 0 then [] else Delays(attempts, k - 1) + [RetryDelay(attempts[k - 1].e).value]
  }

  /**
   * `BotSend` is decided by the first attempt that does not ask to retry: a
   * delivery is returned with no error, any other error is returned as the
   * error, and each retry before it waits the delay it asked for.
   */
  lemma {:induction false} BotSendDecidedBy(attempts: seq<Attempt>, k: nat)
    requires k < |attempts| && RetriedUpTo(attempts, k)
    requires !(attempts[k].SendFailed? && RetryDelay(attempts[k].e).Some?)
    ensures BotSendSpec(attempts).1 == Delays(attempts, k)
    ensures attempts[k].Delivered? ==> BotSendSpec(attempts).0 == Sent(attempts[k].msg)
    ensures attempts[k].SendFailed? ==> BotSendSpec(attempts).0 == GaveUp(attempts[k].e)
  {
    if k > 0 {
      var tail := attempts[1..];
      assert RetriedUpTo(tail, k - 1) by {
        forall i | 0 <= i < k - 1
          ensures tail[i].SendFailed? && RetryDelay(tail[i].e).Some?
        {
          assert tail[i] == attempts[i + 1];
        }
      }
      BotSendDecidedBy(tail, k - 1);
      DelaysShift(attempts, k);
    }
  }

  lemma {:induction false} DelaysShift(attempts: seq<Attempt>, k: nat)
    requires 0 < k <= |attempts| && RetriedUpTo(attempts, k)
    ensures RetriedUpTo(attempts[1..], k - 1)
    ensures Delays(attempts, k) == [RetryDelay(attempts[0].e).value] + Delays(attempts[1..], k - 1)
  {
    var tail := attempts[1..];
    assert forall i :: 0 <= i < k - 1 ==> tail[i] == attempts[i + 1];
    var lhs := Delays(attempts, k);
    var rhs := [RetryDelay(attempts[0].e).value] + Delays(tail, k - 1);
    assert |lhs| == |rhs|;
    assert forall i :: 0 <= i < k ==> lhs[i] == rhs[i];
  }

  /** A structured error with `RetryAfter` 0 is never retried, whatever its text. */
  lemma ApiErrorWithoutDelayGivesUp(message: string)
    ensures RetryDelay(ApiError(message, 0)) == None
  {
  }

  /**
   * `BotSend`: resend while the error asks to, waiting as asked, over the
   * given outcomes of successive sends. The waits are returned instead of
   * slept.
   */
  method BotSend(attempts: seq<Attempt>) returns (outcome: SendOutcome, waits: seq<int>)
    ensures (outcome, waits) == BotSendSpec(attempts)
  {
    var i := 0;
    waits := [];
    assert attempts[0..] == attempts;
    assert BotSendSpec(attempts).1 == [] + BotSendSpec(attempts).1;
    while true
      decreases |attempts| - i
      invariant 0 <= i <= |attempts|
      invariant BotSendSpec(attempts).0 == BotSendSpec(attempts[i..]).0
      invariant BotSendSpec(attempts).1 == waits + BotSendSpec(attempts[i..]).1
    {
      if i == |attempts| {
        assert waits + [] == waits;
        return StillRetrying, waits;
      }
      assert attempts[i..][1..] == attempts[i + 1..];
      match attempts[i]
      case Delivered(m) =>
        assert waits + [] == waits;
        return Sent(m), waits;
      case SendFailed(e) =>
        var delay := RetryDelay(e);
        if delay.None? {
          assert waits + [] == waits;
          return GaveUp(e), waits;
        }
        assert (waits + [delay.value]) + BotSendSpec(attempts[i + 1..]).1
          == waits + ([delay.value] + BotSendSpec(attempts[i + 1..]).1);
        waits := waits + [delay.value];
        i := i + 1;
    }
  }

  /** `waSvc.GetInstance(id)`: the WhatsApp instance of a tenant, when it is running. */
  function InstanceOf<V>(instances: map<int, V>, id: int): (r: Option<V>)
    ensures r.Some? <==> id in instances
    ensures r.Some? ==> r.value == instances[id]
  {
    if id in instances then Some(instances[id]) else None
  }

  // Main groups and membership.

  /** `IsMainGroup`: the chat is one of the configured main groups. */
  function IsMainGroup(mainGroups: seq<int>, id: int): (r: bool)
    ensures r <==> id in mainGroups
  {
    if mainGroups == [] then false
    else if mainGroups[0] == id then true
    else IsMainGroup(mainGroups[1..], id)
  }

  datatype MemberStatus = Creator | Administrator | Member | Restricted | Left | Kicked

  /**
   * The answers of `GetChatMember`, by (chat id, user id); a pair without an
   * entry is a failed lookup.
   */
  type Directory = map<(int, int), MemberStatus>

  /** `IsMemberMainGroup`: a failed lookup or any other status is "no". */
  function IsMemberMainGroup(dir: Directory, userID: int, mgID: int): (r: bool)
    ensures r <==> (mgID, userID) in dir && dir[(mgID, userID)] in {Member, Creator, Administrator}
  {
    if (mgID, userID) !in dir then false
    else
      var status := dir[(mgID, userID)];
      status == Member || status == Creator || status == Administrator
  }

  /** `IsAuthorized`: the sender belongs to at least one main group. */
  function IsAuthorized(mainGroups: seq<int>, dir: Directory, userID: int): (r: bool)
    ensures r <==> exists i :: 0 <= i < |mainGroups| && IsMemberMainGroup(dir, userID, mainGroups[i])
  {
    if mainGroups == [] then false
    else if IsMemberMainGroup(dir, userID, mainGroups[0]) then true
    else
      var r := IsAuthorized(mainGroups[1..], dir, userID);
      assert forall i :: 0 < i < |mainGroups| ==> mainGroups[i] == mainGroups[1..][i - 1];
      r
  }

  /** A callback query: its data and the message carrying the buttons. */
  datatype TgCallback = TgCallback(data: string, message: TgIncoming)

  datatype TgUpdate = TgUpdate(callback: Option<TgCallback>, message: Option<TgIncoming>)

  datatype Handler = ToCallbackHandler | ToCommandHandler | ToTextHandler | Dropped

  /**
   * `mainLoop`'s routing of one update. A callback is authorized by the sender
   * of the message that carries it, a message by its own sender.
   */
  function RouteUpdate(mainGroups: seq<int>, dir: Directory, u: TgUpdate): (h: Handler)
    ensures u.callback.Some? ==>
      h == (if IsAuthorized(mainGroups, dir, u.callback.value.message.fromID) then ToCallbackHandler else Dropped)
    ensures u.callback.None? && u.message.None? ==> h == Dropped
    ensures u.callback.None? && u.message.Some? && !IsAuthorized(mainGroups, dir, u.message.value.fromID) ==>
      h == Dropped
    ensures u.callback.None? && u.message.Some? && IsAuthorized(mainGroups, dir, u.message.value.fromID) ==>
      h == (if u.message.value.command != "" then ToCommandHandler else ToTextHandler)
  {
    match u.callback
    case Some(cb) => if IsAuthorized(mainGroups, dir, cb.message.fromID) then ToCallbackHandler else Dropped
    case None =>
      match u.message
      case None => Dropped
      case Some(m) =>
        if !IsAuthorized(mainGroups, dir, m.fromID) then Dropped
        else if m.command != "" then ToCommandHandler
        else ToTextHandler
  }
}
