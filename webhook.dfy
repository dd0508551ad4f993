/**
 * The webhook ingestion handler: the verification guard of the GET route, and
 * the POST route that turns a batch of Instagram messaging events into cache
 * writes, backfilling a conversation's recent history from the gateway the
 * first time (or the first time after expiry) a conversation is seen.
 *
 * The gateway is an oracle: its answers are given up front as a `Gateway`
 * value. The store's clock `now`, the record timestamp `ts` (`Date.now()`) and
 * the date parser `parseTime` (`new Date(..).getTime()`) are parameters too.
 */
module Webhook {
  import opened Wrappers
  import opened Seqs
  import opened Cache
  import Instagram

  const SubscribeMode := "subscribe"
  const InstagramObject := "instagram"
  /** The text cached for a backfilled message that has no text of its own. */
  const AttachmentPlaceholder := "[attachment]"

  // ---------------------------------------------------------------------------
  // GET: the verification handshake.
  // ---------------------------------------------------------------------------

  /** An HTTP reply: status code and body. */
  datatype Reply = Reply(status: int, body: string)

  /**
   * `hub.mode`, `hub.verify_token` and `hub.challenge` as query values (absent
   * or a string) against the configured verify token. Only mode `subscribe`
   * with the exact token echoes the challenge; anything else is a bare 403.
   */
  function VerifyWebhook(mode: Option<string>, token: Option<string>, challenge: Option<string>, verifyToken: string): (reply: Reply)
    ensures reply.status == 200 <==> mode == Some(SubscribeMode) && token == Some(verifyToken)
    ensures reply.status == 200 || reply.status == 403
    ensures reply.status == 200 ==> reply.body == challenge.GetOr("")
    ensures reply.status == 403 ==> reply.body == "Forbidden"
  {
    if mode == Some(SubscribeMode) && token == Some(verifyToken) then Reply(200, challenge.GetOr(""))
    else Reply(403, "Forbidden")
  }

  /** A rejected handshake says nothing about the challenge or the token it was sent. */
  lemma RejectionRevealsNothing(mode: Option<string>, token1: Option<string>, token2: Option<string>,
                                challenge1: Option<string>, challenge2: Option<string>, verifyToken: string)
    requires VerifyWebhook(mode, token1, challenge1, verifyToken).status == 403
    requires VerifyWebhook(mode, token2, challenge2, verifyToken).status == 403
    ensures VerifyWebhook(mode, token1, challenge1, verifyToken) == VerifyWebhook(mode, token2, challenge2, verifyToken)
  {
  }

  // ---------------------------------------------------------------------------
  // POST payload.
  // ---------------------------------------------------------------------------

  /** `{ id }` of a sender or recipient. */
  datatype Party = Party(id: string)

  /** `messaging.message`: its text and echo flag may each be missing. */
  datatype MessageBody = MessageBody(text: Option<string>, isEcho: Option<bool>)

  /** One element of `entry.messaging`. */
  datatype MessagingEvent = MessagingEvent(sender: Option<Party>, recipient: Option<Party>, message: Option<MessageBody>)

  /** One element of `payload.entry`: the business account id and its events. */
  datatype PayloadEntry = PayloadEntry(id: string, messaging: Option<seq<MessagingEvent>>)

  datatype Payload = Payload(objectKind: Option<string>, entry: Option<seq<PayloadEntry>>)

  /** `messaging.message?.text`. */
  function MessageText(ev: MessagingEvent): Option<string> {
    if ev.message.Some? then ev.message.value.text else None
  }

  /** `!messageText` fails: the event carries a text, and it is not the empty string. */
  predicate HasText(ev: MessagingEvent)
    ensures HasText(ev) <==> ev.message.Some? && ev.message.value.text.Some? && ev.message.value.text.value != ""
  {
    Truthy(MessageText(ev))
  }

  /** `messaging.message?.is_echo === true`: a missing message or flag is not an echo. */
  predicate IsEcho(ev: MessagingEvent)
    ensures IsEcho(ev) <==> ev.message.Some? && ev.message.value.isEcho.Some? && ev.message.value.isEcho.value
  {
    ev.message.Some? && ev.message.value.isEcho == Some(true)
  }

  /**
   * `isEcho ? messaging.recipient.id : messaging.sender.id`; `None` when the
   * object read is missing, where the source throws a `TypeError`.
   */
  function ClientId(ev: MessagingEvent): (r: Option<string>)
    ensures IsEcho(ev) ==> r == (if ev.recipient.Some? then Some(ev.recipient.value.id) else None)
    ensures !IsEcho(ev) ==> r == (if ev.sender.Some? then Some(ev.sender.value.id) else None)
  {
    var party := if IsEcho(ev) then ev.recipient else ev.sender;
    if party.Some? then Some(party.value.id) else None
  }

  /** An echo is the business's own outbound message; anything else came from the client. */
  function RoleOf(isEcho: bool): (r: Role)
    ensures r == Business <==> isEcho
  {
    if isEcho then Business else User
  }

  // ---------------------------------------------------------------------------
  // Backfill (`populateCacheFromAPI`).
  // ---------------------------------------------------------------------------

  /**
   * What the gateway answers during a backfill: the result of
   * `getConversations` (`None`: the request failed) and, per conversation id,
   * the body of the message page request (absent: the request failed).
   */
  datatype Gateway = Gateway(
    conversations: Option<seq<Instagram.ConversationListItem>>,
    messages: map<string, Instagram.MessagesResponse>)

  /** `conv.participants.some(p => p.id === clientAccountId)`. */
  predicate HasParticipant(c: Instagram.ConversationListItem, clientAccountId: string) {
    exists i :: 0 <= i < |c.participants| && c.participants[i].id == clientAccountId
  }

  /** `conversations.find(...)`: the index of the first conversation that includes the client. */
  function FindConversation(conversations: seq<Instagram.ConversationListItem>, clientAccountId: string): (r: Option<nat>)
    ensures r.Some? ==> r.value < |conversations| && HasParticipant(conversations[r.value], clientAccountId)
    ensures r.Some? ==> forall j :: 0 <= j < r.value ==> !HasParticipant(conversations[j], clientAccountId)
    ensures r.None? <==> forall j :: 0 <= j < |conversations| ==> !HasParticipant(conversations[j], clientAccountId)
  {
    FindFirst(conversations, (c: Instagram.ConversationListItem) => HasParticipant(c, clientAccountId))
  }

  /** One remote message as a cached record. */
  function ToCachedRecord(m: Instagram.MessageDetails, clientAccountId: string, parseTime: string -> int): (r: Record)
    ensures r.r == User <==> m.from.id == clientAccountId
    ensures r.t == if Truthy(m.message) then m.message.value else AttachmentPlaceholder
    ensures r.ts == parseTime(m.createdTime)
  {
    Record(if m.from.id == clientAccountId then User else Business,
           if Truthy(m.message) then m.message.value else AttachmentPlaceholder,
           parseTime(m.createdTime))
  }

  /** `result.messages.map(...).reverse()`: the API's newest-first page as an oldest-first list. */
  function ToCachedRecords(messages: seq<Instagram.MessageDetails>, clientAccountId: string, parseTime: string -> int): (r: seq<Record>)
    ensures |r| == |messages|
    ensures forall i :: 0 <= i < |messages| ==>
      r[i] == ToCachedRecord(messages[|messages| - 1 - i], clientAccountId, parseTime)
  {
    Reverse(Map(messages, (m: Instagram.MessageDetails) => ToCachedRecord(m, clientAccountId, parseTime)))
  }

  /** `conversation.id` of the conversation `find` picks, or `None` when the list failed or none matched. */
  function ConversationId(gw: Gateway, clientAccountId: string): (r: Option<string>)
    ensures r.Some? <==> gw.conversations.Some? && FindConversation(gw.conversations.value, clientAccountId).Some?
    ensures r.Some? ==> r.value == gw.conversations.value[FindConversation(gw.conversations.value, clientAccountId).value].id
  {
    if gw.conversations.None? then None
    else match FindConversation(gw.conversations.value, clientAccountId)
      case None => None
      case Some(i) => Some(gw.conversations.value[i].id)
  }

  /**
   * The records a backfill would write, or `None` when it writes nothing:
   * the conversation list failed, no conversation includes the client, or the
   * message page failed.
   */
  function FetchHistory(gw: Gateway, clientAccountId: string, parseTime: string -> int): (r: Option<seq<Record>>)
    ensures r.Some? <==> (ConversationId(gw, clientAccountId).Some? && ConversationId(gw, clientAccountId).value in gw.messages)
    ensures r.Some? ==>
      var raw := gw.messages[ConversationId(gw, clientAccountId).value].data.GetOr([]);
      |r.value| == |raw|
      && forall k :: 0 <= k < |raw| ==>
           r.value[k] == ToCachedRecord(Instagram.ToMessageDetails(raw[|raw| - 1 - k]), clientAccountId, parseTime)
  {
    match ConversationId(gw, clientAccountId)
    case None => None
    case Some(conversationId) =>
      if conversationId !in gw.messages then None
      else
        var raw := gw.messages[conversationId].data.GetOr([]);
        var page := Instagram.MessagesPage(gw.messages[conversationId]);
        assert page.messages == Instagram.MapMessages(raw);
        Some(ToCachedRecords(page.messages, clientAccountId, parseTime))
  }

  /** The store after `populateCacheFromAPI`. */
  function Backfilled(s: Store, businessAccountId: string, clientAccountId: string, gw: Gateway,
                      now: int, parseTime: string -> int): (r: Store)
    ensures FetchHistory(gw, clientAccountId, parseTime).None? ==> r == s
    ensures FetchHistory(gw, clientAccountId, parseTime).Some? ==>
      Lookup(r, GetKey(businessAccountId, clientAccountId), now) == KeepLast(FetchHistory(gw, clientAccountId, parseTime).value)
    ensures FetchHistory(gw, clientAccountId, parseTime) == Some([]) ==> GetKey(businessAccountId, clientAccountId) !in r
    ensures FetchHistory(gw, clientAccountId, parseTime).Some? && FetchHistory(gw, clientAccountId, parseTime) != Some([]) ==>
      Ttl(r, GetKey(businessAccountId, clientAccountId), now) == CacheTtl
    ensures r - {GetKey(businessAccountId, clientAccountId)} == s - {GetKey(businessAccountId, clientAccountId)}
  {
    match FetchHistory(gw, clientAccountId, parseTime)
    case None => s
    case Some(records) => Replaced(s, GetKey(businessAccountId, clientAccountId), records, now)
  }

  // ---------------------------------------------------------------------------
  // processIncomingMessage.
  // ---------------------------------------------------------------------------

  /** The store after `processIncomingMessage`: backfill on a miss, then append. */
  function Processed(s: Store, businessAccountId: string, clientAccountId: string, text: string, isEcho: bool,
                     gw: Gateway, now: int, ts: int, parseTime: string -> int): (r: Store)
    ensures var l := Lookup(r, GetKey(businessAccountId, clientAccountId), now);
      0 < |l| <= MaxMessages && l[|l| - 1] == Record(RoleOf(isEcho), text, ts)
    ensures r - {GetKey(businessAccountId, clientAccountId)} == s - {GetKey(businessAccountId, clientAccountId)}
    ensures Ttl(r, GetKey(businessAccountId, clientAccountId), now) == CacheTtl
  {
    var key := GetKey(businessAccountId, clientAccountId);
    var s1 := if IsLive(s, key, now) then s else Backfilled(s, businessAccountId, clientAccountId, gw, now, parseTime);
    AppendedLast(s1, key, Record(RoleOf(isEcho), text, ts), now);
    Appended(s1, key, Record(RoleOf(isEcho), text, ts), now)
  }

  /** On a cache hit the gateway is never consulted: the result is the plain append. */
  lemma BackfillOnlyOnMiss(s: Store, businessAccountId: string, clientAccountId: string, text: string, isEcho: bool,
                           gw1: Gateway, gw2: Gateway, now: int, ts: int, parseTime: string -> int)
    requires IsLive(s, GetKey(businessAccountId, clientAccountId), now)
    ensures Processed(s, businessAccountId, clientAccountId, text, isEcho, gw1, now, ts, parseTime)
         == Processed(s, businessAccountId, clientAccountId, text, isEcho, gw2, now, ts, parseTime)
         == Appended(s, GetKey(businessAccountId, clientAccountId), Record(RoleOf(isEcho), text, ts), now)
  {
  }

  /** On a miss with no history to fetch, the conversation starts over with just the new record. */
  lemma MissWithoutHistory(s: Store, businessAccountId: string, clientAccountId: string, text: string, isEcho: bool,
                           gw: Gateway, now: int, ts: int, parseTime: string -> int)
    requires !IsLive(s, GetKey(businessAccountId, clientAccountId), now)
    requires FetchHistory(gw, clientAccountId, parseTime).None?
    ensures Lookup(Processed(s, businessAccountId, clientAccountId, text, isEcho, gw, now, ts, parseTime),
                   GetKey(businessAccountId, clientAccountId), now)
         == [Record(RoleOf(isEcho), text, ts)]
  {
    AppendedLast(s, GetKey(businessAccountId, clientAccountId), Record(RoleOf(isEcho), text, ts), now);
  }

  /**
   * On a miss with history, the conversation holds the fetched history in
   * chronological order followed by the new record, cut to the last
   * `MaxMessages`.
   */
  lemma MissWithHistory(s: Store, businessAccountId: string, clientAccountId: string, text: string, isEcho: bool,
                        gw: Gateway, now: int, ts: int, parseTime: string -> int)
    requires !IsLive(s, GetKey(businessAccountId, clientAccountId), now)
    requires FetchHistory(gw, clientAccountId, parseTime).Some?
    ensures Lookup(Processed(s, businessAccountId, clientAccountId, text, isEcho, gw, now, ts, parseTime),
                   GetKey(businessAccountId, clientAccountId), now)
         == KeepLast(FetchHistory(gw, clientAccountId, parseTime).value + [Record(RoleOf(isEcho), text, ts)])
  {
    var key := GetKey(businessAccountId, clientAccountId);
    var history := FetchHistory(gw, clientAccountId, parseTime).value;
    var m := Record(RoleOf(isEcho), text, ts);
    var s1 := Backfilled(s, businessAccountId, clientAccountId, gw, now, parseTime);
    assert Lookup(s1, key, now) == KeepLast(history);
    KeepLastAppend(history, [m]);
  }

  /**
   * A client that no listed conversation includes gets no backfill at all,
   * and the new record is still appended, to whatever the store held.
   */
  lemma UnknownClientStillAppends(s: Store, businessAccountId: string, clientAccountId: string, text: string, isEcho: bool,
                                  gw: Gateway, now: int, ts: int, parseTime: string -> int)
    requires gw.conversations.Some?
    requires forall j :: 0 <= j < |gw.conversations.value| ==> !HasParticipant(gw.conversations.value[j], clientAccountId)
    ensures Backfilled(s, businessAccountId, clientAccountId, gw, now, parseTime) == s
    ensures Processed(s, businessAccountId, clientAccountId, text, isEcho, gw, now, ts, parseTime)
         == Appended(s, GetKey(businessAccountId, clientAccountId), Record(RoleOf(isEcho), text, ts), now)
  {
  }

  // ---------------------------------------------------------------------------
  // The POST event loop.
  // ---------------------------------------------------------------------------

  /** Where a batch stands: still going, or abandoned by a thrown error (writes made so far stay). */
  datatype Progress = Running(store: Store) | Stopped(store: Store)

  /** An event whose handling throws: it has text, but the party the client id is read from is missing. */
  predicate Throws(ev: MessagingEvent) {
    HasText(ev) && ClientId(ev).None?
  }

  /** One iteration of the inner loop. */
  function HandleEvent(s: Store, businessAccountId: string, ev: MessagingEvent, gw: Gateway,
                       now: int, ts: int, parseTime: string -> int): (p: Progress)
    ensures !HasText(ev) ==> p == Running(s)
    ensures p.Stopped? <==> Throws(ev)
    ensures p.Stopped? ==> p.store == s
    ensures p.Running? && HasText(ev) ==>
      ClientId(ev).Some?
      && var l := Lookup(p.store, GetKey(businessAccountId, ClientId(ev).value), now);
      0 < |l| && l[|l| - 1] == Record(RoleOf(IsEcho(ev)), MessageText(ev).value, ts)
  {
    if !HasText(ev) then Running(s)
    else match ClientId(ev)
      case None => Stopped(s)
      case Some(clientAccountId) =>
        Running(Processed(s, businessAccountId, clientAccountId, MessageText(ev).value, IsEcho(ev), gw, now, ts, parseTime))
  }

  /** The inner loop over one entry's events, stopping at the first thrown error. */
  function RunEvents(s: Store, businessAccountId: string, events: seq<MessagingEvent>, gw: Gateway,
                     now: int, ts: int, parseTime: string -> int): (p: Progress)
    ensures p.Stopped? <==> exists j :: 0 <= j < |events| && Throws(events[j])
    decreases |events|
  {
    if events == [] then Running(s)
    else match HandleEvent(s, businessAccountId, events[0], gw, now, ts, parseTime)
      case Stopped(s1) => Stopped(s1)
      case Running(s1) =>
        assert forall j :: 1 <= j < |events| ==> events[j] == events[1..][j - 1];
        RunEvents(s1, businessAccountId, events[1..], gw, now, ts, parseTime)
  }

  /** `entry.messaging || []`. */
  function EventsOf(entry: PayloadEntry): seq<MessagingEvent> {
    entry.messaging.GetOr([])
  }

  /** The outer loop over the entries. */
  function RunEntries(s: Store, entries: seq<PayloadEntry>, gw: Gateway, now: int, ts: int, parseTime: string -> int): (p: Progress)
    ensures p.Stopped? <==> exists i, j :: 0 <= i < |entries| && 0 <= j < |EventsOf(entries[i])| && Throws(EventsOf(entries[i])[j])
    decreases |entries|
  {
    if entries == [] then Running(s)
    else match RunEvents(s, entries[0].id, EventsOf(entries[0]), gw, now, ts, parseTime)
      case Stopped(s1) => Stopped(s1)
      case Running(s1) =>
        assert forall i :: 1 <= i < |entries| ==> entries[i] == entries[1..][i - 1];
        RunEntries(s1, entries[1..], gw, now, ts, parseTime)
  }

  /** Finish the current entry's result, then the remaining entries unless the batch has stopped. */
  function ThenEntries(p: Progress, rest: seq<PayloadEntry>, gw: Gateway, now: int, ts: int, parseTime: string -> int): Progress {
    match p
    case Stopped(_) => p
    case Running(s) => RunEntries(s, rest, gw, now, ts, parseTime)
  }

  /** The whole processing of one POST body. */
  function HandlePayload(s: Store, payload: Payload, gw: Gateway, now: int, ts: int, parseTime: string -> int): (p: Progress)
    ensures payload.objectKind != Some(InstagramObject) ==> p == Running(s)
    ensures payload.entry.None? ==> p.store == s
  {
    if payload.objectKind != Some(InstagramObject) then Running(s)
    else if payload.entry.None? then Stopped(s)
    else RunEntries(s, payload.entry.value, gw, now, ts, parseTime)
  }

  /** One turn of the inner loop, read off the events still to do. */
  lemma RunEventsStep(s: Store, businessAccountId: string, events: seq<MessagingEvent>, j: nat, gw: Gateway,
                      now: int, ts: int, parseTime: string -> int)
    requires j < |events|
    ensures RunEvents(s, businessAccountId, events[j..], gw, now, ts, parseTime)
         == match HandleEvent(s, businessAccountId, events[j], gw, now, ts, parseTime)
            case Stopped(s1) => Stopped(s1)
            case Running(s1) => RunEvents(s1, businessAccountId, events[j + 1..], gw, now, ts, parseTime)
  {
    assert events[j..][0] == events[j] && events[j..][1..] == events[j + 1..];
  }

  /** One turn of the outer loop: the entry's events, then the entries after it. */
  lemma RunEntriesStep(s: Store, entries: seq<PayloadEntry>, i: nat, gw: Gateway, now: int, ts: int, parseTime: string -> int)
    requires i < |entries|
    ensures RunEntries(s, entries[i..], gw, now, ts, parseTime)
         == ThenEntries(RunEvents(s, entries[i].id, EventsOf(entries[i])[0..], gw, now, ts, parseTime),
                        entries[i + 1..], gw, now, ts, parseTime)
  {
    assert entries[i..][0] == entries[i] && entries[i..][1..] == entries[i + 1..];
    assert EventsOf(entries[i])[0..] == EventsOf(entries[i]);
  }

  /** Events without text are invisible to the batch: dropping them changes nothing. */
  lemma {:induction false} TextlessEventsSkipped(s: Store, businessAccountId: string, events: seq<MessagingEvent>, gw: Gateway,
                                                 now: int, ts: int, parseTime: string -> int)
    ensures RunEvents(s, businessAccountId, events, gw, now, ts, parseTime)
         == RunEvents(s, businessAccountId, Filter(events, HasText), gw, now, ts, parseTime)
    decreases |events|
  {
    if events != [] {
      var rest := Filter(events[1..], HasText);
      var kept := Filter(events, HasText);
      if !HasText(events[0]) {
        assert kept == rest;
        TextlessEventsSkipped(s, businessAccountId, events[1..], gw, now, ts, parseTime);
      } else {
        assert kept == [events[0]] + rest;
        assert kept[0] == events[0] && kept[1..] == rest;
        match HandleEvent(s, businessAccountId, events[0], gw, now, ts, parseTime)
        case Stopped(_) =>
        case Running(s1) =>
          TextlessEventsSkipped(s1, businessAccountId, events[1..], gw, now, ts, parseTime);
      }
    }
  }

  /** A batch of events none of which has text leaves the store as it was. */
  lemma TextlessBatchUnchanged(s: Store, businessAccountId: string, events: seq<MessagingEvent>, gw: Gateway,
                               now: int, ts: int, parseTime: string -> int)
    requires forall j :: 0 <= j < |events| ==> !HasText(events[j])
    ensures RunEvents(s, businessAccountId, events, gw, now, ts, parseTime) == Running(s)
  {
    TextlessEventsSkipped(s, businessAccountId, events, gw, now, ts, parseTime);
    assert Filter(events, HasText) == [];
  }

  // ---------------------------------------------------------------------------
  // The handlers as steps on the cache service.
  // ---------------------------------------------------------------------------

  /** `populateCacheFromAPI`: every failure is caught and leaves the cache alone. */
  method PopulateCacheFromApi(cache: CacheService, businessAccountId: string, clientAccountId: string, gw: Gateway,
                              now: int, parseTime: string -> int)
    requires cache.Valid()
    modifies cache
    ensures cache.Valid()
    ensures cache.store == Backfilled(old(cache.store), businessAccountId, clientAccountId, gw, now, parseTime)
  {
    if gw.conversations.None? {
      return;
    }
    var conversations := gw.conversations.value;
    var conversation := FindConversation(conversations, clientAccountId);
    if conversation.None? {
      return;
    }
    var conversationId := conversations[conversation.value].id;
    if conversationId !in gw.messages {
      return;
    }
    var result := Instagram.MessagesPage(gw.messages[conversationId]);
    var cachedMessages := ToCachedRecords(result.messages, clientAccountId, parseTime);
    cache.SetMessages(businessAccountId, clientAccountId, cachedMessages, now);
  }

  /** `processIncomingMessage`: returns the context read back after the append. */
  method ProcessIncomingMessage(cache: CacheService, businessAccountId: string, clientAccountId: string, messageText: string,
                                isEcho: bool, gw: Gateway, now: int, ts: int, parseTime: string -> int)
    returns (context: seq<Record>)
    requires cache.Valid()
    modifies cache
    ensures cache.Valid()
    ensures cache.store == Processed(old(cache.store), businessAccountId, clientAccountId, messageText, isEcho, gw, now, ts, parseTime)
    ensures context == Lookup(cache.store, GetKey(businessAccountId, clientAccountId), now)
  {
    var hasCache := cache.HasConversation(businessAccountId, clientAccountId, now);
    if !hasCache {
      PopulateCacheFromApi(cache, businessAccountId, clientAccountId, gw, now, parseTime);
    }
    if isEcho {
      cache.AddBusinessMessage(businessAccountId, clientAccountId, messageText, now, ts);
    } else {
      cache.AddUserMessage(businessAccountId, clientAccountId, messageText, now, ts);
    }
    context := cache.GetMessages(businessAccountId, clientAccountId, now);
  }

  /**
   * The POST route: acknowledges with 200 whatever happens, then walks
   * `entry[]` and `messaging[]`. A thrown error ends the walk.
   */
  method HandlePost(cache: CacheService, payload: Payload, gw: Gateway, now: int, ts: int, parseTime: string -> int)
    returns (status: int)
    requires cache.Valid()
    modifies cache
    ensures cache.Valid()
    ensures status == 200
    ensures cache.store == HandlePayload(old(cache.store), payload, gw, now, ts, parseTime).store
  {
    status := 200;
    if payload.objectKind != Some(InstagramObject) {
      return;
    }
    if payload.entry.None? {
      return;
    }
    var entries := payload.entry.value;
    ghost var target := HandlePayload(cache.store, payload, gw, now, ts, parseTime);
    var i := 0;
    while i < |entries|
      invariant 0 <= i <= |entries|
      invariant cache.Valid()
      invariant target == RunEntries(cache.store, entries[i..], gw, now, ts, parseTime)
    {
      RunEntriesStep(cache.store, entries, i, gw, now, ts, parseTime);
      var businessAccountId := entries[i].id;
      var events := EventsOf(entries[i]);
      var j := 0;
      while j < |events|
        invariant 0 <= j <= |events|
        invariant cache.Valid()
        invariant target == ThenEntries(RunEvents(cache.store, businessAccountId, events[j..], gw, now, ts, parseTime),
                                         entries[i + 1..], gw, now, ts, parseTime)
      {
        RunEventsStep(cache.store, businessAccountId, events, j, gw, now, ts, parseTime);
        var messaging := events[j];
        var messageText := MessageText(messaging);
        var isEcho := IsEcho(messaging);
        if !Truthy(messageText) {
          j := j + 1;
          continue;
        }
        var clientAccountId := ClientId(messaging);
        if clientAccountId.None? {
          return;
        }
        var _ := ProcessIncomingMessage(cache, businessAccountId, clientAccountId.value, messageText.value, isEcho,
                                        gw, now, ts, parseTime);
        j := j + 1;
      }
      assert events[j..] == [];
      i := i + 1;
    }
    assert entries[i..] == [];
  }
}
