/**
 * The client of the remote messaging gateway (the Instagram Graph API).
 *
 * Every HTTP call is replaced by its response, given as a parameter. What is
 * left is the one piece of state the service keeps (the memoised identity of
 * the business account) and the data shaping between raw API responses and
 * the values the rest of the backend sees.
 */
module Instagram {
  import opened Wrappers
  import opened Seqs

  /** `IGUser`: the business account itself. */
  datatype IGUser = IGUser(id: string, name: Option<string>, username: Option<string>, profilePictureUrl: Option<string>)

  /** `IGParticipant`: one side of a conversation. */
  datatype IGParticipant = IGParticipant(id: string, username: Option<string>, name: Option<string>, profilePictureUrl: Option<string>)

  /** `IGConversation` as listed by `/me/conversations`; `participants.data` may be missing. */
  datatype IGConversation = IGConversation(id: string, updatedTime: Option<string>, participants: Option<seq<IGParticipant>>)

  /** `ConversationListItem`: a one-on-one conversation with the other side picked out. */
  datatype ConversationListItem = ConversationListItem(
    id: string,
    updatedTime: Option<string>,
    participants: seq<IGParticipant>,
    otherParticipant: Option<IGParticipant>)

  /** The `from` object of a message, and each element of its `to.data`. */
  datatype Sender = Sender(id: string, username: Option<string>, name: Option<string>)

  /** `IGMessage` as returned by `/{conversationId}/messages`. */
  datatype IGMessage = IGMessage(id: string, createdTime: string, from: Sender, to: seq<Sender>, message: Option<string>)

  /** `MessageDetails`: the public shape of a message. */
  datatype MessageDetails = MessageDetails(id: string, createdTime: string, from: Sender, message: Option<string>)

  datatype Cursors = Cursors(before: string, after: string)

  /** The raw `paging` object; `next` and `previous` are URLs that carry the access token. */
  datatype RawPaging = RawPaging(cursors: Option<Cursors>, next: Option<string>, previous: Option<string>)

  /** The body of a `/{conversationId}/messages` response. */
  datatype MessagesResponse = MessagesResponse(data: Option<seq<IGMessage>>, paging: Option<RawPaging>)

  /** `SafePaging`: what callers may see of the paging, by construction free of URLs. */
  datatype SafePaging = SafePaging(hasMore: bool, before: Option<string>, after: Option<string>)

  datatype PaginatedMessages = PaginatedMessages(messages: seq<MessageDetails>, paging: SafePaging)

  /** Which cursor parameter a page request carries. */
  datatype Direction = Before | After

  /** A query-string value: the source builds a `Record<string, string | number>`. */
  datatype ParamValue = Text(text: string) | Number(number: int)

  const MessageFields := "id,created_time,from,to,message"

  function DirectionName(d: Direction): string {
    match d
    case Before => "before"
    case After => "after"
  }

  // ---------------------------------------------------------------------------
  // getConversations: filter to one-on-one chats, pick the other participant.
  // ---------------------------------------------------------------------------

  /** `conv.participants?.data?.length === 2`. */
  predicate IsTwoParty(c: IGConversation)
    ensures IsTwoParty(c) ==> |c.participants.GetOr([])| == 2
    ensures c.participants.None? ==> !IsTwoParty(c)
  {
    c.participants.Some? && |c.participants.value| == 2
  }

  /** `participants.find(p => p.username !== currentUser.username)`. */
  function OtherParticipant(participants: seq<IGParticipant>, myUsername: Option<string>): (r: Option<IGParticipant>)
    ensures r.None? <==> forall i :: 0 <= i < |participants| ==> participants[i].username == myUsername
    ensures r.Some? ==> exists i :: 0 <= i < |participants| && participants[i] == r.value
                          && r.value.username != myUsername
                          && forall j :: 0 <= j < i ==> participants[j].username == myUsername
  {
    match FindFirst(participants, (p: IGParticipant) => p.username != myUsername)
    case None => None
    case Some(i) => Some(participants[i])
  }

  /** The list item built for one conversation that passed the filter. */
  function ToListItem(c: IGConversation, myUsername: Option<string>): ConversationListItem {
    var participants := c.participants.GetOr([]);
    ConversationListItem(c.id, c.updatedTime, participants, OtherParticipant(participants, myUsername))
  }

  /** The body of `getConversations` once the identity and the raw list are known: filter, then map. */
  function ConversationList(raw: seq<IGConversation>, myUsername: Option<string>): (items: seq<ConversationListItem>)
    ensures |items| == |Filter(raw, IsTwoParty)| <= |raw|
  {
    Map(Filter(raw, IsTwoParty), (c: IGConversation) => ToListItem(c, myUsername))
  }

  /**
   * Item `i` of the listing is the `i`-th one-on-one conversation of the
   * response: same id, time and two participants, with the other side picked
   * out by username.
   */
  lemma ConversationListItemAt(raw: seq<IGConversation>, myUsername: Option<string>, i: nat)
    requires i < |ConversationList(raw, myUsername)|
    ensures var c, item := Filter(raw, IsTwoParty)[i], ConversationList(raw, myUsername)[i];
      && IsTwoParty(c)
      && item.id == c.id && item.updatedTime == c.updatedTime
      && item.participants == c.participants.value && |item.participants| == 2
      && item.otherParticipant == OtherParticipant(c.participants.value, myUsername)
  {
    var kept := Filter(raw, IsTwoParty);
    assert kept[i] in kept;
  }

  /** The listing keeps the API's order: listing a concatenation lists each part in turn. */
  lemma ConversationListAppend(a: seq<IGConversation>, b: seq<IGConversation>, myUsername: Option<string>)
    ensures ConversationList(a + b, myUsername) == ConversationList(a, myUsername) + ConversationList(b, myUsername)
  {
    FilterAppend(a, b, IsTwoParty);
    MapAppend(Filter(a, IsTwoParty), Filter(b, IsTwoParty), (c: IGConversation) => ToListItem(c, myUsername));
  }

  /** Every one-on-one conversation of the response reaches the listing, with its id and participants. */
  lemma TwoPartyConversationsListed(raw: seq<IGConversation>, myUsername: Option<string>, c: IGConversation)
    requires c in raw && IsTwoParty(c)
    ensures exists i :: 0 <= i < |ConversationList(raw, myUsername)|
              && ConversationList(raw, myUsername)[i].id == c.id
              && ConversationList(raw, myUsername)[i].participants == c.participants.value
  {
    var kept := Filter(raw, IsTwoParty);
    assert c in kept;
    var i :| 0 <= i < |kept| && kept[i] == c;
    assert ConversationList(raw, myUsername)[i].id == c.id;
  }

  // ---------------------------------------------------------------------------
  // getMessages: request parameters, message mapping, safe paging.
  // ---------------------------------------------------------------------------

  /** The `params` object: `fields` and `limit`, plus the cursor under the direction's name when the cursor is truthy. */
  function MessageParams(cursor: Option<string>, direction: Direction, limit: int): (params: map<string, ParamValue>)
    ensures params.Keys == {"fields", "limit"} + (if Truthy(cursor) then {DirectionName(direction)} else {})
    ensures params["fields"] == Text(MessageFields) && params["limit"] == Number(limit)
    ensures Truthy(cursor) ==> params[DirectionName(direction)] == Text(cursor.value)
  {
    var base := map["fields" := Text(MessageFields), "limit" := Number(limit)];
    if Truthy(cursor) then base[DirectionName(direction) := Text(cursor.value)] else base
  }

  /** The `messageItems.map(...)` projection of one raw message. */
  function ToMessageDetails(m: IGMessage): MessageDetails {
    MessageDetails(m.id, m.createdTime, m.from, m.message)
  }

  /** Every raw message becomes one public message, in the same order, carrying the same id, time, sender and text. */
  function MapMessages(raw: seq<IGMessage>): (r: seq<MessageDetails>)
    ensures |r| == |raw|
    ensures forall i :: 0 <= i < |raw| ==>
      r[i].id == raw[i].id && r[i].createdTime == raw[i].createdTime
      && r[i].from == raw[i].from && r[i].message == raw[i].message
  {
    Map(raw, ToMessageDetails)
  }

  /** The paging callers see: `hasMore` and the two cursors, nothing else. */
  function ToSafePaging(raw: Option<RawPaging>): (p: SafePaging)
    ensures p.hasMore <==> raw.Some? && (Truthy(raw.value.next) || (raw.value.cursors.Some? && raw.value.cursors.value.after != ""))
    ensures p.before == (if raw.Some? && raw.value.cursors.Some? then Some(raw.value.cursors.value.before) else None)
    ensures p.after == (if raw.Some? && raw.value.cursors.Some? then Some(raw.value.cursors.value.after) else None)
  {
    match raw
    case None => SafePaging(false, None, None)
    case Some(rp) =>
      var hasMore := Truthy(rp.next) || (rp.cursors.Some? && rp.cursors.value.after != "");
      match rp.cursors
      case None => SafePaging(hasMore, None, None)
      case Some(c) => SafePaging(hasMore, Some(c.before), Some(c.after))
  }

  /**
   * The token-bearing URLs do not flow into the safe paging: two raw pagings
   * with the same cursors whose `next` agree on presence give the same result,
   * whatever the URLs say.
   */
  lemma SafePagingHidesUrls(cursors: Option<Cursors>, next1: Option<string>, previous1: Option<string>,
                            next2: Option<string>, previous2: Option<string>)
    requires Truthy(next1) == Truthy(next2)
    ensures ToSafePaging(Some(RawPaging(cursors, next1, previous1))) == ToSafePaging(Some(RawPaging(cursors, next2, previous2)))
  {
  }

  /** The result of `getMessages` for a given response body. */
  function MessagesPage(response: MessagesResponse): (page: PaginatedMessages)
    ensures page.messages == MapMessages(response.data.GetOr([]))
    ensures |page.messages| == |response.data.GetOr([])|
    ensures page.paging == ToSafePaging(response.paging)
  {
    PaginatedMessages(MapMessages(response.data.GetOr([])), ToSafePaging(response.paging))
  }

  // ---------------------------------------------------------------------------
  // The service object: the memoised identity.
  // ---------------------------------------------------------------------------

  /**
   * The `InstagramService` singleton. `userInfo` is its only mutable field;
   * `meRequests` counts the `/me` requests it has issued, so that the
   * memoisation can be stated.
   */
  class InstagramService {
    var userInfo: Option<IGUser>
    ghost var meRequests: nat

    constructor ()
      ensures userInfo == None && meRequests == 0
    {
      userInfo := None;
      meRequests := 0;
    }

    /** `getMe`: issues `/me` (answered by `response`) and stores the answer. */
    method GetMe(response: IGUser) returns (user: IGUser)
      modifies this
      ensures user == response && userInfo == Some(response)
      ensures meRequests == old(meRequests) + 1
    {
      userInfo := Some(response);
      meRequests := meRequests + 1;
      user := response;
    }

    /** `ensureUserInfo`: asks `/me` only while no identity is stored, then returns the stored one. */
    method EnsureUserInfo(response: IGUser) returns (user: IGUser)
      modifies this
      ensures userInfo == Some(user)
      ensures old(userInfo).Some? ==> user == old(userInfo).value && meRequests == old(meRequests)
      ensures old(userInfo).None? ==> user == response && meRequests == old(meRequests) + 1
    {
      if userInfo.None? {
        var _ := GetMe(response);
      }
      user := userInfo.value;
    }

    /** `getConversations`: resolves the identity, then lists the one-on-one conversations of `raw`. */
    method GetConversations(meResponse: IGUser, raw: seq<IGConversation>) returns (items: seq<ConversationListItem>)
      modifies this
      ensures userInfo.Some?
      ensures old(userInfo).Some? ==> userInfo == old(userInfo) && meRequests == old(meRequests)
      ensures old(userInfo).None? ==> userInfo == Some(meResponse) && meRequests == old(meRequests) + 1
      ensures items == ConversationList(raw, userInfo.value.username)
    {
      var currentUser := EnsureUserInfo(meResponse);
      items := ConversationList(raw, currentUser.username);
    }
  }
}
