/**
 * The messaging page: the signed-in user's conversations newest first, the
 * active conversation (chosen by the route, by a "contact" hand-over, or the
 * newest one), its messages oldest first, and sending a message, which
 * appends to the message table and either starts a stored conversation or
 * touches an existing one.
 */
module MessagingPage {
  import opened Wrappers
  import opened Types
  import opened Text
  import opened Lists
  import opened Sorting
  import opened MockData
  import opened UserService

  const UNKNOWN_USER := "Unknown User"
  const NEW_PREFIX := "new-"

  /** What a "contact the farmer" link hands over to the page. */
  datatype NavState = NavState(
    recipientId: Option<string>,
    recipientName: Option<string>,
    produceId: Option<string>,
    produceName: Option<string>)

  function Involves(userId: string): Conversation -> bool {
    (c: Conversation) => userId in c.participantIds
  }

  function UpdatedAt(c: Conversation): int { c.updatedAt }

  function Timestamp(m: Message): int { m.timestamp }

  /** The user's conversations, most recently updated first. */
  function UserConversations(conversations: seq<Conversation>, userId: string): (r: seq<Conversation>)
    ensures forall c :: c in r ==> c in conversations && userId in c.participantIds
    ensures forall c :: c in conversations && userId in c.participantIds ==> c in r
    ensures SortedDesc(r, UpdatedAt)
    ensures multiset(r) == multiset(Filter(conversations, Involves(userId)))
  {
    var mine := Filter(conversations, Involves(userId));
    var r := SortDesc(mine, UpdatedAt);
    SameElements(r, mine);
    r
  }

  function InConversation(id: string): Message -> bool {
    (m: Message) => m.conversationId == id
  }

  /** The messages of one conversation, oldest first. */
  function ConversationMessages(messages: seq<Message>, id: string): (r: seq<Message>)
    ensures forall m :: m in r ==> m in messages && m.conversationId == id
    ensures forall m :: m in messages && m.conversationId == id ==> m in r
    ensures forall i, j :: 0 <= i < j < |r| ==> r[i].timestamp <= r[j].timestamp
    ensures multiset(r) == multiset(Filter(messages, InConversation(id)))
  {
    var mine := Filter(messages, InConversation(id));
    var r := SortAsc(mine, Timestamp);
    r
  }

  /** A temporary conversation that only lives on the page until its first message. */
  predicate IsTemporary(c: Conversation) {
    StartsWith(c.id, NEW_PREFIX)
  }

  /** The name shown for a new contact: the handed-over name, the stored user's name, or "Unknown User". */
  function RecipientName(nav: NavState, recipient: Option<User>): (r: string)
    ensures r != ""
    ensures Truthy(nav.recipientName) ==> r == nav.recipientName.value
  {
    if Truthy(nav.recipientName) then nav.recipientName.value
    else if recipient.Some? && recipient.value.name != "" then recipient.value.name
    else UNKNOWN_USER
  }

  /** The conversation object prepared for a contact that has none yet. */
  function TemporaryConversation(me: User, rid: string, nav: NavState, recipient: Option<User>, stamp: nat, now: int): (c: Conversation)
    ensures IsTemporary(c) && c.participantIds == [me.id, rid]
    ensures rid in c.participantNames && c.participantNames[rid] == RecipientName(nav, recipient)
    ensures me.id in c.participantNames
    ensures c.lastMessage.None? && c.produceId == nav.produceId && c.produceName == nav.produceName
  {
    var c := Conversation(NEW_PREFIX + NatToString(stamp), [me.id, rid],
      map[me.id := me.name][rid := RecipientName(nav, recipient)],
      None, nav.produceId, nav.produceName, None, now);
    assert c.id[..|NEW_PREFIX|] == NEW_PREFIX;
    c
  }

  /** The recipient takes part, and it is about the named listing when one is named. */
  function WithRecipient(rid: string, produceId: Option<string>): Conversation -> bool {
    (c: Conversation) => rid in c.participantIds && (!Truthy(produceId) || c.produceId == produceId)
  }

  /** The first conversation with the recipient (about the same listing, when one is named). */
  function ExistingWith(convos: seq<Conversation>, rid: string, produceId: Option<string>): (r: Option<Conversation>)
    ensures r.Some? ==> var k := FirstIndex(convos, WithRecipient(rid, produceId)); 0 <= k && r.value == convos[k]
    ensures r.Some? ==> r.value in convos && rid in r.value.participantIds
    ensures r.Some? && Truthy(produceId) ==> r.value.produceId == produceId
    ensures r.None? ==> forall c :: c in convos && rid in c.participantIds ==>
      Truthy(produceId) && c.produceId != produceId
  {
    Find(convos, WithRecipient(rid, produceId))
  }

  function NotMe(meId: string): string -> bool {
    (id: string) => id != meId
  }

  /** The first participant who is not `me`, if any. */
  function OtherParticipant(c: Conversation, meId: string): (r: Option<string>)
    ensures r.Some? ==> r.value in c.participantIds && r.value != meId
    ensures r.Some? ==> var k := FirstIndex(c.participantIds, NotMe(meId)); 0 <= k && r.value == c.participantIds[k]
    ensures r.None? ==> forall id :: id in c.participantIds ==> id == meId
  {
    Find(c.participantIds, NotMe(meId))
  }

  /**
   * The other participant's display name; `fallback` when there is no other
   * participant or their id is empty (falsy), and nothing when the name is missing.
   */
  function OtherName(c: Conversation, meId: string, fallback: string): Option<string> {
    match OtherParticipant(c, meId)
    case None => Some(fallback)
    case Some(id) =>
      if id == "" then Some(fallback)
      else if id in c.participantNames then Some(c.participantNames[id]) else None
  }

  /**
   * A contact page prepared for someone else shows that person under the chosen
   * name; an empty recipient id is falsy, so the fallback is shown instead.
   */
  lemma TemporaryConversationShowsRecipient(me: User, rid: string, nav: NavState, recipient: Option<User>, stamp: nat, now: int)
    requires rid != me.id
    ensures var c := TemporaryConversation(me, rid, nav, recipient, stamp, now);
      OtherParticipant(c, me.id) == Some(rid)
    ensures var c := TemporaryConversation(me, rid, nav, recipient, stamp, now);
      rid != "" ==> OtherName(c, me.id, UNKNOWN_USER) == Some(RecipientName(nav, recipient))
    ensures var c := TemporaryConversation(me, rid, nav, recipient, stamp, now);
      rid == "" ==> OtherName(c, me.id, UNKNOWN_USER) == Some(UNKNOWN_USER)
  {
    var c := TemporaryConversation(me, rid, nav, recipient, stamp, now);
    assert c.participantIds[0] == me.id && c.participantIds[1] == rid;
    assert c.participantIds[1..] == [rid];
  }

  /** The conversation after a message is sent in it. */
  function Touch(c: Conversation, m: Message): Conversation {
    c.(lastMessage := Some(m), updatedAt := m.timestamp)
  }

  /** `convos.map(c => c.id === id ? touched : c)`. */
  function TouchById(convos: seq<Conversation>, id: string, m: Message): (r: seq<Conversation>)
    ensures |r| == |convos|
    ensures forall i :: 0 <= i < |r| ==> r[i] == if convos[i].id == id then Touch(convos[i], m) else convos[i]
  {
    if convos == [] then []
    else [if convos[0].id == id then Touch(convos[0], m) else convos[0]] + TouchById(convos[1..], id, m)
  }

  function ConversationIndex(convos: seq<Conversation>, id: string): (k: int)
    ensures -1 <= k < |convos|
    ensures k >= 0 ==> convos[k].id == id && forall i :: 0 <= i < k ==> convos[i].id != id
    ensures k == -1 ==> forall c :: c in convos ==> c.id != id
  {
    FirstIndex(convos, (c: Conversation) => c.id == id)
  }

  class MessagingView {
    const me: Option<User>
    var conversations: seq<Conversation>
    var active: Option<Conversation>
    var messages: seq<Message>
    var draft: string
    var loading: bool
    var url: Option<string>

    /** Every conversation listed involves the signed-in user. */
    ghost predicate ListedAreMine()
      reads this
    {
      me.Some? ==> forall c :: c in conversations ==> me.value.id in c.participantIds
    }

    constructor (me: Option<User>)
      ensures this.me == me && conversations == [] && active.None? && messages == []
      ensures draft == "" && loading && url.None?
      ensures ListedAreMine()
    {
      this.me := me;
      conversations := [];
      active := None;
      messages := [];
      draft := "";
      loading := true;
      url := None;
    }

    /**
     * The set-up effect. `routeId` is the conversation in the address, `nav`
     * the hand-over from a contact link, `stamp` and `now` the clock.
     */
    method Init(db: Db, routeId: Option<string>, nav: Option<NavState>, stamp: nat, now: int)
      modifies this`conversations, this`active, this`messages, this`loading, this`url
      ensures me.None? ==> conversations == old(conversations) && active == old(active) && loading == old(loading)
      ensures me.None? ==> messages == old(messages) && url == old(url)
      ensures me.Some? ==> conversations == UserConversations(db.conversations, me.value.id) && !loading
      ensures me.Some? && Truthy(routeId) ==>
        && active == Find(conversations, (c: Conversation) => c.id == routeId.value)
        && messages == old(messages) && url == old(url)
      ensures me.Some? && !Truthy(routeId) && nav.Some? && Truthy(nav.value.recipientId) ==>
        var existing := ExistingWith(conversations, nav.value.recipientId.value, nav.value.produceId);
        && (existing.Some? ==>
              active == existing && url == Some(MESSAGES + "/" + existing.value.id) && messages == old(messages))
        && (existing.None? ==>
              && messages == [] && url == old(url)
              && active == Some(TemporaryConversation(me.value, nav.value.recipientId.value, nav.value,
                   UserById(db.users, nav.value.recipientId.value), stamp, now)))
      ensures me.Some? && !Truthy(routeId) && !(nav.Some? && Truthy(nav.value.recipientId)) ==>
        && (conversations != [] ==> active == Some(conversations[0]) && url == Some(MESSAGES + "/" + conversations[0].id))
        && (conversations == [] ==> active == old(active) && url == old(url))
        && messages == old(messages)
      ensures ListedAreMine()
    {
      if me.None? {
        return;
      }
      LoadConversations(db);
      OpenInitial(db, routeId, nav, stamp, now);
    }

    /** The user's conversations, newest first. */
    method LoadConversations(db: Db)
      requires me.Some?
      modifies this`conversations, this`loading
      ensures conversations == UserConversations(db.conversations, me.value.id) && !loading
      ensures ListedAreMine()
    {
      loading := true;
      conversations := UserConversations(db.conversations, me.value.id);
      loading := false;
    }

    /**
     * The conversation opened once the list is loaded: the one in the address,
     * else the one the contact link asks for (an existing one with that person,
     * or a temporary one), else the newest.
     */
    method OpenInitial(db: Db, routeId: Option<string>, nav: Option<NavState>, stamp: nat, now: int)
      requires me.Some?
      modifies this`active, this`messages, this`url
      ensures Truthy(routeId) ==>
        && active == Find(conversations, (c: Conversation) => c.id == routeId.value)
        && messages == old(messages) && url == old(url)
      ensures !Truthy(routeId) && nav.Some? && Truthy(nav.value.recipientId) ==>
        var existing := ExistingWith(conversations, nav.value.recipientId.value, nav.value.produceId);
        && (existing.Some? ==>
              active == existing && url == Some(MESSAGES + "/" + existing.value.id) && messages == old(messages))
        && (existing.None? ==>
              && messages == [] && url == old(url)
              && active == Some(TemporaryConversation(me.value, nav.value.recipientId.value, nav.value,
                   UserById(db.users, nav.value.recipientId.value), stamp, now)))
      ensures !Truthy(routeId) && !(nav.Some? && Truthy(nav.value.recipientId)) ==>
        && (conversations != [] ==> active == Some(conversations[0]) && url == Some(MESSAGES + "/" + conversations[0].id))
        && (conversations == [] ==> active == old(active) && url == old(url))
        && messages == old(messages)
    {
      if Truthy(routeId) {
        active := Find(conversations, (c: Conversation) => c.id == routeId.value);
      } else if nav.Some? && Truthy(nav.value.recipientId) {
        var rid := nav.value.recipientId.value;
        var existing := ExistingWith(conversations, rid, nav.value.produceId);
        if existing.Some? {
          active := existing;
          url := Some(MESSAGES + "/" + existing.value.id);
        } else {
          active := Some(TemporaryConversation(me.value, rid, nav.value, UserById(db.users, rid), stamp, now));
          messages := [];
        }
      } else if |conversations| > 0 {
        active := Some(conversations[0]);
        url := Some(MESSAGES + "/" + conversations[0].id);
      }
    }

    /** The message effect: a stored conversation's messages, oldest first; none for a temporary one. */
    method LoadMessages(db: Db)
      modifies this`messages
      ensures active.Some? && !IsTemporary(active.value) ==> messages == ConversationMessages(db.messages, active.value.id)
      ensures active.Some? && IsTemporary(active.value) ==> messages == []
      ensures active.None? ==> messages == old(messages)
    {
      if active.Some? {
        if IsTemporary(active.value) {
          messages := [];
        } else {
          messages := ConversationMessages(db.messages, active.value.id);
        }
      }
    }

    /** `handleSelectConversation`. */
    method SelectConversation(c: Conversation)
      modifies this`active, this`url
      ensures active == Some(c) && url == Some(MESSAGES + "/" + c.id)
    {
      active := Some(c);
      url := Some(MESSAGES + "/" + c.id);
    }

    /**
     * `handleSendMessage` at millisecond `now`: the trimmed draft goes to the
     * other participant; see `ListAfterSend` and `TableAfterSend` for the two
     * kinds of conversation, and `SendKeepsLinked` and `SendKeepsListMine` for
     * the invariants they keep.
     */
    method SendMessage(db: Db, now: nat)
      modifies this, db`conversations, db`messages
      ensures !CanSend(me, old(active), old(draft)) ==>
        && db.conversations == old(db.conversations) && db.messages == old(db.messages)
        && messages == old(messages) && active == old(active) && conversations == old(conversations)
        && draft == old(draft) && url == old(url)
      ensures CanSend(me, old(active), old(draft)) ==>
        var convo := old(active).value;
        var m := Sent(me, old(active), old(draft), now);
        && db.messages == old(db.messages) + [m]
        && db.conversations == TableAfterSend(old(db.conversations), convo, m)
        && messages == old(messages) + [m]
        && active == Some(Stored(convo, m))
        && conversations == ListAfterSend(old(conversations), convo, m)
        && draft == ""
        && url == (if IsTemporary(convo) then Some(MESSAGES + "/" + m.conversationId) else old(url))
      ensures loading == old(loading)
    {
      if CanSend(me, active, draft) {
        Deliver(db, now);
      }
    }

    /** The sending branch of `handleSendMessage`, once the page can send. */
    method Deliver(db: Db, now: nat)
      requires CanSend(me, active, draft)
      modifies this`conversations, this`active, this`messages, this`url, this`draft, db`conversations, db`messages
      ensures var convo := old(active).value;
        var m := Sent(me, old(active), old(draft), now);
        && db.messages == old(db.messages) + [m]
        && db.conversations == TableAfterSend(old(db.conversations), convo, m)
        && messages == old(messages) + [m]
        && active == Some(Stored(convo, m))
        && conversations == ListAfterSend(old(conversations), convo, m)
        && draft == ""
        && url == (if IsTemporary(convo) then Some(MESSAGES + "/" + m.conversationId) else old(url))
    {
      var convo := active.value;
      var m := Sent(me, active, draft, now);
      var list := ListAfterSend(conversations, convo, m);
      var table := TableAfterSend(db.conversations, convo, m);
      var address := if IsTemporary(convo) then Some(MESSAGES + "/" + m.conversationId) else url;
      conversations, active, messages, url, draft := list, Some(Stored(convo, m)), messages + [m], address, "";
      db.conversations, db.messages := table, db.messages + [m];
    }
  }

  /**
   * The page can send: someone is signed in, a conversation is open with
   * someone else whose id is not empty (falsy), and the draft is not blank.
   */
  predicate CanSend(me: Option<User>, active: Option<Conversation>, draft: string) {
    && me.Some? && active.Some? && Trim(draft) != ""
    && OtherParticipant(active.value, me.value.id).Some? && OtherParticipant(active.value, me.value.id).value != ""
  }

  /** The conversation id a message gets: a fresh `convo-` id for a temporary conversation. */
  function OutgoingConversationId(convo: Conversation, now: nat): string {
    if IsTemporary(convo) then "convo-" + NatToString(now) else convo.id
  }

  /** The message the page sends. */
  function Outgoing(me: User, convo: Conversation, rid: string, text: string, now: nat): (m: Message)
    ensures m.conversationId == OutgoingConversationId(convo, now)
    ensures m.senderId == me.id && m.receiverId == rid && m.text == text && m.timestamp == now && !m.read
  {
    Message("msg-" + NatToString(now), OutgoingConversationId(convo, now), me.id, rid, text, now, false)
  }

  /** The conversation as it stands after `m` was sent in it. */
  function Stored(convo: Conversation, m: Message): (c: Conversation)
    ensures c.id == m.conversationId && c.lastMessage == Some(m) && c.updatedAt == m.timestamp
    ensures c.participantIds == convo.participantIds && c.participantNames == convo.participantNames
  {
    Touch(convo, m).(id := m.conversationId)
  }

  function NotConversation(id: string): Conversation -> bool {
    (c: Conversation) => c.id != id
  }

  /**
   * The page's list after a send: a first message puts the stored conversation
   * in front of the others; a reply touches the conversation and re-sorts.
   */
  function ListAfterSend(convos: seq<Conversation>, convo: Conversation, m: Message): seq<Conversation> {
    if IsTemporary(convo) then [Stored(convo, m)] + Filter(convos, NotConversation(convo.id))
    else SortDesc(TouchById(convos, convo.id, m), UpdatedAt)
  }

  /**
   * The conversation table after a send: a first message stores the new
   * conversation at the front; a reply touches the stored conversation with
   * that id, if there is one.
   */
  function TableAfterSend(table: seq<Conversation>, convo: Conversation, m: Message): seq<Conversation> {
    if IsTemporary(convo) then [Stored(convo, m)] + table
    else
      var k := ConversationIndex(table, convo.id);
      if k >= 0 then table[k := Touch(table[k], m)] else table
  }

  /** The message the page sends from `me` in `active` with the given draft. */
  function Sent(me: Option<User>, active: Option<Conversation>, draft: string, now: nat): Message
    requires CanSend(me, active, draft)
  {
    Outgoing(me.value, active.value, OtherParticipant(active.value, me.value.id).value, Trim(draft), now)
  }

  /** Every message the page sends involves both participants and the trimmed draft. */
  lemma OutgoingIsBetweenParticipants(me: User, convo: Conversation, draft: string, now: nat)
    requires CanSend(Some(me), Some(convo), draft)
    ensures var rid := OtherParticipant(convo, me.id).value;
      var m := Outgoing(me, convo, rid, Trim(draft), now);
      && m.senderId == me.id && m.receiverId in convo.participantIds && m.receiverId != me.id
      && m.receiverId != "" && m.text != "" && m.text == Trim(draft)
  {
  }

  /**
   * The table invariant survives a send: the new message is stored, and the
   * only conversation whose last message changes is the one it belongs to.
   */
  lemma SendKeepsLinked(table: seq<Conversation>, msgs: seq<Message>, convo: Conversation, m: Message)
    requires !IsTemporary(convo) ==> m.conversationId == convo.id
    requires Linked(table, msgs)
    ensures Linked(TableAfterSend(table, convo, m), msgs + [m])
  {
    var after := TableAfterSend(table, convo, m);
    forall c | c in after && c.lastMessage.Some?
      ensures c.lastMessage.value in msgs + [m] && c.lastMessage.value.conversationId == c.id
    {
      if c != Stored(convo, m) && !IsTemporary(convo) {
        var i :| 0 <= i < |after| && after[i] == c;
        var k := ConversationIndex(table, convo.id);
        if k >= 0 && i == k {
          assert c == Touch(table[k], m);
        } else {
          assert c == table[i] && table[i] in table;
        }
      } else if c != Stored(convo, m) {
        assert c in table;
      }
    }
  }

  /** The page's list still holds only the user's conversations after a send in one of theirs. */
  lemma SendKeepsListMine(convos: seq<Conversation>, convo: Conversation, m: Message, userId: string)
    requires forall c :: c in convos ==> userId in c.participantIds
    requires userId in convo.participantIds
    ensures forall c :: c in ListAfterSend(convos, convo, m) ==> userId in c.participantIds
  {
    if !IsTemporary(convo) {
      var t := TouchById(convos, convo.id, m);
      forall c | c in SortDesc(t, UpdatedAt) ensures userId in c.participantIds {
        assert c in multiset(SortDesc(t, UpdatedAt));
        var j :| 0 <= j < |t| && t[j] == c;
        assert convos[j] in convos;
      }
    }
  }

  /**
   * Appending the sent message locally gives what reloading the conversation
   * would show, as long as no stored message of the conversation is newer.
   */
  lemma AppendMatchesReload(msgs: seq<Message>, m: Message)
    requires forall x :: x in msgs && x.conversationId == m.conversationId ==> x.timestamp <= m.timestamp
    ensures ConversationMessages(msgs + [m], m.conversationId) == ConversationMessages(msgs, m.conversationId) + [m]
  {
    var p := InConversation(m.conversationId);
    FilterConcat(msgs, [m], p);
    assert Filter([m], p) == [m];
    SortAscAppendLargest(Filter(msgs, p), m, Timestamp);
  }

  /** After a reply that is newer than every other update, its conversation heads the list. */
  lemma TouchedConversationFirst(convos: seq<Conversation>, i: nat, m: Message)
    requires i < |convos|
    requires forall j :: 0 <= j < |convos| && j != i ==> convos[j].id != convos[i].id
    requires forall c :: c in convos ==> c.updatedAt < m.timestamp
    ensures var r := SortDesc(TouchById(convos, convos[i].id, m), UpdatedAt);
      r != [] && r[0] == Touch(convos[i], m)
  {
    var t := TouchById(convos, convos[i].id, m);
    var x := t[i];
    forall y | y in t && y != x ensures UpdatedAt(y) < UpdatedAt(x) {
      var j :| 0 <= j < |t| && t[j] == y;
      assert j != i;
      assert y == convos[j] && convos[j] in convos;
    }
    SortDescLargestFirst(t, x, UpdatedAt);
  }
}
