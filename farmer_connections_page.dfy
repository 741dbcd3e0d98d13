/**
 * The farmer's "My Buyer Connections" page: one card per buyer the farmer
 * shares a conversation with, newest interaction first.
 */
module FarmerConnectionsPage {
  import opened Wrappers
  import opened Types
  import opened Text
  import opened Sorting
  import opened MockData
  import opened Connections

  const INDIVIDUAL_BUYER := "Individual Buyer"
  const NEW_INQUIRY := "New Inquiry"
  const RESPONDED := "Responded"
  const LOGIN_PROMPT := "Please log in to view your connections."
  const FARMERS_ONLY := "This page is for farmers only."

  /** A card of the page; `kind` is the buyer's business type. */
  datatype BuyerConnection = BuyerConnection(
    id: string,
    name: string,
    kind: string,
    profilePictureUrl: Option<string>,
    lastInteraction: Option<int>,
    status: string)

  /** The card for buyer `u` of farmer `meId`. */
  function CardFor(u: User, convos: seq<Conversation>, meId: string): (c: BuyerConnection)
    ensures c.id == u.id && c.profilePictureUrl == u.profilePictureUrl
    ensures c.lastInteraction == LastInteraction(Relevant(convos, meId, u.id))
    ensures c.status == NEW_INQUIRY <==> AwaitsReply(Relevant(convos, meId, u.id), u.id)
    ensures c.status == NEW_INQUIRY || c.status == RESPONDED
  {
    var r := Relevant(convos, meId, u.id);
    BuyerConnection(u.id, OrElse(u.businessName, u.name), OrElse(u.businessType, INDIVIDUAL_BUYER),
      u.profilePictureUrl, LastInteraction(r),
      if AwaitsReply(r, u.id) then NEW_INQUIRY else RESPONDED)
  }

  function MakeCard(convos: seq<Conversation>, meId: string): User -> BuyerConnection {
    (u: User) => CardFor(u, convos, meId)
  }

  function CardId(c: BuyerConnection): string { c.id }

  function Newest(c: BuyerConnection): int { InteractionTime(c.lastInteraction) }

  /** The cards of farmer `meId`, newest interaction first. */
  function BuyerConnections(users: seq<User>, convos: seq<Conversation>, meId: string): (r: seq<BuyerConnection>)
    ensures SortedDesc(r, Newest)
    ensures forall x :: x in r ==> exists u :: u in users && u.role == Buyer && u.id in Counterparts(convos, meId) && x == CardFor(u, convos, meId)
    ensures forall u :: u in users && u.role == Buyer && u.id in Counterparts(convos, meId) ==> CardFor(u, convos, meId) in r
  {
    var cards := Connected(users, Counterparts(convos, meId), Buyer, MakeCard(convos, meId));
    ConnectedMembers(users, Counterparts(convos, meId), Buyer, MakeCard(convos, meId));
    var r := SortDesc(cards, Newest);
    SameElements(r, cards);
    r
  }

  /** The card names the business when there is one, else the person; a missing type reads "Individual Buyer". */
  lemma CardNames(u: User, convos: seq<Conversation>, meId: string)
    ensures var c := CardFor(u, convos, meId);
      && (Truthy(u.businessName) ==> c.name == u.businessName.value) && (!Truthy(u.businessName) ==> c.name == u.name)
      && (Truthy(u.businessType) ==> c.kind == u.businessType.value) && (!Truthy(u.businessType) ==> c.kind == INDIVIDUAL_BUYER)
  {
  }

  /** With unique user ids every buyer appears on one card only. */
  lemma OneCardPerBuyer(users: seq<User>, convos: seq<Conversation>, meId: string)
    requires UniqueUserIds(users)
    ensures DistinctBy(BuyerConnections(users, convos, meId), CardId)
  {
    var cards := Connected(users, Counterparts(convos, meId), Buyer, MakeCard(convos, meId));
    ConnectedOncePerUser(users, Counterparts(convos, meId), Buyer, MakeCard(convos, meId), CardId);
    SortDescDistinct(cards, Newest, CardId);
  }

  /** A farmer never appears as their own connection. */
  lemma NoSelfConnection(users: seq<User>, convos: seq<Conversation>, meId: string)
    ensures forall x :: x in BuyerConnections(users, convos, meId) ==> x.id != meId
  {
    NotOwnCounterpart(convos, meId);
  }

  /** The picture on a card: the stored one, or a generated avatar seeded by the buyer's id. */
  function Avatar(c: BuyerConnection): (r: string)
    ensures Truthy(c.profilePictureUrl) ==> r == c.profilePictureUrl.value
    ensures !Truthy(c.profilePictureUrl) ==> Contains(r, c.id)
  {
    var prefix := "https://picsum.photos/seed/";
    var url := prefix + c.id + "/80/80";
    assert OccursAt(url, c.id, |prefix|) by {
      assert url[|prefix|..|prefix| + |c.id|] == c.id;
    }
    OrElse(c.profilePictureUrl, url)
  }

  /** What the page shows. */
  datatype Screen = Spinner | Info(text: string) | Warning(text: string) | Cards(cards: seq<BuyerConnection>)

  function Render(user: Option<User>, loading: bool, connections: seq<BuyerConnection>): (s: Screen)
    ensures s.Cards? <==> !loading && user.Some? && user.value.role == Farmer
    ensures s.Warning? <==> !loading && user.Some? && user.value.role != Farmer
    ensures s.Warning? ==> s.text == FARMERS_ONLY
  {
    if loading then Spinner
    else if user.None? then Info(LOGIN_PROMPT)
    else if user.value.role != Farmer then Warning(FARMERS_ONLY)
    else Cards(connections)
  }

  class FarmerConnectionsView {
    const user: Option<User>
    var connections: seq<BuyerConnection>
    var loading: bool

    constructor (user: Option<User>)
      ensures this.user == user && connections == [] && loading
    {
      this.user := user;
      connections := [];
      loading := true;
    }

    /** The load effect: only a signed-in farmer gets cards. */
    method Load(db: Db)
      modifies this`connections, this`loading
      ensures user.Some? && user.value.role == Farmer ==>
        connections == BuyerConnections(db.users, db.conversations, user.value.id)
      ensures !(user.Some? && user.value.role == Farmer) ==> connections == old(connections)
      ensures !loading
    {
      if user.Some? && user.value.role == Farmer {
        var me := user.value;
        var ids := CollectCounterparts(db.conversations, me.id);
        var fetched := CollectConnections(db.users, ids, Buyer, MakeCard(db.conversations, me.id));
        connections := SortDesc(fetched, Newest);
      }
      loading := false;
    }
  }
}
