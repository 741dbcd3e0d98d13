/**
 * The buyer's "My Farmer Connections" page: one card per farmer the buyer
 * shares a conversation with, newest interaction first.
 */
module BuyerConnectionsPage {
  import opened Wrappers
  import opened Types
  import opened Sorting
  import opened MockData
  import opened Connections

  const A_LOCAL_FARM := "A Local Farm"
  const UNKNOWN_LOCATION := "Unknown Location"
  const NEW_MESSAGE := "New Message"
  const VIEWED := "Viewed"
  const LOGIN_PROMPT := "Please log in to view your connections."
  const BUYERS_ONLY := "This page is for buyers only."

  /** A card of the page. */
  datatype FarmerConnection = FarmerConnection(
    id: string,
    farmName: string,
    farmerName: string,
    location: string,
    profilePictureUrl: string,
    lastInteraction: Option<int>,
    status: string)

  /** The card for farmer `u` of buyer `meId`. */
  function CardFor(u: User, convos: seq<Conversation>, meId: string): (c: FarmerConnection)
    ensures c.id == u.id && c.farmerName == u.name
    ensures c.lastInteraction == LastInteraction(Relevant(convos, meId, u.id))
    ensures c.status == NEW_MESSAGE <==> AwaitsReply(Relevant(convos, meId, u.id), u.id)
    ensures c.status == NEW_MESSAGE || c.status == VIEWED
  {
    var r := Relevant(convos, meId, u.id);
    FarmerConnection(u.id, OrElse(u.farmName, A_LOCAL_FARM), u.name, OrElse(u.location, UNKNOWN_LOCATION),
      OrElse(u.profilePictureUrl, DEFAULT_FARM_IMAGE), LastInteraction(r),
      if AwaitsReply(r, u.id) then NEW_MESSAGE else VIEWED)
  }

  function MakeCard(convos: seq<Conversation>, meId: string): User -> FarmerConnection {
    (u: User) => CardFor(u, convos, meId)
  }

  function CardId(c: FarmerConnection): string { c.id }

  function Newest(c: FarmerConnection): int { InteractionTime(c.lastInteraction) }

  /** The cards of buyer `meId`, newest interaction first. */
  function FarmerConnections(users: seq<User>, convos: seq<Conversation>, meId: string): (r: seq<FarmerConnection>)
    ensures SortedDesc(r, Newest)
    ensures forall x :: x in r ==> exists u :: u in users && u.role == Farmer && u.id in Counterparts(convos, meId) && x == CardFor(u, convos, meId)
    ensures forall u :: u in users && u.role == Farmer && u.id in Counterparts(convos, meId) ==> CardFor(u, convos, meId) in r
  {
    var cards := Connected(users, Counterparts(convos, meId), Farmer, MakeCard(convos, meId));
    ConnectedMembers(users, Counterparts(convos, meId), Farmer, MakeCard(convos, meId));
    var r := SortDesc(cards, Newest);
    SameElements(r, cards);
    r
  }

  /** A missing farm name, location or picture never leaves a card blank. */
  lemma CardFallbacks(u: User, convos: seq<Conversation>, meId: string)
    ensures var c := CardFor(u, convos, meId);
      && (Truthy(u.farmName) ==> c.farmName == u.farmName.value) && (!Truthy(u.farmName) ==> c.farmName == A_LOCAL_FARM)
      && (Truthy(u.location) ==> c.location == u.location.value) && (!Truthy(u.location) ==> c.location == UNKNOWN_LOCATION)
      && c.farmName != "" && c.location != "" && c.profilePictureUrl != ""
  {
  }

  /** With unique user ids every farmer appears on one card only. */
  lemma OneCardPerFarmer(users: seq<User>, convos: seq<Conversation>, meId: string)
    requires UniqueUserIds(users)
    ensures DistinctBy(FarmerConnections(users, convos, meId), CardId)
  {
    var cards := Connected(users, Counterparts(convos, meId), Farmer, MakeCard(convos, meId));
    ConnectedOncePerUser(users, Counterparts(convos, meId), Farmer, MakeCard(convos, meId), CardId);
    SortDescDistinct(cards, Newest, CardId);
  }

  /** A buyer never appears as their own connection. */
  lemma NoSelfConnection(users: seq<User>, convos: seq<Conversation>, meId: string)
    ensures forall x :: x in FarmerConnections(users, convos, meId) ==> x.id != meId
  {
    NotOwnCounterpart(convos, meId);
  }

  /** What the page shows. */
  datatype Screen = Spinner | Info(text: string) | Warning(text: string) | Cards(cards: seq<FarmerConnection>)

  function Render(user: Option<User>, loading: bool, connections: seq<FarmerConnection>): (s: Screen)
    ensures s.Cards? <==> !loading && user.Some? && user.value.role == Buyer
    ensures s.Warning? <==> !loading && user.Some? && user.value.role != Buyer
    ensures s.Warning? ==> s.text == BUYERS_ONLY
  {
    if loading then Spinner
    else if user.None? then Info(LOGIN_PROMPT)
    else if user.value.role != Buyer then Warning(BUYERS_ONLY)
    else Cards(connections)
  }

  class BuyerConnectionsView {
    const user: Option<User>
    var connections: seq<FarmerConnection>
    var loading: bool

    constructor (user: Option<User>)
      ensures this.user == user && connections == [] && loading
    {
      this.user := user;
      connections := [];
      loading := true;
    }

    /** The load effect: only a signed-in buyer gets cards. */
    method Load(db: Db)
      modifies this`connections, this`loading
      ensures user.Some? && user.value.role == Buyer ==>
        connections == FarmerConnections(db.users, db.conversations, user.value.id)
      ensures !(user.Some? && user.value.role == Buyer) ==> connections == old(connections)
      ensures !loading
    {
      if user.Some? && user.value.role == Buyer {
        var me := user.value;
        var ids := CollectCounterparts(db.conversations, me.id);
        var fetched := CollectConnections(db.users, ids, Farmer, MakeCard(db.conversations, me.id));
        connections := SortDesc(fetched, Newest);
      }
      loading := false;
    }
  }
}
