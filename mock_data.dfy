/**
 * The in-memory tables that stand in for a backend, the farm profiles derived
 * from them when the application starts, and the seeded conversations and
 * messages.
 */
module MockData {
  import opened Wrappers
  import opened Types
  import opened Text
  import opened Lists

  const DEFAULT_FARM_STORY := "A passionate local farmer dedicated to quality and community."
  const HOUR := 60 * 60 * 1000

  /** The module-level arrays every service reads and mutates in place. */
  class Db {
    var users: seq<User>
    var produce: seq<Produce>
    var farmProfiles: seq<FarmProfile>
    var notifications: seq<Notification>
    var conversations: seq<Conversation>
    var messages: seq<Message>

    /**
     * Module initialisation: the farm-profile table is derived from the user and
     * produce tables; conversations and messages are the seeded ones, with
     * timestamps relative to the start-up clock `now`.
     */
    constructor (seedUsers: seq<User>, seedProduce: seq<Produce>, seedNotifications: seq<Notification>, now: int)
      ensures users == seedUsers && produce == seedProduce && notifications == seedNotifications
      ensures farmProfiles == DeriveFarmProfiles(seedUsers, seedProduce)
      ensures conversations == SeedConversations(now) && messages == SeedMessages(now)
      ensures Linked(conversations, messages)
    {
      users := seedUsers;
      produce := seedProduce;
      notifications := seedNotifications;
      farmProfiles := DeriveFarmProfiles(seedUsers, seedProduce);
      conversations := SeedConversations(now);
      messages := SeedMessages(now);
    }
  }

  /** A farmer's listings that are currently `active`, in table order. */
  function ActiveListings(produce: seq<Produce>, farmerId: string): (r: seq<Produce>)
    ensures forall p :: p in r ==> p in produce && p.farmerId == farmerId && p.status == Active
    ensures forall p :: p in produce && p.farmerId == farmerId && p.status == Active ==> p in r
    ensures IsSubseq(r, produce)
  {
    Filter(produce, (p: Produce) => p.farmerId == farmerId && p.status == Active)
  }

  function Categories(listings: seq<Produce>): (r: seq<string>)
    ensures |r| == |listings| && forall i :: 0 <= i < |r| ==> r[i] == listings[i].category
  {
    seq(|listings|, i requires 0 <= i < |listings| => listings[i].category)
  }

  /** `['Organic', 'Sustainable']` when the description mentions "organic" in any case. */
  function Practices(farmDescription: Option<string>): seq<string> {
    if farmDescription.Some? && Contains(Lower(farmDescription.value), "organic")
    then ["Organic", "Sustainable"]
    else ["Sustainable"]
  }

  /** The profile the start-up derivation builds for one farmer. */
  function DeriveProfile(farmer: User, produce: seq<Produce>): FarmProfile {
    var active := ActiveListings(produce, farmer.id);
    FarmProfile(
      farmerId := farmer.id,
      farmName := farmer.farmName,
      farmerName := farmer.name,
      profilePictureUrl := OrElse(farmer.profilePictureUrl, DEFAULT_USER_PROFILE_PIC),
      farmStory := OrElse(farmer.farmStory, DEFAULT_FARM_STORY),
      location := farmer.location,
      practices := Practices(farmer.farmDescription),
      memberSince := farmer.createdAt,
      currentListings := active,
      primaryProduce := Distinct(Categories(active)))
  }

  function Farmers(users: seq<User>): seq<User> {
    Filter(users, (u: User) => u.role == Farmer)
  }

  /** `mockUsers.filter(farmer).map(...)`: one profile per farmer, in user-table order. */
  function DeriveFarmProfiles(users: seq<User>, produce: seq<Produce>): (r: seq<FarmProfile>)
    ensures |r| == |Farmers(users)|
    ensures forall i :: 0 <= i < |r| ==> r[i] == DeriveProfile(Farmers(users)[i], produce)
  {
    if users == [] then []
    else
      var rest := DeriveFarmProfiles(users[1..], produce);
      if users[0].role == Farmer then [DeriveProfile(users[0], produce)] + rest else rest
  }

  /** Each derived profile belongs to a distinct farmer of the user table, in table order. */
  lemma ProfilesFollowFarmers(users: seq<User>, produce: seq<Produce>)
    ensures forall i :: 0 <= i < |DeriveFarmProfiles(users, produce)| ==>
      var u := Farmers(users)[i];
      u in users && u.role == Farmer && DeriveFarmProfiles(users, produce)[i].farmerId == u.id
  {
    var f := Farmers(users);
    forall i | 0 <= i < |f| ensures f[i] in users && f[i].role == Farmer {
      assert f[i] in f;
    }
  }

  /**
   * What a derived profile holds: exactly the farmer's active listings in table
   * order, their distinct categories in first-occurrence order, the organic
   * practice tag, and the default story and picture for missing or empty values.
   */
  lemma DerivedProfileContents(farmer: User, produce: seq<Produce>)
    ensures var pr := DeriveProfile(farmer, produce);
      && pr.farmerId == farmer.id
      && (forall p :: p in pr.currentListings <==> p in produce && p.farmerId == farmer.id && p.status == Active)
      && IsSubseq(pr.currentListings, produce)
      && NoDuplicates(pr.primaryProduce)
      && (forall c :: c in pr.primaryProduce <==> exists p :: p in pr.currentListings && p.category == c)
      && (pr.practices == ["Organic", "Sustainable"] || pr.practices == ["Sustainable"])
      && (pr.practices == ["Organic", "Sustainable"] <==>
            farmer.farmDescription.Some? && Contains(Lower(farmer.farmDescription.value), "organic"))
      && (Truthy(farmer.farmStory) ==> pr.farmStory == farmer.farmStory.value)
      && (!Truthy(farmer.farmStory) ==> pr.farmStory == DEFAULT_FARM_STORY)
      && (Truthy(farmer.profilePictureUrl) ==> pr.profilePictureUrl == farmer.profilePictureUrl.value)
      && (!Truthy(farmer.profilePictureUrl) ==> pr.profilePictureUrl == DEFAULT_USER_PROFILE_PIC)
  {
    var pr := DeriveProfile(farmer, produce);
    var cats := Categories(pr.currentListings);
    forall c ensures c in pr.primaryProduce <==> exists p :: p in pr.currentListings && p.category == c {
      if c in pr.primaryProduce {
        assert c in cats;
        var i :| 0 <= i < |cats| && cats[i] == c;
        assert pr.currentListings[i] in pr.currentListings;
      }
      if exists p :: p in pr.currentListings && p.category == c {
        var p :| p in pr.currentListings && p.category == c;
        var i :| 0 <= i < |pr.currentListings| && pr.currentListings[i] == p;
        assert cats[i] == c;
      }
    }
  }

  /** A description that mentions "organic" in any capitalisation earns the Organic tag. */
  lemma OrganicTagIsCaseInsensitive(description: string, mention: string)
    requires Lower(mention) == "organic"
    requires Contains(description, mention)
    ensures Practices(Some(description)) == ["Organic", "Sustainable"]
  {
    ContainsLower(description, mention);
  }

  /**
   * The seed-data invariant: every conversation's last message is stored in the
   * message table and points back to that conversation.
   */
  ghost predicate Linked(conversations: seq<Conversation>, messages: seq<Message>) {
    forall c :: c in conversations && c.lastMessage.Some? ==>
      c.lastMessage.value in messages && c.lastMessage.value.conversationId == c.id
  }

  function SeedMessage1(now: int): Message {
    Message("msg1", "convo1", "buyer1", "farmer1",
      "Hi Alice, I saw your listing for Organic Heirloom Tomatoes. Are they available for pickup this week?",
      now - 2 * HOUR, true)
  }

  function SeedMessage2(now: int): Message {
    Message("msg2", "convo1", "farmer1", "buyer1",
      "Yes, Charlie! We have a fresh batch ready. How many pounds are you looking for?",
      now - 1 * HOUR, false)
  }

  function SeedMessage3(now: int): Message {
    Message("msg3", "convo2", "buyer1", "farmer2",
      "Hi Bob, I'm interested in your Fresh Basil listing. Could I inquire about availability for 2kg weekly?",
      now - 3 * HOUR, true)
  }

  function SeedConversations(now: int): seq<Conversation> {
    [ Conversation("convo1", ["farmer1", "buyer1"],
        map["farmer1" := "Alice GreenThumb", "buyer1" := "Charlie Chef"],
        Some(SeedMessage2(now)), Some("prod1"), Some("Organic Heirloom Tomatoes"), Some(1),
        now - 1 * HOUR),
      Conversation("convo2", ["farmer2", "buyer1"],
        map["farmer2" := "Bob Orchard", "buyer1" := "Charlie Chef"],
        Some(SeedMessage3(now)), Some("prod4"), Some("Aromatic Genovese Basil"), Some(0),
        now - 3 * HOUR) ]
  }

  /** The seeded message table reuses the two conversations' last messages. */
  function SeedMessages(now: int): (r: seq<Message>)
    ensures Linked(SeedConversations(now), r)
    ensures |r| == 3
  {
    [SeedMessage1(now), SeedConversations(now)[0].lastMessage.value, SeedConversations(now)[1].lastMessage.value]
  }
}
