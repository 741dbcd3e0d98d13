/**
 * The user service: looking a user up, updating a profile (and mirroring the
 * farm name, story and picture into the farmer's farm profile), reading a farm
 * profile with live listings, and the mocked farmer recommendations.
 */
module UserService {
  import opened Wrappers
  import opened Types
  import opened Lists
  import opened MockData

  function HasId(id: string): User -> bool {
    (u: User) => u.id == id
  }

  /** `getUserById`: the first user with that id. */
  function UserById(users: seq<User>, id: string): (r: Option<User>)
    ensures r.None? <==> forall u :: u in users ==> u.id != id
    ensures r.Some? ==> r.value in users && r.value.id == id
    ensures r.Some? ==> var k := UserIndex(users, id); 0 <= k && r.value == users[k]
  {
    Find(users, HasId(id))
  }

  /** `findIndex` by id: the first index holding the id, or -1. */
  function UserIndex(users: seq<User>, id: string): (k: int)
    ensures -1 <= k < |users|
    ensures k == -1 <==> forall u :: u in users ==> u.id != id
    ensures k >= 0 ==> users[k].id == id && forall i :: 0 <= i < k ==> users[i].id != id
  {
    FirstIndex(users, HasId(id))
  }

  function OfFarmer(farmerId: string): FarmProfile -> bool {
    (fp: FarmProfile) => fp.farmerId == farmerId
  }

  /** `findIndex` by farmer id: the first profile of the farmer, or -1. */
  function ProfileIndex(profiles: seq<FarmProfile>, farmerId: string): (k: int)
    ensures -1 <= k < |profiles|
    ensures k == -1 <==> forall fp :: fp in profiles ==> fp.farmerId != farmerId
    ensures k >= 0 ==> profiles[k].farmerId == farmerId && forall i :: 0 <= i < k ==> profiles[i].farmerId != farmerId
  {
    FirstIndex(profiles, OfFarmer(farmerId))
  }

  /**
   * The keys of a `Partial<User>` the profile page sends. `Keep` is an absent
   * key; `Put(None)` is a key explicitly set to `undefined`, which the spread
   * copies over the old value.
   */
  datatype UserPatch = UserPatch(
    name: Patch<string>,
    email: Patch<string>,
    location: Patch<Option<string>>,
    profilePictureUrl: Patch<Option<string>>,
    farmName: Patch<Option<string>>,
    farmDescription: Patch<Option<string>>,
    farmStory: Patch<Option<string>>,
    businessName: Patch<Option<string>>,
    businessType: Patch<Option<string>>)

  /** `{ ...user, ...updates }`. */
  function MergeUser(u: User, p: UserPatch): User {
    u.(name := p.name.Over(u.name), email := p.email.Over(u.email),
      location := p.location.Over(u.location),
      profilePictureUrl := p.profilePictureUrl.Over(u.profilePictureUrl),
      farmName := p.farmName.Over(u.farmName), farmDescription := p.farmDescription.Over(u.farmDescription),
      farmStory := p.farmStory.Over(u.farmStory), businessName := p.businessName.Over(u.businessName),
      businessType := p.businessType.Over(u.businessType))
  }

  /** The update sets the key to a non-empty string. */
  predicate PutsText(p: Patch<Option<string>>) {
    p.Put? && Truthy(p.value)
  }

  /** The farm-profile copy: only truthy farm name, story and picture are mirrored. */
  function SyncProfile(fp: FarmProfile, p: UserPatch): FarmProfile {
    var a := if PutsText(p.farmName) then fp.(farmName := p.farmName.value) else fp;
    var b := if PutsText(p.farmStory) then a.(farmStory := p.farmStory.value.value) else a;
    if PutsText(p.profilePictureUrl) then b.(profilePictureUrl := p.profilePictureUrl.value.value) else b
  }

  /** The farm-profile table after a profile update of `merged`. */
  function SyncedProfiles(profiles: seq<FarmProfile>, merged: User, p: UserPatch): (r: seq<FarmProfile>)
    ensures |r| == |profiles|
    ensures var j := ProfileIndex(profiles, merged.id);
      forall i :: 0 <= i < |r| ==>
        r[i] == if merged.role == Farmer && i == j then SyncProfile(profiles[i], p) else profiles[i]
  {
    var j := ProfileIndex(profiles, merged.id);
    if merged.role == Farmer && j >= 0 then profiles[j := SyncProfile(profiles[j], p)] else profiles
  }

  /** `updateUserProfile`. */
  method UpdateUserProfile(db: Db, userId: string, p: UserPatch) returns (r: Option<User>)
    modifies db`users, db`farmProfiles
    ensures var k := UserIndex(old(db.users), userId);
      && (k == -1 ==> r.None? && db.users == old(db.users) && db.farmProfiles == old(db.farmProfiles))
      && (k >= 0 ==> && r == Some(MergeUser(old(db.users)[k], p))
                     && db.users == old(db.users)[k := r.value]
                     && db.farmProfiles == SyncedProfiles(old(db.farmProfiles), r.value, p))
  {
    var k := UserIndex(db.users, userId);
    if k == -1 {
      return None;
    }
    var merged := MergeUser(db.users[k], p);
    db.users := db.users[k := merged];
    if merged.role == Farmer {
      var j := ProfileIndex(db.farmProfiles, userId);
      if j != -1 {
        var fp := db.farmProfiles[j];
        if PutsText(p.farmName) { fp := fp.(farmName := p.farmName.value); }
        if PutsText(p.farmStory) { fp := fp.(farmStory := p.farmStory.value.value); }
        if PutsText(p.profilePictureUrl) { fp := fp.(profilePictureUrl := p.profilePictureUrl.value.value); }
        db.farmProfiles := db.farmProfiles[j := fp];
      }
    }
    r := Some(merged);
  }

  /** A profile update never changes who the user is, their role or when they joined. */
  lemma MergeKeepsIdentity(u: User, p: UserPatch)
    ensures var m := MergeUser(u, p);
      m.id == u.id && m.role == u.role && m.createdAt == u.createdAt && m.produceInterests == u.produceInterests
  {
  }

  /** An update with no keys leaves the user as it was. */
  lemma EmptyPatchIsIdentity(u: User)
    ensures MergeUser(u, UserPatch(Keep, Keep, Keep, Keep, Keep, Keep, Keep, Keep, Keep)) == u
  {
  }

  /**
   * After the mirror, a truthy farm name, story or picture in the update is
   * the same in the user record and the farm profile; other profile fields
   * are untouched, and so are non-truthy ones.
   */
  lemma SyncMirrorsTruthyFields(fp: FarmProfile, u: User, p: UserPatch)
    ensures var s := SyncProfile(fp, p); var m := MergeUser(u, p);
      && (PutsText(p.farmName) ==> s.farmName == m.farmName)
      && (!PutsText(p.farmName) ==> s.farmName == fp.farmName)
      && (PutsText(p.farmStory) ==> Some(s.farmStory) == m.farmStory)
      && (!PutsText(p.farmStory) ==> s.farmStory == fp.farmStory)
      && (PutsText(p.profilePictureUrl) ==> Some(s.profilePictureUrl) == m.profilePictureUrl)
      && (!PutsText(p.profilePictureUrl) ==> s.profilePictureUrl == fp.profilePictureUrl)
      && s.farmerId == fp.farmerId && s.currentListings == fp.currentListings
      && s.practices == fp.practices && s.primaryProduce == fp.primaryProduce
  {
  }

  /** Updating a buyer (or any non-farmer) never touches the farm-profile table. */
  lemma NonFarmerLeavesProfiles(profiles: seq<FarmProfile>, merged: User, p: UserPatch)
    requires merged.role != Farmer
    ensures SyncedProfiles(profiles, merged, p) == profiles
  {
  }

  /** Only the farmer's own profile (the first with their id) can change. */
  lemma SyncTouchesOnlyOwnProfile(profiles: seq<FarmProfile>, merged: User, p: UserPatch)
    ensures forall i :: 0 <= i < |profiles| && profiles[i].farmerId != merged.id ==>
      SyncedProfiles(profiles, merged, p)[i] == profiles[i]
  {
  }

  /** `getFarmProfileByFarmerId`: the stored profile with its listings replaced by the live active ones. */
  function FarmProfileByFarmerId(profiles: seq<FarmProfile>, produce: seq<Produce>, farmerId: string): (r: Option<FarmProfile>)
    ensures r.None? <==> forall fp :: fp in profiles ==> fp.farmerId != farmerId
    ensures r.Some? ==> r.value.farmerId == farmerId
    ensures r.Some? ==> var k := ProfileIndex(profiles, farmerId);
      0 <= k && r.value == profiles[k].(currentListings := ActiveListings(produce, farmerId))
    ensures r.Some? ==> forall p :: p in r.value.currentListings <==>
      p in produce && p.farmerId == farmerId && p.status == Active
  {
    match Find(profiles, OfFarmer(farmerId))
    case None => None
    case Some(fp) => Some(fp.(currentListings := ActiveListings(produce, farmerId)))
  }

  /**
   * A listing just put at the front of the table by an active farmer's add
   * leads that farmer's profile listings.
   */
  lemma NewActiveListingLeadsProfile(profiles: seq<FarmProfile>, produce: seq<Produce>, p: Produce)
    requires p.status == Active
    requires FarmProfileByFarmerId(profiles, produce, p.farmerId).Some?
    ensures var r := FarmProfileByFarmerId(profiles, [p] + produce, p.farmerId);
      r.Some? && r.value.currentListings == [p] + FarmProfileByFarmerId(profiles, produce, p.farmerId).value.currentListings
  {
    assert ([p] + produce)[1..] == produce;
  }

  /** `getFarmerRecommendationsForBuyer`: for a known user, the first two stored farm profiles. */
  function Recommendations(users: seq<User>, profiles: seq<FarmProfile>, buyerId: string): (r: seq<FarmProfile>)
    ensures UserById(users, buyerId).None? ==> r == []
    ensures UserById(users, buyerId).Some? ==> |r| == if |profiles| < 2 then |profiles| else 2
    ensures forall i :: 0 <= i < |r| ==> r[i] == profiles[i]
  {
    if UserById(users, buyerId).None? then []
    else if |profiles| < 2 then profiles
    else profiles[..2]
  }
}
