/**
 * The produce service: reading the listing table (per farmer, the filtered
 * marketplace, by id) and changing it (add at the front, update in place,
 * delete). Reads are functions of the table; changes are methods on `Db`.
 */
module ProduceService {
  import opened Wrappers
  import opened Types
  import opened Text
  import opened Lists
  import opened MockData

  /** Every listing has a different id. */
  predicate UniqueIds(s: seq<Produce>) {
    forall i, j :: 0 <= i < j < |s| ==> s[i].id != s[j].id
  }

  /** `getProduceForFarmer`: every listing of one farmer, whatever its status, in table order. */
  function ForFarmer(produce: seq<Produce>, farmerId: string): (r: seq<Produce>)
    ensures forall p :: p in r ==> p in produce && p.farmerId == farmerId
    ensures forall p :: p in produce && p.farmerId == farmerId ==> p in r
    ensures IsSubseq(r, produce)
  {
    Filter(produce, OwnedBy(farmerId))
  }

  function OwnedBy(farmerId: string): Produce -> bool {
    (p: Produce) => p.farmerId == farmerId
  }

  /** The optional marketplace filters; an absent or empty string does not filter. */
  datatype ProduceFilters = ProduceFilters(category: Option<string>, location: Option<string>, query: Option<string>)

  /** `q` (already lower-cased) occurs in the name, description, a tag or the farm name. */
  predicate MatchesQuery(p: Produce, q: string) {
    Contains(Lower(p.name), q) || Contains(Lower(p.description), q)
    || (exists t :: t in p.tags && Contains(Lower(t), q))
    || (p.farmName.Some? && Contains(Lower(p.farmName.value), q))
  }

  /** The category filter, when present and non-empty, matches the category ignoring case. */
  predicate CategoryOk(category: Option<string>, p: Produce) {
    Truthy(category) ==> Lower(p.category) == Lower(category.value)
  }

  /** The location filter, when present and non-empty, occurs in the location ignoring case. */
  predicate LocationOk(location: Option<string>, p: Produce) {
    Truthy(location) ==> Contains(Lower(p.location), Lower(location.value))
  }

  /** The search text, when present and non-empty, matches the listing ignoring case. */
  predicate QueryOk(query: Option<string>, p: Produce) {
    Truthy(query) ==> MatchesQuery(p, Lower(query.value))
  }

  function ByCategory(s: seq<Produce>, category: Option<string>): (r: seq<Produce>)
    ensures forall p :: p in r <==> p in s && CategoryOk(category, p)
    ensures IsSubseq(r, s)
  {
    if Truthy(category) then Filter(s, (p: Produce) => Lower(p.category) == Lower(category.value))
    else IsSubseqRefl(s); s
  }

  function ByLocation(s: seq<Produce>, location: Option<string>): (r: seq<Produce>)
    ensures forall p :: p in r <==> p in s && LocationOk(location, p)
    ensures IsSubseq(r, s)
  {
    if Truthy(location) then Filter(s, (p: Produce) => Contains(Lower(p.location), Lower(location.value)))
    else IsSubseqRefl(s); s
  }

  function ByQuery(s: seq<Produce>, query: Option<string>): (r: seq<Produce>)
    ensures forall p :: p in r <==> p in s && QueryOk(query, p)
    ensures IsSubseq(r, s)
  {
    if Truthy(query) then Filter(s, (p: Produce) => MatchesQuery(p, Lower(query.value)))
    else IsSubseqRefl(s); s
  }

  /**
   * Whether a listing belongs in the marketplace: it is active, and it meets
   * each filter that is present and non-empty.
   */
  predicate Selected(filters: Option<ProduceFilters>, p: Produce) {
    && p.status == Active
    && (filters.Some? ==> CategoryOk(filters.value.category, p))
    && (filters.Some? ==> LocationOk(filters.value.location, p))
    && (filters.Some? ==> QueryOk(filters.value.query, p))
  }

  /** `getAllProduce`: the active listings, narrowed by category, then location, then query. */
  function AllProduce(produce: seq<Produce>, filters: Option<ProduceFilters>): (r: seq<Produce>)
    ensures forall p :: p in r ==> p in produce && Selected(filters, p)
    ensures forall p :: p in produce && Selected(filters, p) ==> p in r
    ensures IsSubseq(r, produce)
  {
    var active := Filter(produce, (p: Produce) => p.status == Active);
    if filters.None? then active
    else
      var f := filters.value;
      var a := ByCategory(active, f.category);
      var b := ByLocation(a, f.location);
      var c := ByQuery(b, f.query);
      IsSubseqTrans(a, active, produce);
      IsSubseqTrans(b, a, produce);
      IsSubseqTrans(c, b, produce);
      c
  }

  /** Lower-casing the filter strings first does not change the marketplace. */
  lemma FiltersAreCaseInsensitive(produce: seq<Produce>, f: ProduceFilters)
    ensures var g := ProduceFilters(LowerOpt(f.category), LowerOpt(f.location), LowerOpt(f.query));
      forall p :: Selected(Some(f), p) <==> Selected(Some(g), p)
  {
    forall s: string ensures Lower(Lower(s)) == Lower(s) { LowerIdempotent(s); }
  }

  function LowerOpt(o: Option<string>): (r: Option<string>)
    ensures Truthy(r) <==> Truthy(o)
  {
    if o.Some? then Some(Lower(o.value)) else None
  }

  /** With no filters, or only empty ones, the marketplace is exactly the active listings. */
  lemma NoFiltersMeansAllActive(produce: seq<Produce>, filters: Option<ProduceFilters>)
    requires filters.Some? ==> !Truthy(filters.value.category) && !Truthy(filters.value.location) && !Truthy(filters.value.query)
    ensures AllProduce(produce, filters) == Filter(produce, (p: Produce) => p.status == Active)
  {
  }

  /** `getProduceById`: the first listing with that id. */
  function ProduceById(produce: seq<Produce>, id: string): (r: Option<Produce>)
    ensures r.None? <==> forall p :: p in produce ==> p.id != id
    ensures r.Some? ==> r.value in produce && r.value.id == id
    ensures r.Some? ==> var k := IndexOfId(produce, id); 0 <= k && r.value == produce[k]
  {
    Find(produce, (p: Produce) => p.id == id)
  }

  /** `findIndex(p => p.id === id)`. */
  function IndexOfId(produce: seq<Produce>, id: string): (k: int)
    ensures -1 <= k < |produce|
    ensures k == -1 <==> forall p :: p in produce ==> p.id != id
    ensures k >= 0 ==> produce[k].id == id && forall i :: 0 <= i < k ==> produce[i].id != id
  {
    FirstIndex(produce, (p: Produce) => p.id == id)
  }

  /** With unique ids, the listing found by id sits at the index found by id. */
  lemma ByIdAgreesWithIndex(produce: seq<Produce>, id: string)
    requires UniqueIds(produce)
    ensures IndexOfId(produce, id) >= 0 ==> ProduceById(produce, id) == Some(produce[IndexOfId(produce, id)])
    ensures IndexOfId(produce, id) == -1 ==> ProduceById(produce, id) == None
  {
  }

  /** What a caller supplies to `addProduce`: a listing without id, names, counters or dates. */
  datatype ProduceDraft = ProduceDraft(
    farmerId: string,
    name: string,
    category: string,
    description: string,
    price: int,
    unit: string,
    quantityAvailable: int,
    harvestDate: Option<string>,
    availabilityDateFrom: Option<string>,
    availabilityDateTo: Option<string>,
    photos: seq<string>,
    location: string,
    tags: seq<string>,
    status: ProduceStatus)

  /** The id a listing created at millisecond `stamp` receives. */
  function ListingId(stamp: nat): string {
    "prod-" + NatToString(stamp)
  }

  lemma ListingIdInjective(m: nat, n: nat)
    requires ListingId(m) == ListingId(n)
    ensures m == n
  {
    assert ListingId(m)[5..] == NatToString(m);
    assert ListingId(n)[5..] == NatToString(n);
    NatToStringInjective(m, n);
  }

  /** The record `addProduce` builds: the draft plus id, farmer's names, zero counters, both dates `now`. */
  function NewListing(d: ProduceDraft, farmer: User, stamp: nat, now: int): (r: Produce)
    ensures r.id == ListingId(stamp) && r.farmerName == Some(farmer.name) && r.farmName == farmer.farmName
    ensures r.views == Some(0) && r.inquiries == Some(0) && r.createdAt == now && r.updatedAt == now
    ensures r.farmerId == d.farmerId && r.name == d.name && r.status == d.status && r.photos == d.photos
    ensures r.category == d.category && r.description == d.description && r.price == d.price && r.unit == d.unit
    ensures r.quantityAvailable == d.quantityAvailable && r.harvestDate == d.harvestDate
    ensures r.availabilityDateFrom == d.availabilityDateFrom && r.availabilityDateTo == d.availabilityDateTo
    ensures r.location == d.location && r.tags == d.tags
  {
    Produce(ListingId(stamp), d.farmerId, Some(farmer.name), farmer.farmName, d.name, d.category,
      d.description, d.price, d.unit, d.quantityAvailable, d.harvestDate, d.availabilityDateFrom,
      d.availabilityDateTo, d.photos, d.location, d.tags, d.status, Some(0), Some(0), now, now)
  }

  /** The fields a `Partial<Produce>` update carries; `Keep` is a key that is absent. */
  datatype ProducePatch = ProducePatch(
    farmerId: Patch<string>,
    name: Patch<string>,
    category: Patch<string>,
    description: Patch<string>,
    price: Patch<int>,
    unit: Patch<string>,
    quantityAvailable: Patch<int>,
    availabilityDateFrom: Patch<Option<string>>,
    availabilityDateTo: Patch<Option<string>>,
    photos: Patch<seq<string>>,
    location: Patch<string>,
    tags: Patch<seq<string>>,
    status: Patch<ProduceStatus>)

  /** An update that changes only the status. */
  function StatusPatch(s: ProduceStatus): ProducePatch {
    ProducePatch(Keep, Keep, Keep, Keep, Keep, Keep, Keep, Keep, Keep, Keep, Keep, Keep, Put(s))
  }

  /** An update that overwrites every field a draft carries except the harvest date. */
  function DraftPatch(d: ProduceDraft): ProducePatch {
    ProducePatch(Put(d.farmerId), Put(d.name), Put(d.category), Put(d.description), Put(d.price),
      Put(d.unit), Put(d.quantityAvailable), Put(d.availabilityDateFrom), Put(d.availabilityDateTo),
      Put(d.photos), Put(d.location), Put(d.tags), Put(d.status))
  }

  /** `{ ...p, ...u, updatedAt: now }`. */
  function Merge(p: Produce, u: ProducePatch, now: int): (r: Produce)
    ensures r.id == p.id && r.farmerName == p.farmerName && r.farmName == p.farmName
    ensures r.harvestDate == p.harvestDate && r.views == p.views && r.inquiries == p.inquiries
    ensures r.createdAt == p.createdAt && r.updatedAt == now
    ensures u.status.Put? ==> r.status == u.status.value
    ensures u.status.Keep? ==> r.status == p.status
  {
    p.(farmerId := u.farmerId.Over(p.farmerId), name := u.name.Over(p.name),
      category := u.category.Over(p.category), description := u.description.Over(p.description),
      price := u.price.Over(p.price), unit := u.unit.Over(p.unit),
      quantityAvailable := u.quantityAvailable.Over(p.quantityAvailable),
      availabilityDateFrom := u.availabilityDateFrom.Over(p.availabilityDateFrom),
      availabilityDateTo := u.availabilityDateTo.Over(p.availabilityDateTo),
      photos := u.photos.Over(p.photos), location := u.location.Over(p.location),
      tags := u.tags.Over(p.tags), status := u.status.Over(p.status), updatedAt := now)
  }

  /** A status-only update changes the status and the modification time and nothing else. */
  lemma StatusPatchChangesOnlyStatus(p: Produce, s: ProduceStatus, now: int)
    ensures Merge(p, StatusPatch(s), now) == p.(status := s, updatedAt := now)
  {
  }

  /** Saving an edited draft keeps the identity, counters and creation time and takes every draft field. */
  lemma DraftPatchTakesDraft(p: Produce, d: ProduceDraft, now: int)
    ensures var r := Merge(p, DraftPatch(d), now);
      && r.name == d.name && r.category == d.category && r.description == d.description
      && r.price == d.price && r.unit == d.unit && r.quantityAvailable == d.quantityAvailable
      && r.photos == d.photos && r.location == d.location && r.tags == d.tags && r.status == d.status
      && r.availabilityDateFrom == d.availabilityDateFrom && r.availabilityDateTo == d.availabilityDateTo
      && r.id == p.id && r.createdAt == p.createdAt && r.views == p.views
  {
  }

  /** The table after `updateProduce`. */
  function UpdatedTable(produce: seq<Produce>, id: string, u: ProducePatch, now: int): (r: seq<Produce>)
    ensures |r| == |produce|
    ensures IndexOfId(produce, id) == -1 ==> r == produce
    ensures forall i :: 0 <= i < |r| && i != IndexOfId(produce, id) ==> r[i] == produce[i]
    ensures IndexOfId(produce, id) >= 0 ==>
      r[IndexOfId(produce, id)] == Merge(produce[IndexOfId(produce, id)], u, now)
  {
    var k := IndexOfId(produce, id);
    if k == -1 then produce else produce[k := Merge(produce[k], u, now)]
  }

  /** Updating keeps ids unique, and afterwards the id finds the merged listing. */
  lemma UpdateKeepsIds(produce: seq<Produce>, id: string, u: ProducePatch, now: int)
    requires UniqueIds(produce)
    ensures UniqueIds(UpdatedTable(produce, id, u, now))
    ensures var k := IndexOfId(produce, id);
      k >= 0 ==> ProduceById(UpdatedTable(produce, id, u, now), id) == Some(Merge(produce[k], u, now))
  {
    var r := UpdatedTable(produce, id, u, now);
    assert forall i :: 0 <= i < |r| ==> r[i].id == produce[i].id;
    ByIdAgreesWithIndex(r, id);
  }

  /** The table after `splice(index, 1)`. */
  function RemoveAt(s: seq<Produce>, k: nat): (r: seq<Produce>)
    requires k < |s|
    ensures |r| == |s| - 1
    ensures forall i :: 0 <= i < k ==> r[i] == s[i]
    ensures forall i :: k <= i < |r| ==> r[i] == s[i + 1]
  {
    s[..k] + s[k + 1..]
  }

  /** Deleting keeps ids unique; afterwards no listing has the deleted id. */
  lemma DeleteRemovesId(produce: seq<Produce>, id: string)
    requires UniqueIds(produce) && IndexOfId(produce, id) >= 0
    ensures var r := RemoveAt(produce, IndexOfId(produce, id));
      UniqueIds(r) && ProduceById(r, id) == None && IsSubseq(r, produce)
  {
    var k := IndexOfId(produce, id);
    var r := RemoveAt(produce, k);
    forall p | p in r ensures p.id != id {
      var i :| 0 <= i < |r| && r[i] == p;
      if i < k { assert r[i] == produce[i]; } else { assert r[i] == produce[i + 1]; }
    }
    RemovePreservesOrder(produce, k);
  }

  lemma RemovePreservesOrder(s: seq<Produce>, k: nat)
    requires k < |s|
    ensures IsSubseq(RemoveAt(s, k), s)
  {
    var p := s[k];
    IsSubseqRefl(s[k + 1..]);
    IsSubseqSkip(s[k + 1..], s[k + 1..], p);
    assert [p] + s[k + 1..] == s[k..];
    PrefixSubseq(s[..k], s[k + 1..], s[k..]);
    assert s[..k] + s[k..] == s;
  }

  lemma {:induction false} PrefixSubseq(a: seq<Produce>, b: seq<Produce>, c: seq<Produce>)
    requires IsSubseq(b, c)
    ensures IsSubseq(a + b, a + c)
  {
    if a != [] {
      assert (a + b)[1..] == a[1..] + b;
      assert (a + c)[1..] == a[1..] + c;
      PrefixSubseq(a[1..], b, c);
    } else {
      assert a + b == b && a + c == c;
    }
  }

  /** A new listing goes to the front: it is the first found by its id and leads its farmer's list. */
  lemma AddedListingFirst(produce: seq<Produce>, p: Produce)
    ensures ProduceById([p] + produce, p.id) == Some(p)
    ensures ForFarmer([p] + produce, p.farmerId) == [p] + ForFarmer(produce, p.farmerId)
    ensures (forall q :: q in produce ==> q.id != p.id) && UniqueIds(produce) ==> UniqueIds([p] + produce)
  {
    assert ([p] + produce)[1..] == produce;
    if (forall q :: q in produce ==> q.id != p.id) && UniqueIds(produce) {
      var s := [p] + produce;
      forall i, j | 0 <= i < j < |s| ensures s[i].id != s[j].id {
        assert s[j] == produce[j - 1] && produce[j - 1] in produce;
        if i > 0 { assert s[i] == produce[i - 1]; }
      }
    }
  }

  /** `addProduce`: the new listing is put at the front of the table. */
  method AddProduce(db: Db, draft: ProduceDraft, farmer: User, stamp: nat, now: int) returns (r: Produce)
    modifies db`produce
    ensures r == NewListing(draft, farmer, stamp, now)
    ensures db.produce == [r] + old(db.produce)
  {
    r := NewListing(draft, farmer, stamp, now);
    db.produce := [r] + db.produce;
  }

  /** `updateProduce`: the first listing with the id is merged with the update; `None` when there is none. */
  method UpdateProduce(db: Db, id: string, u: ProducePatch, now: int) returns (r: Option<Produce>)
    modifies db`produce
    ensures db.produce == UpdatedTable(old(db.produce), id, u, now)
    ensures r.None? <==> forall p :: p in old(db.produce) ==> p.id != id
    ensures r.Some? ==> r.value == db.produce[IndexOfId(old(db.produce), id)]
  {
    var k := IndexOfId(db.produce, id);
    if k != -1 {
      db.produce := db.produce[k := Merge(db.produce[k], u, now)];
      r := Some(db.produce[k]);
    } else {
      r := None;
    }
  }

  /** `deleteProduce`: the first listing with the id is spliced out; `false` when there is none. */
  method DeleteProduce(db: Db, id: string) returns (deleted: bool)
    modifies db`produce
    ensures deleted <==> IndexOfId(old(db.produce), id) >= 0
    ensures deleted ==> db.produce == RemoveAt(old(db.produce), IndexOfId(old(db.produce), id))
    ensures !deleted ==> db.produce == old(db.produce)
  {
    var k := IndexOfId(db.produce, id);
    if k != -1 {
      db.produce := db.produce[..k] + db.produce[k + 1..];
      deleted := true;
    } else {
      deleted := false;
    }
  }
}
