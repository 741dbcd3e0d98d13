/**
 * The farmer's "My Produce" page: a local copy of the farmer's listings,
 * filtered by status and a search term, with delete and status-toggle actions
 * that go to the produce service and then patch the local copy.
 */
module MyProducePage {
  import opened Wrappers
  import opened Types
  import opened Text
  import opened Lists
  import opened MockData
  import opened ProduceService

  const NO_LISTINGS := "You haven't listed any produce yet. Let's get started!"
  const NO_MATCHES := "No produce matches your current filters. Try adjusting your search."

  /** The status filter: `None` is "All Statuses". */
  predicate ShownByStatus(p: Produce, status: Option<ProduceStatus>) {
    status.None? || p.status == status.value
  }

  /** The search term occurs in the name or the category, ignoring case. */
  predicate MatchesSearch(p: Produce, term: string) {
    Contains(Lower(p.name), Lower(term)) || Contains(Lower(p.category), Lower(term))
  }

  /** The rows the page shows. */
  function FilteredProduce(list: seq<Produce>, status: Option<ProduceStatus>, term: string): (r: seq<Produce>)
    ensures forall p :: p in r ==> p in list && ShownByStatus(p, status) && MatchesSearch(p, term)
    ensures forall p :: p in list && ShownByStatus(p, status) && MatchesSearch(p, term) ==> p in r
    ensures IsSubseq(r, list)
  {
    var byStatus := Filter(list, (p: Produce) => ShownByStatus(p, status));
    var r := Filter(byStatus, (p: Produce) => MatchesSearch(p, term));
    IsSubseqTrans(r, byStatus, list);
    r
  }

  /** With "All Statuses" and an empty search box every listing shows. */
  lemma NoFilterShowsAll(list: seq<Produce>)
    ensures FilteredProduce(list, None, "") == list
  {
    forall p: Produce ensures MatchesSearch(p, "") {
      assert OccursAt(Lower(p.name), Lower(""), 0);
    }
    FilterAll(list, (p: Produce) => ShownByStatus(p, None));
    FilterAll(list, (p: Produce) => MatchesSearch(p, ""));
  }

  /** The message shown instead of an empty table. */
  function EmptyStateText(list: seq<Produce>, shown: seq<Produce>): (r: Option<string>)
    ensures r.None? <==> shown != []
    ensures r == Some(NO_LISTINGS) <==> shown == [] && list == []
    ensures r == Some(NO_MATCHES) <==> shown == [] && list != []
  {
    if shown != [] then None else if list == [] then Some(NO_LISTINGS) else Some(NO_MATCHES)
  }

  /** `prevList.map(p => p.id === id ? updated : p)`. */
  function ReplaceById(list: seq<Produce>, id: string, updated: Produce): (r: seq<Produce>)
    ensures |r| == |list|
    ensures forall i :: 0 <= i < |r| ==> r[i] == if list[i].id == id then updated else list[i]
  {
    if list == [] then []
    else [if list[0].id == id then updated else list[0]] + ReplaceById(list[1..], id, updated)
  }

  class MyProduceView {
    const user: Option<User>
    var list: seq<Produce>
    var status: Option<ProduceStatus>
    var searchTerm: string

    /** The local copy is the signed-in farmer's slice of the table. */
    ghost predicate InSync(db: Db)
      reads this, db
    {
      user.Some? ==> list == ForFarmer(db.produce, user.value.id)
    }

    constructor (user: Option<User>)
      ensures this.user == user && list == [] && status.None? && searchTerm == ""
    {
      this.user := user;
      list := [];
      status := None;
      searchTerm := "";
    }

    /** The rows currently shown. */
    function Shown(): seq<Produce>
      reads this
    {
      FilteredProduce(list, status, searchTerm)
    }

    /** `fetchFarmerProduce`: nothing without a user, else the farmer's listings. */
    method Fetch(db: Db)
      modifies this
      ensures user.Some? ==> list == ForFarmer(db.produce, user.value.id)
      ensures user.None? ==> list == old(list)
      ensures status == old(status) && searchTerm == old(searchTerm)
      ensures InSync(db)
    {
      if user.Some? {
        list := ForFarmer(db.produce, user.value.id);
      }
    }

    /**
     * `handleDelete`: after the confirmation the listing is deleted in the
     * table and every row with its id is dropped from the local copy.
     */
    method HandleDelete(db: Db, id: string, confirmed: bool)
      modifies this, db`produce
      ensures !confirmed ==> list == old(list) && db.produce == old(db.produce)
      ensures confirmed ==> list == Filter(old(list), NotId(id))
      ensures confirmed && IndexOfId(old(db.produce), id) >= 0 ==>
        db.produce == RemoveAt(old(db.produce), IndexOfId(old(db.produce), id))
      ensures confirmed && IndexOfId(old(db.produce), id) == -1 ==> db.produce == old(db.produce)
      ensures old(InSync(db)) && UniqueIds(old(db.produce)) ==> InSync(db) && UniqueIds(db.produce)
      ensures status == old(status) && searchTerm == old(searchTerm)
    {
      if confirmed {
        ghost var before := db.produce;
        var _ := DeleteProduce(db, id);
        list := Filter(list, NotId(id));
        if user.Some? && UniqueIds(before) && old(list) == ForFarmer(before, user.value.id) {
          DeleteStaysInSync(before, id, user.value.id);
        }
        if UniqueIds(before) && IndexOfId(before, id) >= 0 {
          DeleteRemovesId(before, id);
        }
      }
    }

    /** `handleToggleStatus`: the listing's status is updated and the returned record replaces its row. */
    method HandleToggleStatus(db: Db, id: string, newStatus: ProduceStatus, now: int)
      modifies this, db`produce
      ensures db.produce == UpdatedTable(old(db.produce), id, StatusPatch(newStatus), now)
      ensures var k := IndexOfId(old(db.produce), id);
        && (k >= 0 ==> list == ReplaceById(old(list), id, db.produce[k]))
        && (k == -1 ==> list == old(list))
      ensures old(InSync(db)) && UniqueIds(old(db.produce)) ==> InSync(db) && UniqueIds(db.produce)
      ensures status == old(status) && searchTerm == old(searchTerm)
    {
      ghost var before := db.produce;
      var updated := UpdateProduce(db, id, StatusPatch(newStatus), now);
      if updated.Some? {
        list := ReplaceById(list, id, updated.value);
      }
      if UniqueIds(before) {
        UpdateKeepsIds(before, id, StatusPatch(newStatus), now);
      }
      if user.Some? && UniqueIds(before) && old(list) == ForFarmer(before, user.value.id) {
        var k := IndexOfId(before, id);
        if k >= 0 {
          UpdateStaysInSync(before, id, Merge(before[k], StatusPatch(newStatus), now), user.value.id);
        }
      }
    }
  }

  function NotId(id: string): Produce -> bool {
    (p: Produce) => p.id != id
  }

  /** Dropping the first element keeps ids unique, and the head's id does not occur again. */
  lemma UniqueTail(s: seq<Produce>)
    requires UniqueIds(s) && s != []
    ensures UniqueIds(s[1..])
    ensures forall p :: p in s[1..] ==> p.id != s[0].id
  {
    forall p | p in s[1..] ensures p.id != s[0].id {
      var j :| 0 <= j < |s[1..]| && s[1..][j] == p;
      assert s[j + 1] == p;
    }
  }

  /** With unique ids, splicing out the listing with an id is filtering that id out. */
  lemma {:induction false} RemoveAtIsFilter(s: seq<Produce>, id: string)
    requires UniqueIds(s) && IndexOfId(s, id) >= 0
    ensures RemoveAt(s, IndexOfId(s, id)) == Filter(s, NotId(id))
  {
    var k := IndexOfId(s, id);
    UniqueTail(s);
    if k == 0 {
      assert RemoveAt(s, 0) == s[1..];
      FilterAll(s[1..], NotId(id));
    } else {
      assert RemoveAt(s, k) == [s[0]] + RemoveAt(s[1..], k - 1);
      assert IndexOfId(s[1..], id) == k - 1;
      RemoveAtIsFilter(s[1..], id);
    }
  }

  /** Deleting in the table and filtering the local copy keep the page in sync. */
  lemma DeleteStaysInSync(s: seq<Produce>, id: string, farmerId: string)
    requires UniqueIds(s)
    ensures var after := if IndexOfId(s, id) >= 0 then RemoveAt(s, IndexOfId(s, id)) else s;
      ForFarmer(after, farmerId) == Filter(ForFarmer(s, farmerId), NotId(id))
  {
    if IndexOfId(s, id) >= 0 {
      RemoveAtIsFilter(s, id);
      FilterCommute(s, NotId(id), OwnedBy(farmerId));
    } else {
      FilterAll(ForFarmer(s, farmerId), NotId(id));
    }
  }

  /** The farmer's listings of a table with a first row: that row, when it is theirs, then the rest. */
  lemma ForFarmerCons(h: Produce, t: seq<Produce>, farmerId: string)
    ensures ForFarmer([h] + t, farmerId) == (if h.farmerId == farmerId then [h] else []) + ForFarmer(t, farmerId)
  {
    FilterConcat([h], t, OwnedBy(farmerId));
  }

  /** Replacing by id works piece by piece. */
  lemma ReplaceByIdConcat(a: seq<Produce>, b: seq<Produce>, id: string, x: Produce)
    ensures ReplaceById(a + b, id, x) == ReplaceById(a, id, x) + ReplaceById(b, id, x)
  {
    var l, r := ReplaceById(a + b, id, x), ReplaceById(a, id, x) + ReplaceById(b, id, x);
    forall i | 0 <= i < |l| ensures l[i] == r[i] {
      if i >= |a| {
        assert (a + b)[i] == b[i - |a|];
      }
    }
  }

  /** The listing with the id heads the table: the page replaces it and nothing after it. */
  lemma HeadInSync(h: Produce, t: seq<Produce>, id: string, x: Produce, farmerId: string)
    requires h.id == id && x.id == id && x.farmerId == h.farmerId
    requires forall p :: p in t ==> p.id != id
    ensures ForFarmer([x] + t, farmerId) == ReplaceById(ForFarmer([h] + t, farmerId), id, x)
  {
    ForFarmerCons(x, t, farmerId);
    ForFarmerCons(h, t, farmerId);
    ReplaceByIdConcat(if h.farmerId == farmerId then [h] else [], ForFarmer(t, farmerId), id, x);
    ReplaceAbsent(ForFarmer(t, farmerId), id, x);
  }

  /** A first row without the id is kept on both sides. */
  lemma ConsInSync(h: Produce, t: seq<Produce>, t2: seq<Produce>, id: string, x: Produce, farmerId: string)
    requires h.id != id
    requires ForFarmer(t2, farmerId) == ReplaceById(ForFarmer(t, farmerId), id, x)
    ensures ForFarmer([h] + t2, farmerId) == ReplaceById(ForFarmer([h] + t, farmerId), id, x)
  {
    ForFarmerCons(h, t2, farmerId);
    ForFarmerCons(h, t, farmerId);
    ReplaceByIdConcat(if h.farmerId == farmerId then [h] else [], ForFarmer(t, farmerId), id, x);
  }

  /** Replacing the row at `k` in the table is replacing that row's id in the farmer's listings. */
  lemma {:induction false} UpdateAtInSync(s: seq<Produce>, k: nat, x: Produce, farmerId: string)
    requires UniqueIds(s) && k < |s|
    requires x.id == s[k].id && x.farmerId == s[k].farmerId
    ensures ForFarmer(s[k := x], farmerId) == ReplaceById(ForFarmer(s, farmerId), s[k].id, x)
  {
    var tail := s[1..];
    UniqueTail(s);
    assert s == [s[0]] + tail;
    if k == 0 {
      assert s[k := x] == [x] + tail;
      HeadInSync(s[0], tail, s[0].id, x, farmerId);
    } else {
      assert s[k := x] == [s[0]] + tail[k - 1 := x];
      assert tail[k - 1] == s[k];
      UpdateAtInSync(tail, k - 1, x, farmerId);
      ConsInSync(s[0], tail, tail[k - 1 := x], s[k].id, x, farmerId);
    }
  }

  /** Replacing the listing with an id in the table and in the local copy keep the page in sync. */
  lemma UpdateStaysInSync(s: seq<Produce>, id: string, x: Produce, farmerId: string)
    requires UniqueIds(s) && IndexOfId(s, id) >= 0
    requires x.id == id && x.farmerId == s[IndexOfId(s, id)].farmerId
    ensures ForFarmer(s[IndexOfId(s, id) := x], farmerId) == ReplaceById(ForFarmer(s, farmerId), id, x)
  {
    UpdateAtInSync(s, IndexOfId(s, id), x, farmerId);
  }

  /** Replacing an id that does not occur changes nothing. */
  lemma {:induction false} ReplaceAbsent(list: seq<Produce>, id: string, x: Produce)
    requires forall p :: p in list ==> p.id != id
    ensures ReplaceById(list, id, x) == list
  {
    if list != [] {
      assert forall p :: p in list[1..] ==> p in list;
      ReplaceAbsent(list[1..], id, x);
    }
  }
}
