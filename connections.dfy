/**
 * What the buyer's and the farmer's connections pages share: the set of
 * people the user has a conversation with, the users of the other role in
 * that set (in table order), the first conversation shared with each of them,
 * and the "newest interaction first" order with a missing date counted as 0.
 */
module Connections {
  import opened Wrappers
  import opened Types
  import opened Lists
  import opened Sorting

  /** The other participants of `c`, when `meId` takes part in it. */
  function Others(c: Conversation, meId: string): set<string> {
    if meId in c.participantIds then set p | p in c.participantIds && p != meId else {}
  }

  /** Everyone the user shares a conversation with, built up conversation by conversation. */
  function Counterparts(convos: seq<Conversation>, meId: string): set<string> {
    if convos == [] then {}
    else Counterparts(convos[..|convos| - 1], meId) + Others(convos[|convos| - 1], meId)
  }

  /** A counterpart is another participant of one of the user's conversations, and nothing else is. */
  lemma {:induction false} CounterpartsMeaning(convos: seq<Conversation>, meId: string, p: string)
    ensures p in Counterparts(convos, meId) <==>
      exists c :: c in convos && meId in c.participantIds && p in c.participantIds && p != meId
  {
    if convos != [] {
      var init, last := convos[..|convos| - 1], convos[|convos| - 1];
      assert convos == init + [last];
      CounterpartsMeaning(init, meId, p);
      if p in Counterparts(convos, meId) && p !in Counterparts(init, meId) {
        assert last in convos && meId in last.participantIds && p in last.participantIds && p != meId;
      }
      if exists c :: c in convos && meId in c.participantIds && p in c.participantIds && p != meId {
        var c :| c in convos && meId in c.participantIds && p in c.participantIds && p != meId;
        if c != last {
          assert c in init;
        }
      }
    }
  }

  /** The user never counts as their own counterpart. */
  lemma NotOwnCounterpart(convos: seq<Conversation>, meId: string)
    ensures meId !in Counterparts(convos, meId)
  {
    CounterpartsMeaning(convos, meId, meId);
  }

  /** The `forEach` over the conversations that fills the id set. */
  method CollectCounterparts(convos: seq<Conversation>, meId: string) returns (ids: set<string>)
    ensures ids == Counterparts(convos, meId)
  {
    ids := {};
    var i := 0;
    while i < |convos|
      invariant 0 <= i <= |convos|
      invariant ids == Counterparts(convos[..i], meId)
    {
      var c := convos[i];
      assert convos[..i + 1][..i] == convos[..i];
      if meId in c.participantIds {
        var ps := c.participantIds;
        var j := 0;
        ghost var before := ids;
        while j < |ps|
          invariant 0 <= j <= |ps|
          invariant ids == before + set p | p in ps[..j] && p != meId
        {
          assert ps[..j + 1] == ps[..j] + [ps[j]];
          if ps[j] != meId {
            ids := ids + {ps[j]};
          }
          j := j + 1;
        }
        assert ps[..j] == ps;
      }
      i := i + 1;
    }
    assert convos[..i] == convos;
  }

  /** The user and `otherId` both take part. */
  function Shared(meId: string, otherId: string): Conversation -> bool {
    (c: Conversation) => meId in c.participantIds && otherId in c.participantIds
  }

  /** The first conversation the two share. */
  function Relevant(convos: seq<Conversation>, meId: string, otherId: string): (r: Option<Conversation>)
    ensures r.Some? ==> r.value in convos && meId in r.value.participantIds && otherId in r.value.participantIds
    ensures r.Some? ==> var k := FirstIndex(convos, Shared(meId, otherId)); 0 <= k && r.value == convos[k]
    ensures r.None? ==> forall c :: c in convos ==> !(meId in c.participantIds && otherId in c.participantIds)
  {
    Find(convos, Shared(meId, otherId))
  }

  /** `relevantConversation?.updatedAt`. */
  function LastInteraction(r: Option<Conversation>): (t: Option<int>)
    ensures t.Some? <==> r.Some?
    ensures r.Some? ==> t.value == r.value.updatedAt
  {
    match r
    case None => None
    case Some(c) => Some(c.updatedAt)
  }

  /** The conversation ends with a message from `otherId` that is still unread. */
  predicate AwaitsReply(r: Option<Conversation>, otherId: string) {
    r.Some? && r.value.lastMessage.Some? && r.value.lastMessage.value.senderId == otherId
      && !r.value.lastMessage.value.read
  }

  /** The sort key: the interaction time, or 0 when there is none. */
  function InteractionTime(t: Option<int>): int {
    match t
    case None => 0
    case Some(v) => v
  }

  /** A user of `role` whose id is among `ids`. */
  function Eligible(ids: set<string>, role: UserRole): User -> bool {
    (u: User) => u.role == role && u.id in ids
  }

  /** `s.map(make)`. */
  function MapSeq<A, B>(s: seq<A>, make: A -> B): (r: seq<B>)
    ensures |r| == |s|
    ensures forall i :: 0 <= i < |s| ==> r[i] == make(s[i])
  {
    if s == [] then [] else [make(s[0])] + MapSeq(s[1..], make)
  }

  lemma MapSeqConcat<A, B>(a: seq<A>, b: seq<A>, make: A -> B)
    ensures MapSeq(a + b, make) == MapSeq(a, make) + MapSeq(b, make)
  {
  }

  /** One record per eligible user, in the order of the user table. */
  function Connected<C>(users: seq<User>, ids: set<string>, role: UserRole, make: User -> C): (r: seq<C>)
    ensures |r| <= |users|
  {
    MapSeq(Filter(users, Eligible(ids, role)), make)
  }

  /** The records are exactly those of the users of `role` whose ids are among `ids`. */
  lemma ConnectedMembers<C>(users: seq<User>, ids: set<string>, role: UserRole, make: User -> C)
    ensures var r := Connected(users, ids, role, make);
      && (forall x :: x in r ==> exists u :: u in users && u.role == role && u.id in ids && x == make(u))
      && (forall u :: u in users && u.role == role && u.id in ids ==> make(u) in r)
  {
    var chosen := Filter(users, Eligible(ids, role));
    var r := MapSeq(chosen, make);
    forall x | x in r ensures exists u :: u in users && u.role == role && u.id in ids && x == make(u) {
      var i :| 0 <= i < |r| && r[i] == x;
      assert chosen[i] in chosen;
    }
    forall u | u in users && u.role == role && u.id in ids ensures make(u) in r {
      var i :| 0 <= i < |chosen| && chosen[i] == u;
      assert r[i] == make(u);
    }
  }

  /** One more user adds a record exactly when that user is eligible. */
  lemma ConnectedStep<C>(prefix: seq<User>, u: User, ids: set<string>, role: UserRole, make: User -> C)
    ensures Connected(prefix + [u], ids, role, make)
      == Connected(prefix, ids, role, make) + (if u.role == role && u.id in ids then [make(u)] else [])
  {
    FilterConcat(prefix, [u], Eligible(ids, role));
    MapSeqConcat(Filter(prefix, Eligible(ids, role)), Filter([u], Eligible(ids, role)), make);
  }

  /** The `forEach` over the users that pushes one record per eligible user. */
  method CollectConnections<C>(users: seq<User>, ids: set<string>, role: UserRole, make: User -> C) returns (r: seq<C>)
    ensures r == Connected(users, ids, role, make)
  {
    r := [];
    var k := 0;
    while k < |users|
      invariant 0 <= k <= |users|
      invariant r == Connected(users[..k], ids, role, make)
    {
      var u := users[k];
      assert users[..k + 1] == users[..k] + [u];
      ConnectedStep(users[..k], u, ids, role, make);
      if u.role == role && u.id in ids {
        r := r + [make(u)];
      }
      k := k + 1;
    }
    assert users[..k] == users;
  }

  /** No two users share an id. */
  predicate UniqueUserIds(users: seq<User>) {
    forall i, j :: 0 <= i < j < |users| ==> users[i].id != users[j].id
  }

  /** The users after the first keep unique ids, and none has the first one's id. */
  lemma UniqueTail(users: seq<User>)
    requires users != [] && UniqueUserIds(users)
    ensures UniqueUserIds(users[1..])
    ensures forall u :: u in users[1..] ==> u.id != users[0].id
  {
    var tail := users[1..];
    forall i, j | 0 <= i < j < |tail| ensures tail[i].id != tail[j].id {
      assert tail[i] == users[i + 1] && tail[j] == users[j + 1];
    }
    forall u | u in tail ensures u.id != users[0].id {
      var j :| 0 <= j < |tail| && tail[j] == u;
      assert users[j + 1] == u;
    }
  }

  /** A user whose id no one else has can go in front of users with unique ids. */
  lemma UniqueCons(h: User, t: seq<User>)
    requires UniqueUserIds(t)
    requires forall u :: u in t ==> u.id != h.id
    ensures UniqueUserIds([h] + t)
  {
    var r := [h] + t;
    forall i, j | 0 <= i < j < |r| ensures r[i].id != r[j].id {
      if i == 0 {
        assert r[j] == t[j - 1] && t[j - 1] in t;
      } else {
        assert r[i] == t[i - 1] && r[j] == t[j - 1];
      }
    }
  }

  /** Filtering keeps ids unique. */
  lemma {:induction false} FilterKeepsUniqueIds(users: seq<User>, p: User -> bool)
    requires UniqueUserIds(users)
    ensures UniqueUserIds(Filter(users, p))
  {
    if users != [] {
      var tail := users[1..];
      UniqueTail(users);
      FilterKeepsUniqueIds(tail, p);
      assert users == [users[0]] + tail;
      FilterConcat([users[0]], tail, p);
      if p(users[0]) {
        assert Filter(users, p) == [users[0]] + Filter(tail, p);
        UniqueCons(users[0], Filter(tail, p));
      } else {
        assert Filter(users, p) == Filter(tail, p);
      }
    }
  }

  /** With unique user ids, each counterpart gets one record: records keyed by user id are distinct. */
  lemma ConnectedOncePerUser<C>(users: seq<User>, ids: set<string>, role: UserRole,
                                make: User -> C, key: C -> string)
    requires UniqueUserIds(users)
    requires forall u :: key(make(u)) == u.id
    ensures DistinctBy(Connected(users, ids, role, make), key)
  {
    var chosen := Filter(users, Eligible(ids, role));
    FilterKeepsUniqueIds(users, Eligible(ids, role));
    var r := MapSeq(chosen, make);
    forall i, j | 0 <= i < j < |r| ensures key(r[i]) != key(r[j]) {
      assert key(r[i]) == chosen[i].id && key(r[j]) == chosen[j].id;
    }
  }
}
