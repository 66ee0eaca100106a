/** The follow graph kept in the `users` documents by the relationships
    hook: `followUser` and `unfollowUser` are two sequential document
    updates (the signed-in user's document, then the target's), each
    combining an `increment` of a counter with an `arrayUnion` or
    `arrayRemove` of a member list; a live subscription maps the viewed
    user's document to the hook's counters and `following` flag. */
module Relationships {
  import opened Common
  import opened Store

  // ---------------------------------------------------------------------
  // The four document updates

  function FollowActorDoc(d: UserDoc, target: Uid): UserDoc {
    d.(following := Increment(d.following, 1), followingList := ArrayUnion(d.followingList, target))
  }

  function FollowTargetDoc(d: UserDoc, actor: Uid): UserDoc {
    d.(followers := Increment(d.followers, 1), followedBy := ArrayUnion(d.followedBy, actor))
  }

  function UnfollowActorDoc(d: UserDoc, target: Uid): UserDoc {
    d.(following := Increment(d.following, -1), followingList := ArrayRemove(d.followingList, target))
  }

  function UnfollowTargetDoc(d: UserDoc, actor: Uid): UserDoc {
    d.(followers := Increment(d.followers, -1), followedBy := ArrayRemove(d.followedBy, actor))
  }

  /** The `users` collection after the two writes, and whether both went
      through (only then does the hook set its `following` flag). */
  datatype Writes = Writes(users: map<Uid, UserDoc>, complete: bool)

  /** `followUser` as store transitions. `updateDoc` fails on an absent
      document; `firstOk` and `secondOk` are the transport outcomes of the
      two writes. A failed first write stops before the second. */
  function Follow(users: map<Uid, UserDoc>, actor: Uid, target: Uid, firstOk: bool, secondOk: bool): (r: Writes)
    ensures r.users.Keys == users.Keys
    ensures r.complete <==> firstOk && secondOk && actor in users && target in users
    ensures forall u :: u in users && u != actor && u != target ==> r.users[u] == users[u]
    ensures !(firstOk && actor in users) ==> r.users == users
    // the first write lands whenever it can, whatever happens to the second
    ensures firstOk && actor in users ==>
      && target in r.users[actor].followingList
      && (actor != target ==>
            CounterValue(r.users[actor].following) == CounterValue(users[actor].following) + 1)
    // a failed second write leaves the target's document as it was
    ensures firstOk && actor in users && !r.complete && target in users && target != actor ==>
      r.users[target] == users[target]
    ensures r.complete && actor != target ==>
      && CounterValue(r.users[target].followers) == CounterValue(users[target].followers) + 1
      && actor in r.users[target].followedBy
  {
    if !(firstOk && actor in users) then Writes(users, false)
    else
      var afterFirst := users[actor := FollowActorDoc(users[actor], target)];
      if !(secondOk && target in afterFirst) then Writes(afterFirst, false)
      else Writes(afterFirst[target := FollowTargetDoc(afterFirst[target], actor)], true)
  }

  /** `unfollowUser` as store transitions, with the same failure shape. */
  function Unfollow(users: map<Uid, UserDoc>, actor: Uid, target: Uid, firstOk: bool, secondOk: bool): (r: Writes)
    ensures r.users.Keys == users.Keys
    ensures r.complete <==> firstOk && secondOk && actor in users && target in users
    ensures forall u :: u in users && u != actor && u != target ==> r.users[u] == users[u]
    ensures !(firstOk && actor in users) ==> r.users == users
    ensures firstOk && actor in users ==>
      && target !in r.users[actor].followingList
      && (actor != target ==>
            CounterValue(r.users[actor].following) == CounterValue(users[actor].following) - 1)
    ensures firstOk && actor in users && !r.complete && target in users && target != actor ==>
      r.users[target] == users[target]
    ensures r.complete && actor != target ==>
      && CounterValue(r.users[target].followers) == CounterValue(users[target].followers) - 1
      && actor !in r.users[target].followedBy
  {
    if !(firstOk && actor in users) then Writes(users, false)
    else
      var afterFirst := users[actor := UnfollowActorDoc(users[actor], target)];
      if !(secondOk && target in afterFirst) then Writes(afterFirst, false)
      else Writes(afterFirst[target := UnfollowTargetDoc(afterFirst[target], actor)], true)
  }

  // ---------------------------------------------------------------------
  // Counters against member lists

  /** The counters equal the sizes of duplicate-free member lists. */
  ghost predicate CountersMatch(d: UserDoc) {
    && NoDuplicates(d.followingList) && NoDuplicates(d.followedBy)
    && CounterValue(d.following) == |d.followingList|
    && CounterValue(d.followers) == |d.followedBy|
  }

  /** Every `followingList` edge has its mirror in `followedBy`. */
  ghost predicate EdgesAgree(users: map<Uid, UserDoc>) {
    forall a, b :: a in users && b in users ==>
      (b in users[a].followingList <==> a in users[b].followedBy)
  }

  ghost predicate GraphConsistent(users: map<Uid, UserDoc>) {
    && (forall u :: u in users ==> CountersMatch(users[u]))
    && EdgesAgree(users)
  }

  /** The document of `u` after a completed follow. */
  lemma FollowResultDoc(users: map<Uid, UserDoc>, actor: Uid, target: Uid, u: Uid)
    requires actor in users && target in users && u in users
    ensures Follow(users, actor, target, true, true).users[u] ==
      if u == actor && u == target then FollowTargetDoc(FollowActorDoc(users[u], u), u)
      else if u == actor then FollowActorDoc(users[u], target)
      else if u == target then FollowTargetDoc(users[u], actor)
      else users[u]
  {
  }

  /** The document of `u` after a completed unfollow. */
  lemma UnfollowResultDoc(users: map<Uid, UserDoc>, actor: Uid, target: Uid, u: Uid)
    requires actor in users && target in users && u in users
    ensures Unfollow(users, actor, target, true, true).users[u] ==
      if u == actor && u == target then UnfollowTargetDoc(UnfollowActorDoc(users[u], u), u)
      else if u == actor then UnfollowActorDoc(users[u], target)
      else if u == target then UnfollowTargetDoc(users[u], actor)
      else users[u]
  {
  }

  /** Follow keeps the graph consistent when the target was not yet
      followed and both writes go through. Neither condition is checked by
      the client. */
  lemma FollowPreservesConsistency(users: map<Uid, UserDoc>, actor: Uid, target: Uid)
    requires GraphConsistent(users)
    requires actor in users && target in users
    requires target !in users[actor].followingList
    ensures GraphConsistent(Follow(users, actor, target, true, true).users)
  {
    var r := Follow(users, actor, target, true, true).users;
    assert actor !in users[target].followedBy;
    forall u | u in r ensures CountersMatch(r[u]) {
      FollowResultDoc(users, actor, target, u);
    }
    forall a, b | a in r && b in r
      ensures b in r[a].followingList <==> a in r[b].followedBy
    {
      FollowResultDoc(users, actor, target, a);
      FollowResultDoc(users, actor, target, b);
      assert b in r[a].followingList <==> b in users[a].followingList || (a == actor && b == target);
      assert a in r[b].followedBy <==> a in users[b].followedBy || (a == actor && b == target);
    }
  }

  /** Unfollow keeps the graph consistent when the target was followed and
      both writes go through. */
  lemma UnfollowPreservesConsistency(users: map<Uid, UserDoc>, actor: Uid, target: Uid)
    requires GraphConsistent(users)
    requires actor in users && target in users
    requires target in users[actor].followingList
    ensures GraphConsistent(Unfollow(users, actor, target, true, true).users)
  {
    var r := Unfollow(users, actor, target, true, true).users;
    assert actor in users[target].followedBy;
    forall u | u in r ensures CountersMatch(r[u]) {
      var d := users[u];
      UnfollowResultDoc(users, actor, target, u);
      if u == actor {
        RemoveMemberLength(d.followingList, target);
        RemovePreservesNoDuplicates(d.followingList, target);
      }
      if u == target {
        RemoveMemberLength(d.followedBy, actor);
        RemovePreservesNoDuplicates(d.followedBy, actor);
      }
    }
    forall a, b | a in r && b in r
      ensures b in r[a].followingList <==> a in r[b].followedBy
    {
      UnfollowResultDoc(users, actor, target, a);
      UnfollowResultDoc(users, actor, target, b);
      assert b in r[a].followingList <==> b in users[a].followingList && !(a == actor && b == target);
      assert a in r[b].followedBy <==> a in users[b].followedBy && !(a == actor && b == target);
    }
  }

  /** With no membership guard, following twice leaves the second follow's
      increments without a matching list entry: both counters end one above
      the list sizes. */
  lemma RepeatedFollowOvercounts(users: map<Uid, UserDoc>, actor: Uid, target: Uid)
    requires GraphConsistent(users)
    requires actor in users && target in users && actor != target
    requires target !in users[actor].followingList
    ensures var twice := Follow(Follow(users, actor, target, true, true).users, actor, target, true, true).users;
      && CounterValue(twice[actor].following) == |twice[actor].followingList| + 1
      && CounterValue(twice[target].followers) == |twice[target].followedBy| + 1
  {
    FollowPreservesConsistency(users, actor, target);
    var once := Follow(users, actor, target, true, true).users;
    assert CountersMatch(once[actor]) && CountersMatch(once[target]);
    ArrayUnionIdempotent(once[actor].followingList, target);
    ArrayUnionIdempotent(once[target].followedBy, actor);
  }

  /** A repeated follow changes no membership: `arrayUnion` is idempotent,
      while each call still adds one to both counters. */
  lemma RepeatedFollowSameMembership(users: map<Uid, UserDoc>, actor: Uid, target: Uid)
    requires actor in users && target in users
    ensures var once := Follow(users, actor, target, true, true).users;
      var twice := Follow(once, actor, target, true, true).users;
      && twice[actor].followingList == once[actor].followingList
      && twice[target].followedBy == once[target].followedBy
      && CounterValue(twice[actor].following) == CounterValue(once[actor].following) + 1
      && CounterValue(twice[target].followers) == CounterValue(once[target].followers) + 1
  {
    var once := Follow(users, actor, target, true, true).users;
    ArrayUnionIdempotent(once[actor].followingList, target);
    ArrayUnionIdempotent(once[target].followedBy, actor);
    if actor == target {
      ArrayUnionIdempotent(FollowActorDoc(once[actor], target).followedBy, actor);
    }
  }

  /** There is no clamp at zero: unfollowing from zero counters leaves -1. */
  lemma UnfollowFromZeroGoesNegative(users: map<Uid, UserDoc>, actor: Uid, target: Uid)
    requires actor in users && target in users && actor != target
    requires CounterValue(users[actor].following) == 0 && CounterValue(users[target].followers) == 0
    ensures var r := Unfollow(users, actor, target, true, true);
      && r.complete
      && CounterValue(r.users[actor].following) == -1
      && CounterValue(r.users[target].followers) == -1
  {
  }

  /** The writes are not atomic: when the second fails, the first stays and
      the edge exists on one side only. */
  lemma PartialFollowBreaksEdgeAgreement(users: map<Uid, UserDoc>, actor: Uid, target: Uid)
    requires actor in users && target in users && actor != target
    requires actor !in users[target].followedBy
    ensures var r := Follow(users, actor, target, true, false);
      && !r.complete
      && target in r.users[actor].followingList
      && actor !in r.users[target].followedBy
      && !EdgesAgree(r.users)
  {
  }

  lemma ActorRoundTrip(d: UserDoc, target: Uid)
    requires target !in d.followingList
    ensures var e := UnfollowActorDoc(FollowActorDoc(d, target), target);
      && e.followingList == d.followingList
      && CounterValue(e.following) == CounterValue(d.following)
      && (d.following.Some? ==> e == d)
  {
    RemoveUndoesUnion(d.followingList, target);
  }

  lemma TargetRoundTrip(d: UserDoc, actor: Uid)
    requires actor !in d.followedBy
    ensures var e := UnfollowTargetDoc(FollowTargetDoc(d, actor), actor);
      && e.followedBy == d.followedBy
      && CounterValue(e.followers) == CounterValue(d.followers)
      && (d.followers.Some? ==> e == d)
  {
    RemoveUndoesUnion(d.followedBy, actor);
  }

  /** The completed writes of a follow or unfollow between two users, as
      document replacements. */
  lemma CompletedWritesBetweenTwo(users: map<Uid, UserDoc>, actor: Uid, target: Uid)
    requires actor in users && target in users && actor != target
    ensures Follow(users, actor, target, true, true).users
      == users[actor := FollowActorDoc(users[actor], target)][target := FollowTargetDoc(users[target], actor)]
    ensures Unfollow(users, actor, target, true, true).users
      == users[actor := UnfollowActorDoc(users[actor], target)][target := UnfollowTargetDoc(users[target], actor)]
  {
  }

  /** Follow then unfollow, from a pair with no edge, puts back both
      member lists and both counter values; documents whose counters were
      present come back unchanged. */
  lemma FollowThenUnfollowRestores(users: map<Uid, UserDoc>, actor: Uid, target: Uid)
    requires actor in users && target in users
    requires target !in users[actor].followingList && actor !in users[target].followedBy
    ensures var mid := Follow(users, actor, target, true, true).users;
      var after := Unfollow(mid, actor, target, true, true).users;
      && after[actor].followingList == users[actor].followingList
      && after[target].followedBy == users[target].followedBy
      && CounterValue(after[actor].following) == CounterValue(users[actor].following)
      && CounterValue(after[target].followers) == CounterValue(users[target].followers)
      && (users[actor].following.Some? && users[target].followers.Some? ==> after == users)
  {
    if actor == target {
      SelfFollowThenUnfollowRestores(users, actor);
    } else {
      var d := users[actor];
      var t := users[target];
      PairRoundTripWrites(users, actor, target);
      ActorRoundTrip(d, target);
      TargetRoundTrip(t, actor);
      if d.following.Some? && t.followers.Some? {
        UpdateSame(users, actor);
        UpdateSame(users, target);
      }
    }
  }

  /** A completed follow and a completed unfollow between two users
      rewrite exactly their two documents. */
  lemma PairRoundTripWrites(users: map<Uid, UserDoc>, actor: Uid, target: Uid)
    requires actor in users && target in users && actor != target
    ensures Unfollow(Follow(users, actor, target, true, true).users, actor, target, true, true).users
      == users[actor := UnfollowActorDoc(FollowActorDoc(users[actor], target), target)]
              [target := UnfollowTargetDoc(FollowTargetDoc(users[target], actor), actor)]
  {
    var a1 := FollowActorDoc(users[actor], target);
    var t1 := FollowTargetDoc(users[target], actor);
    CompletedWritesBetweenTwo(users, actor, target);
    var mid := users[actor := a1][target := t1];
    CompletedWritesBetweenTwo(mid, actor, target);
    UpdatePairTwice(users, actor, target, a1, t1, UnfollowActorDoc(a1, target), UnfollowTargetDoc(t1, actor));
  }

  lemma UpdatePairTwice(users: map<Uid, UserDoc>, a: Uid, b: Uid, x1: UserDoc, y1: UserDoc, x2: UserDoc, y2: UserDoc)
    requires a != b
    ensures users[a := x1][b := y1][a := x2][b := y2] == users[a := x2][b := y2]
  {
  }

  lemma UpdateSame(users: map<Uid, UserDoc>, k: Uid)
    requires k in users
    ensures users[k := users[k]] == users
  {
  }

  lemma SelfFollowThenUnfollowRestores(users: map<Uid, UserDoc>, me: Uid)
    requires me in users
    requires me !in users[me].followingList && me !in users[me].followedBy
    ensures var mid := Follow(users, me, me, true, true).users;
      var after := Unfollow(mid, me, me, true, true).users;
      && after[me].followingList == users[me].followingList
      && after[me].followedBy == users[me].followedBy
      && CounterValue(after[me].following) == CounterValue(users[me].following)
      && CounterValue(after[me].followers) == CounterValue(users[me].followers)
      && (users[me].following.Some? && users[me].followers.Some? ==> after == users)
  {
    var d := users[me];
    SelfRoundTripWrites(users, me);
    SelfDocRoundTrip(d, me);
    if d.following.Some? && d.followers.Some? {
      assert users[me := d] == users;
    }
  }

  /** A self-follow and a self-unfollow, both completed, rewrite one
      document. */
  lemma SelfRoundTripWrites(users: map<Uid, UserDoc>, me: Uid)
    requires me in users
    ensures Unfollow(Follow(users, me, me, true, true).users, me, me, true, true).users
      == users[me := UnfollowTargetDoc(UnfollowActorDoc(FollowTargetDoc(FollowActorDoc(users[me], me), me), me), me)]
  {
    var m := FollowTargetDoc(FollowActorDoc(users[me], me), me);
    var mid := Follow(users, me, me, true, true).users;
    SelfFollowWrite(users, me);
    SelfUnfollowWrite(mid, me);
    UpdateTwice(users, me, m, UnfollowTargetDoc(UnfollowActorDoc(m, me), me));
  }

  lemma UpdateTwice(users: map<Uid, UserDoc>, k: Uid, a: UserDoc, b: UserDoc)
    ensures users[k := a][k := b] == users[k := b]
  {
  }

  /** A completed self-follow rewrites one document. */
  lemma SelfFollowWrite(users: map<Uid, UserDoc>, me: Uid)
    requires me in users
    ensures Follow(users, me, me, true, true).users == users[me := FollowTargetDoc(FollowActorDoc(users[me], me), me)]
  {
  }

  /** A completed self-unfollow rewrites one document. */
  lemma SelfUnfollowWrite(users: map<Uid, UserDoc>, me: Uid)
    requires me in users
    ensures Unfollow(users, me, me, true, true).users == users[me := UnfollowTargetDoc(UnfollowActorDoc(users[me], me), me)]
  {
  }

  /** Self-follow then self-unfollow of one document. */
  lemma SelfDocRoundTrip(d: UserDoc, me: Uid)
    requires me !in d.followingList && me !in d.followedBy
    ensures var e := UnfollowTargetDoc(UnfollowActorDoc(FollowTargetDoc(FollowActorDoc(d, me), me), me), me);
      && e.followingList == d.followingList && e.followedBy == d.followedBy
      && CounterValue(e.following) == CounterValue(d.following)
      && CounterValue(e.followers) == CounterValue(d.followers)
      && (d.following.Some? && d.followers.Some? ==> e == d)
  {
    RemoveUndoesUnion(d.followingList, me);
    RemoveUndoesUnion(d.followedBy, me);
  }

  // ---------------------------------------------------------------------
  // The hook

  /** The subscription the hook's effect opens for a `userId`: none without
      a non-empty id or without a signed-in user. */
  function SubscriptionFor(userId: Option<string>, current: Option<Uid>): (r: Option<Uid>)
    ensures r.Some? <==> Present(userId) && current.Some?
    ensures r.Some? ==> r.value == userId.value
  {
    if Present(userId) && current.Some? then Some(userId.value) else None
  }

  class RelationshipsHook {
    var following: bool
    var followersCount: int
    var followingCount: int
    var loading: bool
    /** The `users` document the live subscription listens to, if any. */
    var subscription: Option<Uid>

    constructor (userId: Option<string>, current: Option<Uid>)
      ensures !following && followersCount == 0 && followingCount == 0 && loading
      ensures subscription == SubscriptionFor(userId, current)
    {
      following, followersCount, followingCount, loading := false, 0, 0, true;
      subscription := SubscriptionFor(userId, current);
    }

    /** A new `userId`: the effect's cleanup closes the old subscription and
        the effect opens the new one. The displayed state is kept. */
    method ChangeUserId(userId: Option<string>, current: Option<Uid>)
      modifies this`subscription
      ensures subscription == SubscriptionFor(userId, current)
    {
      subscription := None;
      subscription := SubscriptionFor(userId, current);
    }

    /** Unmount: the cleanup closes the subscription. */
    method Unmount()
      modifies this`subscription
      ensures subscription.None?
    {
      subscription := None;
    }

    /** A snapshot of the subscribed document. Missing counters read as 0;
        `following` is whether the signed-in user is in `followedBy`; an
        absent document only clears `loading`. */
    method OnSnapshot(store: DocumentStore, current: Option<Uid>)
      modifies this`following, this`followersCount, this`followingCount, this`loading
      ensures subscription.None? ==>
        following == old(following) && followersCount == old(followersCount)
        && followingCount == old(followingCount) && loading == old(loading)
      ensures subscription.Some? ==> !loading
      ensures subscription.Some? && subscription.value in store.users ==>
        var d := store.users[subscription.value];
        && followersCount == CounterValue(d.followers)
        && followingCount == CounterValue(d.following)
        && (following <==> current.Some? && current.value in d.followedBy)
      ensures subscription.Some? && subscription.value !in store.users ==>
        following == old(following) && followersCount == old(followersCount)
        && followingCount == old(followingCount)
    {
      if subscription.None? {
        return;
      }
      var id := subscription.value;
      if id in store.users {
        var d := store.users[id];
        followersCount := CounterValue(d.followers);
        followingCount := CounterValue(d.following);
        following := current.Some? && current.value in d.followedBy;
      }
      loading := false;
    }

    /** `followUser(target)`. Nothing happens without a signed-in user; an
        error from either write is only logged, and `following` becomes
        true only once both writes are done. */
    method FollowUser(store: DocumentStore, current: Option<Uid>, target: Uid, firstOk: bool, secondOk: bool)
      modifies this`following, store`users
      ensures current.None? ==> store.users == old(store.users) && following == old(following)
      ensures current.Some? ==>
        var w := Follow(old(store.users), current.value, target, firstOk, secondOk);
        && store.users == w.users
        && following == (if w.complete then true else old(following))
    {
      if current.None? {
        return;
      }
      var me := current.value;
      if !(firstOk && me in store.users) {
        return;
      }
      store.users := store.users[me := FollowActorDoc(store.users[me], target)];
      if !(secondOk && target in store.users) {
        return;
      }
      store.users := store.users[target := FollowTargetDoc(store.users[target], me)];
      following := true;
    }

    /** `unfollowUser(target)`, the mirror image: `following` becomes false
        only once both writes are done. */
    method UnfollowUser(store: DocumentStore, current: Option<Uid>, target: Uid, firstOk: bool, secondOk: bool)
      modifies this`following, store`users
      ensures current.None? ==> store.users == old(store.users) && following == old(following)
      ensures current.Some? ==>
        var w := Unfollow(old(store.users), current.value, target, firstOk, secondOk);
        && store.users == w.users
        && following == (if w.complete then false else old(following))
    {
      if current.None? {
        return;
      }
      var me := current.value;
      if !(firstOk && me in store.users) {
        return;
      }
      store.users := store.users[me := UnfollowActorDoc(store.users[me], target)];
      if !(secondOk && target in store.users) {
        return;
      }
      store.users := store.users[target := UnfollowTargetDoc(store.users[target], me)];
      following := false;
    }
  }
}
