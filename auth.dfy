/** The authentication hook: it listens to sign-in state changes and, for
    a signed-in user, creates the `users` profile on first sign-in or
    merges a `lastLogin` stamp into an existing one, before publishing the
    user and clearing `loading`. */
module Auth {
  import opened Common
  import opened Store
  import opened Relationships

  /** The fields of the signed-in user the hook reads. */
  datatype AuthUser = AuthUser(
    uid: Uid,
    email: Option<string>,
    displayName: Option<string>,
    photoURL: Option<string>,
    emailVerified: bool)

  /** The profile written on first sign-in; both timestamps are the same
      `serverTimestamp()` of one write. No `username`, no member lists. */
  function NewProfile(u: AuthUser, now: nat): (d: UserDoc)
    ensures d.uid == u.uid && d.email == StringOr(u.email, "")
    ensures d.displayName == u.displayName && d.photoURL == u.photoURL
    ensures d.username.None?
    ensures d.followers == Some(0) && d.following == Some(0)
    ensures d.followingList == [] && d.followedBy == []
    ensures d.totalViews == 0 && d.totalLikes == 0
    ensures !d.isVerified && d.bio == ""
    ensures d.preferences == Preferences(notifications := true, emailUpdates := true, privateAccount := false)
    ensures d.createdAt == Some(now) && d.updatedAt == Some(now) && d.lastLogin.None?
  {
    UserDoc(
      uid := u.uid, email := StringOr(u.email, ""), displayName := u.displayName,
      photoURL := u.photoURL, username := None, bio := "",
      followers := Some(0), following := Some(0), followingList := [], followedBy := [],
      totalViews := 0, totalLikes := 0, isVerified := false,
      preferences := Preferences(true, true, false), online := false,
      createdAt := Some(now), updatedAt := Some(now), lastLogin := None)
  }

  /** The profile write of a sign-in: create when absent, otherwise merge
      only `lastLogin`. */
  function SignInWrite(users: map<Uid, UserDoc>, u: AuthUser, now: nat): (r: map<Uid, UserDoc>)
    ensures r.Keys == users.Keys + {u.uid}
    ensures forall x :: x in users && x != u.uid ==> r[x] == users[x]
    ensures u.uid !in users ==> r[u.uid] == NewProfile(u, now)
    // a merge changes `lastLogin` and nothing else
    ensures u.uid in users ==>
      r[u.uid].lastLogin == Some(now) && r[u.uid].(lastLogin := users[u.uid].lastLogin) == users[u.uid]
  {
    if u.uid in users then users[u.uid := users[u.uid].(lastLogin := Some(now))]
    else users[u.uid := NewProfile(u, now)]
  }

  /** The first sign-in's profile satisfies the counter invariant of the
      follow graph. */
  lemma NewProfileCountersMatch(u: AuthUser, now: nat)
    ensures CountersMatch(NewProfile(u, now))
  {
    assert NoDuplicates([]);
  }

  /** A sign-in keeps the follow graph consistent, provided no existing
      member list already names the new user: a follow aimed at a user
      without a profile writes the actor's half of the edge and fails on
      the second write, and the profile created later has empty lists. */
  lemma {:induction false} SignInPreservesConsistency(users: map<Uid, UserDoc>, u: AuthUser, now: nat)
    requires GraphConsistent(users)
    requires u.uid !in users ==>
      forall a :: a in users ==> u.uid !in users[a].followingList && u.uid !in users[a].followedBy
    ensures GraphConsistent(SignInWrite(users, u, now))
  {
    var r := SignInWrite(users, u, now);
    NewProfileCountersMatch(u, now);
    forall x | x in r ensures CountersMatch(r[x]) {
      if x in users {
        SignInKeepsEdges(users, u, now, x);
      }
    }
    forall a, b | a in r && b in r
      ensures b in r[a].followingList <==> a in r[b].followedBy
    {
      if a in users {
        SignInKeepsEdges(users, u, now, a);
      }
      if b in users {
        SignInKeepsEdges(users, u, now, b);
      }
    }
  }

  /** Signing in leaves the follow lists and counters of every existing
      profile as they were. */
  lemma SignInKeepsEdges(users: map<Uid, UserDoc>, u: AuthUser, now: nat, x: Uid)
    requires x in users
    ensures var d := SignInWrite(users, u, now)[x];
      && d.followingList == users[x].followingList && d.followedBy == users[x].followedBy
      && d.following == users[x].following && d.followers == users[x].followers
  {
  }

  /** A dangling edge to a user without a profile breaks edge agreement as
      soon as that user signs in. */
  lemma DanglingEdgeBreaksConsistencyOnSignIn(users: map<Uid, UserDoc>, u: AuthUser, now: nat, a: Uid)
    requires a in users && u.uid !in users && u.uid in users[a].followingList
    ensures !EdgesAgree(SignInWrite(users, u, now))
  {
    var r := SignInWrite(users, u, now);
    assert a in r && u.uid in r && u.uid in r[a].followingList && a !in r[u.uid].followedBy;
  }

  class AuthHook {
    var user: Option<AuthUser>
    var loading: bool
    /** Whether the `onAuthStateChanged` listener is registered. */
    var listening: bool

    /** Mount: the state starts signed-out and loading, and the effect
        registers the listener. */
    constructor ()
      ensures user.None? && loading && listening
    {
      user, loading, listening := None, true, true;
    }

    /** Unmount: the effect's cleanup unregisters the listener. */
    method Unmount()
      modifies this`listening
      ensures !listening
    {
      listening := false;
    }

    /** One auth state change. A signed-out user touches no document. For a
        signed-in user the profile is read (`readOk`) and then created or
        merged (`writeOk`); a failure of either rejects the callback before
        `setUser`, so neither `user` nor `loading` changes. */
    method OnAuthStateChanged(store: DocumentStore, u: Option<AuthUser>, readOk: bool, writeOk: bool)
      requires store.Valid()
      modifies this`user, this`loading, store`users, store`clock
      ensures store.Valid()
      ensures !listening || u.None? || !readOk || !writeOk ==>
        store.users == old(store.users) && store.clock == old(store.clock)
      ensures !listening || (u.Some? && !(readOk && writeOk)) ==>
        user == old(user) && loading == old(loading)
      ensures listening && u.None? ==> user.None? && !loading
      ensures listening && u.Some? && readOk && writeOk ==>
        && store.users == SignInWrite(old(store.users), u.value, old(store.clock))
        && store.clock == old(store.clock) + 1
        && user == u && !loading
    {
      if !listening {
        return;
      }
      if u.Some? {
        if !readOk || !writeOk {
          return;
        }
        var now := store.clock;
        store.users := SignInWrite(store.users, u.value, now);
        store.clock := now + 1;
      }
      user := u;
      loading := false;
    }
  }
}
