/** Username prefix search over the `users` collection: a range filter
    `[t, t + U+F8FF]` on the lower-cased term, ordered by `username`, 20
    documents per page, with a `startAfter` cursor to resume and a
    full-page test for whether more may follow. */
module Search {
  import opened Common
  import opened Store
  import opened Auth

  const PAGE_SIZE: nat := 20

  /** The largest BMP private-use character, appended to form the upper
      bound of a prefix range. */
  const HIGH_CHAR: char := '\U{F8FF}'

  /** A document as the query sees it: ordered by `username`, ties broken
      by document id. */
  datatype Entry = Entry(username: string, uid: Uid)

  predicate EntryLt(a: Entry, b: Entry) {
    LexLt(a.username, b.username) || (a.username == b.username && LexLt(a.uid, b.uid))
  }

  lemma EntryLtIrreflexive(a: Entry)
    ensures !EntryLt(a, a)
  {
    LexLtIrreflexive(a.username);
    LexLtIrreflexive(a.uid);
  }

  lemma EntryLtAsymmetric(a: Entry, b: Entry)
    ensures !(EntryLt(a, b) && EntryLt(b, a))
  {
    LexLtAsymmetric(a.username, b.username);
    LexLtAsymmetric(a.uid, b.uid);
    LexLtIrreflexive(a.username);
  }

  /** The index the query runs over: every document with a `username`,
      strictly ascending. */
  ghost predicate Sorted(s: seq<Entry>) {
    forall i, j :: 0 <= i < j < |s| ==> EntryLt(s[i], s[j])
  }

  /** The index holds exactly the documents that have a `username`. */
  ghost predicate IndexOf(index: seq<Entry>, users: map<Uid, UserDoc>) {
    && (forall e :: e in index ==> e.uid in users && users[e.uid].username == Some(e.username))
    && (forall id :: id in users && users[id].username.Some? ==> Entry(users[id].username.value, id) in index)
  }

  /** `where('username', '>=', t)` and `where('username', '<=', t + U+F8FF)`. */
  predicate InRange(u: string, t: string) {
    LexLe(t, u) && LexLe(u, t + [HIGH_CHAR])
  }

  /** The documents of the index that satisfy the range filter, in index
      order. */
  function Matching(index: seq<Entry>, t: string): (r: seq<Entry>)
    ensures forall e :: e in r <==> e in index && InRange(e.username, t)
    ensures |r| <= |index|
  {
    if index == [] then []
    else if InRange(index[0].username, t) then [index[0]] + Matching(index[1..], t)
    else Matching(index[1..], t)
  }

  /** `startAfter(cursor)`: the documents strictly after the cursor. */
  function After(s: seq<Entry>, cursor: Entry): (r: seq<Entry>)
    ensures forall e :: e in r <==> e in s && EntryLt(cursor, e)
    ensures |r| <= |s|
  {
    if s == [] then []
    else if EntryLt(cursor, s[0]) then [s[0]] + After(s[1..], cursor)
    else After(s[1..], cursor)
  }

  /** `limit(n)`. */
  function Take(s: seq<Entry>, n: nat): (r: seq<Entry>)
    ensures |r| == if |s| <= n then |s| else n
    ensures r == s[..|r|]
  {
    if |s| <= n then s else s[..n]
  }

  /** The last document of a page, which becomes the cursor. */
  function Last(page: seq<Entry>): (r: Option<Entry>)
    ensures r.None? <==> page == []
    ensures r.Some? ==> r.value == page[|page| - 1]
  {
    if page == [] then None else Some(page[|page| - 1])
  }

  /** One query: the range filter, resumed after `cursor` when one is
      given, limited to a page. */
  function QueryPage(index: seq<Entry>, t: string, cursor: Option<Entry>): (page: seq<Entry>)
    ensures |page| <= PAGE_SIZE
    ensures forall e :: e in page ==> e in index && InRange(e.username, t)
    ensures cursor.Some? ==> forall e :: e in page ==> EntryLt(cursor.value, e)
    // on a sorted index the page is the first matches past the cursor: a
    // match it leaves out comes after a full page
    ensures Sorted(index) ==> forall e ::
      e in index && InRange(e.username, t) && (cursor.None? || EntryLt(cursor.value, e)) ==>
        e in page || (|page| == PAGE_SIZE && forall x :: x in page ==> EntryLt(x, e))
  {
    var m := Matching(index, t);
    var src := if cursor.Some? then After(m, cursor.value) else m;
    var p := Take(src, PAGE_SIZE);
    assert forall e :: e in p ==> e in src;
    assert Sorted(index) ==> forall e ::
      e in index && InRange(e.username, t) && (cursor.None? || EntryLt(cursor.value, e)) ==>
        e in p || (|p| == PAGE_SIZE && forall x :: x in p ==> EntryLt(x, e)) by {
      if Sorted(index) {
        MatchingSorted(index, t);
        if cursor.Some? {
          AfterSorted(m, cursor.value);
        }
        forall e | e in index && InRange(e.username, t) && (cursor.None? || EntryLt(cursor.value, e))
          ensures e in p || (|p| == PAGE_SIZE && forall x :: x in p ==> EntryLt(x, e))
        {
          assert e in src;
          TakeIsFirst(src, e);
        }
      }
    }
    p
  }

  /** A page of a sorted sequence holds each of its elements or is full
      of smaller ones. */
  lemma TakeIsFirst(s: seq<Entry>, e: Entry)
    requires Sorted(s) && e in s
    ensures var p := Take(s, PAGE_SIZE);
      e in p || (|p| == PAGE_SIZE && forall x :: x in p ==> EntryLt(x, e))
  {
    var p := Take(s, PAGE_SIZE);
    var j :| 0 <= j < |s| && s[j] == e;
    if j < |p| {
      assert p[j] == e;
    } else {
      forall x | x in p ensures EntryLt(x, e) {
        var i :| 0 <= i < |p| && p[i] == x;
        assert s[i] == x;
      }
    }
  }

  // ---------------------------------------------------------------------
  // Order of the results

  lemma {:induction false} MatchingSorted(index: seq<Entry>, t: string)
    requires Sorted(index)
    ensures Sorted(Matching(index, t))
  {
    if index != [] {
      var tail := index[1..];
      assert Sorted(tail) by {
        forall i, j | 0 <= i < j < |tail| ensures EntryLt(tail[i], tail[j]) {
          assert tail[i] == index[i + 1] && tail[j] == index[j + 1];
        }
      }
      MatchingSorted(tail, t);
      if InRange(index[0].username, t) {
        var rest := Matching(tail, t);
        var r := [index[0]] + rest;
        forall i, j | 0 <= i < j < |r| ensures EntryLt(r[i], r[j]) {
          if i == 0 {
            assert r[j] == rest[j - 1] && rest[j - 1] in tail;
            var k :| 0 <= k < |tail| && tail[k] == r[j];
            assert tail[k] == index[k + 1];
          }
        }
      }
    }
  }

  lemma {:induction false} AfterSorted(s: seq<Entry>, cursor: Entry)
    requires Sorted(s)
    ensures Sorted(After(s, cursor))
  {
    if s != [] {
      var tail := s[1..];
      assert Sorted(tail) by {
        forall i, j | 0 <= i < j < |tail| ensures EntryLt(tail[i], tail[j]) {
          assert tail[i] == s[i + 1] && tail[j] == s[j + 1];
        }
      }
      AfterSorted(tail, cursor);
      if EntryLt(cursor, s[0]) {
        var rest := After(tail, cursor);
        var r := [s[0]] + rest;
        forall i, j | 0 <= i < j < |r| ensures EntryLt(r[i], r[j]) {
          if i == 0 {
            assert r[j] == rest[j - 1] && rest[j - 1] in tail;
            var k :| 0 <= k < |tail| && tail[k] == r[j];
            assert tail[k] == s[k + 1];
          }
        }
      }
    }
  }

  /** Every page is ascending by (username, id). */
  lemma PageSorted(index: seq<Entry>, t: string, cursor: Option<Entry>)
    requires Sorted(index)
    ensures Sorted(QueryPage(index, t, cursor))
  {
    MatchingSorted(index, t);
    if cursor.Some? {
      AfterSorted(Matching(index, t), cursor.value);
    }
  }

  /** On a sorted sequence, everything after its `k`-th element is the
      suffix from `k + 1`. */
  lemma {:induction false} AfterElement(s: seq<Entry>, k: nat)
    requires Sorted(s) && k < |s|
    ensures After(s, s[k]) == s[k + 1..]
  {
    var tail := s[1..];
    assert Sorted(tail) by {
      forall i, j | 0 <= i < j < |tail| ensures EntryLt(tail[i], tail[j]) {
        assert tail[i] == s[i + 1] && tail[j] == s[j + 1];
      }
    }
    if k == 0 {
      EntryLtIrreflexive(s[0]);
      AfterAllGreater(tail, s[0]);
    } else {
      EntryLtAsymmetric(s[0], s[k]);
      assert tail[k - 1] == s[k];
      AfterElement(tail, k - 1);
    }
  }

  lemma {:induction false} AfterAllGreater(s: seq<Entry>, cursor: Entry)
    requires forall i :: 0 <= i < |s| ==> EntryLt(cursor, s[i])
    ensures After(s, cursor) == s
  {
    if s != [] {
      AfterAllGreater(s[1..], cursor);
    }
  }

  // ---------------------------------------------------------------------
  // The range filter is a prefix test

  /** The range `[t, t + c]` holds exactly the extensions of `t` whose next
      character is below `c`, plus `t` and `t + c` themselves. */
  lemma {:induction false} RangeIsPrefix(u: string, t: string, c: char)
    ensures LexLe(t, u) && LexLe(u, t + [c]) <==>
      IsPrefix(t, u) && (|u| == |t| || u[|t|] < c || u == t + [c])
    decreases |t|
  {
    if t == [] {
      assert [] + [c] == [c];
      if |u| > 0 {
        assert LexLt(u, [c]) <==> u[0] < c || (u[0] == c && LexLt(u[1..], []));
      }
    } else if u != [] && u[0] == t[0] {
      RangeIsPrefix(u[1..], t[1..], c);
      assert (t + [c])[1..] == t[1..] + [c];
      assert t == [t[0]] + t[1..] && u == [u[0]] + u[1..];
      assert (t + [c]) == [t[0]] + (t[1..] + [c]);
      assert IsPrefix(t, u) <==> IsPrefix(t[1..], u[1..]);
      assert u == t + [c] <==> u[1..] == t[1..] + [c];
      if |u| > |t| {
        assert u[|t|] == u[1..][|t| - 1];
      }
    } else if u != [] && u[0] > t[0] {
      assert (t + [c])[0] == t[0];
      LexLtAsymmetric(u, t + [c]);
    } else if u != [] {
      LexLtAsymmetric(t, u);
    }
  }

  /** Every result's username begins with the lower-cased term; a username
      is missed when the character after the term lies above U+F8FF. */
  lemma InRangeIffPrefix(u: string, t: string)
    ensures InRange(u, t) <==>
      IsPrefix(t, u) && (|u| == |t| || u[|t|] < HIGH_CHAR || u == t + [HIGH_CHAR])
  {
    RangeIsPrefix(u, t, HIGH_CHAR);
  }

  // ---------------------------------------------------------------------
  // Pagination

  /** Resuming after the 20th match returns the next matches in order. */
  lemma ResumeAfterFullPage(index: seq<Entry>, t: string)
    requires Sorted(index)
    requires |Matching(index, t)| >= PAGE_SIZE
    ensures var m := Matching(index, t);
      && QueryPage(index, t, None) == m[..PAGE_SIZE]
      && QueryPage(index, t, Last(QueryPage(index, t, None))) == Take(m[PAGE_SIZE..], PAGE_SIZE)
  {
    var m := Matching(index, t);
    MatchingSorted(index, t);
    AfterElement(m, PAGE_SIZE - 1);
  }

  /** Two calls, the second resuming from the first's cursor, show the
      first 40 matches without gap or repeat; `hasMore` after each call
      says whether that page was full. */
  lemma TwoPagesCoverPrefix(index: seq<Entry>, t: string)
    requires Sorted(index)
    ensures var m := Matching(index, t);
      var p1 := QueryPage(index, t, None);
      && (|p1| == PAGE_SIZE <==> |m| >= PAGE_SIZE)
      && (|m| < PAGE_SIZE ==> p1 == m)
      && (|m| >= PAGE_SIZE ==>
            var p2 := QueryPage(index, t, Last(p1));
            && p1 + p2 == m[..if |m| <= 2 * PAGE_SIZE then |m| else 2 * PAGE_SIZE]
            && (|p2| == PAGE_SIZE <==> |m| >= 2 * PAGE_SIZE))
  {
    var m := Matching(index, t);
    if |m| >= PAGE_SIZE {
      ResumeAfterFullPage(index, t);
      SecondPageExtendsFirst(m);
    }
  }

  /** The first page followed by the next `limit` documents is a prefix of
      the matches of length at most twice the page size. */
  lemma SecondPageExtendsFirst(m: seq<Entry>)
    requires |m| >= PAGE_SIZE
    ensures var p2 := Take(m[PAGE_SIZE..], PAGE_SIZE);
      && m[..PAGE_SIZE] + p2 == m[..if |m| <= 2 * PAGE_SIZE then |m| else 2 * PAGE_SIZE]
      && (|p2| == PAGE_SIZE <==> |m| >= 2 * PAGE_SIZE)
  {
    var p2 := Take(m[PAGE_SIZE..], PAGE_SIZE);
    assert m[..PAGE_SIZE] + p2 == m[..PAGE_SIZE + |p2|];
  }

  /** The cursor is not tied to the term: a cursor that lies beyond every
      match of a new term yields an empty page, whatever the new term
      matches. */
  lemma StaleCursorHidesMatches(index: seq<Entry>, t: string, cursor: Entry)
    requires forall e :: e in index && InRange(e.username, t) ==> !EntryLt(cursor, e)
    ensures QueryPage(index, t, Some(cursor)) == []
  {
    AfterNoneGreater(Matching(index, t), cursor);
  }

  lemma {:induction false} AfterNoneGreater(s: seq<Entry>, cursor: Entry)
    requires forall e :: e in s ==> !EntryLt(cursor, e)
    ensures After(s, cursor) == []
  {
    if s != [] {
      assert s[0] in s;
      AfterNoneGreater(s[1..], cursor);
    }
  }

  /** A profile created at first sign-in has no `username`, so no query
      returns it. */
  lemma NewProfileNeverFound(users: map<Uid, UserDoc>, u: AuthUser, now: nat, index: seq<Entry>,
                             t: string, cursor: Option<Entry>)
    requires u.uid !in users
    requires IndexOf(index, SignInWrite(users, u, now))
    ensures forall e :: e in QueryPage(index, t, cursor) ==> e.uid != u.uid
  {
  }

  // ---------------------------------------------------------------------
  // The hook

  class SearchHook {
    var results: seq<Entry>
    var loading: bool
    var error: string
    var hasMore: bool
    /** The cursor: the last document of the latest page. */
    var lastDoc: Option<Entry>

    constructor ()
      ensures results == [] && !loading && error == "" && hasMore && lastDoc.None?
    {
      results, loading, error, hasMore, lastDoc := [], false, "", true, None;
    }

    /** `searchUsers(term, clearPrevious)` against `index`; `queryOk` is the
        outcome of the query and `errMessage` its error text on failure. A
        blank term only empties the results. Otherwise the cursor is used
        only when not clearing, and whatever term set it. */
    method SearchUsers(index: seq<Entry>, term: string, clearPrevious: bool, queryOk: bool, errMessage: string)
      modifies this
      ensures IsBlank(term) ==>
        && results == [] && loading == old(loading) && error == old(error)
        && hasMore == old(hasMore) && lastDoc == old(lastDoc)
      ensures !IsBlank(term) ==> !loading
      ensures !IsBlank(term) && !queryOk ==>
        && error == errMessage && hasMore == old(hasMore)
        && (clearPrevious ==> results == [] && lastDoc.None?)
        && (!clearPrevious ==> results == old(results) && lastDoc == old(lastDoc))
      ensures !IsBlank(term) && queryOk ==>
        var page := QueryPage(index, ToLowerAscii(term), if clearPrevious then None else old(lastDoc));
        && error == ""
        && results == (if clearPrevious then page else old(results) + page)
        && lastDoc == Last(page)
        && (hasMore <==> |page| == PAGE_SIZE)
    {
      if IsBlank(term) {
        results := [];
        return;
      }
      var cursor := lastDoc;
      loading := true;
      error := "";
      if clearPrevious {
        results := [];
        lastDoc := None;
      }
      var t := ToLowerAscii(term);
      if !queryOk {
        error := errMessage;
        loading := false;
        return;
      }
      var page := QueryPage(index, t, if cursor.Some? && !clearPrevious then cursor else None);
      lastDoc := Last(page);
      hasMore := |page| == PAGE_SIZE;
      if clearPrevious {
        results := page;
      } else {
        results := results + page;
      }
      loading := false;
    }
  }
}
