/** The in-memory session list in front of the app's session storage
    (sessionStorage.ts). The storage behind it is modelled as a map from
    session id to session that accepts every request. */
module Sessions {
  import opened Results

  /** A platform session; only the id and the shop matter here, the rest is
      carried along untouched. */
  datatype Session = Session(id: string, shop: string, details: string)

  /** The first listed session with the id. */
  function FirstWithId(sessions: seq<Session>, id: string): (s: Option<Session>)
    ensures s.Some? ==> s.value in sessions && s.value.id == id
    ensures s.None? <==> forall t :: t in sessions ==> t.id != id
  {
    if sessions == [] then None
    else if sessions[0].id == id then Some(sessions[0])
    else FirstWithId(sessions[1..], id)
  }

  /** The sessions whose id is not among `ids`, in their order. */
  function WithoutIds(sessions: seq<Session>, ids: seq<string>): (rest: seq<Session>)
    ensures |rest| <= |sessions|
    ensures forall t :: t in rest <==> t in sessions && t.id !in ids
  {
    if sessions == [] then []
    else (if sessions[0].id in ids then [] else [sessions[0]]) + WithoutIds(sessions[1..], ids)
  }

  /** The sessions of a shop, in their order. */
  function OfShop(sessions: seq<Session>, shop: string): (found: seq<Session>)
    ensures |found| <= |sessions|
    ensures forall t :: t in found <==> t in sessions && t.shop == shop
  {
    if sessions == [] then []
    else (if sessions[0].shop == shop then [sessions[0]] else []) + OfShop(sessions[1..], shop)
  }

  /** Dropping one more id after some others is dropping them all at once. */
  lemma {:induction false} WithoutIdsSnoc(sessions: seq<Session>, ids: seq<string>, id: string)
    ensures WithoutIds(WithoutIds(sessions, ids), [id]) == WithoutIds(sessions, ids + [id])
  {
    if sessions != [] {
      WithoutIdsSnoc(sessions[1..], ids, id);
      var head := if sessions[0].id in ids then [] else [sessions[0]];
      var rest := WithoutIds(sessions[1..], ids);
      assert WithoutIds(sessions, ids) == head + rest;
      WithoutIdsAppend(head, rest, [id]);
    }
  }

  /** Filtering a concatenation filters each part. */
  lemma {:induction false} WithoutIdsAppend(a: seq<Session>, b: seq<Session>, ids: seq<string>)
    ensures WithoutIds(a + b, ids) == WithoutIds(a, ids) + WithoutIds(b, ids)
  {
    if a == [] {
      assert a + b == b;
    } else {
      assert (a + b)[0] == a[0] && (a + b)[1..] == a[1..] + b;
      WithoutIdsAppend(a[1..], b, ids);
    }
  }

  /** Dropping no ids keeps every session. */
  lemma {:induction false} WithoutNoIds(sessions: seq<Session>)
    ensures WithoutIds(sessions, []) == sessions
  {
    if sessions != [] {
      WithoutNoIds(sessions[1..]);
      assert [sessions[0]] + sessions[1..] == sessions;
    }
  }

  /** The sessions the storage holds for a shop. */
  function StoredOfShop(stored: map<string, Session>, shop: string): (found: set<Session>)
    ensures forall t :: t in found <==> exists k :: k in stored && stored[k] == t && t.shop == shop
  {
    set k | k in stored && stored[k].shop == shop :: stored[k]
  }

  /** Adding a session under a new key adds it to its shop's sessions. */
  lemma StoredOfShopAdd(m: map<string, Session>, k: string, v: Session, shop: string)
    requires k !in m
    ensures StoredOfShop(m[k := v], shop) == StoredOfShop(m, shop) + (if v.shop == shop then {v} else {})
  {
    var m' := m[k := v];
    forall t | t in StoredOfShop(m', shop)
      ensures t in StoredOfShop(m, shop) + (if v.shop == shop then {v} else {})
    {
      var j :| j in m' && m'[j] == t && t.shop == shop;
      if j != k {
        assert j in m && m[j] == t;
      }
    }
    forall t | t in StoredOfShop(m, shop)
      ensures t in StoredOfShop(m', shop)
    {
      var j :| j in m && m[j] == t && t.shop == shop;
      assert j in m' && m'[j] == t;
    }
    if v.shop == shop {
      assert k in m' && m'[k] == v;
    }
  }

  /** Every listed session is the one the storage holds under its id. */
  ghost predicate Coherent(sessions: seq<Session>, stored: map<string, Session>) {
    forall t :: t in sessions ==> t.id in stored && stored[t.id] == t
  }

  /** While the list is coherent, a listed session is what the storage
      would answer. */
  lemma CoherentLoadAgrees(sessions: seq<Session>, stored: map<string, Session>, id: string)
    requires Coherent(sessions, stored)
    ensures FirstWithId(sessions, id).Some? ==> id in stored && FirstWithId(sessions, id) == Some(stored[id])
  {
  }

  /** As written, storing a newer session under a listed id lists it behind
      the old one: the list stops agreeing with the storage and the load
      answers with the old session. */
  lemma StaleLoadAfterRestore(s1: Session, s2: Session)
    requires s1.id == s2.id && s1 != s2
    ensures Coherent([s1], map[s1.id := s1])
    ensures !Coherent([s1] + [s2], map[s1.id := s1][s2.id := s2])
    ensures FirstWithId([s1] + [s2], s2.id) == Some(s1)
  {
    assert s1 in [s1] + [s2];
  }

  /** Storing a session after dropping the listed ones with its id keeps the
      list coherent with the storage, and the load then answers with it. */
  lemma RestoreKeepsCoherent(sessions: seq<Session>, stored: map<string, Session>, s: Session)
    requires Coherent(sessions, stored)
    ensures Coherent(WithoutIds(sessions, [s.id]) + [s], stored[s.id := s])
  {
  }

  /** After dropping the listed sessions with its id, a session stored last
      is the one the load answers with. */
  lemma RestoredIsFirst(sessions: seq<Session>, s: Session)
    ensures FirstWithId(WithoutIds(sessions, [s.id]) + [s], s.id) == Some(s)
  {
    var rest := WithoutIds(sessions, [s.id]);
    FirstWithIdAppend(rest, [s], s.id);
  }

  /** The first match in a concatenation is the first part's, if any. */
  lemma {:induction false} FirstWithIdAppend(a: seq<Session>, b: seq<Session>, id: string)
    ensures FirstWithId(a + b, id) == if FirstWithId(a, id).Some? then FirstWithId(a, id) else FirstWithId(b, id)
  {
    if a == [] {
      assert a + b == b;
    } else {
      assert (a + b)[0] == a[0] && (a + b)[1..] == a[1..] + b;
      FirstWithIdAppend(a[1..], b, id);
    }
  }

  /** As written, the shop lookup never reaches the storage: a fresh list in
      front of a storage holding a session of the shop finds nothing. */
  lemma ShopLookupIgnoresStorage(s: Session)
    ensures OfShop([], s.shop) == []
    ensures StoredOfShop(map[s.id := s], s.shop) == {s}
  {
    StoredOfShopAdd(map[], s.id, s, s.shop);
  }

  /** The session storage behind the list. */
  class SessionStore {
    var stored: map<string, Session>

    constructor ()
      ensures stored == map[]
    {
      stored := map[];
    }

    method StoreSession(session: Session) returns (ok: bool)
      modifies this
      ensures ok && stored == old(stored)[session.id := session]
    {
      stored := stored[session.id := session];
      ok := true;
    }

    method LoadSession(id: string) returns (s: Option<Session>)
      ensures s == if id in stored then Some(stored[id]) else None
    {
      s := if id in stored then Some(stored[id]) else None;
    }

    method DeleteSession(id: string) returns (ok: bool)
      modifies this
      ensures ok && stored == old(stored) - {id}
    {
      stored := stored - {id};
      ok := true;
    }

    method DeleteSessions(ids: seq<string>) returns (ok: bool)
      modifies this
      ensures ok && stored == old(stored) - set id | id in ids
    {
      stored := stored - set id | id in ids;
      ok := true;
    }

    /** The stored sessions of a shop, in some order. */
    method FindSessionsByShop(shop: string) returns (found: seq<Session>)
      ensures (set t | t in found) == StoredOfShop(stored, shop)
    {
      found := [];
      var left := stored.Keys;
      assert stored - left == map[];
      while left != {}
        invariant left <= stored.Keys
        invariant (set t | t in found) == StoredOfShop(stored - left, shop)
        decreases left
      {
        var k :| k in left;
        assert stored - (left - {k}) == (stored - left)[k := stored[k]];
        StoredOfShopAdd(stored - left, k, stored[k], shop);
        if stored[k].shop == shop {
          found := found + [stored[k]];
        }
        left := left - {k};
      }
      assert stored - {} == stored;
    }
  }

  /** `InMemorySessionStorageDecorator`. */
  class InMemorySessionStorageDecorator {
    var sessions: seq<Session>
    const storage: SessionStore

    constructor (storage: SessionStore)
      ensures sessions == [] && this.storage == storage
    {
      sessions := [];
      this.storage := storage;
    }

    /** `storeSession`: listed again, even when the id is already listed, and
        passed on. */
    method StoreSession(session: Session) returns (ok: bool)
      modifies this, storage
      ensures sessions == old(sessions) + [session]
      ensures ok && storage.stored == old(storage.stored)[session.id := session]
    {
      sessions := sessions + [session];
      ok := storage.StoreSession(session);
    }

    /** `loadSession`: the first listed session with the id, without asking
        the storage; otherwise the storage's, listed when there is one. */
    method LoadSession(id: string) returns (s: Option<Session>)
      modifies this
      ensures var listed := FirstWithId(old(sessions), id);
        listed.Some? ==> s == listed && sessions == old(sessions)
      ensures var listed := FirstWithId(old(sessions), id);
        listed.None? ==>
          && s == (if id in storage.stored then Some(storage.stored[id]) else None)
          && sessions == old(sessions) + (if s.Some? then [s.value] else [])
    {
      var session := FirstWithId(sessions, id);
      if session.Some? {
        return session;
      }
      s := storage.LoadSession(id);
      if s.Some? {
        sessions := sessions + [s.value];
      }
    }

    /** `deleteSession`: every listed session with the id goes, the others
        stay in order; the storage is asked to delete it too. */
    method DeleteSession(id: string) returns (ok: bool)
      modifies this, storage
      ensures sessions == WithoutIds(old(sessions), [id])
      ensures ok && storage.stored == old(storage.stored) - {id}
    {
      sessions := WithoutIds(sessions, [id]);
      ok := storage.DeleteSession(id);
    }

    /** `deleteSessions`: one id at a time, every listed session with any of
        the ids goes; the storage is asked to delete them all. */
    method DeleteSessions(ids: seq<string>) returns (ok: bool)
      modifies this, storage
      ensures sessions == WithoutIds(old(sessions), ids)
      ensures ok && storage.stored == old(storage.stored) - set id | id in ids
    {
      WithoutNoIds(sessions);
      assert ids[..0] == [];
      for index := 0 to |ids|
        invariant sessions == WithoutIds(old(sessions), ids[..index])
        invariant storage.stored == old(storage.stored)
      {
        WithoutIdsSnoc(old(sessions), ids[..index], ids[index]);
        assert ids[..index] + [ids[index]] == ids[..index + 1];
        sessions := WithoutIds(sessions, [ids[index]]);
      }
      assert ids[..|ids|] == ids;
      ok := storage.DeleteSessions(ids);
    }

    /** `findSessionsByShop`: the listed sessions of the shop. The list it
        filters is never missing, so the storage is never asked. */
    method FindSessionsByShop(shop: string) returns (found: seq<Session>)
      ensures found == OfShop(sessions, shop)
    {
      found := OfShop(sessions, shop);
    }

    /** `storeSession` as evidently intended: a newer session replaces the
        listed ones with its id, so a coherent list stays coherent. */
    method StoreSessionCorrected(session: Session) returns (ok: bool)
      modifies this, storage
      ensures sessions == WithoutIds(old(sessions), [session.id]) + [session]
      ensures ok && storage.stored == old(storage.stored)[session.id := session]
      ensures Coherent(old(sessions), old(storage.stored)) ==> Coherent(sessions, storage.stored)
      ensures FirstWithId(sessions, session.id) == Some(session)
    {
      if Coherent(sessions, storage.stored) {
        RestoreKeepsCoherent(sessions, storage.stored, session);
      }
      RestoredIsFirst(sessions, session);
      sessions := WithoutIds(sessions, [session.id]) + [session];
      ok := storage.StoreSession(session);
    }

    /** `findSessionsByShop` as evidently intended: the listed sessions of
        the shop, and the storage's when none is listed. */
    method FindSessionsByShopCorrected(shop: string) returns (found: seq<Session>)
      ensures OfShop(sessions, shop) != [] ==> found == OfShop(sessions, shop)
      ensures OfShop(sessions, shop) == [] ==> (set t | t in found) == StoredOfShop(storage.stored, shop)
    {
      found := OfShop(sessions, shop);
      if found == [] {
        found := storage.FindSessionsByShop(shop);
      }
    }
  }
}
