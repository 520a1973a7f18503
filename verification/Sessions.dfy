/** Dashboard sessions: the manager's records and marks, and the store's revocations (auth_session.go, memory.go). */
module Sessions {
  import opened Text

  datatype Session = Session(publicId: string, secret: string, expiresAt: int)

  datatype LookupResult = Found(record: Session) | NotFound | StoreError

  /** A session's public ID is a fresh UUID, and its expiry is fixed when it is created. */
  type Expiry = string -> int

  function Unexpired<K>(entries: map<K, int>, now: int): map<K, int> {
    map k | k in entries && entries[k] > now :: entries[k]
  }

  predicate Active(entries: map<string, int>, id: string, now: int) {
    id in entries && entries[id] > now
  }

  // ---------- The store ----------

  class RevocationStore {
    const expiry: Expiry
    var revokedSessions: map<string, int>
    ghost var clock: int
    /** Every session whose revocation was ever recorded. */
    ghost var ever: set<string>

    /** Pruning never loses a revocation before its session has expired. */
    ghost predicate Valid()
      reads this
    {
      && (forall id :: id in ever && clock < expiry(id) ==> id in revokedSessions)
      && (forall id :: id in revokedSessions ==> id in ever && revokedSessions[id] == expiry(id))
    }

    constructor (expiry: Expiry, ghost now: int)
      ensures Valid() && this.expiry == expiry && ever == {} && clock == now
    {
      this.expiry := expiry;
      revokedSessions := map[];
      clock := now;
      ever := {};
    }

    method RevokeAuthSession(sessionId: string, expiresAt: int, live: bool, now: int) returns (ok: bool)
      requires Valid() && clock <= now && expiresAt == expiry(TrimSpace(sessionId))
      modifies this
      ensures Valid() && clock == now
      ensures ok <==> live && TrimSpace(sessionId) != "" && expiresAt != 0
      ensures ever == if ok then old(ever) + {TrimSpace(sessionId)} else old(ever)
    {
      clock := now;
      var id := TrimSpace(sessionId);
      if !live || id == "" || expiresAt == 0 {
        return false;
      }
      revokedSessions := Unexpired(revokedSessions, now)[id := expiresAt];
      ever := ever + {id};
      return true;
    }

    /** Answers exactly whether the session was ever revoked and has not expired, although records are pruned. */
    method IsAuthSessionRevoked(sessionId: string, now: int) returns (revoked: bool)
      requires Valid() && clock <= now
      modifies this
      ensures Valid() && clock == now && ever == old(ever)
      ensures revoked <==>
              TrimSpace(sessionId) != "" && TrimSpace(sessionId) in ever && now < expiry(TrimSpace(sessionId))
    {
      clock := now;
      var id := TrimSpace(sessionId);
      if id == "" {
        return false;
      }
      revokedSessions := Unexpired(revokedSessions, now);
      revoked := id in revokedSessions && revokedSessions[id] > now;
    }
  }

  // ---------- The manager ----------

  predicate WellFormed(expiry: Expiry, r: Session) {
    && r.publicId != "" && TrimSpace(r.publicId) == r.publicId && r.secret != ""
    && r.expiresAt == expiry(r.publicId)
  }

  /** The sessions that pruning keeps. */
  function Live(sessions: map<string, Session>, revoked: map<string, int>, now: int): map<string, Session> {
    map k | k in sessions && sessions[k].expiresAt > now && !Active(revoked, sessions[k].publicId, now) :: sessions[k]
  }

  /** What Lookup finds at a time. */
  ghost predicate Finds(sessions: map<string, Session>, revoked: map<string, int>, secret: string, now: int) {
    && secret != "" && secret in sessions
    && sessions[secret].expiresAt > now
    && (sessions[secret].publicId in revoked ==> revoked[sessions[secret].publicId] <= now)
  }

  /** From a moment on, the same sessions are found in both places, except under one secret. */
  ghost predicate FoundAlike(sessions: map<string, Session>, revoked: map<string, int>, sessions': map<string, Session>,
                             revoked': map<string, int>, now: int, except: string)
  {
    forall k, t :: k != except && t >= now ==>
      (Finds(sessions, revoked, k, t) <==> Finds(sessions', revoked', k, t)) &&
      (Finds(sessions, revoked, k, t) ==> sessions'[k] == sessions[k])
  }

  lemma {:induction false} FoundAfterPrune(expiry: Expiry, sessions: map<string, Session>, revoked: map<string, int>,
                                           now: int)
    requires forall k :: k in sessions ==> WellFormed(expiry, sessions[k])
    requires forall id :: id in revoked ==> revoked[id] == expiry(id)
    ensures FoundAlike(sessions, revoked, Live(sessions, revoked, now), Unexpired(revoked, now), now, "")
  {
  }

  /** Sessions are filed under their secrets, and public IDs are unique. */
  ghost predicate Kept(expiry: Expiry, sessions: map<string, Session>, issued: set<string>, issuedIds: set<string>) {
    && (forall k :: k in sessions ==> sessions[k].secret == k && WellFormed(expiry, sessions[k]))
    && (forall k :: k in sessions ==> k in issued && sessions[k].publicId in issuedIds)
    && (forall k, l :: k in sessions && l in sessions && sessions[k].publicId == sessions[l].publicId ==> k == l)
  }

  lemma {:induction false} KeptAfterCreate(expiry: Expiry, sessions: map<string, Session>, issued: set<string>,
                                           issuedIds: set<string>, r: Session)
    requires Kept(expiry, sessions, issued, issuedIds) && WellFormed(expiry, r)
    requires r.secret !in issued && r.publicId !in issuedIds
    ensures Kept(expiry, sessions[r.secret := r], issued + {r.secret}, issuedIds + {r.publicId})
  {
  }

  lemma {:induction false} KeptLive(expiry: Expiry, sessions: map<string, Session>, revoked: map<string, int>,
                                    issued: set<string>, issuedIds: set<string>, now: int)
    requires Kept(expiry, sessions, issued, issuedIds)
    ensures Kept(expiry, Live(sessions, revoked, now), issued, issuedIds)
  {
  }

  lemma {:induction false} LiveAfterPrune(sessions: map<string, Session>, revoked: map<string, int>, now: int)
    ensures Live(sessions, Unexpired(revoked, now), now) == Live(sessions, revoked, now)
  {
    assert forall id :: Active(Unexpired(revoked, now), id, now) <==> Active(revoked, id, now);
  }

  lemma {:induction false} FoundAfterCreate(was: map<string, Session>, marked: map<string, int>,
                                            sessions: map<string, Session>, revoked: map<string, int>, now: int,
                                            r: Session)
    requires FoundAlike(was, marked, sessions, revoked, now, "") && r.secret != ""
    ensures var after := sessions[r.secret := r];
            && FoundAlike(was, marked, after, revoked, now, r.secret)
            && (r.publicId !in revoked ==> forall t :: Finds(after, revoked, r.secret, t) <==> t < r.expiresAt)
  {
    var after := sessions[r.secret := r];
    forall k, t | k != r.secret && t >= now
      ensures Finds(sessions, revoked, k, t) <==> Finds(after, revoked, k, t)
      ensures Finds(was, marked, k, t) <==> Finds(sessions, revoked, k, t)
    {
      assert k == "" ==> !Finds(was, marked, k, t) && !Finds(sessions, revoked, k, t);
    }
  }

  /** Secrets are issued once: a session that is no longer kept does not come back, and records do not change. */
  ghost predicate Onward(issued: set<string>, sessions: map<string, Session>, issued': set<string>,
                         sessions': map<string, Session>) {
    && issued <= issued'
    && (forall k :: k in issued && k in sessions' ==> k in sessions && sessions'[k] == sessions[k])
  }

  /** What may happen on this manager and its store between two sections of a lookup. */
  datatype Op =
    | CreateOp(record: Session)
    | LookupOp(secret: string)
    | LookupByIdOp(publicId: string)
    | SweepOp
    | DeleteOp(secret: string)
    | StoreRevokeOp(publicId: string)
    | StoreCheckOp(publicId: string)
    | MarkOp(record: Session, secret: string)

  class AuthSessionManager {
    const expiry: Expiry
    var sessions: map<string, Session>
    var revoked: map<string, int>
    /** The secrets and public IDs handed out so far. */
    var issued: set<string>
    var issuedIds: set<string>
    ghost var clock: int

    ghost predicate Valid()
      reads this
    {
      && Kept(expiry, sessions, issued, issuedIds)
      && (forall id :: id in revoked ==> revoked[id] == expiry(id))
    }

    ghost predicate Ready(now: int)
      reads this
    {
      Valid() && clock <= now
    }

    constructor (expiry: Expiry, ghost now: int)
      ensures Valid() && this.expiry == expiry && clock == now
      ensures sessions == map[] && revoked == map[] && issued == {} && issuedIds == {}
    {
      this.expiry := expiry;
      sessions, revoked := map[], map[];
      issued, issuedIds := {}, {};
      clock := now;
    }

    /** pruneLocked; also the periodic sweep. */
    method Prune(now: int)
      requires Ready(now)
      modifies this
      ensures Valid() && clock == now && issued == old(issued) && issuedIds == old(issuedIds)
      ensures revoked == Unexpired(old(revoked), now) && sessions == Live(old(sessions), old(revoked), now)
      ensures FoundAlike(old(sessions), old(revoked), sessions, revoked, now, "")
    {
      clock := now;
      FoundAfterPrune(expiry, sessions, revoked, now);
      KeptLive(expiry, sessions, revoked, issued, issuedIds, now);
      LiveAfterPrune(sessions, revoked, now);
      revoked := Unexpired(revoked, now);
      sessions := Live(sessions, revoked, now);
    }

    /** createRecord with a fresh public ID and secret. */
    method CreateRecord(record: Session, now: int) returns (ok: bool)
      requires Ready(now) && WellFormed(expiry, record) && record.secret !in issued && record.publicId !in issuedIds
      modifies this
      ensures Valid() && clock == now && Onward(old(issued), old(sessions), issued, sessions)
      ensures ok <==> record.expiresAt != 0 && record.expiresAt > now
      ensures ok ==> sessions == Live(old(sessions), old(revoked), now)[record.secret := record]
      ensures ok ==> revoked == Unexpired(old(revoked), now)
      ensures !ok ==> sessions == old(sessions) && revoked == old(revoked)
      ensures FoundAlike(old(sessions), old(revoked), sessions, revoked, now, record.secret)
      ensures ok && record.publicId !in old(revoked) ==>
                forall t :: Finds(sessions, revoked, record.secret, t) <==> t < record.expiresAt
    {
      clock := now;
      if record.expiresAt == 0 || record.expiresAt <= now {
        return false;
      }
      Prune(now);
      FoundAfterCreate(old(sessions), old(revoked), sessions, revoked, now, record);
      KeptAfterCreate(expiry, sessions, issued, issuedIds, record);
      sessions := sessions[record.secret := record];
      issued, issuedIds := issued + {record.secret}, issuedIds + {record.publicId};
      return true;
    }

    /** The check that Lookup and LookupByPublicID share: an unexpired, unmarked session; anything else is dropped. */
    method Take(key: string, now: int) returns (r: LookupResult)
      requires Ready(now) && key in sessions
      modifies this
      ensures Valid() && clock == now && issued == old(issued) && issuedIds == old(issuedIds)
      ensures r.Found? <==> sessions == old(sessions)
      ensures r.NotFound? <==> sessions == old(sessions) - {key}
      ensures r == if old(sessions)[key].expiresAt > now && !Active(old(revoked), old(sessions)[key].publicId, now)
                   then Found(old(sessions)[key]) else NotFound
      ensures r.Found? ==> revoked == old(revoked)
    {
      clock := now;
      var record := sessions[key];
      var marked := Active(revoked, record.publicId, now);
      if record.publicId in revoked && !marked {
        revoked := revoked - {record.publicId};
      }
      if marked || record.expiresAt <= now {
        sessions := sessions - {key};
        return NotFound;
      }
      return Found(record);
    }

    method Lookup(secret: string, now: int) returns (r: LookupResult)
      requires Ready(now)
      modifies this
      ensures Valid() && clock == now && Onward(old(issued), old(sessions), issued, sessions)
      ensures r ==
              if Finds(old(sessions), old(revoked), TrimSpace(secret), now) then Found(old(sessions)[TrimSpace(secret)])
              else NotFound
      ensures r.Found? ==> sessions == old(sessions) && revoked == old(revoked)
    {
      clock := now;
      var key := TrimSpace(secret);
      if key == "" || key !in sessions {
        return NotFound;
      }
      r := Take(key, now);
    }

    /** Finds the live session with a public ID, if there is one. */
    method LookupByPublicId(publicId: string, now: int) returns (r: LookupResult)
      requires Ready(now)
      modifies this
      ensures Valid() && clock == now && Onward(old(issued), old(sessions), issued, sessions)
      ensures !r.StoreError?
      ensures r.Found? ==>
                r.record.publicId == TrimSpace(publicId) && Finds(old(sessions), old(revoked), r.record.secret, now)
      ensures r.NotFound? ==> forall k :: Finds(old(sessions), old(revoked), k, now) ==>
                                            old(sessions)[k].publicId != TrimSpace(publicId)
    {
      clock := now;
      var id := TrimSpace(publicId);
      if id == "" || !(exists k :: k in sessions && sessions[k].publicId == id) {
        return NotFound;
      }
      var key :| key in sessions && sessions[key].publicId == id;
      r := Take(key, now);
    }

    method Delete(secret: string, ghost now: int)
      requires Ready(now)
      modifies this
      ensures Valid() && clock == now && issued == old(issued) && sessions == old(sessions) - {TrimSpace(secret)}
    {
      clock := now;
      sessions := sessions - {TrimSpace(secret)};
    }

    /** MarkRevoked reads the clock twice: once to prune, once to see whether a mark is still needed. */
    method MarkRevoked(record: Session, secret: string, pruneAt: int, now: int)
      requires Ready(pruneAt) && pruneAt <= now && WellFormed(expiry, record)
      modifies this
      ensures Valid() && clock == now && Onward(old(issued), old(sessions), issued, sessions)
      ensures TrimSpace(secret) !in sessions
      ensures forall t :: t >= now ==> (Active(revoked, record.publicId, t) <==> record.expiresAt > t)
    {
      Prune(pruneAt);
      clock := now;
      if record.publicId != "" && record.expiresAt > now {
        revoked := revoked[record.publicId := record.expiresAt];
      }
      sessions := sessions - {TrimSpace(secret)};
    }

    // ---------- With the store ----------

    /** The two share their clock and the sessions' expiries. */
    ghost predicate With(store: RevocationStore, now: int)
      reads this, store
    {
      Ready(now) && store.Valid() && store.clock <= now && store.expiry == expiry
    }

    /** Revoke: in the store first; a failed audit leaves the session unmarked. */
    method Revoke(store: RevocationStore, record: Session, secret: string, live: bool, audited: bool, storeAt: int,
                  now: int)
      returns (ok: bool)
      requires With(store, storeAt) && storeAt <= now && WellFormed(expiry, record)
      modifies this, store
      ensures With(store, now) && Onward(old(issued), old(sessions), issued, sessions)
      ensures ok <==> live && record.expiresAt != 0 && audited
      ensures store.ever ==
              if live && record.expiresAt != 0 then old(store.ever) + {record.publicId} else old(store.ever)
      ensures ok ==> TrimSpace(secret) !in sessions
      ensures ok ==> forall t :: t >= now ==> (Active(revoked, record.publicId, t) <==> record.expiresAt > t)
      ensures !ok ==> sessions == old(sessions) && revoked == old(revoked)
    {
      var stored := store.RevokeAuthSession(record.publicId, record.expiresAt, live, storeAt);
      if !stored || !audited {
        return false;
      }
      MarkRevoked(record, secret, storeAt, now);
      return true;
    }

    /** One operation of somebody else. */
    method Perform(store: RevocationStore, op: Op, now: int)
      requires With(store, now)
      modifies this, store
      ensures With(store, now) && Onward(old(issued), old(sessions), issued, sessions) && old(store.ever) <= store.ever
    {
      match op
      case CreateOp(record) =>
        if WellFormed(expiry, record) && record.secret !in issued && record.publicId !in issuedIds {
          var _ := CreateRecord(record, now);
        }
      case LookupOp(secret) => var _ := Lookup(secret, now);
      case LookupByIdOp(publicId) => var _ := LookupByPublicId(publicId, now);
      case SweepOp => Prune(now);
      case DeleteOp(secret) => Delete(secret, now);
      case StoreRevokeOp(publicId) =>
        var _ := store.RevokeAuthSession(publicId, expiry(TrimSpace(publicId)), true, now);
      case StoreCheckOp(publicId) => var _ := store.IsAuthSessionRevoked(publicId, now);
      case MarkOp(record, secret) =>
        if WellFormed(expiry, record) {
          MarkRevoked(record, secret, now, now);
        }
    }

    /** Anything that others do from one time to another. */
    method Interfere(store: RevocationStore, ops: seq<(Op, nat)>, from: int, until: int)
      requires With(store, from) && from <= until
      modifies this, store
      ensures With(store, until) && Onward(old(issued), old(sessions), issued, sessions) &&
                old(store.ever) <= store.ever
      ensures ops == [] ==> sessions == old(sessions) && revoked == old(revoked) && store.ever == old(store.ever)
    {
      var now := from;
      for i := 0 to |ops|
        invariant With(store, now) && now <= until
        invariant Onward(old(issued), old(sessions), issued, sessions) && old(store.ever) <= store.ever
        invariant i == 0 ==> sessions == old(sessions) && revoked == old(revoked) && store.ever == old(store.ever)
      {
        if now + ops[i].1 <= until {
          now := now + ops[i].1;
        }
        Perform(store, ops[i].0, now);
      }
    }

    /**
     * LookupActive reads the clock in each of its sections, and others may act between them.  A session
     * whose revocation was in the store at the start is returned only if it was still held here, unmarked,
     * at the start and has expired by the time the store is asked.
     */
    method LookupActive(store: RevocationStore, secret: string, storeOk: bool, t1: int, t2: int, t3: int, t4: int,
                        early: seq<(Op, nat)>, late: seq<(Op, nat)>)
      returns (r: LookupResult)
      requires With(store, t1) && t1 <= t2 <= t3 <= t4
      modifies this, store
      ensures With(store, t4) && Onward(old(issued), old(sessions), issued, sessions) && old(store.ever) <= store.ever
      ensures r.Found? ==>
                && Finds(old(sessions), old(revoked), TrimSpace(secret), t1)
                && r.record == old(sessions)[TrimSpace(secret)]
      ensures r.Found? ==> r.record.expiresAt > t1
      ensures r.Found? && r.record.publicId in old(store.ever) ==> r.record.expiresAt <= t3
      ensures early == [] && late == [] ==>
                (r.Found? <==> && Finds(old(sessions), old(revoked), TrimSpace(secret), t1) && storeOk
                               && var s := old(sessions)[TrimSpace(secret)];
                                  s.publicId !in old(store.ever) || s.expiresAt <= t3)
    {
      r := Lookup(secret, t1);
      if !r.Found? {
        return;
      }
      var record := r.record;
      Interfere(store, early, t1, t2);
      if Active(revoked, record.publicId, t2) {
        MarkRevoked(record, secret, t3, t4);
        return NotFound;
      }
      Interfere(store, late, t2, t3);
      if !storeOk {
        return StoreError;
      }
      var isRevoked := store.IsAuthSessionRevoked(record.publicId, t3);
      if !isRevoked {
        return;
      }
      MarkRevoked(record, secret, t3, t4);
      return NotFound;
    }
  }

  /**
   * So revocation is not airtight: a session of 10 ticks revoked in the store at 5 is returned by a lookup
   * that starts at 9 and asks the store at 10; likewise for every session that expires in between.
   */
  method RevokedYetReturned(record: Session, revokedAt: int, t1: int, t3: int)
    returns (r: LookupResult, store: RevocationStore)
    requires record.publicId != "" && TrimSpace(record.publicId) == record.publicId
    requires record.secret != "" && TrimSpace(record.secret) == record.secret
    requires 0 < revokedAt <= t1 < record.expiresAt <= t3
    ensures r == Found(record) && record.publicId in store.ever
  {
    var manager;
    manager, store := RevokedElsewhere(record, revokedAt);
    assert Finds(manager.sessions, manager.revoked, record.secret, t1);
    r := manager.LookupActive(store, record.secret, true, t1, t1, t3, t3, [], []);
  }

  /** A session that is held here and was revoked in the store only. */
  method RevokedElsewhere(record: Session, revokedAt: int) returns (manager: AuthSessionManager, store: RevocationStore)
    requires record.publicId != "" && TrimSpace(record.publicId) == record.publicId && record.secret != ""
    requires 0 < revokedAt < record.expiresAt
    ensures fresh(manager) && fresh(store) && manager.With(store, revokedAt)
    ensures manager.sessions == map[record.secret := record] && manager.revoked == map[]
    ensures store.ever == {record.publicId}
  {
    var expiry := (id: string) => record.expiresAt;
    manager := new AuthSessionManager(expiry, 0);
    store := new RevocationStore(expiry, 0);
    var created := manager.CreateRecord(record, 0);
    assert Live(map[], map[], 0) == map[] && Unexpired<string>(map[], 0) == map[];
    var stored := store.RevokeAuthSession(record.publicId, record.expiresAt, true, revokedAt);
  }
}
