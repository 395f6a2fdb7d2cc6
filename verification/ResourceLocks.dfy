/**
 The two non-blocking scope locks of the action coordinator, each entered and
 left as one context manager.
 */
module ResourceLocks {
  import opened Ordering

  /** The dictionary key of a scope: a bare resource id gets the `resource:` prefix. */
  function LockKey(scope: string): string {
    if ':' in scope then scope else "resource:" + scope
  }

  function LockKeys(scopes: seq<string>): (keys: seq<string>)
    ensures |keys| == |scopes|
    ensures forall i :: 0 <= i < |scopes| ==> keys[i] == LockKey(scopes[i])
  {
    seq(|scopes|, i requires 0 <= i < |scopes| => LockKey(scopes[i]))
  }

  function Elements<T(==)>(xs: seq<T>): set<T> {
    set x | x in xs
  }

  predicate Distinct<T(==)>(xs: seq<T>) {
    forall i, j :: 0 <= i < j < |xs| ==> xs[i] != xs[j]
  }

  /** The dictionary of `threading.Lock` objects shared by one process; `true` is acquired. */
  class LockTable {
    var locks: map<string, bool>

    constructor ()
      ensures Taken() == {}
    {
      locks := map[];
    }

    function Taken(): set<string>
      reads this
    {
      set k | k in locks && locks[k]
    }

    /** `setdefault(key, Lock()).acquire(blocking=False)`. */
    method TryAcquire(key: string) returns (ok: bool)
      modifies this
      ensures ok <==> key !in old(Taken())
      ensures Taken() == old(Taken()) + {key}
    {
      if key !in locks {
        locks := locks[key := false];
      }
      ok := !locks[key];
      locks := locks[key := true];
    }

    method Release(key: string)
      requires key in Taken()
      modifies this
      ensures Taken() == old(Taken()) - {key}
    {
      locks := locks[key := false];
    }
  }

  class InMemoryResourceLock {
    const table: LockTable
    const resources: seq<string>
    var held: seq<string>

    constructor (table: LockTable, scopes: seq<string>)
      ensures this.table == table && resources == SortedSet(scopes) && held == []
    {
      this.table := table;
      resources := SortedSet(scopes);
      held := [];
    }

    function Keys(): seq<string> {
      LockKeys(resources)
    }

    /** All or nothing: a refused attempt leaves every lock as it found it. */
    method Enter() returns (acquired: bool)
      requires held == []
      modifies this, table
      ensures acquired <==> Distinct(Keys()) && Elements(Keys()) !! old(table.Taken())
      ensures acquired ==> held == Keys() && table.Taken() == old(table.Taken()) + Elements(Keys())
      ensures !acquired ==> held == [] && table.Taken() == old(table.Taken())
    {
      var i := 0;
      while i < |resources|
        invariant 0 <= i <= |resources|
        invariant held == Keys()[..i]
        invariant Distinct(held) && Elements(held) !! old(table.Taken())
        invariant table.Taken() == old(table.Taken()) + Elements(held)
      {
        var key := LockKey(resources[i]);
        assert key == Keys()[i];
        var ok := table.TryAcquire(key);
        if !ok {
          assert key in old(table.Taken()) || exists j :: 0 <= j < i && Keys()[j] == key by {
            assert key in old(table.Taken()) || key in held;
          }
          assert table.Taken() == old(table.Taken()) + Elements(held);
          ReleaseHeld();
          assert key in Elements(Keys());
          return false;
        }
        held := held + [key];
        i := i + 1;
      }
      assert held == Keys();
      return true;
    }

    /** Releases what is held, last lock first. */
    method ReleaseHeld()
      requires Distinct(held) && Elements(held) <= table.Taken()
      modifies this, table
      ensures held == [] && table.Taken() == old(table.Taken()) - old(Elements(held))
    {
      var n := |held|;
      while n > 0
        invariant 0 <= n <= |held| && held == old(held)
        invariant table.Taken() == old(table.Taken()) - Elements(held[n..])
      {
        assert held[n - 1..] == [held[n - 1]] + held[n..];
        assert held[n - 1] in Elements(held);
        assert held[n - 1] !in held[n..];
        table.Release(held[n - 1]);
        n := n - 1;
      }
      assert held[0..] == held;
      held := [];
    }

    method Exit()
      requires Distinct(held) && Elements(held) <= table.Taken()
      modifies this, table
      ensures held == [] && table.Taken() == old(table.Taken()) - old(Elements(held))
    {
      ReleaseHeld();
    }
  }

  /** Entering and leaving is invisible to every other user of the table. */
  method EnterThenExit(table: LockTable, scopes: seq<string>) returns (acquired: bool)
    modifies table
    ensures table.Taken() == old(table.Taken())
    ensures var keys := LockKeys(SortedSet(scopes));
      acquired <==> Distinct(keys) && Elements(keys) !! old(table.Taken())
  {
    var lock := new InMemoryResourceLock(table, scopes);
    acquired := lock.Enter();
    lock.Exit();
  }

  /** Canonical scopes always carry a colon. */
  predicate Canonical(scopes: seq<string>) {
    forall s :: s in scopes ==> ':' in s
  }

  lemma PrefixIsInjective(s: string, t: string)
    requires "resource:" + s == "resource:" + t
    ensures s == t
  {
    assert ("resource:" + s)[9..] == s;
    assert ("resource:" + t)[9..] == t;
  }

  /**
   The raw strings are sorted before they are prefixed, so one request may name the same lock
   twice and then refuses itself. It does so exactly when a bare id and its prefixed form are
   both among the scopes.
   */
  lemma SelfBlockingExactly(scopes: seq<string>)
    ensures !Distinct(LockKeys(SortedSet(scopes))) <==>
            exists s :: s in scopes && ':' !in s && "resource:" + s in scopes
  {
    hide SortedSet;
    var sorted := SortedSet(scopes);
    var keys := LockKeys(sorted);
    if i, j :| 0 <= i < j < |keys| && keys[i] == keys[j] {
      assert sorted[i] in scopes && sorted[j] in scopes;
      AscendingIsDistinct(sorted, i, j);
      OneIsPrefixed(sorted[i], sorted[j]);
    }
    if s :| s in scopes && ':' !in s && "resource:" + s in scopes {
      BothAreLocked(sorted, s);
    }
  }

  /** Two scopes have one key only when one of them is the other with its prefix. */
  lemma OneIsPrefixed(s: string, t: string)
    requires LockKey(s) == LockKey(t) && s != t
    ensures (':' !in s && t == "resource:" + s) || (':' !in t && s == "resource:" + t)
  {
    if ':' !in s && ':' !in t { PrefixIsInjective(s, t); }
  }

  lemma BothAreLocked(sorted: seq<string>, s: string)
    requires s in sorted && "resource:" + s in sorted && ':' !in s
    ensures !Distinct(LockKeys(sorted))
  {
    var t, keys := "resource:" + s, LockKeys(sorted);
    assert t[8] == ':';
    var i :| 0 <= i < |sorted| && sorted[i] == s;
    var j :| 0 <= j < |sorted| && sorted[j] == t;
    assert keys[i] == keys[j] && i != j;
    assert !Distinct(keys) by {
      if i < j { assert keys[i] == keys[j]; } else { assert keys[j] == keys[i]; }
    }
  }

  /** On canonical scopes the keys are the scopes themselves, in ascending order. */
  lemma CanonicalKeysAscend(scopes: seq<string>)
    requires Canonical(scopes)
    ensures LockKeys(SortedSet(scopes)) == SortedSet(scopes)
    ensures Distinct(LockKeys(SortedSet(scopes)))
  {
    var sorted := SortedSet(scopes);
    forall i | 0 <= i < |sorted| ensures LockKeys(sorted)[i] == sorted[i] {
      assert sorted[i] in sorted;
    }
    forall i, j | 0 <= i < j < |sorted| ensures sorted[i] != sorted[j] {
      AscendingIsDistinct(sorted, i, j);
    }
  }

  // ----- session-level advisory locks -----

  type HashKey = (int, int)

  /** A lock held by one session, as often as that session took it. */
  datatype Hold = Hold(session: nat, count: nat)

  type Holders = map<HashKey, Hold>

  ghost predicate WellCounted(h: Holders) {
    forall k :: k in h ==> h[k].count > 0
  }

  predicate Lockable(h: Holders, session: nat, k: HashKey) {
    k in h ==> h[k].session == session
  }

  function Depth(h: Holders, session: nat, k: HashKey): nat {
    if k in h && h[k].session == session then h[k].count else 0
  }

  function LockOne(h: Holders, session: nat, k: HashKey): Holders
    requires Lockable(h, session, k)
  {
    h[k := Hold(session, Depth(h, session, k) + 1)]
  }

  function UnlockOne(h: Holders, session: nat, k: HashKey): Holders {
    var depth := Depth(h, session, k);
    if depth == 0 then h
    else if depth == 1 then h - {k}
    else h[k := Hold(session, depth - 1)]
  }

  /** `keys` locked in order; defined where no other session holds one of them. */
  ghost function LockAll(h: Holders, session: nat, keys: seq<HashKey>): (r: Holders)
    requires WellCounted(h)
    requires forall k :: k in keys ==> Lockable(h, session, k)
    ensures WellCounted(r)
    ensures forall k :: Lockable(h, session, k) <==> Lockable(r, session, k)
  {
    if keys == [] then h
    else
      var n := |keys| - 1;
      assert keys == keys[..n] + [keys[n]];
      LockOne(LockAll(h, session, keys[..n]), session, keys[n])
  }

  /** Every occurrence of a key is counted, and no other key is touched. */
  lemma {:induction false} LockAllCounts(h: Holders, session: nat, keys: seq<HashKey>, k: HashKey)
    requires WellCounted(h)
    requires forall k :: k in keys ==> Lockable(h, session, k)
    ensures Depth(LockAll(h, session, keys), session, k) == Depth(h, session, k) + multiset(keys)[k]
    ensures k !in keys ==> (k in LockAll(h, session, keys) <==> k in h)
    ensures k !in keys && k in h ==> LockAll(h, session, keys)[k] == h[k]
  {
    if keys != [] {
      var n := |keys| - 1;
      assert keys == keys[..n] + [keys[n]];
      LockAllCounts(h, session, keys[..n], k);
    }
  }

  /** `keys` unlocked, last one first. */
  ghost function UnlockBack(h: Holders, session: nat, keys: seq<HashKey>): Holders {
    if keys == [] then h
    else UnlockBack(UnlockOne(h, session, keys[|keys| - 1]), session, keys[..|keys| - 1])
  }

  lemma UnlockOneUndoesLockOne(h: Holders, session: nat, k: HashKey)
    requires WellCounted(h) && Lockable(h, session, k)
    ensures UnlockOne(LockOne(h, session, k), session, k) == h
  {
  }

  /** As many unlocks as locks, even when two scopes hash to one key. */
  lemma {:induction false} UnlockBackUndoesLockAll(h: Holders, session: nat, keys: seq<HashKey>)
    requires WellCounted(h)
    requires forall k :: k in keys ==> Lockable(h, session, k)
    ensures UnlockBack(LockAll(h, session, keys), session, keys) == h
  {
    if keys != [] {
      var n := |keys| - 1;
      var before := LockAll(h, session, keys[..n]);
      UnlockOneUndoesLockOne(before, session, keys[n]);
      UnlockBackUndoesLockAll(h, session, keys[..n]);
    }
  }

  class AdvisoryServer {
    var holders: Holders

    /** `pg_try_advisory_lock`: reentrant for the session that holds the key. */
    method TryLock(session: nat, k: HashKey) returns (ok: bool)
      modifies this
      ensures ok <==> Lockable(old(holders), session, k)
      ensures holders == if ok then LockOne(old(holders), session, k) else old(holders)
    {
      ok := Lockable(holders, session, k);
      if ok {
        holders := LockOne(holders, session, k);
      }
    }

    /** `pg_advisory_unlock`. */
    method Unlock(session: nat, k: HashKey)
      modifies this
      ensures holders == UnlockOne(old(holders), session, k)
    {
      holders := UnlockOne(holders, session, k);
    }
  }

  /** `keys.index(key)`. */
  function IndexOf(keys: seq<HashKey>, key: HashKey): (i: nat)
    requires key in keys
    ensures i < |keys| && keys[i] == key && key !in keys[..i]
  {
    if keys[0] == key then 0
    else
      assert keys == [keys[0]] + keys[1..];
      var i := 1 + IndexOf(keys[1..], key);
      assert keys[..i] == [keys[0]] + keys[1..][..i - 1];
      i
  }

  lemma {:induction false} FirstOccurrence(keys: seq<HashKey>, i: nat)
    requires i < |keys| && keys[i] !in keys[..i]
    ensures IndexOf(keys, keys[i]) == i
  {
  }

  class ResourceLock {
    const server: AdvisoryServer
    const session: nat
    const keys: seq<HashKey>
    var connected: bool
    var acquired: bool

    constructor (server: AdvisoryServer, session: nat, keys: seq<HashKey>)
      ensures this.server == server && this.session == session && this.keys == keys
      ensures connected && !acquired
    {
      this.server := server;
      this.session := session;
      this.keys := keys;
      connected, acquired := true, false;
    }

    /**
     Succeeds exactly when no other session holds one of the keys. A refusal has already
     returned the server to its earlier state before the connection is closed.
     */
    method Enter() returns (ok: bool)
      requires !acquired && WellCounted(server.holders)
      modifies this, server
      ensures ok == acquired
      ensures ok <==> old(connected) && forall k :: k in keys ==> Lockable(old(server.holders), session, k)
      ensures ok ==> connected && server.holders == LockAll(old(server.holders), session, keys)
      ensures !ok ==> !connected && server.holders == old(server.holders)
    {
      if !connected {
        return false;
      }
      ghost var before := server.holders;
      var i := 0;
      while i < |keys|
        invariant 0 <= i <= |keys| && connected && !acquired
        invariant forall k :: k in keys[..i] ==> Lockable(before, session, k)
        invariant server.holders == LockAll(before, session, keys[..i])
      {
        var locked := server.TryLock(session, keys[i]);
        if !locked {
          assert keys[i] !in keys[..i];
          var first := IndexOf(keys, keys[i]);
          FirstOccurrence(keys, i);
          UnlockBackUndoesLockAll(before, session, keys[..i]);
          UnlockReversed(keys[..first]);
          connected := false;
          assert keys[i] in keys;
          return false;
        }
        assert keys[..i + 1] == keys[..i] + [keys[i]];
        assert keys[..i + 1][..i] == keys[..i];
        i := i + 1;
      }
      assert keys[..i] == keys;
      acquired := true;
      return true;
    }

    method UnlockReversed(held: seq<HashKey>)
      modifies server
      ensures server.holders == UnlockBack(old(server.holders), session, held)
    {
      var n := |held|;
      assert held[..n] == held;
      while n > 0
        invariant 0 <= n <= |held|
        invariant UnlockBack(server.holders, session, held[..n]) == UnlockBack(old(server.holders), session, held)
      {
        assert held[..n][..n - 1] == held[..n - 1];
        server.Unlock(session, held[n - 1]);
        n := n - 1;
      }
    }

    method Exit()
      modifies this, server
      ensures !connected && !acquired
      ensures server.holders == if old(connected && acquired)
                                then UnlockBack(old(server.holders), session, keys)
                                else old(server.holders)
    {
      if connected && acquired {
        UnlockReversed(keys);
      }
      connected := false;
      acquired := false;
    }
  }

  /** A whole `with` block leaves no lock behind, whether it was entered or refused. */
  method SessionEnterThenExit(server: AdvisoryServer, session: nat, keys: seq<HashKey>) returns (ok: bool)
    requires WellCounted(server.holders)
    modifies server
    ensures server.holders == old(server.holders)
    ensures ok <==> forall k :: k in keys ==> Lockable(old(server.holders), session, k)
  {
    var lock := new ResourceLock(server, session, keys);
    ok := lock.Enter();
    if ok {
      UnlockBackUndoesLockAll(old(server.holders), session, keys);
    }
    lock.Exit();
  }
}
