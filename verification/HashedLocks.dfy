/**
 The session locks in an interleaving: attempts that lock the hashes of ascending scopes, one
 `pg_try_advisory_lock` or `pg_advisory_unlock` at a time, each in a session of its own.
 */
module HashedLocks {
  import opened Ordering
  import opened ResourceLocks

  /** As for the in-memory lock; a session may take a key it holds once more. */
  datatype Phase = Acquiring | Aborting(blockedAt: nat) | Entered | Leaving

  datatype Attempt = Attempt(keys: seq<HashKey>, held: nat, phase: Phase) {
    predicate Valid() {
      && held <= |keys|
      && (phase.Entered? ==> held == |keys|)
      && (phase.Aborting? ==> held <= phase.blockedAt < |keys|)
    }

    predicate Holds(key: HashKey)
      requires Valid()
    {
      key in keys[..held]
    }

    predicate Succeeded() {
      phase.Entered? || phase.Leaving?
    }
  }

  type Attempts = seq<Attempt>

  /** Who acts at each moment; a number that names no attempt acts as nobody. */
  type Schedule = seq<nat>

  ghost predicate AllValid(t: Attempts) {
    forall i :: 0 <= i < |t| ==> t[i].Valid()
  }

  function Hashed(h: string -> HashKey, scopes: seq<string>): (keys: seq<HashKey>)
    ensures |keys| == |scopes|
    ensures forall i :: 0 <= i < |scopes| ==> keys[i] == h(scopes[i])
  {
    seq(|scopes|, i requires 0 <= i < |scopes| => h(scopes[i]))
  }

  function Start(requests: seq<seq<HashKey>>): (t: Attempts)
    ensures AllValid(t)
  {
    seq(|requests|, i requires 0 <= i < |requests| => Attempt(requests[i], 0, Acquiring))
  }

  /** Another session holds the key. */
  ghost predicate Busy(t: Attempts, i: nat, key: HashKey)
    requires AllValid(t)
  {
    exists j :: 0 <= j < |t| && j != i && t[j].Holds(key)
  }

  /** The next action of attempt `i`. */
  ghost function Moved(t: Attempts, i: nat): Attempt
    requires AllValid(t) && i < |t|
  {
    var a := t[i];
    match a.phase
    case Acquiring =>
      if a.held == |a.keys| then a.(phase := Entered)
      else if Busy(t, i, a.keys[a.held]) then a.(phase := Aborting(a.held))
      else a.(held := a.held + 1)
    case Entered => a.(phase := Leaving)
    case _ => if a.held == 0 then a else a.(held := a.held - 1)
  }

  ghost function Step(t: Attempts, i: nat): (u: Attempts)
    requires AllValid(t) && i < |t|
    ensures AllValid(u) && |u| == |t|
  {
    t[i := Moved(t, i)]
  }

  ghost function Run(requests: seq<seq<HashKey>>, schedule: Schedule): (t: Attempts)
    ensures AllValid(t) && |t| == |requests|
    ensures forall i :: 0 <= i < |requests| ==> t[i].keys == requests[i]
  {
    if schedule == [] then Start(requests)
    else
      var t := Run(requests, schedule[..|schedule| - 1]);
      var i := schedule[|schedule| - 1];
      if i < |requests| then Step(t, i) else t
  }

  // ----- any number of requests that follow one order -----

  ghost predicate Apart(s: seq<HashKey>, t: seq<HashKey>) {
    forall k :: k in s ==> k !in t
  }

  ghost predicate StrictOrder(less: (HashKey, HashKey) -> bool) {
    && (forall a :: !less(a, a))
    && (forall a, b, c :: less(a, b) && less(b, c) ==> less(a, c))
  }

  /** A key that is new in the list comes after all before it; one that is held already does not matter. */
  ghost predicate Follows(keys: seq<HashKey>, less: (HashKey, HashKey) -> bool) {
    forall i, j :: 0 <= i < j < |keys| && keys[j] !in keys[..j] ==> less(keys[i], keys[j])
  }

  /** Attempt `a` answers for a failure at `key`: it entered, is past `key`, or failed beyond it. */
  ghost predicate Answers(a: Attempt, key: HashKey, less: (HashKey, HashKey) -> bool)
    requires a.Valid()
  {
    match a.phase
    case Acquiring => a.Holds(key)
    case Aborting(at) => less(key, a.keys[at])
    case _ => true
  }

  ghost predicate Blamed(t: Attempts, key: HashKey, less: (HashKey, HashKey) -> bool)
    requires AllValid(t)
  {
    exists j :: 0 <= j < |t| && Answers(t[j], key, less)
  }

  ghost predicate Exclusive(t: Attempts)
    requires AllValid(t)
  {
    forall i, j :: 0 <= i < |t| && 0 <= j < |t| && i != j ==> Apart(t[i].keys[..t[i].held], t[j].keys[..t[j].held])
  }

  ghost predicate OrderInv(t: Attempts, less: (HashKey, HashKey) -> bool) {
    && AllValid(t) && Exclusive(t)
    && (forall i :: 0 <= i < |t| ==> Follows(t[i].keys, less))
    && (forall i :: 0 <= i < |t| && t[i].phase.Aborting? ==>
          && t[i].keys[t[i].phase.blockedAt] !in t[i].keys[..t[i].phase.blockedAt]
          && Blamed(t, t[i].keys[t[i].phase.blockedAt], less))
  }

  lemma StepStaysExclusive(t: Attempts, i: nat)
    requires AllValid(t) && Exclusive(t) && i < |t|
    ensures Exclusive(Step(t, i))
  {
    var a, c := t[i], Moved(t, i);
    forall j | 0 <= j < |t| && j != i
      ensures Apart(c.keys[..c.held], t[j].keys[..t[j].held]) && Apart(t[j].keys[..t[j].held], c.keys[..c.held])
    {
      assert Apart(a.keys[..a.held], t[j].keys[..t[j].held]);
      if c.held > a.held {
        assert c.keys[..c.held] == a.keys[..a.held] + [a.keys[a.held]];
        assert !t[j].Holds(a.keys[a.held]);
      } else if c.held < a.held {
        assert a.keys[..a.held] == c.keys[..c.held] + [a.keys[c.held]];
      }
    }
  }

  /** Whoever holds a key, or already answered for a failure at it, still answers after a step. */
  lemma AnswersStays(t: Attempts, i: nat, q: nat, key: HashKey, less: (HashKey, HashKey) -> bool)
    requires OrderInv(t, less) && i < |t| && q < |t|
    requires t[q].Holds(key) || Answers(t[q], key, less)
    ensures Answers(Step(t, i)[q], key, less)
  {
    HolderAnswers(t, q, key, less);
    var a, c := t[i], Moved(t, i);
    if q == i && a.phase.Acquiring? {
      if c.phase.Aborting? {
        BlockedAtNew(t, i);
        var m :| 0 <= m < a.held && a.keys[m] == key;
        assert less(a.keys[m], a.keys[a.held]);
      } else if c.held > a.held {
        assert c.keys[..c.held] == a.keys[..a.held] + [a.keys[a.held]];
      }
    }
  }

  lemma HolderAnswers(t: Attempts, q: nat, key: HashKey, less: (HashKey, HashKey) -> bool)
    requires OrderInv(t, less) && q < |t| && (t[q].Holds(key) || Answers(t[q], key, less))
    ensures Answers(t[q], key, less)
  {
    var a := t[q];
    if a.Holds(key) && a.phase.Aborting? {
      var m :| 0 <= m < a.held && a.keys[m] == key;
      assert Follows(a.keys, less) && less(a.keys[m], a.keys[a.phase.blockedAt]);
    }
  }

  /** What another session holds is new to this one. */
  lemma BlockedAtNew(t: Attempts, i: nat)
    requires AllValid(t) && Exclusive(t) && i < |t| && t[i].held < |t[i].keys| && Busy(t, i, t[i].keys[t[i].held])
    ensures t[i].keys[t[i].held] !in t[i].keys[..t[i].held]
  {
    var key := t[i].keys[t[i].held];
    var j :| 0 <= j < |t| && j != i && t[j].Holds(key);
    assert Apart(t[i].keys[..t[i].held], t[j].keys[..t[j].held]);
  }

  lemma StepKeepsOrder(t: Attempts, i: nat, less: (HashKey, HashKey) -> bool)
    requires OrderInv(t, less) && i < |t|
    ensures OrderInv(Step(t, i), less)
  {
    hide Follows, Answers;
    StepStaysExclusive(t, i);
    var u := Step(t, i);
    forall p | 0 <= p < |u| && u[p].phase.Aborting?
      ensures u[p].keys[u[p].phase.blockedAt] !in u[p].keys[..u[p].phase.blockedAt]
      ensures Blamed(u, u[p].keys[u[p].phase.blockedAt], less)
    {
      var key := u[p].keys[u[p].phase.blockedAt];
      var q: nat;
      if t[p].phase.Aborting? {
        q :| q < |t| && Answers(t[q], key, less);
      } else {
        BlockedAtNew(t, i);
        q :| q < |t| && q != i && t[q].Holds(key);
      }
      AnswersStays(t, i, q, key, less);
    }
  }

  lemma {:induction false} OrderIsKept(
    requests: seq<seq<HashKey>>, schedule: Schedule, less: (HashKey, HashKey) -> bool
  )
    requires forall r :: r in requests ==> Follows(r, less)
    ensures OrderInv(Run(requests, schedule), less)
  {
    hide OrderInv, Follows;
    if schedule == [] {
      NothingHeld(requests, less);
    } else {
      var n := |schedule| - 1;
      OrderIsKept(requests, schedule[..n], less);
      if schedule[n] < |requests| { StepKeepsOrder(Run(requests, schedule[..n]), schedule[n], less); }
    }
  }

  lemma NothingHeld(requests: seq<seq<HashKey>>, less: (HashKey, HashKey) -> bool)
    requires forall r :: r in requests ==> Follows(r, less)
    ensures OrderInv(Start(requests), less)
  {
    hide Follows;
  }

  /** Among the first `n` aborted attempts one was blocked at a key that no other key exceeds. */
  lemma {:induction false} FurthestFailure(t: Attempts, n: nat, less: (HashKey, HashKey) -> bool) returns (m: nat)
    requires AllValid(t) && StrictOrder(less) && 0 < n <= |t|
    requires forall i :: 0 <= i < |t| ==> t[i].phase.Aborting?
    ensures m < n
    ensures forall i :: 0 <= i < n ==> !less(t[m].keys[t[m].phase.blockedAt], t[i].keys[t[i].phase.blockedAt])
  {
    m := 0;
    if n > 1 {
      m := FurthestFailure(t, n - 1, less);
      var best, last := t[m].keys[t[m].phase.blockedAt], t[n - 1].keys[t[n - 1].phase.blockedAt];
      if less(best, last) { m := n - 1; }
    }
  }

  /**
   Whatever the hash: if some order of the keys is followed by every request, then once every
   session has decided, a failure anywhere means a success somewhere.
   */
  lemma SomeSessionSucceedsInOrder(
    requests: seq<seq<HashKey>>, schedule: Schedule, less: (HashKey, HashKey) -> bool, failed: nat
  )
    requires StrictOrder(less) && forall r :: r in requests ==> Follows(r, less)
    requires forall i :: 0 <= i < |requests| ==> !Run(requests, schedule)[i].phase.Acquiring?
    requires failed < |requests| && Run(requests, schedule)[failed].phase.Aborting?
    ensures exists i :: 0 <= i < |requests| && Run(requests, schedule)[i].Succeeded()
  {
    hide Run, Follows, Exclusive;
    OrderIsKept(requests, schedule, less);
    var t := Run(requests, schedule);
    if forall i :: 0 <= i < |t| ==> t[i].phase.Aborting? {
      var m := FurthestFailure(t, |t|, less);
      assert false;
    } else {
      var i :| 0 <= i < |t| && !t[i].phase.Aborting?;
      assert t[i].Succeeded();
    }
  }

  // ----- a hash without collisions -----

  ghost predicate Named(requests: seq<seq<string>>, scope: string) {
    exists r :: r in requests && scope in r
  }

  ghost predicate InjectiveOn(h: string -> HashKey, requests: seq<seq<string>>) {
    forall s, t :: Named(requests, s) && Named(requests, t) && h(s) == h(t) ==> s == t
  }

  function HashAll(h: string -> HashKey, requests: seq<seq<string>>): (keys: seq<seq<HashKey>>)
    ensures |keys| == |requests| && forall i :: 0 <= i < |requests| ==> keys[i] == Hashed(h, requests[i])
  {
    seq(|requests|, i requires 0 <= i < |requests| => Hashed(h, requests[i]))
  }

  /** The order of the scopes, carried over to their hashes. */
  ghost predicate Carried(h: string -> HashKey, requests: seq<seq<string>>, a: HashKey, b: HashKey) {
    exists s, t :: Named(requests, s) && Named(requests, t) && h(s) == a && h(t) == b && Before(s, t)
  }

  lemma CarriedIsStrict(h: string -> HashKey, requests: seq<seq<string>>)
    requires InjectiveOn(h, requests)
    ensures StrictOrder((a, b) => Carried(h, requests, a, b))
  {
    hide Named, Before;
    forall a ensures !Carried(h, requests, a, a) {
      if Carried(h, requests, a, a) {
        var s, t :| Named(requests, s) && Named(requests, t) && h(s) == a && h(t) == a && Before(s, t);
        BeforeIsStrict(s, t);
        assert false;
      }
    }
    forall a, b, c | Carried(h, requests, a, b) && Carried(h, requests, b, c) ensures Carried(h, requests, a, c) {
      var s, t :| Named(requests, s) && Named(requests, t) && h(s) == a && h(t) == b && Before(s, t);
      var u, v :| Named(requests, u) && Named(requests, v) && h(u) == b && h(v) == c && Before(u, v);
      BeforeIsTransitive(s, t, v);
    }
  }

  lemma AscendingFollows(h: string -> HashKey, requests: seq<seq<string>>, r: seq<string>)
    requires r in requests && Ascending(r)
    ensures Follows(Hashed(h, r), (a, b) => Carried(h, requests, a, b))
  {
    hide Before;
    forall i, j | 0 <= i < j < |r| ensures Carried(h, requests, h(r[i]), h(r[j])) {
      assert Named(requests, r[i]) && Named(requests, r[j]) && Before(r[i], r[j]);
    }
  }

  /**
   Where the hash separates all scopes that are named, ascending requests follow the order of the
   scopes, and so a failure means a success.
   */
  lemma SomeSessionSucceeds(h: string -> HashKey, requests: seq<seq<string>>, schedule: Schedule, failed: nat)
    requires InjectiveOn(h, requests) && forall r :: r in requests ==> Ascending(r)
    requires forall i :: 0 <= i < |requests| ==> !Run(HashAll(h, requests), schedule)[i].phase.Acquiring?
    requires failed < |requests| && Run(HashAll(h, requests), schedule)[failed].phase.Aborting?
    ensures exists i :: 0 <= i < |requests| && Run(HashAll(h, requests), schedule)[i].Succeeded()
  {
    hide InjectiveOn, Run, StrictOrder, Follows, Carried;
    var keys := HashAll(h, requests);
    CarriedIsStrict(h, requests);
    forall k | k in keys ensures Follows(k, (a, b) => Carried(h, requests, a, b)) {
      var i :| 0 <= i < |keys| && keys[i] == k;
      AscendingFollows(h, requests, requests[i]);
    }
    SomeSessionSucceedsInOrder(keys, schedule, (a, b) => Carried(h, requests, a, b), failed);
  }

  // ----- two requests, any hash -----

  /**
   Two keys are locked in opposite orders: each request comes to a key among those the other has
   before it, while what they have so far is disjoint.
   */
  ghost predicate Opposed(a: seq<HashKey>, b: seq<HashKey>) {
    exists m, n :: 0 <= m < |a| && 0 <= n < |b| && OpposedAt(a, b, m, n)
  }

  ghost predicate OpposedAt(a: seq<HashKey>, b: seq<HashKey>, m: nat, n: nat)
    requires m < |a| && n < |b|
  {
    Apart(a[..m], b[..n]) && a[m] in b[..n] && b[n] in a[..m]
  }

  /** A key that `a` does not hold is held by `b`. */
  ghost predicate Ahead(a: Attempt, b: Attempt)
    requires a.Valid() && b.Valid()
  {
    exists p :: a.held <= p < |a.keys| && b.Holds(a.keys[p])
  }

  ghost predicate PairInv(t: Attempts) {
    && |t| == 2 && AllValid(t)
    && Apart(t[0].keys[..t[0].held], t[1].keys[..t[1].held])
    && (t[0].phase.Aborting? && t[1].phase.Acquiring? ==> Ahead(t[0], t[1]))
    && (t[1].phase.Aborting? && t[0].phase.Acquiring? ==> Ahead(t[1], t[0]))
    && (t[0].phase.Aborting? && t[1].phase.Aborting? ==> Opposed(t[0].keys, t[1].keys))
  }

  lemma OpposedIsSymmetric(a: seq<HashKey>, b: seq<HashKey>)
    requires Opposed(a, b)
    ensures Opposed(b, a)
  {
    var m, n :| 0 <= m < |a| && 0 <= n < |b| && OpposedAt(a, b, m, n);
    assert OpposedAt(b, a, n, m);
  }

  /** The first key from `p` back that `b` holds closes the opposition. */
  lemma {:induction false} BothBlocked(a: Attempt, b: Attempt, p: nat)
    requires a.Valid() && b.Valid() && Apart(a.keys[..a.held], b.keys[..b.held])
    requires a.held <= p < |a.keys| && b.Holds(a.keys[p])
    requires b.held < |b.keys| && a.Holds(b.keys[b.held])
    ensures Opposed(a.keys, b.keys)
    decreases p
  {
    if q :| a.held <= q < p && b.Holds(a.keys[q]) {
      BothBlocked(a, b, q);
    } else {
      forall k | k in a.keys[..p] ensures k !in b.keys[..b.held] {
        var i :| 0 <= i < p && a.keys[i] == k;
        if i < a.held { assert k == a.keys[..a.held][i]; }
      }
      var key := b.keys[b.held];
      var i :| 0 <= i < a.held && a.keys[i] == key;
      assert a.keys[..p][i] == key;
      assert OpposedAt(a.keys, b.keys, p, b.held);
    }
  }

  /** What one step of one of two attempts means for the pair, the moving one first. */
  lemma MoveKeepsPair(t: Attempts, i: nat)
    requires PairInv(t) && i < 2
    ensures PairInv(Step(t, i))
  {
    hide Opposed;
    var a, b, c := t[i], t[1 - i], Moved(t, i);
    assert Apart(a.keys[..a.held], b.keys[..b.held]);
    if a.held < |a.keys| { BusyMeansTheOther(t, i, a.keys[a.held]); }
    assert Apart(c.keys[..c.held], b.keys[..b.held]) by {
      if c.held > a.held { assert c.keys[..c.held] == a.keys[..a.held] + [a.keys[a.held]]; }
      if c.held < a.held { assert a.keys[..a.held] == c.keys[..c.held] + [a.keys[c.held]]; }
    }
    if b.phase.Aborting? && a.phase.Acquiring? {
      var p :| b.held <= p < |b.keys| && a.Holds(b.keys[p]);
      if c.phase.Aborting? {
        BothBlocked(b, a, p);
        OpposedIsSymmetric(b.keys, a.keys);
      } else if c.phase.Acquiring? {
        assert c.keys[..c.held] == a.keys[..a.held] + [a.keys[a.held]];
        assert c.Holds(b.keys[p]);
      }
    }
    if c.phase.Aborting? && b.phase.Acquiring? {
      if a.phase.Acquiring? {
        assert b.Holds(a.keys[a.held]);
      } else {
        var p :| a.held <= p < |a.keys| && b.Holds(a.keys[p]);
        assert c.held <= p;
      }
    }
  }

  lemma BusyMeansTheOther(t: Attempts, i: nat, key: HashKey)
    requires AllValid(t) && |t| == 2 && i < 2
    ensures Busy(t, i, key) <==> t[1 - i].Holds(key)
  {
  }

  lemma {:induction false} PairsStay(a: seq<HashKey>, b: seq<HashKey>, schedule: Schedule)
    ensures PairInv(Run([a, b], schedule))
  {
    hide Opposed, Ahead;
    if schedule != [] {
      var n := |schedule| - 1;
      PairsStay(a, b, schedule[..n]);
      if schedule[n] < 2 { MoveKeepsPair(Run([a, b], schedule[..n]), schedule[n]); }
    }
  }

  ghost predicate BothAbort(t: Attempts) {
    |t| == 2 && t[0].phase.Aborting? && t[1].phase.Aborting?
  }

  function Times(n: nat, i: nat): Schedule {
    seq(n, _ => i)
  }

  lemma RunOneMore(requests: seq<seq<HashKey>>, schedule: Schedule, i: nat)
    requires i < |requests|
    ensures Run(requests, schedule + [i]) == Step(Run(requests, schedule), i)
  {
    assert (schedule + [i])[..|schedule + [i]| - 1] == schedule;
  }

  lemma TakesFreeKey(t: Attempts, i: nat)
    requires AllValid(t) && |t| == 2 && i < 2
    requires t[i].phase.Acquiring? && t[i].held < |t[i].keys| && !t[1 - i].Holds(t[i].keys[t[i].held])
    ensures Step(t, i) == t[i := t[i].(held := t[i].held + 1)]
  {
  }

  /** An attempt takes keys that the other does not hold. */
  lemma {:induction false} TakesFreeKeys(requests: seq<seq<HashKey>>, schedule: Schedule, i: nat, n: nat)
    requires |requests| == 2 && i < 2 && n <= |requests[i]|
    requires Run(requests, schedule)[i] == Attempt(requests[i], 0, Acquiring)
    requires var other := Run(requests, schedule)[1 - i]; Apart(requests[i][..n], other.keys[..other.held])
    ensures Run(requests, schedule + Times(n, i)) == Run(requests, schedule)[i := Attempt(requests[i], n, Acquiring)]
  {
    hide Run, Step;
    if n == 0 {
      assert schedule + Times(0, i) == schedule;
    } else {
      var keys := requests[i];
      assert keys[..n] == keys[..n - 1] + [keys[n - 1]];
      TakesFreeKeys(requests, schedule, i, n - 1);
      var before := schedule + Times(n - 1, i);
      assert before + [i] == schedule + Times(n, i);
      RunOneMore(requests, before, i);
      TakesFreeKey(Run(requests, before), i);
    }
  }

  lemma OpposedBothAbort(a: seq<HashKey>, b: seq<HashKey>) returns (schedule: Schedule)
    requires Opposed(a, b)
    ensures BothAbort(Run([a, b], schedule))
  {
    var m, n :| 0 <= m < |a| && 0 <= n < |b| && OpposedAt(a, b, m, n);
    TakesFreeKeys([a, b], [], 0, m);
    var first := [] + Times(m, 0);
    TakesFreeKeys([a, b], first, 1, n);
    var both := first + Times(n, 1);
    var t := Run([a, b], both);
    assert t == [Attempt(a, m, Acquiring), Attempt(b, n, Acquiring)];
    RunOneMore([a, b], both, 0);
    BusyMeansTheOther(t, 0, a[m]);
    var u := Step(t, 0);
    assert u == [Attempt(a, m, Aborting(m)), Attempt(b, n, Acquiring)];
    RunOneMore([a, b], both + [0], 1);
    BusyMeansTheOther(u, 1, b[n]);
    schedule := both + [0] + [1];
  }

  /** Two attempts can abort each other if and only if they lock two keys in opposite orders. */
  lemma BothAbortExactly(a: seq<HashKey>, b: seq<HashKey>)
    ensures (exists schedule :: BothAbort(Run([a, b], schedule))) <==> Opposed(a, b)
  {
    if schedule :| BothAbort(Run([a, b], schedule)) {
      PairsStay(a, b, schedule);
    }
    if Opposed(a, b) {
      var schedule := OpposedBothAbort(a, b);
    }
  }

  /** It takes a collision: ascending scopes under a hash that separates them are never opposed. */
  lemma OpposedOnlyByCollision(h: string -> HashKey, r: seq<string>, q: seq<string>)
    requires Ascending(r) && Ascending(q) && InjectiveOn(h, [r, q])
    ensures !Opposed(Hashed(h, r), Hashed(h, q))
  {
    var a, b := Hashed(h, r), Hashed(h, q);
    assert r in [r, q] && q in [r, q];
    if m, n :| 0 <= m < |a| && 0 <= n < |b| && OpposedAt(a, b, m, n) {
      var j :| 0 <= j < n && b[j] == a[m];
      var i :| 0 <= i < m && a[i] == b[n];
      assert r[i] in r && r[m] in r && q[j] in q && q[n] in q;
      assert q[j] == r[m] && r[i] == q[n];
      assert Before(r[i], r[m]) && Before(q[j], q[n]);
      BeforeIsStrict(r[i], r[m]);
      assert false;
    }
  }

  /** Two keys only; the scopes `a` and `c` collide. */
  function Colliding(scope: string): HashKey {
    if scope == "b" then (0, 1) else (0, 0)
  }

  /** With a collision two ascending requests can both fail. */
  lemma CollidingScopesCanAllAbort() returns (schedule: Schedule)
    ensures Ascending(["a", "b"]) && Ascending(["b", "c"])
    ensures BothAbort(Run([Hashed(Colliding, ["a", "b"]), Hashed(Colliding, ["b", "c"])], schedule))
  {
    var a, b := Hashed(Colliding, ["a", "b"]), Hashed(Colliding, ["b", "c"]);
    assert a == [(0, 0), (0, 1)] && b == [(0, 1), (0, 0)];
    assert a[..1] == [(0, 0)] && b[..1] == [(0, 1)];
    assert OpposedAt(a, b, 1, 1);
    schedule := OpposedBothAbort(a, b);
  }
}
