/**
 Any number of lock attempts over one in-memory table, interleaved one `acquire` or
 `release` at a time.
 */
module LockRuns {
  import opened Ordering

  /**
   Acquiring: inside the loop of `__enter__`. Aborting: some `acquire` failed and the locks
   taken so far are being given back. Entered: `__enter__` returned true. Leaving: inside
   `__exit__`. The locks held are always the first `held` keys.
   */
  datatype Phase = Acquiring | Aborting(blockedOn: string) | Entered | Leaving

  datatype Attempt = Attempt(keys: seq<string>, held: nat, phase: Phase) {
    predicate Valid() {
      && held <= |keys|
      && Ascending(keys)
      && (phase.Entered? ==> held == |keys|)
      && (phase.Aborting? ==> forall i :: 0 <= i < held ==> Before(keys[i], phase.blockedOn))
    }

    predicate Holds(key: string)
      requires held <= |keys|
    {
      key in keys[..held]
    }

    predicate Succeeded() {
      phase.Entered? || phase.Leaving?
    }
  }

  /** Which locks are taken, with the attempt that took each. */
  datatype Table = Table(holder: map<string, nat>, attempts: seq<Attempt>)

  function Start(requests: seq<seq<string>>): Table {
    Table(map[], seq(|requests|, i requires 0 <= i < |requests| => Attempt(requests[i], 0, Acquiring)))
  }

  /** The next action of attempt `i`. */
  function Step(t: Table, i: nat): Table
    requires i < |t.attempts| && t.attempts[i].held <= |t.attempts[i].keys|
  {
    var a := t.attempts[i];
    match a.phase
    case Acquiring =>
      if a.held == |a.keys| then t.(attempts := t.attempts[i := a.(phase := Entered)])
      else if a.keys[a.held] in t.holder then t.(attempts := t.attempts[i := a.(phase := Aborting(a.keys[a.held]))])
      else Table(t.holder[a.keys[a.held] := i], t.attempts[i := a.(held := a.held + 1)])
    case Entered => t.(attempts := t.attempts[i := a.(phase := Leaving)])
    case Aborting(_) => GiveBack(t, i)
    case Leaving => GiveBack(t, i)
  }

  /** One lock released, the last one first. */
  function GiveBack(t: Table, i: nat): Table
    requires i < |t.attempts| && t.attempts[i].held <= |t.attempts[i].keys|
  {
    var a := t.attempts[i];
    if a.held == 0 then t
    else Table(t.holder - {a.keys[a.held - 1]}, t.attempts[i := a.(held := a.held - 1)])
  }

  /** Who acts at each moment; a number that names no attempt acts as nobody. */
  type Schedule = seq<nat>

  ghost function Run(requests: seq<seq<string>>, schedule: Schedule): (t: Table)
    requires forall r :: r in requests ==> Ascending(r)
    ensures Inv(t) && |t.attempts| == |requests|
    ensures forall i :: 0 <= i < |requests| ==> t.attempts[i].keys == requests[i]
  {
    if schedule == [] then Start(requests)
    else
      var t := Run(requests, schedule[..|schedule| - 1]);
      var i := schedule[|schedule| - 1];
      if i < |requests| then StepKeepsInv(t, i); Step(t, i) else t
  }

  // ----- what every step keeps -----

  ghost predicate Inv(t: Table) {
    && (forall i :: 0 <= i < |t.attempts| ==> t.attempts[i].Valid())
    && (forall i :: 0 <= i < |t.attempts| ==> OwnsWhatItHolds(t, i))
    && (forall key :: key in t.holder ==> t.holder[key] < |t.attempts|)
    && (forall i :: 0 <= i < |t.attempts| && t.attempts[i].phase.Aborting? ==> Blamed(t, i))
  }

  ghost predicate OwnsWhatItHolds(t: Table, i: nat)
    requires i < |t.attempts| && t.attempts[i].Valid()
  {
    forall key :: t.attempts[i].Holds(key) <==> key in t.holder && t.holder[key] == i
  }

  /** Attempt `a` answers for a failure at `key`: it entered, is past `key`, or failed beyond it. */
  ghost predicate Answers(a: Attempt, key: string)
    requires a.Valid()
  {
    match a.phase
    case Acquiring => a.Holds(key)
    case Aborting(further) => Before(key, further)
    case Entered => true
    case Leaving => true
  }

  ghost predicate Blamed(t: Table, i: nat)
    requires forall j :: 0 <= j < |t.attempts| ==> t.attempts[j].Valid()
    requires i < |t.attempts| && t.attempts[i].phase.Aborting?
  {
    exists j :: 0 <= j < |t.attempts| && Answers(t.attempts[j], t.attempts[i].phase.blockedOn)
  }

  lemma StepKeepsInv(t: Table, i: nat)
    requires Inv(t) && i < |t.attempts|
    ensures Inv(Step(t, i))
  {
    StepKeepsValid(t, i);
    StepKeepsHolders(t, i);
    StepKeepsBlame(t, i);
  }

  lemma StepKeepsValid(t: Table, i: nat)
    requires Inv(t) && i < |t.attempts|
    ensures forall j :: 0 <= j < |t.attempts| ==> Step(t, i).attempts[j].Valid()
    ensures forall key :: key in Step(t, i).holder ==> Step(t, i).holder[key] < |t.attempts|
  {
  }

  lemma StepKeepsHolders(t: Table, i: nat)
    requires Inv(t) && i < |t.attempts|
    requires forall j :: 0 <= j < |t.attempts| ==> Step(t, i).attempts[j].Valid()
    ensures forall j :: 0 <= j < |t.attempts| ==> OwnsWhatItHolds(Step(t, i), j)
  {
    hide Blamed, Answers, Ascending;
    var u := Step(t, i);
    var a, b := t.attempts[i], u.attempts[i];
    assert OwnsWhatItHolds(t, i);
    forall j | 0 <= j < |t.attempts| ensures OwnsWhatItHolds(u, j) {
      assert OwnsWhatItHolds(t, j);
      if b.held > a.held {
        assert b.keys[..b.held] == a.keys[..a.held] + [a.keys[a.held]];
      } else if b.held < a.held {
        LastIsHeldOnce(a);
      }
    }
  }

  /** The lock released next is the last one taken, and taken once. */
  lemma LastIsHeldOnce(a: Attempt)
    requires a.Valid() && a.held > 0
    ensures a.keys[a.held - 1] !in a.keys[..a.held - 1]
    ensures a.keys[..a.held] == a.keys[..a.held - 1] + [a.keys[a.held - 1]]
  {
    forall k | 0 <= k < a.held - 1 ensures a.keys[k] != a.keys[a.held - 1] {
      AscendingIsDistinct(a.keys, k, a.held - 1);
    }
  }

  lemma StepKeepsBlame(t: Table, i: nat)
    requires Inv(t) && i < |t.attempts|
    requires forall j :: 0 <= j < |t.attempts| ==> Step(t, i).attempts[j].Valid()
    ensures forall p :: 0 <= p < |t.attempts| && Step(t, i).attempts[p].phase.Aborting? ==> Blamed(Step(t, i), p)
  {
    var u := Step(t, i);
    forall p | 0 <= p < |t.attempts| && u.attempts[p].phase.Aborting?
      ensures Blamed(u, p)
    {
      var key := u.attempts[p].phase.blockedOn;
      var q: nat;
      if t.attempts[p].phase.Aborting? {
        assert Blamed(t, p);
        q :| q < |t.attempts| && Answers(t.attempts[q], key);
      } else {
        q := t.holder[key];
        assert OwnsWhatItHolds(t, q);
      }
      AnswersStays(t, i, q, key);
    }
  }

  /** Whoever holds a lock, or already answered for a failure at it, still answers after a step. */
  lemma AnswersStays(t: Table, i: nat, q: nat, key: string)
    requires Inv(t) && i < |t.attempts| && q < |t.attempts|
    requires t.attempts[q].Holds(key) || Answers(t.attempts[q], key)
    requires forall j :: 0 <= j < |t.attempts| ==> Step(t, i).attempts[j].Valid()
    ensures Answers(Step(t, i).attempts[q], key)
  {
  }

  // ----- the results -----

  /** No lock ever has two holders, at any moment of any interleaving. */
  lemma NoTwoHolders(requests: seq<seq<string>>, schedule: Schedule, i: nat, j: nat, key: string)
    requires forall r :: r in requests ==> Ascending(r)
    requires i < |requests| && j < |requests| && i != j
    requires Run(requests, schedule).attempts[i].Holds(key)
    ensures !Run(requests, schedule).attempts[j].Holds(key)
    ensures key in Run(requests, schedule).holder
  {
    var t := Run(requests, schedule);
    assert OwnsWhatItHolds(t, i) && OwnsWhatItHolds(t, j);
  }

  /** Two requests that name a common scope are never both inside their `with` block. */
  lemma SharedScopeExcludes(requests: seq<seq<string>>, schedule: Schedule, i: nat, j: nat, key: string)
    requires forall r :: r in requests ==> Ascending(r)
    requires i < |requests| && j < |requests| && i != j
    requires key in requests[i] && key in requests[j]
    ensures !(Run(requests, schedule).attempts[i].phase.Entered? && Run(requests, schedule).attempts[j].phase.Entered?)
  {
    var t := Run(requests, schedule);
    if t.attempts[i].phase.Entered? && t.attempts[j].phase.Entered? {
      assert t.attempts[i].Valid() && t.attempts[j].Valid();
      assert t.attempts[i].keys[..t.attempts[i].held] == requests[i];
      assert t.attempts[j].keys[..t.attempts[j].held] == requests[j];
      NoTwoHolders(requests, schedule, i, j, key);
      assert false;
    }
  }

  /** Among the first `n` aborted attempts one was blocked on a key no other key exceeds. */
  lemma {:induction false} FurthestFailure(t: Table, n: nat) returns (m: nat)
    requires 0 < n <= |t.attempts|
    requires forall i :: 0 <= i < |t.attempts| ==> t.attempts[i].phase.Aborting?
    ensures m < n
    ensures forall i :: 0 <= i < n ==> !Before(t.attempts[m].phase.blockedOn, t.attempts[i].phase.blockedOn)
  {
    m := 0;
    BeforeIsStrict(t.attempts[0].phase.blockedOn, t.attempts[0].phase.blockedOn);
    if n > 1 {
      m := FurthestFailure(t, n - 1);
      var best, last := t.attempts[m].phase.blockedOn, t.attempts[n - 1].phase.blockedOn;
      BeforeIsStrict(last, last);
      if Before(best, last) {
        forall i | 0 <= i < n - 1 ensures !Before(last, t.attempts[i].phase.blockedOn) {
          if Before(last, t.attempts[i].phase.blockedOn) {
            BeforeIsTransitive(best, last, t.attempts[i].phase.blockedOn);
          }
        }
        m := n - 1;
      }
    }
  }

  /**
   Ordered try-locks never all abort each other: once every attempt has decided, a failure
   anywhere means a success somewhere.
   */
  lemma SomeAttemptSucceeds(requests: seq<seq<string>>, schedule: Schedule, failed: nat)
    requires forall r :: r in requests ==> Ascending(r)
    requires forall i :: 0 <= i < |requests| ==> !Run(requests, schedule).attempts[i].phase.Acquiring?
    requires failed < |requests| && Run(requests, schedule).attempts[failed].phase.Aborting?
    ensures exists i :: 0 <= i < |requests| && Run(requests, schedule).attempts[i].Succeeded()
  {
    SomeoneEntered(Run(requests, schedule), failed);
  }

  lemma SomeoneEntered(t: Table, failed: nat)
    requires Inv(t)
    requires forall i :: 0 <= i < |t.attempts| ==> !t.attempts[i].phase.Acquiring?
    requires failed < |t.attempts| && t.attempts[failed].phase.Aborting?
    ensures exists i :: 0 <= i < |t.attempts| && t.attempts[i].Succeeded()
  {
    if forall i :: 0 <= i < |t.attempts| ==> t.attempts[i].phase.Aborting? {
      var m := FurthestFailure(t, |t.attempts|);
      assert false;
    } else {
      var i :| 0 <= i < |t.attempts| && !t.attempts[i].phase.Aborting?;
      assert t.attempts[i].Succeeded();
    }
  }

  /** An attempt that runs alone enters exactly when all its keys are free, as `Enter` promises. */
  lemma {:induction false} AloneEntersIffFree(t: Table, i: nat) returns (u: Table)
    requires Inv(t) && i < |t.attempts| && t.attempts[i].phase.Acquiring?
    ensures Inv(u) && |u.attempts| == |t.attempts|
    ensures u.attempts[i].phase.Entered? || u.attempts[i].phase.Aborting?
    ensures u.attempts[i].phase.Entered? <==> forall k :: k in t.attempts[i].keys[t.attempts[i].held..] ==>
      k !in t.holder
    decreases |t.attempts[i].keys| - t.attempts[i].held
  {
    var a := t.attempts[i];
    StepKeepsInv(t, i);
    var v := Step(t, i);
    if a.held == |a.keys| || a.keys[a.held] in t.holder {
      u := v;
      assert a.held < |a.keys| ==> a.keys[a.held] in a.keys[a.held..];
    } else {
      u := AloneEntersIffFree(v, i);
      assert a.keys[a.held..] == [a.keys[a.held]] + a.keys[a.held + 1..];
      forall k | a.held < k < |a.keys| ensures a.keys[k] != a.keys[a.held] { AscendingIsDistinct(a.keys, a.held, k); }
    }
  }

  /** An attempt that has decided and runs alone gives back everything it holds, and nothing else. */
  lemma {:induction false} AloneGivesBack(t: Table, i: nat) returns (u: Table)
    requires Inv(t) && i < |t.attempts| && !t.attempts[i].phase.Acquiring?
    ensures Inv(u) && |u.attempts| == |t.attempts| && u.attempts == t.attempts[i := u.attempts[i]]
    ensures u.attempts[i].held == 0 && !u.attempts[i].phase.Acquiring? && !u.attempts[i].phase.Entered?
    ensures forall key :: key in u.holder <==> key in t.holder && t.holder[key] != i
    ensures forall key :: key in u.holder ==> u.holder[key] == t.holder[key]
    decreases t.attempts[i].held, t.attempts[i].phase.Entered?
  {
    var a := t.attempts[i];
    assert OwnsWhatItHolds(t, i);
    StepKeepsInv(t, i);
    if a.held == 0 && !a.phase.Entered? {
      u := t;
    } else {
      if a.held > 0 {
        LastIsHeldOnce(a);
        assert a.Holds(a.keys[a.held - 1]);
      }
      u := AloneGivesBack(Step(t, i), i);
    }
  }
}
