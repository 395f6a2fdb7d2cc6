/**
 One playback obligation seen from outside: who may start a speaker, and how many playbacks
 may have started. Both durable ledgers of the repository are proved to be instances of it.
 */
module PlaybackLedger {

  datatype Phase = Pending | Owned | Intended | Closed

  /** `intents` were recorded; `refuted` of them came back with explicit proof of no start. */
  datatype Ledger = Ledger(phase: Phase, intents: nat, refuted: nat)

  const Fresh := Ledger(Pending, 0, 0)

  datatype Move = Stay | Claim | Release | Intend | Refute | Close

  ghost predicate Allowed(l: Ledger, move: Move, m: Ledger) {
    match move
    case Stay => m == l
    case Claim => (l.phase.Pending? || l.phase.Owned?) && m == l.(phase := Owned)
    case Release => l.phase.Owned? && m == l.(phase := Pending)
    case Intend => l.phase.Owned? && m == l.(phase := Intended, intents := l.intents + 1)
    case Refute => l.phase.Intended? && m == l.(phase := Pending, refuted := l.refuted + 1)
    case Close => m == l.(phase := Closed)
  }

  ghost predicate Next(l: Ledger, m: Ledger) {
    exists move :: Allowed(l, move, m)
  }

  /** At most one playback may be under way or heard, and none while the obligation is open. */
  ghost predicate AtMostOneStarted(l: Ledger) {
    && l.refuted <= l.intents <= l.refuted + 1
    && (l.phase.Pending? || l.phase.Owned? ==> l.intents == l.refuted)
    && (l.phase.Intended? ==> l.intents == l.refuted + 1)
  }

  ghost predicate History(states: seq<Ledger>) {
    && |states| > 0
    && AtMostOneStarted(states[0])
    && forall i :: 0 < i < |states| ==> Next(states[i - 1], states[i])
  }

  lemma {:induction false} HistoryKeepsAtMostOne(states: seq<Ledger>, i: nat)
    requires History(states) && i < |states|
    ensures AtMostOneStarted(states[i])
  {
    if i > 0 {
      HistoryKeepsAtMostOne(states, i - 1);
      assert Next(states[i - 1], states[i]);
    }
  }

  /** A closed obligation stays closed and starts nothing more. */
  lemma {:induction false} ClosedIsAbsorbing(states: seq<Ledger>, i: nat, j: nat)
    requires History(states) && i <= j < |states| && states[i].phase.Closed?
    ensures states[j] == states[i]
    decreases j
  {
    if i < j {
      ClosedIsAbsorbing(states, i, j - 1);
      assert Next(states[j - 1], states[j]);
    }
  }

  /**
   Between two moments at which a playback could begin anew, each earlier intent was
   refuted: an obligation that is claimable again after an intent carries a new refutation.
   */
  lemma {:induction false} ReopenedOnlyByRefutation(states: seq<Ledger>, i: nat, j: nat)
    requires History(states) && i <= j < |states|
    requires states[i].phase.Intended? && (states[j].phase.Pending? || states[j].phase.Owned?)
    ensures states[j].refuted > states[i].refuted
    ensures states[j].intents - states[i].intents < states[j].refuted - states[i].refuted
  {
    HistoryKeepsAtMostOne(states, i);
    HistoryKeepsAtMostOne(states, j);
    CountersGrow(states, i, j);
  }

  lemma {:induction false} CountersGrow(states: seq<Ledger>, i: nat, j: nat)
    requires History(states) && i <= j < |states|
    ensures states[i].intents <= states[j].intents && states[i].refuted <= states[j].refuted
    decreases j
  {
    if i < j {
      CountersGrow(states, i, j - 1);
      assert Next(states[j - 1], states[j]);
    }
  }
}
