/** `run_once` refines the protocol: a batch that is claimed and worked off with nobody else writing in
    between is a sequence of protocol steps, however long its calls take. */
module Refinement {
  import opened Domain
  import opened Tables
  import opened Outbox
  import opened Provider
  import opened Worker
  import opened Protocol
  import opened Safety
  import opened Dispatch
  import opened WorkerService

  lemma {:induction false} PlayKeepsInv(config: Config, w: World, steps: seq<Step>, w': World)
    requires Inv(config.settings, w) && Play(config, w, steps) == Some(w')
    ensures Inv(config.settings, w')
    decreases |steps|
  {
    if |steps| > 0 {
      var next := Next(config, w, steps[0]).value;
      StepKeepsInv(config, w, steps[0], next);
      PlayKeepsInv(config, next, steps[1..], w');
    }
  }

  /* Claiming. */

  /** The batch may be leased to workers with the ids `first`, `first + 1`, ... */
  ghost predicate MayLease(config: Config, w: World, first: nat, batch: seq<EventId>) {
    && (forall i, j :: 0 <= i < j < |batch| ==> batch[i] != batch[j])
    && (forall i :: 0 <= i < |batch| ==> MayClaim(config, w, batch[i]))
    && (forall s :: s in w.sessions ==> s < first)
  }

  /** Worker `s` has claimed event `e` and not begun. */
  predicate HasClaimed(sessions: map<nat, Session>, s: nat, e: EventId) {
    s in sessions && sessions[s] == Session(e, ClaimHeld)
  }

  /** The workers with ids from `first` on that have not had their turn yet. */
  predicate Remaining(sessions: map<nat, Session>, first: nat, batch: seq<EventId>, done: nat) {
    forall i :: done <= i < |batch| ==> HasClaimed(sessions, first + i, batch[i])
  }

  /** The batch has been leased. */
  ghost predicate Leased(config: Config, w: World, first: nat, batch: seq<EventId>, w': World) {
    && w' == w.(db := w'.db, sessions := w'.sessions)
    && w'.db == LeasedBatch(w.db, w.now, config.settings.leaseSeconds, batch)
    && Remaining(w'.sessions, first, batch, 0)
    && forall s :: s in w'.sessions ==>
         s < first + |batch| && (s < first ==> s in w.sessions && w'.sessions[s] == w.sessions[s])
  }

  lemma {:induction false} ClaimingIsARun(config: Config, w: World, first: nat, batch: seq<EventId>)
    returns (steps: seq<Step>, w': World)
    requires MayLease(config, w, first, batch)
    ensures Play(config, w, steps) == Some(w') && Leased(config, w, first, batch, w')
    decreases |batch|
  {
    if batch == [] {
      steps, w' := [], w;
      assert LeasedBatch(w.db, w.now, config.settings.leaseSeconds, []).events == w.db.events;
    } else {
      var front, e, s := batch[..|batch| - 1], batch[|batch| - 1], first + |batch| - 1;
      var before, w1 := ClaimingIsARun(config, w, first, front);
      w' := OneMoreClaim(config, w, first, batch, w1);
      PlayMore(config, w, before, w1, Claim(s, e), w');
      steps := before + [Claim(s, e)];
    }
  }

  lemma OneMoreClaim(config: Config, w: World, first: nat, batch: seq<EventId>, w1: World) returns (w': World)
    requires batch != [] && MayLease(config, w, first, batch) && Leased(config, w, first, batch[..|batch| - 1], w1)
    ensures Next(config, w1, Claim(first + |batch| - 1, batch[|batch| - 1])) == Some(w')
    ensures Leased(config, w, first, batch, w')
  {
    var e, s := batch[|batch| - 1], first + |batch| - 1;
    StillClaimable(config, w, first, batch, w1);
    w' := StepClaim(config, w1, s, e).value;
    LeasesAdd(w.db, w.now, config.settings.leaseSeconds, batch);
    OneMoreWorker(w1.sessions, first, batch);
  }

  lemma OneMoreWorker(sessions: map<nat, Session>, first: nat, batch: seq<EventId>)
    requires batch != [] && Remaining(sessions, first, batch[..|batch| - 1], 0)
    ensures Remaining(sessions[first + |batch| - 1 := Session(batch[|batch| - 1], ClaimHeld)], first, batch, 0)
  {
    var front := batch[..|batch| - 1];
    forall i | 0 <= i < |front| ensures HasClaimed(sessions, first + i, batch[i]) {
      assert HasClaimed(sessions, first + i, front[i]);
    }
  }

  lemma StillClaimable(config: Config, w: World, first: nat, batch: seq<EventId>, w1: World)
    requires batch != [] && MayLease(config, w, first, batch) && Leased(config, w, first, batch[..|batch| - 1], w1)
    ensures var e := batch[|batch| - 1];
            && MayClaim(config, w1, e) && e in w.db.events && w1.db.events[e] == w.db.events[e]
            && e !in batch[..|batch| - 1] && first + |batch| - 1 !in w1.sessions
  {
    var front, e := batch[..|batch| - 1], batch[|batch| - 1];
    assert MayClaim(config, w, e);
    assert e !in front;
    if config.exclusive {
      forall x: nat ensures !Holds(w1, e, x) {
        if x in w1.sessions && x >= first {
          assert HasClaimed(w1.sessions, first + (x - first), front[x - first]);
        } else {
          assert !Holds(w, e, x);
        }
      }
    }
  }

  lemma LeasesAdd(db: Db, now: Time, leaseSeconds: int, batch: seq<EventId>)
    requires batch != [] && batch[|batch| - 1] in db.events && batch[|batch| - 1] !in batch[..|batch| - 1]
    ensures var e := batch[|batch| - 1];
            LeasedBatch(db, now, leaseSeconds, batch)
            == WithEvent(LeasedBatch(db, now, leaseSeconds, batch[..|batch| - 1]), e,
                         Claimed(db.events[e], now, leaseSeconds))
  {
    var e := batch[|batch| - 1];
    assert batch == batch[..|batch| - 1] + [e];
    assert LeasedBatch(db, now, leaseSeconds, batch).events
        == LeasedBatch(db, now, leaseSeconds, batch[..|batch| - 1]).events[
             e := Claimed(db.events[e], now, leaseSeconds)];
  }

  /* Working off. */

  /** The provider draws ids it has not used. */
  ghost predicate FreshTurns(settings: Settings, db: Db, refunds: ProviderTable, batch: seq<EventId>, turns: seq<Turn>)
    requires |turns| >= |batch|
  {
    forall i :: 0 <= i < |batch| ==>
      FreshRefundId(WorkedOff(settings, db, refunds, batch[..i], turns).1, turns[i].freshId)
  }

  /** The calls of a batch are settled one after the other. */
  predicate TimeGoesOn(start: Time, turns: seq<Turn>) {
    && (forall i :: 0 <= i < |turns| ==> start <= turns[i].now)
    && (forall i, j :: 0 <= i < j < |turns| ==> turns[i].now <= turns[j].now)
  }

  lemma OneTurn(config: Config, w: World, s: nat, e: EventId, turn: Turn) returns (steps: seq<Step>, w': World)
    requires s in w.sessions && w.sessions[s] == Session(e, ClaimHeld)
    requires FreshRefundId(w.refunds, turn.freshId) && w.now <= turn.now
    ensures Play(config, w, steps) == Some(w') && w'.sessions == w.sessions - {s} && w.now <= w'.now <= turn.now
    ensures (w'.db, w'.refunds) == if Workable(w.db, e)
                                   then Processed(config.settings, w.db, w.refunds, e, turn.fate, turn.freshId,
                                                  turn.now)
                                   else (w.db, w.refunds)
  {
    if Workable(w.db, e) {
      steps, w' := ProcessingIsARun(config, w, s, e, turn.fate, turn.freshId, turn.now);
    } else {
      steps, w' := [Crash(s)], w.(sessions := w.sessions - {s});
      PlayOne(config, w, Crash(s), w');
    }
  }

  lemma {:induction false} WorkingOffIsARun(config: Config, w: World, first: nat, batch: seq<EventId>, turns: seq<Turn>,
                                            n: nat) returns (steps: seq<Step>, w': World)
    requires n <= |batch| <= |turns| && Remaining(w.sessions, first, batch, 0)
    requires FreshTurns(config.settings, w.db, w.refunds, batch, turns)
    requires TimeGoesOn(w.now, turns)
    ensures Play(config, w, steps) == Some(w') && forall i :: n <= i < |turns| ==> w'.now <= turns[i].now
    ensures Remaining(w'.sessions, first, batch, n)
    ensures var (db, refunds, _) := WorkedOff(config.settings, w.db, w.refunds, batch[..n], turns);
            w'.db == db && w'.refunds == refunds
    decreases n
  {
    if n == 0 {
      steps, w' := [], w;
    } else {
      var before, w1 := WorkingOffIsARun(config, w, first, batch, turns, n - 1);
      var turn, w2 := OneTurn(config, w1, first + n - 1, batch[n - 1], turns[n - 1]);
      PlayOn(config, w, before, w1, turn, w2);
      assert batch[..n][..n - 1] == batch[..n - 1];
      steps, w' := before + turn, w2;
    }
  }

  /** What `run_once` commits, and what it makes the provider store, is reached by protocol steps; so
      the invariant that holds before it holds after it. */
  lemma RunOnceIsARun(config: Config, w: World, first: nat, batch: seq<EventId>, turns: seq<Turn>)
    returns (steps: seq<Step>, w': World)
    requires Inv(config.settings, w) && MayLease(config, w, first, batch) && |turns| >= |batch|
    requires FreshTurns(config.settings, LeasedBatch(w.db, w.now, config.settings.leaseSeconds, batch), w.refunds,
                        batch, turns)
    requires TimeGoesOn(w.now, turns)
    ensures Play(config, w, steps) == Some(w') && Inv(config.settings, w')
    ensures var (db, refunds, _) := WorkedOff(config.settings,
                                              LeasedBatch(w.db, w.now, config.settings.leaseSeconds, batch),
                                              w.refunds, batch, turns);
            w'.db == db && w'.refunds == refunds
  {
    var claims, w1 := ClaimingIsARun(config, w, first, batch);
    var work, w2 := WorkingOffIsARun(config, w1, first, batch, turns, |batch|);
    assert batch[..|batch|] == batch;
    steps, w' := claims + work, w2;
    PlayOn(config, w, claims, w1, work, w2);
    PlayKeepsInv(config, w, steps, w');
  }
}
