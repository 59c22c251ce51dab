/** `services/outbox.py` in its own form. */
module OutboxService {
  import opened Domain
  import opened Tables
  import opened Sessions
  import Outbox

  /** `enqueue`; `e` is the id drawn for the new event. */
  method Enqueue(db: Session, e: EventId, org: Uuid, topic: Topic, c: CaseId, now: Time) returns (r: Result<()>)
    modifies db`events
    ensures Meets(db.Contents(), r, Outbox.Enqueue(old(db.Contents()), e, Outbox.NewEvent(org, topic, c, now)))
    ensures r == if e in old(db.events) then Err(UniqueViolation) else Ok(())
    ensures db.events == if e in old(db.events) then old(db.events)
                         else old(db.events)[e := Event(org, topic, c, Pending, 0, now, None, now)]
  {
    if e in db.events {
      return Err(UniqueViolation);
    }
    db.events := db.events[e := Event(org, topic, c, Pending, 0, now, None, now)];
    r := Ok(());
  }

  /** May be selected: eligible, and its row not locked by another transaction. */
  predicate Selectable(events: map<EventId, Event>, now: Time, locked: set<EventId>, e: EventId) {
    e in events && Outbox.Eligible(events[e], now) && e !in locked
  }

  /** What `SELECT ... ORDER BY created_at LIMIT limit FOR UPDATE SKIP LOCKED` may answer. */
  ghost predicate Selected(events: map<EventId, Event>, now: Time, locked: set<EventId>, limit: nat,
                           batch: seq<EventId>) {
    && |batch| <= limit
    && (forall i, j :: 0 <= i < j < |batch| ==> batch[i] != batch[j])
    && (forall i :: 0 <= i < |batch| ==> Selectable(events, now, locked, batch[i]))
    && (forall i, j :: 0 <= i < j < |batch| ==> events[batch[i]].createdAt <= events[batch[j]].createdAt)
    && (forall e, i :: Selectable(events, now, locked, e) && e !in batch && 0 <= i < |batch| ==>
          events[batch[i]].createdAt <= events[e].createdAt)
    && (|batch| < limit ==> forall e :: Selectable(events, now, locked, e) ==> e in batch)
  }

  /** An event of `candidates` that is as old as any. */
  method Oldest(events: map<EventId, Event>, candidates: set<EventId>) returns (oldest: EventId)
    requires candidates != {} && candidates <= events.Keys
    ensures oldest in candidates
    ensures forall e :: e in candidates ==> events[oldest].createdAt <= events[e].createdAt
  {
    oldest :| oldest in candidates;
    var rest := candidates - {oldest};
    while rest != {}
      invariant rest <= candidates && oldest in candidates
      invariant forall e :: e in candidates && e !in rest ==> events[oldest].createdAt <= events[e].createdAt
      decreases |rest|
    {
      var e :| e in rest;
      if events[e].createdAt < events[oldest].createdAt {
        oldest := e;
      }
      rest := rest - {e};
    }
  }

  /** The query of `claim_batch`. */
  method SelectBatch(events: map<EventId, Event>, now: Time, locked: set<EventId>, limit: nat)
    returns (batch: seq<EventId>)
    ensures Selected(events, now, locked, limit, batch)
  {
    var candidates := set e | e in events && Selectable(events, now, locked, e);
    batch := [];
    while |batch| < limit && candidates != {}
      invariant |batch| <= limit
      invariant forall e :: Selectable(events, now, locked, e) <==> e in candidates || e in batch
      invariant forall i :: 0 <= i < |batch| ==> batch[i] !in candidates && batch[i] in events
      invariant forall i, j :: 0 <= i < j < |batch| ==> batch[i] != batch[j]
      invariant forall i, j :: 0 <= i < j < |batch| ==> events[batch[i]].createdAt <= events[batch[j]].createdAt
      invariant forall e, i :: e in candidates && 0 <= i < |batch| ==> events[batch[i]].createdAt <= events[e].createdAt
      decreases |candidates|
    {
      var e := Oldest(events, candidates);
      candidates := candidates - {e};
      batch := batch + [e];
    }
  }

  /** `claim_batch`: at most `limit` events are leased, all of them eligible; no eligible event older
      than a leased one is left behind, and no other event changes. `locked` are the rows that other
      transactions hold. */
  method ClaimBatch(db: Session, now: Time, locked: set<EventId>, limit: nat, leaseSeconds: int)
    returns (batch: seq<EventId>)
    modifies db`events
    ensures Selected(old(db.events), now, locked, limit, batch)
    ensures db.events.Keys == old(db.events.Keys)
    ensures forall e :: e in db.events ==>
              db.events[e] == if e in batch then Outbox.Claimed(old(db.events)[e], now, leaseSeconds)
                              else old(db.events)[e]
  {
    batch := SelectBatch(db.events, now, locked, limit);
    var leaseUntil := now + leaseSeconds * SECOND;
    for i := 0 to |batch|
      invariant db.events.Keys == old(db.events.Keys)
      invariant forall e :: e in db.events ==>
                  db.events[e] == if e in batch[..i] then Outbox.Claimed(old(db.events)[e], now, leaseSeconds)
                                  else old(db.events)[e]
    {
      var e := batch[i];
      assert batch[..i + 1] == batch[..i] + [e];
      var event := db.events[e];
      event := event.(status := Processing);
      event := event.(leaseUntil := Some(leaseUntil));
      event := event.(attempts := event.attempts + 1);
      db.events := db.events[e := event];
    }
    assert batch[..|batch|] == batch;
  }

  /** `claim_event`: whether the event was leased. */
  method ClaimEvent(db: Session, now: Time, locked: set<EventId>, e: EventId, leaseSeconds: int) returns (claimed: bool)
    modifies db`events
    ensures claimed == Selectable(old(db.events), now, locked, e)
    ensures claimed <==>
              && e in old(db.events) && e !in locked && old(db.events)[e].availableAt <= now
              && var event := old(db.events)[e];
                 event.status == Pending
                 || (event.status == Processing && event.leaseUntil.Some? && event.leaseUntil.value < now)
    ensures db.events == if claimed then old(db.events)[e := Outbox.Claimed(old(db.events)[e], now, leaseSeconds)]
                         else old(db.events)
  {
    if !Selectable(db.events, now, locked, e) {
      return false;
    }
    var event := db.events[e];
    event := event.(status := Processing, leaseUntil := Some(now + leaseSeconds * SECOND));
    event := event.(attempts := event.attempts + 1);
    db.events := db.events[e := event];
    claimed := true;
  }

  /** `mark_done`: the event is done, and as it stands then it is never claimed again. */
  method MarkDone(db: Session, e: EventId)
    requires e in db.events
    modifies db`events
    ensures e in db.events && db.events[e] == old(db.events)[e].(status := Done, leaseUntil := None)
    ensures e in db.events && forall t: Time :: !Outbox.Eligible(db.events[e], t)
    ensures db.events == old(db.events)[e := Outbox.MarkDone(old(db.events)[e])]
  {
    db.events := db.events[e := db.events[e].(status := Done, leaseUntil := None)];
  }

  /** `reschedule`: the event may be claimed exactly from the end of the delay on, and its count of
      claims, which decides how often it is repeated, is kept. */
  method Reschedule(db: Session, e: EventId, now: Time, delaySeconds: int)
    requires e in db.events
    modifies db`events
    ensures e in db.events && db.events[e].attempts == old(db.events)[e].attempts
    ensures db.events[e].status == Pending && db.events[e].leaseUntil.None?
    ensures forall t: Time :: Outbox.Eligible(db.events[e], t) <==> now + delaySeconds * SECOND <= t
    ensures db.events == old(db.events)[e := Outbox.Rescheduled(old(db.events)[e], now, delaySeconds)]
  {
    var event := db.events[e].(status := Pending, leaseUntil := None);
    db.events := db.events[e := event.(availableAt := now + delaySeconds * SECOND)];
  }

  /** `dead_letter`: the event is dead, and as it stands then it is never claimed again. */
  method DeadLetter(db: Session, e: EventId)
    requires e in db.events
    modifies db`events
    ensures e in db.events && db.events[e] == old(db.events)[e].(status := Dead, leaseUntil := None)
    ensures e in db.events && forall t: Time :: !Outbox.Eligible(db.events[e], t)
    ensures db.events == old(db.events)[e := Outbox.DeadLetter(old(db.events)[e])]
  {
    db.events := db.events[e := db.events[e].(status := Dead, leaseUntil := None)];
  }
}
