/** One event from its claim to its end when nobody interferes, and how that is a run of the protocol. */
module Dispatch {
  import opened Domain
  import opened Tables
  import opened Provider
  import opened Worker
  import opened Protocol

  /** What becomes of a request and of the reply to it. */
  datatype Fate = Delivered | ReplyLost | RefusedUnprocessed | RequestVanished

  predicate ReachesProvider(fate: Fate) {
    fate == Delivered || fate == ReplyLost
  }

  function AfterCall(refunds: ProviderTable, request: RefundRequest, fate: Fate, freshId: string): ProviderTable {
    if ReachesProvider(fate) then Stored(refunds, request, freshId) else refunds
  }

  /** The third step of `process_event`, on what the call has come to. */
  function SettleBy(settings: Settings, db: Db, e: EventId, fate: Fate, refunds: ProviderTable, now: Time): Result<Db>
    requires e in db.events && db.events[e].caseId in db.attempts
    requires ReachesProvider(fate) ==> db.attempts[db.events[e].caseId].key in refunds
  {
    match fate
    case Delivered => SettleReply(db, e, refunds[db.attempts[db.events[e].caseId].key])
    case RefusedUnprocessed => SettleRefused(settings, db, e, now)
    case ReplyLost | RequestVanished => SettleTimeout(db, e)
  }

  lemma BegunDispatch(db: Db, e: EventId, db1: Db)
    requires e in db.events && BeginDispatch(db, e) == Ok((db1, true))
    ensures var c := db.events[e].caseId;
            && db1.events == db.events && c in db.attempts && c in db1.attempts
            && RequestFor(db1, c) == RequestFor(db, c)
  {
  }

  /** What is committed, and what the provider holds, once `process_event` has returned or raised and
      its caller has committed or rolled back. */
  function Processed(settings: Settings, db: Db, refunds: ProviderTable, e: EventId, fate: Fate, freshId: string,
                     now: Time): (Db, ProviderTable)
    requires e in db.events
  {
    match BeginDispatch(db, e)
    case Err(_) => (db, refunds)
    case Ok(begun) =>
      if !begun.1 then (begun.0, refunds)
      else
        BegunDispatch(db, e, begun.0);
        var request := RequestFor(begun.0, db.events[e].caseId);
        var refunds1 := AfterCall(refunds, request, fate, freshId);
        match SettleBy(settings, begun.0, e, fate, refunds1, now)
        case Err(_) => (begun.0, refunds1)
        case Ok(db2) => (db2, refunds1)
  }

  /** The error that `process_event` raises, if any. */
  function Raised(settings: Settings, db: Db, refunds: ProviderTable, e: EventId, fate: Fate, freshId: string,
                  now: Time): Option<Error>
    requires e in db.events
  {
    match BeginDispatch(db, e)
    case Err(error) => Some(error)
    case Ok(begun) =>
      if !begun.1 then None
      else
        BegunDispatch(db, e, begun.0);
        var refunds1 := AfterCall(refunds, RequestFor(begun.0, db.events[e].caseId), fate, freshId);
        match SettleBy(settings, begun.0, e, fate, refunds1, now)
        case Err(error) => Some(error)
        case Ok(_) => None
  }

  /** The world after a sequence of steps. */
  ghost function Play(config: Config, w: World, steps: seq<Step>): Option<World>
    decreases |steps|
  {
    if |steps| == 0 then Some(w)
    else
      match Next(config, w, steps[0])
      case None => None
      case Some(w') => Play(config, w', steps[1..])
  }

  lemma PlayOne(config: Config, w: World, step: Step, w': World)
    requires Next(config, w, step) == Some(w')
    ensures Play(config, w, [step]) == Some(w')
  {
    assert [step][1..] == [];
    assert Play(config, w', []) == Some(w');
  }

  lemma {:induction false} PlayMore(config: Config, w: World, steps: seq<Step>, w1: World, step: Step, w2: World)
    requires Play(config, w, steps) == Some(w1) && Next(config, w1, step) == Some(w2)
    ensures Play(config, w, steps + [step]) == Some(w2)
    decreases |steps|
  {
    if |steps| == 0 {
      assert steps + [step] == [step];
      PlayOne(config, w, step, w2);
    } else {
      PlayMore(config, Next(config, w, steps[0]).value, steps[1..], w1, step, w2);
      assert (steps + [step])[1..] == steps[1..] + [step];
    }
  }

  lemma {:induction false} PlayOn(config: Config, w: World, first: seq<Step>, w1: World, second: seq<Step>, w2: World)
    requires Play(config, w, first) == Some(w1) && Play(config, w1, second) == Some(w2)
    ensures Play(config, w, first + second) == Some(w2)
    decreases |first|
  {
    if |first| == 0 {
      assert first + second == second;
    } else {
      PlayOn(config, Next(config, w, first[0]).value, first[1..], w1, second, w2);
      assert (first + second)[1..] == first[1..] + second;
    }
  }

  /* The steps of one event. */

  /** Session `s` of `w` waits for call `call`, which is `phase` by now. */
  predicate Waits(w: World, s: nat, e: EventId, phase: Phase) {
    && |w.calls| > 0
    && s in w.sessions && w.sessions[s] == Session(e, Waiting(|w.calls| - 1))
    && w.calls[|w.calls| - 1].phase == phase
    && e in w.db.events && w.db.events[e].caseId in w.db.attempts
    && w.calls[|w.calls| - 1].request == RequestFor(w.db, w.db.events[e].caseId)
  }

  lemma BeginStepTaken(config: Config, w: World, s: nat, e: EventId) returns (w1: World)
    requires s in w.sessions && w.sessions[s] == Session(e, ClaimHeld)
    requires e in w.db.events && w.db.events[e].status == Processing && BeginDispatch(w.db, e).Ok?
    ensures Next(config, w, Begin(s)) == Some(w1)
    ensures w1.db == BeginDispatch(w.db, e).value.0 && w1.refunds == w.refunds && w1.now == w.now
    ensures if BeginDispatch(w.db, e).value.1 then Waits(w1, s, e, Sent) && w1.sessions - {s} == w.sessions - {s}
            else w1.sessions == w.sessions - {s}
  {
    var begun := BeginDispatch(w.db, e).value;
    if begun.1 {
      BegunDispatch(w.db, e, begun.0);
    }
    w1 := StepBegin(w, s).value;
  }

  lemma CallStepTaken(config: Config, w: World, s: nat, e: EventId, fate: Fate, freshId: string)
    returns (step: Step, w1: World)
    requires Waits(w, s, e, Sent) && FreshRefundId(w.refunds, freshId)
    ensures Next(config, w, step) == Some(w1)
    ensures w1.refunds == AfterCall(w.refunds, RequestFor(w.db, w.db.events[e].caseId), fate, freshId)
    ensures w1.db == w.db && w1.sessions == w.sessions && w1.now == w.now
    ensures exists phase :: Waits(w1, s, e, phase) && PhaseOf(w1.refunds, w1.db, e, fate, phase)
  {
    var call := |w.calls| - 1;
    if ReachesProvider(fate) {
      step := ProviderStores(call, freshId);
      w1 := StoredAtProvider(w, s, e, freshId);
    } else {
      var phase := if fate == RefusedUnprocessed then Refused else Lost;
      step := if fate == RefusedUnprocessed then ProviderRefuses(call) else RequestLost(call);
      w1 := StepCallEnds(w, call, phase).value;
    }
    assert Waits(w1, s, e, w1.calls[call].phase);
  }

  lemma StoredAtProvider(w: World, s: nat, e: EventId, freshId: string) returns (w1: World)
    requires Waits(w, s, e, Sent) && FreshRefundId(w.refunds, freshId)
    ensures StepProviderStores(w, |w.calls| - 1, freshId) == Some(w1)
    ensures w1.refunds == Stored(w.refunds, RequestFor(w.db, w.db.events[e].caseId), freshId)
    ensures w1 == w.(refunds := w1.refunds, calls := w1.calls)
    ensures var key := w.db.attempts[w.db.events[e].caseId].key;
            key in w1.refunds && Waits(w1, s, e, Answered(w1.refunds[key]))
  {
    w1 := StepProviderStores(w, |w.calls| - 1, freshId).value;
  }

  /** What a call with this fate looks like on the network. */
  predicate PhaseOf(refunds: ProviderTable, db: Db, e: EventId, fate: Fate, phase: Phase)
    requires e in db.events && db.events[e].caseId in db.attempts
  {
    match fate
    case Delivered | ReplyLost =>
      var key := db.attempts[db.events[e].caseId].key;
      key in refunds && phase == Answered(refunds[key])
    case RefusedUnprocessed => phase == Refused
    case RequestVanished => phase == Lost
  }

  lemma EndStepTaken(config: Config, w: World, s: nat, e: EventId, fate: Fate, phase: Phase)
    returns (step: Step, w1: World)
    requires Waits(w, s, e, phase) && PhaseOf(w.refunds, w.db, e, fate, phase)
    ensures Next(config, w, step) == Some(w1)
    ensures w1.sessions == w.sessions - {s} && w1.refunds == w.refunds && w1.now == w.now
    ensures w1.db == match SettleBy(config.settings, w.db, e, fate, w.refunds, w.now)
                     case Ok(db) => db
                     case Err(_) => w.db
  {
    var outcome := match fate case Delivered => Replied case RefusedUnprocessed => RepliedRefused case _ => TimedOut;
    var settled := SettleBy(config.settings, w.db, e, fate, w.refunds, w.now);
    assert Settled(config.settings, w, s, outcome) == settled;
    if settled.Ok? {
      step := Settle(s, outcome);
      w1 := StepSettle(config.settings, w, s, outcome).value;
    } else {
      step := Crash(s);
      w1 := w.(sessions := w.sessions - {s});
    }
  }

  lemma ClockMoves(config: Config, w: World, to: Time)
    requires w.now <= to
    ensures Next(config, w, Tick(to)) == Some(w.(now := to))
  {
  }

  /** `process_event` is a run of protocol steps: whatever happens to the call and however long it takes,
      what it leaves behind is what a worker that nobody interferes with reaches in the protocol. */
  lemma ProcessingIsARun(config: Config, w: World, s: nat, e: EventId, fate: Fate, freshId: string, now: Time)
    returns (steps: seq<Step>, w': World)
    requires s in w.sessions && w.sessions[s] == Session(e, ClaimHeld) && w.now <= now
    requires e in w.db.events && w.db.events[e].status == Processing && FreshRefundId(w.refunds, freshId)
    ensures Play(config, w, steps) == Some(w')
    ensures (w'.db, w'.refunds) == Processed(config.settings, w.db, w.refunds, e, fate, freshId, now)
    ensures w'.sessions == w.sessions - {s} && w.now <= w'.now <= now
  {
    if BeginDispatch(w.db, e).Err? {
      steps, w' := [Crash(s)], w.(sessions := w.sessions - {s});
      PlayOne(config, w, Crash(s), w');
      return;
    }
    var w1 := BeginStepTaken(config, w, s, e);
    steps, w' := [Begin(s)], w1;
    PlayOne(config, w, Begin(s), w1);
    if BeginDispatch(w.db, e).value.1 {
      BegunDispatch(w.db, e, w1.db);
      var rest: seq<Step>;
      rest, w' := CallingIsARun(config, w1, s, e, fate, freshId, now);
      PlayOn(config, w, steps, w1, rest, w');
      steps := steps + rest;
    }
  }

  /** The network call and its settlement, with the time that passes in between. */
  lemma CallingIsARun(config: Config, w: World, s: nat, e: EventId, fate: Fate, freshId: string, now: Time)
    returns (steps: seq<Step>, w': World)
    requires Waits(w, s, e, Sent) && FreshRefundId(w.refunds, freshId) && w.now <= now
    ensures Play(config, w, steps) == Some(w') && w'.sessions == w.sessions - {s} && w'.now == now
    ensures w'.refunds == AfterCall(w.refunds, RequestFor(w.db, w.db.events[e].caseId), fate, freshId)
    ensures ReachesProvider(fate) ==> w.db.attempts[w.db.events[e].caseId].key in w'.refunds
    ensures w'.db == match SettleBy(config.settings, w.db, e, fate, w'.refunds, now)
                     case Ok(db) => db
                     case Err(_) => w.db
  {
    var call, w1 := CallStepTaken(config, w, s, e, fate, freshId);
    PlayOne(config, w, call, w1);
    var phase :| Waits(w1, s, e, phase) && PhaseOf(w1.refunds, w1.db, e, fate, phase);
    var w2 := w1.(now := now);
    ClockMoves(config, w1, now);
    PlayMore(config, w, [call], w1, Tick(now), w2);
    assert Waits(w2, s, e, phase);
    var end: Step;
    end, w' := EndStepTaken(config, w2, s, e, fate, phase);
    PlayMore(config, w, [call] + [Tick(now)], w2, end, w');
    steps := [call] + [Tick(now)] + [end];
  }
}
