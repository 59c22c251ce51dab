/** The idempotency layer: `services/idempotency.py` and `_idem` of `api/routes.py`, over any
    business state `S`, request payloads `P` and responses `R`. */
module Idempotency {
  import opened Domain

  /** What a record is unique over: organization, scope and key. */
  datatype Slot = Slot(org: Uuid, scope: string, key: string)

  datatype Record<P, R> = Record(payload: P, response: Option<R>)

  datatype Claim<R> = Claimed | Replay(response: R)

  /** A request carries the operation to run when its slot is free. */
  datatype Request<!S, P, R> = Request(slot: Slot, payload: P, operation: S -> Result<(S, R)>)

  datatype Reply<R> = Reply(replayed: bool, result: R)

  datatype Store<S, P, R> = Store(business: S, records: map<Slot, Record<P, R>>)

  predicate ValidKey(key: string) {
    0 < |key| <= 200
  }

  /** `_validate_existing` */
  function ValidateExisting<P(==), R>(existing: Record<P, R>, payload: P): Result<Claim<R>> {
    if existing.payload != payload then Err(IdempotencyConflict)
    else if existing.response.None? then Err(Conflict)
    else Ok(Replay(existing.response.value))
  }

  /** `claim`, run alone. The records it leaves contain an open one when the slot was free. */
  function ClaimSlot<P(==), R>(records: map<Slot, Record<P, R>>, slot: Slot, payload: P)
    : Result<(map<Slot, Record<P, R>>, Claim<R>)>
  {
    if !ValidKey(slot.key) then Err(ValidationFailure)
    else if slot in records then
      var claim :- ValidateExisting(records[slot], payload);
      Ok((records, claim))
    else Ok((records[slot := Record(payload, None)], Claimed))
  }

  /** `claim` when the records were first read as `seen` and other requests have committed since:
      the unique constraint decides, and the loser reads the winner's record. */
  function ClaimRaced<P(==), R>(seen: map<Slot, Record<P, R>>, records: map<Slot, Record<P, R>>, slot: Slot, payload: P)
    : Result<(map<Slot, Record<P, R>>, Claim<R>)>
  {
    if !ValidKey(slot.key) then Err(ValidationFailure)
    else if slot in seen then
      var claim :- ValidateExisting(seen[slot], payload);
      Ok((records, claim))
    else if slot in records then
      var claim :- ValidateExisting(records[slot], payload);
      Ok((records, claim))
    else Ok((records[slot := Record(payload, None)], Claimed))
  }

  /** `_idem` as one transaction: an error leaves nothing behind. */
  function Serve<S, P(==), R>(store: Store<S, P, R>, request: Request<S, P, R>): Result<(Store<S, P, R>, Reply<R>)> {
    var claimed :- ClaimSlot(store.records, request.slot, request.payload);
    match claimed.1
    case Replay(response) => Ok((store, Reply(true, response)))
    case Claimed =>
      var done :- request.operation(store.business);
      Ok((Store(done.0, claimed.0[request.slot := Record(request.payload, Some(done.1))]), Reply(false, done.1)))
  }

  /** The store after one more request; a failing one rolls back. */
  function After<S, P(==), R>(store: Store<S, P, R>, request: Request<S, P, R>): Store<S, P, R> {
    match Serve(store, request)
    case Ok(done) => done.0
    case Err(_) => store
  }

  function ServeAll<S, P(==), R>(store: Store<S, P, R>, requests: seq<Request<S, P, R>>): Store<S, P, R> {
    if requests == [] then store
    else After(ServeAll(store, requests[..|requests| - 1]), requests[|requests| - 1])
  }

  /* The same requests without the table. */

  /** The first successful request of each slot outside `used`, in order: what plain execution, told
      which slots are taken, would run. */
  ghost function Winners<S, P, R>(business: S, used: set<Slot>, requests: seq<Request<S, P, R>>): seq<Request<S, P, R>>
    decreases |requests|
  {
    if |requests| == 0 then []
    else
      var first, rest := requests[0], requests[1..];
      if first.slot in used || !ValidKey(first.slot.key) then Winners(business, used, rest)
      else
        match first.operation(business)
        case Err(_) => Winners(business, used, rest)
        case Ok(done) => [first] + Winners(done.0, used + {first.slot}, rest)
  }

  /** Plain execution; `None` when an operation fails. */
  function RunPlainly<S, P, R>(business: S, requests: seq<Request<S, P, R>>): Option<S>
    decreases |requests|
  {
    if |requests| == 0 then Some(business)
    else
      match requests[0].operation(business)
      case Err(_) => None
      case Ok(done) => RunPlainly(done.0, requests[1..])
  }

  /** `ServeAll` from the front. */
  function ServeOn<S, P(==), R>(store: Store<S, P, R>, requests: seq<Request<S, P, R>>): Store<S, P, R>
    decreases |requests|
  {
    if |requests| == 0 then store else ServeOn(After(store, requests[0]), requests[1..])
  }

  lemma {:induction false} ServeOnAppend<S, P, R>(store: Store<S, P, R>, requests: seq<Request<S, P, R>>,
                                                      last: Request<S, P, R>)
    ensures ServeOn(store, requests + [last]) == After(ServeOn(store, requests), last)
    decreases |requests|
  {
    if |requests| == 0 {
      assert (requests + [last])[1..] == [];
      assert ServeOn(After(store, last), []) == After(store, last);
    } else {
      ServeOnAppend(After(store, requests[0]), requests[1..], last);
      assert (requests + [last])[1..] == requests[1..] + [last];
    }
  }

  lemma {:induction false} FromTheFront<S, P, R>(store: Store<S, P, R>, requests: seq<Request<S, P, R>>)
    ensures ServeAll(store, requests) == ServeOn(store, requests)
    decreases |requests|
  {
    if |requests| > 0 {
      var front, last := requests[..|requests| - 1], requests[|requests| - 1];
      FromTheFront(store, front);
      ServeOnAppend(store, front, last);
      assert front + [last] == requests;
    }
  }

  /* What one request does. */

  /** No committed record lacks a response. */
  ghost predicate Complete<P(!new), R(!new)>(records: map<Slot, Record<P, R>>) {
    forall slot {:trigger records[slot]} :: slot in records ==> records[slot].response.Some?
  }

  /** A request with a free slot and a valid key that succeeds runs its operation and takes the
      slot; any other leaves business state and records alone. */
  lemma OneRequest<S, P, R>(store: Store<S, P, R>, request: Request<S, P, R>)
    ensures var after := After(store, request);
            if request.slot !in store.records && ValidKey(request.slot.key) && request.operation(store.business).Ok?
            then var done := request.operation(store.business).value;
                 && after.business == done.0
                 && after.records == store.records[request.slot := Record(request.payload, Some(done.1))]
                 && Serve(store, request).value.1 == Reply(false, done.1)
            else after == store
  {
    if request.operation(store.business).Ok? {
      var records := store.records;
      var begun: Record<P, R> := Record(request.payload, None);
      var closed := Record(request.payload, Some(request.operation(store.business).value.1));
      assert records[request.slot := begun][request.slot := closed] == records[request.slot := closed];
    }
  }

  /** Which requests are served, with the length of the key written out: a free slot runs the operation and
      records its response, a taken one answers the same payload with the recorded response. */
  lemma ServedExactly<S, P, R>(store: Store<S, P, R>, request: Request<S, P, R>)
    ensures |request.slot.key| == 0 || |request.slot.key| > 200 ==>
              Serve(store, request) == Err(ValidationFailure) && After(store, request) == store
    ensures 1 <= |request.slot.key| <= 200 && request.slot !in store.records ==>
              match request.operation(store.business)
              case Err(error) => Serve(store, request) == Err(error) && After(store, request) == store
              case Ok(done) =>
                var stored := Store(done.0, store.records[request.slot := Record(request.payload, Some(done.1))]);
                Serve(store, request) == Ok((stored, Reply(false, done.1))) && After(store, request) == stored
    ensures 1 <= |request.slot.key| <= 200 && request.slot in store.records ==>
              var record := store.records[request.slot];
              && After(store, request) == store
              && Serve(store, request) == if record.payload != request.payload then Err(IdempotencyConflict)
                                          else if record.response.None? then Err(Conflict)
                                          else Ok((store, Reply(true, record.response.value)))
  {
    OneRequest(store, request);
  }

  lemma {:induction false} StaysComplete<S, P(!new), R(!new)>(store: Store<S, P, R>, requests: seq<Request<S, P, R>>)
    requires Complete(store.records)
    ensures Complete(ServeAll(store, requests).records)
    decreases |requests|
  {
    if |requests| > 0 {
      var front := requests[..|requests| - 1];
      StaysComplete(store, front);
      OneRequest(ServeAll(store, front), requests[|requests| - 1]);
    }
  }

  /** A record once written is never changed or removed. */
  lemma {:induction false} RecordsStay<S, P, R>(store: Store<S, P, R>, requests: seq<Request<S, P, R>>, slot: Slot)
    requires slot in store.records
    ensures slot in ServeAll(store, requests).records
    ensures ServeAll(store, requests).records[slot] == store.records[slot]
    decreases |requests|
  {
    if |requests| > 0 {
      var front := requests[..|requests| - 1];
      RecordsStay(store, front, slot);
      OneRequest(ServeAll(store, front), requests[|requests| - 1]);
    }
  }

  /* Main results. */

  /** The layer refines plain execution: any sequence of requests, with any repetitions and failures,
      ends in the state that the first successful request of each slot, run once each and without
      the table, would produce. */
  lemma {:induction false} RefinesPlain<S, P, R>(store: Store<S, P, R>, requests: seq<Request<S, P, R>>)
    ensures RunPlainly(store.business, Winners(store.business, store.records.Keys, requests))
         == Some(ServeAll(store, requests).business)
    decreases |requests|
  {
    FromTheFront(store, requests);
    if |requests| > 0 {
      var first, rest := requests[0], requests[1..];
      var after := After(store, first);
      OneRequest(store, first);
      RefinesPlain(after, rest);
      FromTheFront(after, rest);
      if first.slot !in store.records && ValidKey(first.slot.key) && first.operation(store.business).Ok? {
        assert after.records.Keys == store.records.Keys + {first.slot};
        var more := Winners(after.business, after.records.Keys, rest);
        assert ([first] + more)[1..] == more;
      }
    }
  }

  /** Each slot is won at most once, by a request that was sent, and none that was taken before. */
  lemma {:induction false} WinnersAreDistinct<S, P, R>(business: S, used: set<Slot>, requests: seq<Request<S, P, R>>,
                                                       i: nat, j: nat)
    requires var winners := Winners(business, used, requests);
             i < |winners| && j < |winners|
    ensures var winners := Winners(business, used, requests);
            && winners[i].slot !in used
            && (winners[i].slot == winners[j].slot ==> i == j)
            && (exists k :: 0 <= k < |requests| && requests[k] == winners[i])
    decreases |requests|
  {
    var first, rest := requests[0], requests[1..];
    var winners := Winners(business, used, requests);
    if first.slot in used || !ValidKey(first.slot.key) || first.operation(business).Err? {
      WinnersAreDistinct(business, used, rest, i, j);
      WasSent(requests, winners[i]);
    } else {
      var done := first.operation(business).value;
      var more := Winners(done.0, used + {first.slot}, rest);
      assert winners == [first] + more;
      if i > 0 {
        WinnersAreDistinct(done.0, used + {first.slot}, rest, i - 1, if j > 0 then j - 1 else i - 1);
        WasSent(requests, winners[i]);
      } else if j > 0 {
        WinnersAreDistinct(done.0, used + {first.slot}, rest, j - 1, j - 1);
      }
    }
  }

  lemma WasSent<S, P, R>(requests: seq<Request<S, P, R>>, request: Request<S, P, R>)
    requires |requests| > 0 && exists k :: 0 <= k < |requests[1..]| && requests[1..][k] == request
    ensures exists k :: 0 <= k < |requests| && requests[k] == request
  {
    var k :| 0 <= k < |requests[1..]| && requests[1..][k] == request;
    assert requests[k + 1] == request;
  }

  /** Once a request has run, a repetition is answered with the response of that run - however much
      later, whatever its operation would do now - and a different payload is refused; neither
      changes anything. */
  lemma AnsweredOnce<S, P, R>(store: Store<S, P, R>, request: Request<S, P, R>, between: seq<Request<S, P, R>>,
                                  again: Request<S, P, R>)
    requires Serve(store, request).Ok? && !Serve(store, request).value.1.replayed
    requires again.slot == request.slot
    ensures var later := ServeAll(After(store, request), between);
            && request.operation(store.business).Ok?
            && After(later, again) == later
            && Serve(later, again) == if again.payload == request.payload
                                      then Ok((later, Reply(true, request.operation(store.business).value.1)))
                                      else Err(IdempotencyConflict)
  {
    OneRequest(store, request);
    RecordsStay(After(store, request), between, request.slot);
  }

  /** A request depends on the records of its own organization only, and touches no slot of another. */
  lemma TenantsHaveOwnSlots<S, P, R>(one: Store<S, P, R>, two: Store<S, P, R>, request: Request<S, P, R>, slot: Slot)
    requires one.business == two.business
    requires request.slot in one.records <==> request.slot in two.records
    requires request.slot in one.records ==> one.records[request.slot] == two.records[request.slot]
    ensures match Serve(one, request)
            case Err(error) => Serve(two, request) == Err(error)
            case Ok(done) =>
              && Serve(two, request).Ok?
              && Serve(two, request).value.1 == done.1
              && Serve(two, request).value.0.business == done.0.business
    ensures slot.org != request.slot.org ==>
              var after := After(one, request).records;
              && (slot in after <==> slot in one.records)
              && (slot in after ==> after[slot] == one.records[slot])
  {
    OneRequest(one, request);
  }

  /** Two requests racing for a slot: reading an old table first makes no difference. */
  lemma RaceIsAtomic<S, P, R>(store: Store<S, P, R>, between: seq<Request<S, P, R>>, slot: Slot, payload: P)
    ensures var records := ServeAll(store, between).records;
            ClaimRaced(store.records, records, slot, payload) == ClaimSlot(records, slot, payload)
  {
    if slot in store.records {
      RecordsStay(store, between, slot);
    }
  }

  /* The layer in its own form: a session that holds the business state and the records. */

  class Session<S, P(==), R> {
    var business: S
    var records: map<Slot, Record<P, R>>

    function Contents(): Store<S, P, R>
      reads this
    {
      Store(business, records)
    }

    constructor (business: S)
      ensures Contents() == Store(business, map[])
    {
      this.business := business;
      records := map[];
    }

    /** `claim`; `seen` is what its first query reads. A key has 1 to 200 characters. */
    method Claim(seen: map<Slot, Record<P, R>>, slot: Slot, payload: P) returns (r: Result<Claim<R>>)
      modifies this`records
      ensures r == Err(ValidationFailure) <==> slot.key == "" || |slot.key| > 200
      ensures r.Err? ==> records == old(records)
      ensures r == Ok(Claimed) <==> 1 <= |slot.key| <= 200 && slot !in seen && slot !in old(records)
      ensures r == Ok(Claimed) ==> records == old(records)[slot := Record(payload, None)]
      ensures match ClaimRaced(seen, old(records), slot, payload)
              case Ok(claimed) => r == Ok(claimed.1) && records == claimed.0
              case Err(error) => r == Err(error) && records == old(records)
    {
      if slot.key == "" || |slot.key| > 200 {
        return Err(ValidationFailure);
      }
      if slot in seen {
        r := ValidateExisting(seen[slot], payload);
        return;
      }
      if slot in records {
        r := ValidateExisting(records[slot], payload);
        return;
      }
      records := records[slot := Record(payload, None)];
      r := Ok(Claimed);
    }

    /** `complete` */
    method Complete(claim: Claim<R>, slot: Slot, response: R) returns (r: Result<()>)
      requires claim.Claimed? ==> slot in records
      modifies this`records
      ensures claim.Replay? ==> r == Err(RuntimeFailure) && records == old(records)
      ensures claim.Claimed? ==> r == Ok(())
                                 && records == old(records)[slot := old(records)[slot].(response := Some(response))]
    {
      if claim.Replay? {
        return Err(RuntimeFailure);
      }
      records := records[slot := records[slot].(response := Some(response))];
      r := Ok(());
    }

    /** `_idem` */
    method Idem(request: Request<S, P, R>) returns (r: Result<Reply<R>>)
      modifies this
      ensures match Serve(old(Contents()), request)
              case Ok(done) => r == Ok(done.1) && Contents() == done.0
              case Err(error) => r == Err(error)
    {
      var claimed :- Claim(records, request.slot, request.payload);
      if claimed.Replay? {
        return Ok(Reply(true, claimed.response));
      }
      var done :- request.operation(business);
      business := done.0;
      var completed := Complete(claimed, request.slot, done.1);
      assert completed.Ok?;
      r := Ok(Reply(false, done.1));
    }

    /** A request in its own transaction: `get_session` commits it or rolls it back. */
    method Handle(request: Request<S, P, R>) returns (r: Result<Reply<R>>)
      modifies this
      ensures Contents() == After(old(Contents()), request)
      ensures r == match Serve(old(Contents()), request) case Ok(done) => Ok(done.1) case Err(error) => Err(error)
    {
      var businessBefore, recordsBefore := business, records;
      r := Idem(request);
      if r.Err? {
        business, records := businessBefore, recordsBefore;
      }
    }
  }
}
