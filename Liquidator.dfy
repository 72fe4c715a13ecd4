/**
  One invocation of the liquidation bot (index.ts, main()).

  The remote contract query, the transaction broadcast or lookup, the clock and
  the state file are not called here: their results are parameters, and the
  call the cycle would make is a result.
 */
module Liquidator {
  import opened Wrappers

  // Time constants, in milliseconds (index.ts:16-19).
  const StatusReportInterval: int := 7_200_000
  const InitialReportThreshold: int := 15_000
  const AttemptCooldown: int := 30_000
  const OneSecond: int := 1_000

  // Number of items asked for per page of the query (index.ts:23).
  const PageSize: nat := 10

  /** One liquidatable position of a query page (types.ts:1-4). */
  datatype Candidate = Candidate(id: string, routes: string)

  /** What the contract query produced: a page, or an exception. */
  datatype QueryOutcome =
    | Answered(totalPages: int, data: seq<Candidate>)
    | QueryThrew

  /** The pagination argument of the contract query (index.ts:130-133). */
  datatype PageRequest = PageRequest(page: nat, pageSize: nat)

  /**
    The fields of a transaction response the cycle reads. `hasStructuredLog`
    says whether `arrayLog` or `jsonLog` is present.
   */
  datatype TxResponse = TxResponse(
    code: int,
    transactionHash: string,
    rawLog: Option<string>,
    hasStructuredLog: bool)

  /** The reply to the transaction call: a response, `null`, or an exception. */
  datatype TxOutcome = Delivered(response: TxResponse) | NotFound | CallThrew

  /** The transaction call a cycle makes (index.ts:155 and 159-175). */
  datatype TxCall =
    | Lookup(hash: string)
    | Broadcast(accountId: string, routeIndex: nat)

  /** The errors thrown inside the transaction block and caught at index.ts:203. */
  datatype CycleError =
    | TransactionNotFound
    | CallFailed
    | MissingLogLiquidate
    | MissingLog
    | AccountSequence
    | OutOfGas

  /** The persisted state record, as reconstructed from its uses in index.ts. */
  datatype Snapshot = Snapshot(
    start: Option<int>,
    totalAttempts: nat,
    successfulLiquidations: nat,
    failedLiquidations: nat,
    totalPages: nat,
    page: nat,
    txHash: Option<string>,
    attempts: map<string, int>,
    queryLength: Option<real>)

  /**
    Everything one cycle determines: the in-memory state at its end, whether
    line 207 writes it, the page it asked for, the transaction call it made,
    the error it caught and whether the status report was logged.
   */
  datatype Outcome = Outcome(
    state: Snapshot,
    written: bool,
    request: PageRequest,
    call: Option<TxCall>,
    error: Option<CycleError>,
    reported: bool)

  /** The record created when no state file exists (index.ts:85-93). */
  function Initial(): Snapshot
  {
    Snapshot(None, 0, 0, 0, 1, 0, None, map[], None)
  }

  /** The cursor invariant: the page lies inside the last reported page count. */
  predicate Valid(s: Snapshot)
  {
    1 <= s.totalPages && s.page < s.totalPages
  }

  /** A query result the cycle can use without dividing by zero (index.ts:140). */
  predicate Usable(q: QueryOutcome)
  {
    q.Answered? ==> q.totalPages >= 1
  }

  /** The start time the status report measures from: `state.start || now`. */
  function ReportStart(start: Option<int>, now: int): int
  {
    if start.Some? && start.value != 0 then start.value else now
  }

  /**
    Whether the status report is logged after `elapsed` milliseconds of
    running (index.ts:105-114; both sides of the merge conflict agree).
   */
  predicate StatusDue(elapsed: int)
  {
    (elapsed > StatusReportInterval && elapsed % StatusReportInterval < OneSecond)
    || elapsed < InitialReportThreshold
  }

  /** The running average of the query duration (index.ts:138). */
  function NextQueryLength(previous: Option<real>, measured: real): real
  {
    if previous.Some? && previous.value != 0.0 then (previous.value + measured) / 2.0
    else measured
  }

  /** The page cursor after a fetch that reported `totalPages` pages (index.ts:140). */
  function NextPage(page: nat, totalPages: nat): (r: nat)
    requires totalPages >= 1
    ensures r < totalPages
    ensures page + 1 == totalPages * ((page + 1) / totalPages) + r
    ensures page + 1 < totalPages ==> r == page + 1
    ensures page + 1 == totalPages ==> r == 0
  {
    (page + 1) % totalPages
  }

  /** Round-robin choice of a candidate among `count` (index.ts:142). */
  function SelectIndex(counter: nat, count: nat): (i: nat)
    requires count > 0
    ensures i < count
    ensures counter < count ==> i == counter
  {
    counter % count
  }

  /**
    Whether an earlier attempt on `id` is still within the cooldown window;
    a recorded time of 0 counts as no attempt (index.ts:144).
   */
  predicate InCooldown(attempts: map<string, int>, id: string, now: int)
  {
    id in attempts && attempts[id] != 0 && attempts[id] > now - AttemptCooldown
  }

  /** Whether a hash is pending: `state.txHash` is a non-empty string (index.ts:154). */
  predicate Pending(txHash: Option<string>)
  {
    txHash.Some? && |txHash.value| > 0
  }

  /** JavaScript's `String.prototype.includes`: `t` occurs in `s`. */
  predicate Contains(s: string, t: string)
  {
    if |t| > |s| then false
    else if s[..|t|] == t then true
    else |s| > 0 && Contains(s[1..], t)
  }

  /** The raw-log checks that only raise an error (index.ts:197-202). */
  function RawLogError(rawLog: Option<string>): Option<CycleError>
  {
    if rawLog.Some? && Contains(rawLog.value, "incorrect account sequence") then Some(AccountSequence)
    else if rawLog.Some? && Contains(rawLog.value, "out of gas") then Some(OutOfGas)
    else None
  }

  /**
    The pending hash after the transaction reply, and the error thrown while
    handling it (index.ts:177-202).
   */
  function Reconcile(txHash: Option<string>, reply: TxOutcome): (Option<string>, Option<CycleError>)
  {
    match reply
    case NotFound => (txHash, Some(TransactionNotFound))
    case CallThrew => (txHash, Some(CallFailed))
    case Delivered(r) =>
      if r.code == 0 then
        if !r.hasStructuredLog then (Some(r.transactionHash), Some(MissingLogLiquidate))
        else (None, RawLogError(r.rawLog))
      else if r.rawLog.None? || |r.rawLog.value| == 0 then
        (Some(r.transactionHash), Some(MissingLog))
      else (txHash, RawLogError(r.rawLog))
  }

  /** The result of the transaction block (index.ts:150-202). */
  datatype Attempt = Attempt(state: Snapshot, call: TxCall, error: Option<CycleError>)

  /**
    The attempt on the candidate `id` that passed the cooldown check: stamp
    its attempt time, then look up the pending hash or broadcast a new
    liquidation, and reconcile the reply (index.ts:147-202).
   */
  function AttemptOn(s: Snapshot, id: string, now: int, reply: TxOutcome): Attempt
  {
    var (txHash, error) := Reconcile(s.txHash, reply);
    if Pending(s.txHash) then
      Attempt(s.(attempts := s.attempts[id := now], txHash := txHash), Lookup(s.txHash.value), error)
    else
      Attempt(s.(attempts := s.attempts[id := now], totalAttempts := s.totalAttempts + 1, txHash := txHash),
              Broadcast(id, s.totalAttempts + 1), error)
  }

  /** The record after a successful query: timing, page count and cursor (index.ts:137-140). */
  function AfterFetch(s: Snapshot, totalPages: int, measured: real): Snapshot
    requires totalPages >= 1
  {
    s.(queryLength := Some(NextQueryLength(s.queryLength, measured)),
       totalPages := totalPages,
       page := NextPage(s.page, totalPages))
  }

  /** The candidate a cycle on `s` chooses from a non-empty page (index.ts:141-142). */
  function Chosen(s: Snapshot, query: QueryOutcome): (c: Candidate)
    requires query.Answered? && |query.data| > 0
    ensures c in query.data
  {
    query.data[SelectIndex(s.totalAttempts, |query.data|)]
  }

  /**
    One cycle on the loaded record `s` at time `now` (index.ts:100-207):
    the specification of State.Step.
   */
  function Cycle(s: Snapshot, now: int, query: QueryOutcome, measured: real, reply: TxOutcome): Outcome
    requires Usable(query)
  {
    var reported := StatusDue(now - ReportStart(s.start, now));
    var request := PageRequest(s.page, PageSize);
    var s0 := s.(start := if s.start.None? then Some(now) else s.start);
    if query.QueryThrew? then Outcome(s0, false, request, None, None, reported)
    else
      var s1 := AfterFetch(s0, query.totalPages, measured);
      if |query.data| == 0 then Outcome(s1, true, request, None, None, reported)
      else
        var chosen := Chosen(s, query);
        if InCooldown(s.attempts, chosen.id, now) then Outcome(s1, false, request, None, None, reported)
        else
          var a := AttemptOn(s1, chosen.id, now, reply);
          Outcome(a.state, true, request, Some(a.call), a.error, reported)
  }

  /** The record the cycle runs on: the stored one, or a fresh one (index.ts:84-98). */
  function LoadOrCreate(stored: Option<Snapshot>): Snapshot
  {
    if stored.Some? then stored.value else Initial()
  }

  /**
    What the state file holds after one invocation: the record written at
    line 207, or else what line 97 read.
   */
  function Invoke(stored: Option<Snapshot>, now: int, query: QueryOutcome, measured: real, reply: TxOutcome): Snapshot
    requires Usable(query)
  {
    var s := LoadOrCreate(stored);
    var o := Cycle(s, now, query, measured, reply);
    if o.written then o.state else s
  }

  /** The inputs of one invocation: the clock, and the replies of the foreign calls. */
  datatype Input = Input(now: int, query: QueryOutcome, measured: real, reply: TxOutcome)

  /** The state file after a sequence of invocations, starting from `s`. */
  function Run(s: Snapshot, inputs: seq<Input>): Snapshot
    requires forall i :: 0 <= i < |inputs| ==> Usable(inputs[i].query)
    decreases |inputs|
  {
    if |inputs| == 0 then s
    else
      var x := inputs[0];
      Run(Invoke(Some(s), x.now, x.query, x.measured, x.reply), inputs[1..])
  }

  /** The parsed state object that main() mutates in place. */
  class State {
    var start: Option<int>
    var totalAttempts: nat
    var successfulLiquidations: nat
    var failedLiquidations: nat
    var totalPages: nat
    var page: nat
    var txHash: Option<string>
    var attempts: map<string, int>
    var queryLength: Option<real>

    /** The record `JSON.stringify(state)` writes. */
    function Value(): Snapshot
      reads this
    {
      Snapshot(start, totalAttempts, successfulLiquidations, failedLiquidations,
               totalPages, page, txHash, attempts, queryLength)
    }

    /** The record created when no state file exists (index.ts:85-93). */
    constructor Create()
      ensures Value() == Initial()
      ensures Valid(Value())
    {
      start := None;
      totalAttempts := 0;
      successfulLiquidations := 0;
      failedLiquidations := 0;
      totalPages := 1;
      page := 0;
      txHash := None;
      attempts := map[];
      queryLength := None;
    }

    /** The state parsed from the state file (index.ts:97-98). */
    constructor Load(s: Snapshot)
      ensures Value() == s
    {
      start := s.start;
      totalAttempts := s.totalAttempts;
      successfulLiquidations := s.successfulLiquidations;
      failedLiquidations := s.failedLiquidations;
      totalPages := s.totalPages;
      page := s.page;
      txHash := s.txHash;
      attempts := s.attempts;
      queryLength := s.queryLength;
    }

    /**
      The reply handling of the try block (index.ts:177-202): what it does to
      `state.txHash` and which error it throws.
     */
    method Settle(reply: TxOutcome) returns (error: Option<CycleError>)
      modifies this
      ensures Value() == old(Value()).(txHash := Reconcile(old(txHash), reply).0)
      ensures error == Reconcile(old(txHash), reply).1
    {
      error := None;
      match reply {
        case NotFound =>
          error := Some(TransactionNotFound);
        case CallThrew =>
          error := Some(CallFailed);
        case Delivered(r) =>
          if r.code == 0 {
            if !r.hasStructuredLog {
              txHash := Some(r.transactionHash);
              error := Some(MissingLogLiquidate);
            } else {
              txHash := None;
            }
          } else if r.rawLog.None? || |r.rawLog.value| == 0 {
            txHash := Some(r.transactionHash);
            error := Some(MissingLog);
          }
          if error.None? {
            error := RawLogError(r.rawLog);
          }
      }
    }

    /** The attempt on candidate `id` after the cooldown check (index.ts:147-202). */
    method AttemptCandidate(id: string, now: int, reply: TxOutcome) returns (call: TxCall, error: Option<CycleError>)
      modifies this
      ensures var a := AttemptOn(old(Value()), id, now, reply);
        Value() == a.state && call == a.call && error == a.error
    {
      if id in attempts && attempts[id] != 0 {
        attempts := attempts - {id};
      }
      attempts := attempts[id := now];
      if Pending(txHash) {
        call := Lookup(txHash.value);
      } else {
        totalAttempts := totalAttempts + 1;
        call := Broadcast(id, totalAttempts);
      }
      error := Settle(reply);
    }

    /**
      The body of main() after the state is loaded (index.ts:100-207).
      `written` is the record line 207 writes, or None when the cycle ends
      without writing.
     */
    method Step(now: int, query: QueryOutcome, measured: real, reply: TxOutcome)
      returns (written: Option<Snapshot>, request: PageRequest, call: Option<TxCall>,
               error: Option<CycleError>, reported: bool)
      requires Usable(query)
      modifies this
      ensures var o := Cycle(old(Value()), now, query, measured, reply);
        && Value() == o.state
        && written == (if o.written then Some(o.state) else None)
        && request == o.request && call == o.call && error == o.error
        && reported == o.reported
    {
      var reportStart := if start.Some? && start.value != 0 then start.value else now;
      if start.None? {
        start := Some(now);
      }
      reported := StatusDue(now - reportStart);
      request := PageRequest(page, PageSize);
      call, error := None, None;
      if query.QueryThrew? {
        // the rejected query promise ends main() before line 207
        written := None;
        return;
      }
      queryLength := Some(NextQueryLength(queryLength, measured));
      totalPages := query.totalPages;
      page := (page + 1) % totalPages;
      if |query.data| > 0 {
        var chosen := query.data[totalAttempts % |query.data|];
        if InCooldown(attempts, chosen.id, now) {
          written := None;
          return;
        }
        // every `throw` in the try block lands in the catch at line 203
        var made;
        made, error := AttemptCandidate(chosen.id, now, reply);
        call := Some(made);
      }
      written := Some(Value());
    }
  }

  /**
    A whole invocation of main(): create the state file if it is missing, load
    it, run the cycle; `file` is what the state file holds afterwards.
   */
  method RunOnce(stored: Option<Snapshot>, now: int, query: QueryOutcome, measured: real, reply: TxOutcome)
    returns (file: Snapshot, call: Option<TxCall>, error: Option<CycleError>)
    requires Usable(query)
    ensures file == Invoke(stored, now, query, measured, reply)
    ensures call == Cycle(LoadOrCreate(stored), now, query, measured, reply).call
    ensures error == Cycle(LoadOrCreate(stored), now, query, measured, reply).error
  {
    var state: State;
    if stored.None? {
      state := new State.Create();
    } else {
      state := new State.Load(stored.value);
    }
    var loaded := state.Value();
    var written, request, reported;
    written, request, call, error, reported := state.Step(now, query, measured, reply);
    file := if written.Some? then written.value else loaded;
  }
}
