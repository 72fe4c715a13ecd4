/** What the cycle of index.ts guarantees, stated over the model in module Liquidator. */
module LiquidatorProperties {
  import opened Wrappers
  import opened Liquidator

  // ---- Arithmetic used by the cursor and round-robin proofs ----

  /** A product with a positive factor `d` is at least the other factor. */
  lemma {:induction false} MulAtLeast(k: int, d: int)
    requires k > 0 && d >= 1
    ensures k * d >= k
    decreases d
  {
    if d > 1 {
      MulAtLeast(k, d - 1);
      assert k * d == k * (d - 1) + k;
    }
  }

  /** Euclidean division is unique: `x == k * q + r` with `0 <= r < k` fixes quotient and remainder. */
  lemma DivModUnique(x: int, k: int, q: int, r: int)
    requires 0 <= r < k
    requires x == k * q + r
    ensures x / k == q && x % k == r
  {
    var q', r' := x / k, x % k;
    assert x == k * q' + r';
    if q' > q {
      MulAtLeast(k, q' - q);
    } else if q' < q {
      MulAtLeast(k, q - q');
    }
  }

  /** Adding whole multiples of `k` does not change a remainder modulo `k`. */
  lemma ModShift(y: int, q: int, k: int)
    requires k > 0
    ensures (y + k * q) % k == y % k
  {
    assert y == k * (y / k) + y % k;
    assert y + k * q == k * (y / k + q) + y % k;
    DivModUnique(y + k * q, k, y / k + q, y % k);
  }

  /** Reducing the left addend first does not change a sum's remainder. */
  lemma ModOfSum(a: int, b: int, k: int)
    requires k > 0
    ensures (a % k + b) % k == (a + b) % k
  {
    assert a == k * (a / k) + a % k;
    ModShift(a % k + b, a / k, k);
    assert a + b == a % k + b + k * (a / k);
  }

  // ---- Creation and the start time (index.ts:84-104) ----

  /** The record of a first run is valid and carries no attempts and no pending hash. */
  lemma InitialRecord()
    ensures Valid(Initial())
    ensures Initial().start.None? && Initial().txHash.None? && Initial().attempts == map[]
    ensures Initial().totalAttempts == 0 && Initial().successfulLiquidations == 0
    ensures Initial().failedLiquidations == 0 && Initial().page == 0 && Initial().totalPages == 1
  {
  }

  /** `start` is set when it was undefined and is never overwritten. */
  lemma StartSetOnce(s: Snapshot, now: int, query: QueryOutcome, measured: real, reply: TxOutcome)
    requires Usable(query)
    ensures var o := Cycle(s, now, query, measured, reply);
      o.state.start == (if s.start.None? then Some(now) else s.start)
  {
  }

  /**
    The first invocation, with no state file, always writes a record: its
    `attempts` map is empty, so no cooldown can stop it, and its start time
    is `now`.
   */
  lemma FirstInvocation(now: int, query: QueryOutcome, measured: real, reply: TxOutcome)
    requires query.Answered? && query.totalPages >= 1
    ensures Cycle(Initial(), now, query, measured, reply).written
    ensures Invoke(None, now, query, measured, reply).start == Some(now)
    ensures Cycle(Initial(), now, query, measured, reply).reported
  {
  }

  // ---- Status report (index.ts:105-114) ----

  /** After the first two hours, the status report recurs every two hours. */
  lemma StatusRecurs(elapsed: int, periods: nat)
    requires elapsed > StatusReportInterval
    ensures StatusDue(elapsed + StatusReportInterval * periods) == StatusDue(elapsed)
  {
    ModShift(elapsed, periods, StatusReportInterval);
  }

  /** Between 15 seconds and two hours of running, no status report is logged. */
  lemma StatusQuietAfterStartup(elapsed: int)
    requires InitialReportThreshold <= elapsed <= StatusReportInterval
    ensures !StatusDue(elapsed)
  {
  }

  // ---- Page cursor (index.ts:139-140) ----

  /** A written cycle records the reported page count and advances the cursor within it. */
  lemma CursorAdvances(s: Snapshot, now: int, query: QueryOutcome, measured: real, reply: TxOutcome)
    requires query.Answered? && query.totalPages >= 1
    ensures var o := Cycle(s, now, query, measured, reply);
      o.written ==>
        && o.state.totalPages == query.totalPages
        && o.state.page == (s.page + 1) % query.totalPages
        && Valid(o.state)
  {
  }

  /** Every written record satisfies the cursor invariant, whatever was loaded. */
  lemma {:induction false} RunKeepsValid(s: Snapshot, inputs: seq<Input>)
    requires Valid(s)
    requires forall i :: 0 <= i < |inputs| ==> Usable(inputs[i].query)
    ensures Valid(Run(s, inputs))
    decreases |inputs|
  {
    if |inputs| > 0 {
      var x := inputs[0];
      var o := Cycle(s, x.now, x.query, x.measured, x.reply);
      assert Valid(Invoke(Some(s), x.now, x.query, x.measured, x.reply));
      RunKeepsValid(Invoke(Some(s), x.now, x.query, x.measured, x.reply), inputs[1..]);
    }
  }

  /** An input whose query returns an empty page of a fixed page count. */
  predicate EmptyPageOf(x: Input, totalPages: int)
  {
    x.query.Answered? && x.query.totalPages == totalPages && |x.query.data| == 0
  }

  /**
    After `n` cycles over empty pages of `T` pages, the cursor is
    `(page + n) mod T`, and no attempt, counter or pending hash has changed.
   */
  lemma {:induction false} CursorAfterEmptyPages(s: Snapshot, inputs: seq<Input>, T: int)
    requires T >= 1
    requires forall i :: 0 <= i < |inputs| ==> Usable(inputs[i].query) && EmptyPageOf(inputs[i], T)
    ensures var r := Run(s, inputs);
      && r.page == (if |inputs| == 0 then s.page else (s.page + |inputs|) % T)
      && r.attempts == s.attempts && r.txHash == s.txHash
      && r.totalAttempts == s.totalAttempts
      && r.successfulLiquidations == s.successfulLiquidations
      && r.failedLiquidations == s.failedLiquidations
    decreases |inputs|
  {
    if |inputs| > 0 {
      var x := inputs[0];
      assert EmptyPageOf(x, T);
      var s' := Invoke(Some(s), x.now, x.query, x.measured, x.reply);
      assert s'.page == (s.page + 1) % T;
      assert forall i :: 0 <= i < |inputs[1..]| ==> Usable(inputs[1..][i].query) && EmptyPageOf(inputs[1..][i], T) by {
        forall i | 0 <= i < |inputs[1..]| ensures Usable(inputs[1..][i].query) && EmptyPageOf(inputs[1..][i], T) {
          assert inputs[1..][i] == inputs[i + 1];
        }
      }
      CursorAfterEmptyPages(s', inputs[1..], T);
      if |inputs| > 1 {
        ModOfSum(s.page + 1, |inputs| - 1, T);
      }
    }
  }

  /** Whether every invocation of a run reaches the write at index.ts:207. */
  ghost predicate AllWritten(s: Snapshot, inputs: seq<Input>)
    requires forall i :: 0 <= i < |inputs| ==> Usable(inputs[i].query)
    decreases |inputs|
  {
    |inputs| == 0 ||
    (var x := inputs[0];
     Cycle(s, x.now, x.query, x.measured, x.reply).written
     && AllWritten(Invoke(Some(s), x.now, x.query, x.measured, x.reply), inputs[1..]))
  }

  /** An input whose query answers with `totalPages` pages. */
  predicate AnsweredWith(x: Input, totalPages: int)
  {
    x.query.Answered? && x.query.totalPages == totalPages
  }

  /**
    After `n` invocations that all write, each answering with `T` pages, the
    cursor is `(page + n) mod T`.
   */
  lemma {:induction false} CursorAfterWrittenRun(s: Snapshot, inputs: seq<Input>, T: int)
    requires T >= 1
    requires forall i :: 0 <= i < |inputs| ==> Usable(inputs[i].query) && AnsweredWith(inputs[i], T)
    requires AllWritten(s, inputs)
    ensures Run(s, inputs).page == (if |inputs| == 0 then s.page else (s.page + |inputs|) % T)
    decreases |inputs|
  {
    if |inputs| > 0 {
      var x := inputs[0];
      assert AnsweredWith(x, T);
      var s' := Invoke(Some(s), x.now, x.query, x.measured, x.reply);
      assert s'.page == (s.page + 1) % T;
      assert forall i :: 0 <= i < |inputs[1..]| ==> Usable(inputs[1..][i].query) && AnsweredWith(inputs[1..][i], T) by {
        forall i | 0 <= i < |inputs[1..]| ensures Usable(inputs[1..][i].query) && AnsweredWith(inputs[1..][i], T) {
          assert inputs[1..][i] == inputs[i + 1];
        }
      }
      CursorAfterWrittenRun(s', inputs[1..], T);
      if |inputs| > 1 {
        ModOfSum(s.page + 1, |inputs| - 1, T);
      }
    }
  }

  // ---- Candidate choice (index.ts:141-142) ----

  /** The indices chosen by `count` consecutive attempt counters starting at `counter`. */
  function Schedule(counter: nat, count: nat): (r: seq<int>)
    requires count > 0
    ensures |r| == count
  {
    seq(count, j requires 0 <= j < count => SelectIndex(counter + j, count))
  }

  /** Every index is chosen by one of `count` consecutive counters. */
  lemma ScheduleCovers(counter: nat, count: nat, t: nat)
    requires t < count
    ensures t in Schedule(counter, count)
  {
    var r := counter % count;
    var j := if t >= r then t - r else t - r + count;
    var q := counter / count;
    assert counter == count * q + r;
    if t >= r {
      assert counter + j == count * q + t;
      DivModUnique(counter + j, count, q, t);
    } else {
      assert counter + j == count * (q + 1) + t;
      DivModUnique(counter + j, count, q + 1, t);
    }
    assert 0 <= j < count && SelectIndex(counter + j, count) == t;
    assert Schedule(counter, count)[j] == t;
  }

  /** Two of `count` consecutive counters never choose the same index. */
  lemma ScheduleDistinct(counter: nat, count: nat, i: nat, j: nat)
    requires i < j < count
    ensures Schedule(counter, count)[i] != Schedule(counter, count)[j]
  {
    var q := (counter + i) / count;
    var r := (counter + i) % count;
    var d := j - i;
    assert counter + i == count * q + r;
    if r + d < count {
      assert counter + j == count * q + (r + d);
      DivModUnique(counter + j, count, q, r + d);
      assert SelectIndex(counter + j, count) == r + d;
      assert Schedule(counter, count)[j] == r + d;
    } else {
      assert counter + j == count * (q + 1) + (r + d - count);
      DivModUnique(counter + j, count, q + 1, r + d - count);
      assert SelectIndex(counter + j, count) == r + d - count;
      assert Schedule(counter, count)[j] == r + d - count;
    }
    assert SelectIndex(counter + i, count) == r;
    assert Schedule(counter, count)[i] == r;
  }

  /**
    Round robin: for a page of `count` candidates, `count` consecutive values
    of `totalAttempts` choose every candidate exactly once.
   */
  lemma RoundRobinExactlyOnce(counter: nat, count: nat)
    requires count > 0
    ensures forall t :: 0 <= t < count ==> t in Schedule(counter, count)
    ensures forall i, j :: 0 <= i < j < count ==> Schedule(counter, count)[i] != Schedule(counter, count)[j]
  {
    forall t | 0 <= t < count ensures t in Schedule(counter, count) {
      ScheduleCovers(counter, count, t);
    }
    forall i, j | 0 <= i < j < count ensures Schedule(counter, count)[i] != Schedule(counter, count)[j] {
      ScheduleDistinct(counter, count, i, j);
    }
  }

  /** An empty page makes no attempt: only the start, timing and cursor change. */
  lemma EmptyPageMakesNoAttempt(s: Snapshot, now: int, query: QueryOutcome, measured: real, reply: TxOutcome)
    requires query.Answered? && query.totalPages >= 1 && |query.data| == 0
    ensures var o := Cycle(s, now, query, measured, reply);
      && o.written && o.call.None? && o.error.None?
      && o.state.attempts == s.attempts && o.state.txHash == s.txHash
      && o.state.totalAttempts == s.totalAttempts
      && o.state.successfulLiquidations == s.successfulLiquidations
      && o.state.failedLiquidations == s.failedLiquidations
  {
  }

  // ---- Cooldown (index.ts:144-150) ----

  /**
    A cycle that chose a candidate writes nothing exactly when that candidate
    is in its cooldown, and then the state file keeps the loaded record;
    otherwise the candidate's attempt time becomes `now` and every other
    entry of `attempts` is unchanged.
   */
  lemma CooldownGate(s: Snapshot, now: int, query: QueryOutcome, measured: real, reply: TxOutcome)
    requires query.Answered? && query.totalPages >= 1 && |query.data| > 0
    ensures var o := Cycle(s, now, query, measured, reply);
      var id := Chosen(s, query).id;
      && (!o.written <==> InCooldown(s.attempts, id, now))
      && (InCooldown(s.attempts, id, now) ==> Invoke(Some(s), now, query, measured, reply) == s)
      && (!InCooldown(s.attempts, id, now) ==>
            && id in o.state.attempts && o.state.attempts[id] == now
            && (forall k :: k != id ==> (k in o.state.attempts <==> k in s.attempts))
            && (forall k :: k != id && k in s.attempts ==> o.state.attempts[k] == s.attempts[k]))
  {
  }

  /** An attempt at time `t` blocks the candidate 29 seconds later and not 31 seconds later. */
  lemma CooldownWindow(attempts: map<string, int>, id: string, t: int)
    requires id in attempts && attempts[id] == t && t != 0
    ensures InCooldown(attempts, id, t + 29_000)
    ensures !InCooldown(attempts, id, t + 31_000)
  {
  }

  /**
    Two cycles: after an attempt on a candidate at time `t`, a cycle
    29 seconds later that chooses the same candidate is skipped, and one
    31 seconds later is not.
   */
  lemma CooldownAcrossCycles(s: Snapshot, t: int, query: QueryOutcome, measured: real, reply: TxOutcome,
                             query2: QueryOutcome, reply2: TxOutcome)
    requires query.Answered? && query.totalPages >= 1 && |query.data| > 0
    requires query2.Answered? && query2.totalPages >= 1 && |query2.data| > 0
    requires t != 0 && !InCooldown(s.attempts, Chosen(s, query).id, t)
    requires var s1 := Cycle(s, t, query, measured, reply).state;
      Chosen(s1, query2).id == Chosen(s, query).id
    ensures var s1 := Cycle(s, t, query, measured, reply).state;
      && !Cycle(s1, t + 29_000, query2, measured, reply2).written
      && Cycle(s1, t + 31_000, query2, measured, reply2).written
  {
  }

  // ---- Submit or reconcile (index.ts:153-176) ----

  /**
    With no pending hash the cycle broadcasts, its route index being the
    incremented attempt counter; with a pending hash it looks that hash up
    and leaves the counter alone.
   */
  lemma SubmitOrReconcile(s: Snapshot, now: int, query: QueryOutcome, measured: real, reply: TxOutcome)
    requires query.Answered? && query.totalPages >= 1 && |query.data| > 0
    requires !InCooldown(s.attempts, Chosen(s, query).id, now)
    ensures var o := Cycle(s, now, query, measured, reply);
      && (!Pending(s.txHash) ==>
            && o.state.totalAttempts == s.totalAttempts + 1
            && o.call == Some(Broadcast(Chosen(s, query).id, o.state.totalAttempts)))
      && (Pending(s.txHash) ==>
            && o.state.totalAttempts == s.totalAttempts
            && o.call == Some(Lookup(s.txHash.value)))
  {
  }

  /** The attempt counter grows by one exactly when the cycle broadcasts, and otherwise stays. */
  lemma AttemptsGrowAtMostOne(s: Snapshot, now: int, query: QueryOutcome, measured: real, reply: TxOutcome)
    requires Usable(query)
    ensures var o := Cycle(s, now, query, measured, reply);
      && (o.call.Some? && o.call.value.Broadcast? ==> o.state.totalAttempts == s.totalAttempts + 1)
      && (!(o.call.Some? && o.call.value.Broadcast?) ==> o.state.totalAttempts == s.totalAttempts)
  {
  }

  // ---- Classification of the reply (index.ts:177-202) ----

  /** How an attempt's reply sets the pending hash, in every case of index.ts:177-196. */
  lemma ReplyClassification(s: Snapshot, now: int, query: QueryOutcome, measured: real, reply: TxOutcome)
    requires query.Answered? && query.totalPages >= 1 && |query.data| > 0
    requires !InCooldown(s.attempts, Chosen(s, query).id, now)
    ensures var o := Cycle(s, now, query, measured, reply);
      && o.written
      && (reply.NotFound? ==> o.state.txHash == s.txHash && o.error == Some(TransactionNotFound))
      && (reply.CallThrew? ==> o.state.txHash == s.txHash && o.error == Some(CallFailed))
      && (reply.Delivered? && reply.response.code == 0 && reply.response.hasStructuredLog ==>
            o.state.txHash.None?)
      && (reply.Delivered? && reply.response.code == 0 && !reply.response.hasStructuredLog ==>
            o.state.txHash == Some(reply.response.transactionHash) && o.error == Some(MissingLogLiquidate))
      && (reply.Delivered? && reply.response.code != 0
          && (reply.response.rawLog.None? || reply.response.rawLog.value == []) ==>
            o.state.txHash == Some(reply.response.transactionHash) && o.error == Some(MissingLog))
      && (reply.Delivered? && reply.response.code != 0
          && reply.response.rawLog.Some? && reply.response.rawLog.value != [] ==>
            o.state.txHash == s.txHash)
      && (reply.Delivered?
          && ((reply.response.code == 0 && reply.response.hasStructuredLog)
              || (reply.response.code != 0 && reply.response.rawLog.Some? && reply.response.rawLog.value != [])) ==>
            o.error == RawLogError(reply.response.rawLog))
  {
  }

  /**
    The raw-log text only chooses which error is logged: two replies that
    differ only in their (non-empty) raw logs leave the same state.
   */
  lemma RawLogOnlyRaises(s: Snapshot, now: int, query: QueryOutcome, measured: real, r1: TxResponse, r2: TxResponse)
    requires Usable(query)
    requires r1.code == r2.code && r1.transactionHash == r2.transactionHash
    requires r1.hasStructuredLog == r2.hasStructuredLog
    requires r1.rawLog.Some? && r1.rawLog.value != [] && r2.rawLog.Some? && r2.rawLog.value != []
    ensures Cycle(s, now, query, measured, Delivered(r1)).state == Cycle(s, now, query, measured, Delivered(r2)).state
    ensures Cycle(s, now, query, measured, Delivered(r1)).written == Cycle(s, now, query, measured, Delivered(r2)).written
  {
  }

  /** A sequence mismatch in the raw log takes precedence over running out of gas. */
  lemma SequenceCheckedFirst(rawLog: string)
    requires Contains(rawLog, "incorrect account sequence")
    ensures RawLogError(Some(rawLog)) == Some(AccountSequence)
  {
  }

  /** Without a sequence mismatch, a raw log mentioning "out of gas" raises the out-of-gas error. */
  lemma OutOfGasSecond(rawLog: string)
    requires !Contains(rawLog, "incorrect account sequence")
    requires Contains(rawLog, "out of gas")
    ensures RawLogError(Some(rawLog)) == Some(OutOfGas)
  {
  }

  /** A raw log with neither text raises no error. */
  lemma QuietRawLog(rawLog: string)
    requires !Contains(rawLog, "incorrect account sequence")
    requires !Contains(rawLog, "out of gas")
    ensures RawLogError(Some(rawLog)) == None
  {
  }

  /** `t` occurs in `s` at index `i`. */
  ghost predicate OccursAt(s: string, t: string, i: int)
  {
    0 <= i <= |s| - |t| && s[i..i + |t|] == t
  }

  /** A slice of the tail of `s` is the slice of `s` one index further on. */
  lemma TailSlice(s: string, i: int, n: int)
    requires 0 <= i && 0 <= n && i + 1 + n <= |s|
    ensures s[1..][i..i + n] == s[i + 1..i + 1 + n]
  {
    var left, right := s[1..][i..i + n], s[i + 1..i + 1 + n];
    forall k | 0 <= k < n ensures left[k] == right[k] {
    }
    assert left == right;
  }

  /** `Contains` agrees with the definition of an occurrence at some index. */
  lemma {:induction false} ContainsAt(s: string, t: string)
    ensures Contains(s, t) <==> exists i :: OccursAt(s, t, i)
  {
    if |t| > |s| {
    } else if s[..|t|] == t {
      assert OccursAt(s, t, 0);
    } else if |s| > 0 {
      ContainsAt(s[1..], t);
      if Contains(s[1..], t) {
        var i :| OccursAt(s[1..], t, i);
        TailSlice(s, i, |t|);
        assert OccursAt(s, t, i + 1);
      } else {
        forall i | OccursAt(s, t, i) && i > 0 ensures OccursAt(s[1..], t, i - 1) {
          TailSlice(s, i - 1, |t|);
        }
      }
    }
  }

  /** An error raised in the transaction block still writes the page advance and the attempt time. */
  lemma ErrorsStillPersist(s: Snapshot, now: int, query: QueryOutcome, measured: real, reply: TxOutcome)
    requires Usable(query)
    ensures var o := Cycle(s, now, query, measured, reply);
      o.error.Some? ==>
        && query.Answered? && |query.data| > 0
        && o.written
        && o.state.page == NextPage(s.page, query.totalPages)
        && Chosen(s, query).id in o.state.attempts
        && o.state.attempts[Chosen(s, query).id] == now
  {
  }

  // ---- Over many invocations ----

  /** No invocation ever changes the success or failure counters. */
  lemma {:induction false} OutcomeCountersNeverChange(s: Snapshot, inputs: seq<Input>)
    requires forall i :: 0 <= i < |inputs| ==> Usable(inputs[i].query)
    ensures Run(s, inputs).successfulLiquidations == s.successfulLiquidations
    ensures Run(s, inputs).failedLiquidations == s.failedLiquidations
    decreases |inputs|
  {
    if |inputs| > 0 {
      var x := inputs[0];
      OutcomeCountersNeverChange(Invoke(Some(s), x.now, x.query, x.measured, x.reply), inputs[1..]);
    }
  }

  /**
    A reply that never settles a pending hash: not found, a failed call, or
    a failure response carrying a raw log.
   */
  predicate Unsettling(x: Input)
  {
    match x.reply
    case NotFound => true
    case CallThrew => true
    case Delivered(r) => r.code != 0 && r.rawLog.Some? && r.rawLog.value != []
  }

  /**
    Once a hash is pending, replies that do not settle it keep it pending
    forever, and the bot broadcasts no new liquidation. In particular a
    looked-up transaction that failed with a raw log is looked up again on
    every later cycle (index.ts:189-196 never clears `txHash`).
   */
  lemma {:induction false} PendingHashSticks(s: Snapshot, inputs: seq<Input>)
    requires Pending(s.txHash)
    requires forall i :: 0 <= i < |inputs| ==> Usable(inputs[i].query) && Unsettling(inputs[i])
    ensures Run(s, inputs).txHash == s.txHash
    ensures Run(s, inputs).totalAttempts == s.totalAttempts
    decreases |inputs|
  {
    if |inputs| > 0 {
      var x := inputs[0];
      assert Usable(x.query) && Unsettling(x);
      var s' := Invoke(Some(s), x.now, x.query, x.measured, x.reply);
      assert s'.txHash == s.txHash && s'.totalAttempts == s.totalAttempts;
      assert forall i :: 0 <= i < |inputs[1..]| ==> Usable(inputs[1..][i].query) && Unsettling(inputs[1..][i]) by {
        forall i | 0 <= i < |inputs[1..]| ensures Usable(inputs[1..][i].query) && Unsettling(inputs[1..][i]) {
          assert inputs[1..][i] == inputs[i + 1];
        }
      }
      PendingHashSticks(s', inputs[1..]);
    }
  }
}
