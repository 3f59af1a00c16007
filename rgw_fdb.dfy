/** The transaction retry executor of rgw_fdb.cc: `waitError`, `checkError`,
    `createTransaction` and `run`, over the scripted client of module FdbClient.

    The `...Trace` functions are the reference definitions: they give, from the
    script alone, the calls each step makes and the code it returns. The methods
    are proved to make exactly those calls; module RgwFdbProperties proves what
    the traces promise. */
module RgwFdb {
  import opened FdbHeader
  import opened FdbClient

  datatype Option<T> = None | Some(value: T)

  /** The calls a piece of the executor makes, and the code it ends with. */
  datatype Trace = Trace(calls: seq<Call>, code: ErrorCode)

  /** One pass of `run`'s loop: it either ends the call, or resets the
      transaction and leaves `next` as the next future id. */
  datatype Pass = Stop(calls: seq<Call>, code: ErrorCode) | Retry(calls: seq<Call>, next: nat)

  /** What is counted in a log: calls that issue a future (commit and
      `on_error`), or calls that close an attempt (`on_error`). */
  datatype Counted = IssuesFuture | ClosesAttempt

  predicate Counts(f: Counted, c: Call)
  {
    match f
    case IssuesFuture => c.CommitCall? || c.OnErrorCall?
    case ClosesAttempt => c.OnErrorCall?
  }

  /** How many of the first `n` calls are counted as `f`. */
  function Count(f: Counted, calls: seq<Call>, n: nat): nat
    requires n <= |calls|
  {
    if n == 0 then 0 else Count(f, calls, n - 1) + if Counts(f, calls[n - 1]) then 1 else 0
  }

  /** How many futures `calls` issue. */
  function Issued(calls: seq<Call>): nat
  {
    Count(IssuesFuture, calls, |calls|)
  }

  /** How many `on_error` calls `calls` make, that is, how many attempts they close. */
  function Retries(calls: seq<Call>): nat
  {
    Count(ClosesAttempt, calls, |calls|)
  }

  /** `waitError`: blocks on `f`; a blocking error wins, otherwise the future's
      own error is returned. */
  function WaitError(f: Future): (e: ErrorCode)
    ensures f.reply.blockError != 0 ==> e == f.reply.blockError
    ensures f.reply.blockError == 0 ==> e == f.reply.error
    ensures e == 0 <==> f.reply.blockError == 0 && f.reply.error == 0
  {
    var blockError := f.reply.blockError;
    if blockError == 0 then f.reply.error else blockError
  }

  /** `checkError`: hands its code back; `context` is only a label. */
  function CheckError(err: ErrorCode, context: string): (e: ErrorCode)
    ensures e == err
  {
    err
  }

  /** The three calls `createTransaction` would make if none failed. */
  function SetupCalls(s: Script, tr: Handle, limit: uint64, timeout: uint64): seq<Call>
  {
    [ CreateCall(tr, s.create(tr)),
      SetOptionCall(tr, RetryLimit, limit, s.setOption(tr, RetryLimit, limit)),
      SetOptionCall(tr, Timeout, timeout, s.setOption(tr, Timeout, timeout)) ]
  }

  /** `createTransaction` on handle `tr`: create, set the retry limit, set the
      timeout; the first call that fails ends it with that call's error. */
  function CreateTrace(s: Script, tr: Handle, limit: uint64, timeout: uint64): (t: Trace)
    ensures 1 <= |t.calls| <= 3
    ensures t.calls == SetupCalls(s, tr, limit, timeout)[..|t.calls|]
    ensures forall i :: 0 <= i < |t.calls| - 1 ==> t.calls[i].err == 0
    ensures t.code == t.calls[|t.calls| - 1].err
    ensures t.code == 0 <==> |t.calls| == 3 && forall i :: 0 <= i < 3 ==> t.calls[i].err == 0
  {
    var full := SetupCalls(s, tr, limit, timeout);
    var e1 := CheckError(full[0].err, "create transaction");
    if e1 != 0 then Trace(full[..1], e1)
    else
      var e2 := CheckError(full[1].err, "set retry limit");
      if e2 != 0 then Trace(full[..2], e2)
      else
        var e3 := CheckError(full[2].err, "set time out");
        if e3 != 0 then Trace(full, e3) else Trace(full, 0)
  }

  /** Attempt `k` of `run`'s loop on `tr`, issuing futures from id `next`:
      run the operation, commit only if it succeeded, and hand any error to
      `on_error`, whose verdict decides between retrying and giving up. */
  function AttemptTrace(s: Script, op: nat -> ErrorCode, tr: Handle, k: nat, next: nat): Pass
  {
    var err := op(k);
    var commit := Future(next, s.commit(tr, k));
    var head := if err == 0 then [InvokeCall(tr, 0), CommitCall(tr, commit), FutureDestroyCall(next)] else [InvokeCall(tr, err)];
    var err' := if err == 0 then WaitError(commit) else err;
    var next' := if err == 0 then next + 1 else next;
    if err' == 0 then Stop(head, 0)
    else
      var verdict := Future(next', s.onError(tr, k, err'));
      var calls := head + [OnErrorCall(tr, err', verdict), FutureDestroyCall(next')];
      var retryE := WaitError(verdict);
      if retryE != 0 then Stop(calls, retryE) else Retry(calls, next' + 1)
  }

  /** Whether an attempt ends the loop, and with what code, does not depend
      on the ids its futures get. */
  lemma AttemptIgnoresIds(s: Script, op: nat -> ErrorCode, tr: Handle, k: nat, n1: nat, n2: nat)
    ensures AttemptTrace(s, op, tr, k, n1).Stop? <==> AttemptTrace(s, op, tr, k, n2).Stop?
    ensures AttemptTrace(s, op, tr, k, n1).Stop? ==>
              AttemptTrace(s, op, tr, k, n1).code == AttemptTrace(s, op, tr, k, n2).code
  {
  }

  /** Attempt `k` is the last one: the script makes it end the loop. Whether it
      does does not depend on future ids (AttemptIgnoresIds), so it is read
      with ids from 0. */
  ghost predicate Final(s: Script, op: nat -> ErrorCode, tr: Handle, k: nat)
  {
    AttemptTrace(s, op, tr, k, 0).Stop?
  }

  /** `run`'s loop from attempt `k` on, with at most `fuel` attempts; the
      transaction is destroyed when the loop ends. None: out of fuel. */
  function LoopTrace(s: Script, op: nat -> ErrorCode, tr: Handle, k: nat, next: nat, fuel: nat): Option<Trace>
    decreases fuel
  {
    if fuel == 0 then None
    else match AttemptTrace(s, op, tr, k, next)
      case Stop(calls, code) => Some(Trace(calls + [DestroyCall(tr)], code))
      case Retry(calls, next') =>
        match LoopTrace(s, op, tr, k + 1, next', fuel - 1)
        case None => None
        case Some(rest) => Some(Trace(calls + rest.calls, rest.code))
  }

  /** Where `run`'s loop from attempt `k`, issuing futures from id `next`,
      leaves the attempt count of `tr` and the next free future id. */
  function LoopEnd(s: Script, op: nat -> ErrorCode, tr: Handle, k: nat, next: nat, fuel: nat): (nat, nat)
    decreases fuel
  {
    if fuel == 0 then (k, next)
    else match AttemptTrace(s, op, tr, k, next)
      case Stop(calls, _) => (k + Retries(calls), next + Issued(calls))
      case Retry(_, next') => LoopEnd(s, op, tr, k + 1, next', fuel - 1)
  }

  /** The whole of `run` on the handle `tr` the create call will produce, with
      futures numbered from `next`. */
  function RunTrace(s: Script, op: nat -> ErrorCode, tr: Handle, next: nat, limit: uint64, timeout: uint64, fuel: nat): Option<Trace>
  {
    var setup := CreateTrace(s, tr, limit, timeout);
    if setup.code != 0 then Some(setup)
    else match LoopTrace(s, op, tr, 0, next, fuel)
      case None => None
      case Some(loop) => Some(Trace(setup.calls + loop.calls, loop.code))
  }

  /** `t` is what `run` does, for some number of attempts. */
  ghost predicate Produces(s: Script, op: nat -> ErrorCode, tr: Handle, next: nat, limit: uint64, timeout: uint64, t: Trace)
  {
    exists fuel: nat :: RunTrace(s, op, tr, next, limit, timeout, fuel) == Some(t)
  }

  /** `t` is what `run`'s loop does from attempt 0, and it leaves the
      transaction at attempt count `attempts` and the next free future id at
      `issued`, for some number of attempts. */
  ghost predicate LoopLeaves(s: Script, op: nat -> ErrorCode, tr: Handle, next: nat, t: Trace, attempts: nat, issued: nat)
  {
    exists fuel: nat :: LoopTrace(s, op, tr, 0, next, fuel) == Some(t) && LoopEnd(s, op, tr, 0, next, fuel) == (attempts, issued)
  }

  /** If attempt `k` is final, the loop started at any attempt `j <= k` ends
      within `k - j + 1` attempts. */
  lemma {:induction false} FinalBoundsLoop(s: Script, op: nat -> ErrorCode, tr: Handle, j: nat, k: nat, next: nat)
    requires j <= k && Final(s, op, tr, k)
    ensures LoopTrace(s, op, tr, j, next, k - j + 1).Some?
    decreases k - j
  {
    AttemptIgnoresIds(s, op, tr, j, next, 0);
    match AttemptTrace(s, op, tr, j, next)
    case Stop(_, _) =>
    case Retry(_, next') =>
      if j == k {
        assert false;
      } else {
        FinalBoundsLoop(s, op, tr, j + 1, k, next');
      }
  }

  /** LoopTrace after an attempt that ends the loop. */
  lemma LoopOnStop(s: Script, op: nat -> ErrorCode, tr: Handle, k: nat, next: nat, fuel: nat,
                   t: Trace, calls: seq<Call>, code: ErrorCode)
    requires LoopTrace(s, op, tr, k, next, fuel) == Some(t)
    requires AttemptTrace(s, op, tr, k, next) == Stop(calls, code)
    ensures t == Trace(calls + [DestroyCall(tr)], code)
  {
  }

  /** The whole loop, read off the log at either exit: the passes `done`,
      then a final pass `calls` and the destroy of the transaction. */
  lemma LoopExit(s: Script, op: nat -> ErrorCode, tr: Handle, next0: nat, fuel: nat, whole: Trace,
                 log0: seq<Call>, done: seq<Call>, k: nat, next: nat, left: nat, rest: Trace,
                 calls: seq<Call>, code: ErrorCode, attempts: nat, issued: nat)
    requires LoopTrace(s, op, tr, 0, next0, fuel) == Some(whole)
    requires whole == Trace(done + rest.calls, rest.code)
    requires LoopTrace(s, op, tr, k, next, left) == Some(rest)
    requires AttemptTrace(s, op, tr, k, next) == Stop(calls, code)
    requires LoopEnd(s, op, tr, k, next, left) == LoopEnd(s, op, tr, 0, next0, fuel)
    requires attempts == k + if code != 0 then 1 else 0
    requires issued == next + (if op(k) == 0 then 1 else 0) + (if code != 0 then 1 else 0)
    ensures var log := log0 + done + calls + [DestroyCall(tr)];
      |log0| <= |log| && log[..|log0|] == log0 &&
      LoopLeaves(s, op, tr, next0, Trace(log[|log0|..], code), attempts, issued)
  {
    LoopOnStop(s, op, tr, k, next, left, rest, calls, code);
    AppendAssoc(done, calls, [DestroyCall(tr)]);
    var log := log0 + done + calls + [DestroyCall(tr)];
    assert log == log0 + (done + calls + [DestroyCall(tr)]);
    AttemptCounts(s, op, tr, k, next);
    assert LoopEnd(s, op, tr, 0, next0, fuel) == (attempts, issued);
  }

  /** LoopTrace after an attempt that retries: the rest of the loop, one
      attempt on, with one attempt less of fuel. */
  lemma LoopOnRetry(s: Script, op: nat -> ErrorCode, tr: Handle, k: nat, next: nat, fuel: nat,
                    t: Trace, calls: seq<Call>, next': nat)
    requires LoopTrace(s, op, tr, k, next, fuel) == Some(t)
    requires AttemptTrace(s, op, tr, k, next) == Retry(calls, next')
    ensures fuel > 1
    ensures LoopTrace(s, op, tr, k + 1, next', fuel - 1) == Some(Trace(t.calls[|calls|..], t.code))
    ensures t.calls == calls + t.calls[|calls|..]
  {
    assert LoopTrace(s, op, tr, k + 1, next', fuel - 1).Some?;
  }

  /** AttemptTrace read off from what the first half of a pass observed:
      the error `e1` handed on, the calls `head` made so far and the next
      future id `next1`. */
  lemma AttemptFromSteps(s: Script, op: nat -> ErrorCode, tr: Handle, k: nat, next: nat,
                         e1: ErrorCode, head: seq<Call>, next1: nat)
    requires op(k) == 0 ==> var f := Future(next, s.commit(tr, k));
                            e1 == WaitError(f) && next1 == next + 1 &&
                            head == [InvokeCall(tr, 0), CommitCall(tr, f), FutureDestroyCall(next)]
    requires op(k) != 0 ==> e1 == op(k) && next1 == next && head == [InvokeCall(tr, op(k))]
    ensures e1 == 0 ==> AttemptTrace(s, op, tr, k, next) == Stop(head, 0)
    ensures e1 != 0 ==>
      var v := Future(next1, s.onError(tr, k, e1));
      var calls := head + [OnErrorCall(tr, e1, v), FutureDestroyCall(next1)];
      AttemptTrace(s, op, tr, k, next) ==
        if WaitError(v) != 0 then Stop(calls, WaitError(v)) else Retry(calls, next1 + 1)
  {
  }

  /** Calls appended after the first `n` do not change their count. */
  lemma {:induction false} CountPrefix(f: Counted, a: seq<Call>, b: seq<Call>, n: nat)
    requires n <= |a|
    ensures Count(f, a + b, n) == Count(f, a, n)
  {
    if n > 0 {
      CountPrefix(f, a, b, n - 1);
      assert (a + b)[n - 1] == a[n - 1];
    }
  }

  /** Counting over `a + b` counts all of `a`, then `b`. */
  lemma {:induction false} CountAppend(f: Counted, a: seq<Call>, b: seq<Call>, m: nat)
    requires m <= |b|
    ensures Count(f, a + b, |a| + m) == Count(f, a, |a|) + Count(f, b, m)
  {
    if m == 0 {
      CountPrefix(f, a, b, |a|);
    } else {
      CountAppend(f, a, b, m - 1);
      assert (a + b)[|a| + m - 1] == b[m - 1];
    }
  }

  /** Nothing is counted among calls none of which satisfies `f`. */
  lemma {:induction false} CountNone(f: Counted, calls: seq<Call>, n: nat)
    requires n <= |calls| && forall i :: 0 <= i < n ==> !Counts(f, calls[i])
    ensures Count(f, calls, n) == 0
  {
    if n > 0 {
      CountNone(f, calls, n - 1);
    }
  }

  /** The counts add up over concatenation. */
  lemma CountsAppend(a: seq<Call>, b: seq<Call>)
    ensures Issued(a + b) == Issued(a) + Issued(b)
    ensures Retries(a + b) == Retries(a) + Retries(b)
  {
    CountAppend(IssuesFuture, a, b, |b|);
    CountAppend(ClosesAttempt, a, b, |b|);
  }

  /** The counts grow by what one more call adds. */
  lemma CountsPush(a: seq<Call>, c: Call)
    ensures Issued(a + [c]) == Issued(a) + if Counts(IssuesFuture, c) then 1 else 0
    ensures Retries(a + [c]) == Retries(a) + if Counts(ClosesAttempt, c) then 1 else 0
  {
    CountsAppend(a, [c]);
    assert [c][0] == c;
    assert Count(IssuesFuture, [c], 0) == 0 && Count(ClosesAttempt, [c], 0) == 0;
  }

  /** Create and set-option calls issue no future and close no attempt. */
  lemma SetupCounts(calls: seq<Call>)
    requires forall i :: 0 <= i < |calls| ==> calls[i].CreateCall? || calls[i].SetOptionCall?
    ensures Issued(calls) == 0 && Retries(calls) == 0
  {
    CountNone(IssuesFuture, calls, |calls|);
    CountNone(ClosesAttempt, calls, |calls|);
  }

  /** One attempt issues a future for its commit, if the operation succeeded,
      and one for its `on_error` call, if there was an error; only the latter
      closes the attempt. A retry leaves the next free id after them. */
  lemma AttemptCounts(s: Script, op: nat -> ErrorCode, tr: Handle, k: nat, next: nat)
    ensures var p := AttemptTrace(s, op, tr, k, next);
      var failed := p.Retry? || p.code != 0;
      && Issued(p.calls) == (if op(k) == 0 then 1 else 0) + (if failed then 1 else 0)
      && Retries(p.calls) == (if failed then 1 else 0)
      && (p.Retry? ==> p.next == next + Issued(p.calls))
  {
    var err := op(k);
    var commit := Future(next, s.commit(tr, k));
    var head := if err == 0 then [InvokeCall(tr, 0), CommitCall(tr, commit), FutureDestroyCall(next)] else [InvokeCall(tr, err)];
    HeadCounts(tr, err, commit, next);
    var err' := if err == 0 then WaitError(commit) else err;
    var next' := if err == 0 then next + 1 else next;
    if err' != 0 {
      var verdict := Future(next', s.onError(tr, k, err'));
      OnErrorCounts(head, tr, err', verdict);
    }
  }

  /** The first half of a pass: the operation, then the commit and the
      destroy of its future when the operation returned 0. */
  lemma HeadCounts(tr: Handle, err: ErrorCode, commit: Future, next: nat)
    ensures var head := if err == 0 then [InvokeCall(tr, 0), CommitCall(tr, commit), FutureDestroyCall(next)] else [InvokeCall(tr, err)];
      Issued(head) == (if err == 0 then 1 else 0) && Retries(head) == 0
  {
    CountsPush([], InvokeCall(tr, err));
    assert [InvokeCall(tr, err)] == [] + [InvokeCall(tr, err)];
    if err == 0 {
      CountsPush([InvokeCall(tr, 0)], CommitCall(tr, commit));
      assert [InvokeCall(tr, 0)] + [CommitCall(tr, commit)] == [InvokeCall(tr, 0), CommitCall(tr, commit)];
      CountsPush([InvokeCall(tr, 0), CommitCall(tr, commit)], FutureDestroyCall(next));
      assert [InvokeCall(tr, 0), CommitCall(tr, commit), FutureDestroyCall(next)] ==
             [InvokeCall(tr, 0), CommitCall(tr, commit)] + [FutureDestroyCall(next)];
    }
  }

  /** The second half of a pass: `on_error` and the destroy of its future. */
  lemma OnErrorCounts(head: seq<Call>, tr: Handle, err: ErrorCode, verdict: Future)
    ensures Issued(head + [OnErrorCall(tr, err, verdict), FutureDestroyCall(verdict.id)]) == Issued(head) + 1
    ensures Retries(head + [OnErrorCall(tr, err, verdict), FutureDestroyCall(verdict.id)]) == Retries(head) + 1
  {
    CountsPush(head, OnErrorCall(tr, err, verdict));
    CountsPush(head + [OnErrorCall(tr, err, verdict)], FutureDestroyCall(verdict.id));
    assert head + [OnErrorCall(tr, err, verdict), FutureDestroyCall(verdict.id)] ==
           head + [OnErrorCall(tr, err, verdict)] + [FutureDestroyCall(verdict.id)];
  }

  /** The loop's calls account for where it leaves the attempt count and
      the next free future id: one attempt closed per `on_error` call, one
      id per commit or `on_error` call. */
  lemma {:induction false} LoopEndCounts(s: Script, op: nat -> ErrorCode, tr: Handle, k: nat, next: nat, fuel: nat, t: Trace)
    requires LoopTrace(s, op, tr, k, next, fuel) == Some(t)
    ensures LoopEnd(s, op, tr, k, next, fuel) == (k + Retries(t.calls), next + Issued(t.calls))
    decreases fuel
  {
    AttemptCounts(s, op, tr, k, next);
    match AttemptTrace(s, op, tr, k, next)
    case Stop(calls, _) =>
      CountsPush(calls, DestroyCall(tr));
    case Retry(calls, next') =>
      var rest := LoopTrace(s, op, tr, k + 1, next', fuel - 1).value;
      LoopEndCounts(s, op, tr, k + 1, next', fuel - 1, rest);
      CountsAppend(calls, rest.calls);
  }

  /** Where the loop leaves the attempt count and the next free future id,
      read off the calls it made. */
  lemma LoopLeavesCounts(s: Script, op: nat -> ErrorCode, tr: Handle, next: nat, t: Trace, attempts: nat, issued: nat)
    requires LoopLeaves(s, op, tr, next, t, attempts, issued)
    ensures attempts == Retries(t.calls) && issued == next + Issued(t.calls)
  {
    var fuel: nat :| LoopTrace(s, op, tr, 0, next, fuel) == Some(t) && LoopEnd(s, op, tr, 0, next, fuel) == (attempts, issued);
    LoopEndCounts(s, op, tr, 0, next, fuel, t);
  }

  /** `run` when set-up fails: set-up is all it does, and its calls issue
      no future and close no attempt. */
  lemma RunOnSetupFailure(s: Script, op: nat -> ErrorCode, tr: Handle, next: nat, limit: uint64, timeout: uint64)
    requires CreateTrace(s, tr, limit, timeout).code != 0
    ensures var setup := CreateTrace(s, tr, limit, timeout);
      Produces(s, op, tr, next, limit, timeout, setup) && Issued(setup.calls) == 0 && Retries(setup.calls) == 0
  {
    var setup := CreateTrace(s, tr, limit, timeout);
    assert forall i :: 0 <= i < |setup.calls| ==> setup.calls[i] == SetupCalls(s, tr, limit, timeout)[i];
    SetupCounts(setup.calls);
    assert RunTrace(s, op, tr, next, limit, timeout, 0) == Some(setup);
  }

  /** `run` after a successful set-up: the set-up calls, then the loop's; the
      counts are the loop's, since set-up issues no future. */
  lemma RunOnLoop(s: Script, op: nat -> ErrorCode, tr: Handle, next: nat, limit: uint64, timeout: uint64,
                  loop: Trace, attempts: nat, issued: nat)
    requires CreateTrace(s, tr, limit, timeout).code == 0
    requires LoopLeaves(s, op, tr, next, loop, attempts, issued)
    ensures var calls := CreateTrace(s, tr, limit, timeout).calls + loop.calls;
      && Produces(s, op, tr, next, limit, timeout, Trace(calls, loop.code))
      && attempts == Retries(calls) && issued == next + Issued(calls)
  {
    var setup := CreateTrace(s, tr, limit, timeout);
    var fuel: nat :| LoopTrace(s, op, tr, 0, next, fuel) == Some(loop) && LoopEnd(s, op, tr, 0, next, fuel) == (attempts, issued);
    assert RunTrace(s, op, tr, next, limit, timeout, fuel) == Some(Trace(setup.calls + loop.calls, loop.code));
    assert forall i :: 0 <= i < |setup.calls| ==> setup.calls[i] == SetupCalls(s, tr, limit, timeout)[i];
    SetupCounts(setup.calls);
    LoopLeavesCounts(s, op, tr, next, loop, attempts, issued);
    CountsAppend(setup.calls, loop.calls);
  }

  /** A log that grew from `log0` by `a` and then by more calls. */
  lemma LogSplit(log0: seq<Call>, a: seq<Call>, log1: seq<Call>, log: seq<Call>)
    requires log1 == log0 + a && |log1| <= |log| && log[..|log1|] == log1
    ensures log == log0 + (a + log[|log1|..]) && log[|log0|..] == a + log[|log1|..]
  {
    assert log == log1 + log[|log1|..];
  }

  lemma AppendAssoc(a: seq<Call>, b: seq<Call>, c: seq<Call>)
    ensures (a + b) + c == a + (b + c)
  {
  }

  /** `createTransaction`. */
  method CreateTransaction(db: Client, limit: uint64, timeout: uint64) returns (err: ErrorCode, tr: Handle)
    requires db.Valid()
    modifies db
    ensures db.Valid()
    ensures tr == old(db.created) && db.created == tr + 1
    ensures db.log == old(db.log) + CreateTrace(db.script, tr, limit, timeout).calls
    ensures err == CreateTrace(db.script, tr, limit, timeout).code
    ensures db.live == if db.script.create(tr) == 0 then old(db.live) + {tr} else old(db.live)
    ensures db.attempts == if db.script.create(tr) == 0 then old(db.attempts)[tr := 0] else old(db.attempts)
    ensures db.issued == old(db.issued) && db.pending == old(db.pending)
  {
    var createErr;
    createErr, tr := db.DatabaseCreateTransaction();
    err := CheckError(createErr, "create transaction");
    if err != 0 {
      return;
    }

    err := db.TransactionSetOption(tr, RetryLimit, limit);
    err := CheckError(err, "set retry limit");
    if err != 0 {
      return;
    }

    err := db.TransactionSetOption(tr, Timeout, timeout);
    err := CheckError(err, "set time out");
    if err != 0 {
      return;
    }

    err := 0;
  }

  /** One pass of `run`'s loop, up to the store's verdict: run the operation
      on `tr`; only if it succeeded, commit and wait for the commit; on any
      error, ask `on_error` to classify it (which resets `tr` for the next
      attempt) and wait for the verdict `retryE`. */
  method Attempt(db: Client, op: nat -> ErrorCode, tr: Handle) returns (err: ErrorCode, retryE: ErrorCode)
    requires db.Valid() && tr in db.live
    modifies db`log, db`issued, db`pending, db`attempts
    ensures db.Valid() && db.pending == old(db.pending) && tr in db.attempts
    ensures |old(db.log)| <= |db.log| && db.log == old(db.log) + db.log[|old(db.log)|..]
    ensures var k := old(db.attempts)[tr];
      err == if op(k) == 0 then WaitError(Future(old(db.issued), db.script.commit(tr, k))) else op(k)
    ensures db.attempts == old(db.attempts)[tr := old(db.attempts)[tr] + if err == 0 then 0 else 1]
    ensures db.issued == old(db.issued) + (if op(old(db.attempts)[tr]) == 0 then 1 else 0) + (if err != 0 then 1 else 0)
    ensures AttemptTrace(db.script, op, tr, old(db.attempts)[tr], old(db.issued)) ==
              if err == 0 then Stop(db.log[|old(db.log)|..], 0)
              else if retryE != 0 then Stop(db.log[|old(db.log)|..], retryE)
              else Retry(db.log[|old(db.log)|..], db.issued)
  {
    ghost var k, next, log0 := db.attempts[tr], db.issued, db.log;
    err := db.Invoke(op, tr);
    ghost var head := [InvokeCall(tr, err)];

    if err == 0 {
      var f := db.TransactionCommit(tr);
      err := WaitError(f);
      db.FutureDestroy(f);
      head := head + [CommitCall(tr, f), FutureDestroyCall(f.id)];
    }
    assert db.log == log0 + head;
    AttemptFromSteps(db.script, op, tr, k, next, err, head, db.issued);

    retryE := 0;
    if err != 0 {
      var f := db.TransactionOnError(tr, err);
      retryE := WaitError(f);
      db.FutureDestroy(f);
      assert db.log == log0 + (head + [OnErrorCall(tr, err, f), FutureDestroyCall(f.id)]);
    }
  }

  /** The loop and the exits of `run`: runs passes on `tr` until the store's
      `on_error` classification gives up or a commit succeeds, then destroys
      `tr`. The loop has no bound of its own, so the call requires the script
      to make some attempt final. */
  method RetryLoop(db: Client, op: nat -> ErrorCode, tr: Handle) returns (code: ErrorCode)
    requires db.Valid() && tr in db.live && db.attempts[tr] == 0
    requires exists k: nat :: Final(db.script, op, tr, k)
    modifies db`log, db`issued, db`pending, db`attempts, db`live
    ensures db.Valid() && db.pending == old(db.pending) && db.live == old(db.live) - {tr}
    ensures |old(db.log)| <= |db.log| && db.log[..|old(db.log)|] == old(db.log)
    ensures tr in db.attempts &&
            LoopLeaves(db.script, op, tr, old(db.issued), Trace(db.log[|old(db.log)|..], code), db.attempts[tr], db.issued)
    ensures forall h :: h in old(db.attempts) && h != tr ==> h in db.attempts && db.attempts[h] == old(db.attempts)[h]
    ensures db.attempts.Keys == old(db.attempts).Keys
  {
    ghost var log0, next0, s, att0 := db.log, db.issued, db.script, db.attempts;
    ghost var last: nat :| Final(s, op, tr, last);
    FinalBoundsLoop(s, op, tr, 0, last, next0);
    ghost var fuel: nat := last + 1;
    ghost var whole := LoopTrace(s, op, tr, 0, next0, fuel).value;
    ghost var k: nat, left: nat, done, rest := 0, fuel, [], whole;
    ghost var final: seq<Call>, lastNext: nat;

    while true
      invariant db.Valid() && tr in db.live && tr in db.attempts && db.attempts[tr] == k
      invariant forall h :: h in att0 && h != tr ==> h in db.attempts && db.attempts[h] == att0[h]
      invariant db.attempts.Keys == att0.Keys
      invariant db.pending == old(db.pending) && db.live == old(db.live)
      invariant LoopEnd(s, op, tr, k, db.issued, left) == LoopEnd(s, op, tr, 0, next0, fuel)
      invariant LoopTrace(s, op, tr, k, db.issued, left) == Some(rest)
      invariant db.log == log0 + done
      invariant whole == Trace(done + rest.calls, rest.code)
      decreases left
    {
      ghost var nextK, logK := db.issued, db.log;
      var err, retryE := Attempt(db, op, tr);
      ghost var calls := db.log[|logK|..];

      if err != 0 {
        if retryE != 0 {
          db.TransactionDestroy(tr);
          LoopExit(s, op, tr, next0, fuel, whole, log0, done, k, nextK, left, rest, calls, retryE, db.attempts[tr], db.issued);
          return retryE;
        } else {
          LoopOnRetry(s, op, tr, k, nextK, left, rest, calls, db.issued);
          ghost var rest' := Trace(rest.calls[|calls|..], rest.code);
          assert LoopTrace(s, op, tr, k + 1, db.issued, left - 1) == Some(rest');
          AppendAssoc(done, calls, rest'.calls);
          AppendAssoc(log0, done, calls);
          k, left, done, rest := k + 1, left - 1, done + calls, rest';
          continue;
        }
      }
      final, lastNext := calls, nextK;
      break;
    }

    db.TransactionDestroy(tr);
    LoopExit(s, op, tr, next0, fuel, whole, log0, done, k, lastNext, left, rest, final, 0, db.attempts[tr], db.issued);
    return 0;
  }

  /** `run`: creates and sets up a transaction, returning the first error of
      that; otherwise runs the retry loop on it. */
  method Run(db: Client, op: nat -> ErrorCode, retryLimit: uint64 := MAX_RETEY, timeout: uint64 := MAX_TIMEOUT)
    returns (r: RunResult)
    requires db.Valid()
    requires CreateTrace(db.script, db.created, retryLimit, timeout).code == 0 ==>
               exists k: nat :: Final(db.script, op, db.created, k)
    modifies db
    ensures db.Valid()
    ensures |old(db.log)| <= |db.log| && db.log[..|old(db.log)|] == old(db.log)
    ensures Produces(db.script, op, old(db.created), old(db.issued), retryLimit, timeout,
                     Trace(db.log[|old(db.log)|..], r.errCode))
    ensures r == NewRunResult(r.errCode, db.script.getError)
    ensures db.created == old(db.created) + 1 && db.pending == old(db.pending)
    ensures db.live == if db.script.create(old(db.created)) == 0 && CreateTrace(db.script, old(db.created), retryLimit, timeout).code != 0
                       then old(db.live) + {old(db.created)} else old(db.live)
    ensures db.issued == old(db.issued) + Issued(db.log[|old(db.log)|..])
    ensures db.attempts.Keys == if db.script.create(old(db.created)) == 0 then old(db.attempts).Keys + {old(db.created)} else old(db.attempts).Keys
    ensures db.script.create(old(db.created)) == 0 ==> db.attempts[old(db.created)] == Retries(db.log[|old(db.log)|..])
    ensures forall h :: h in old(db.attempts) && h != old(db.created) ==> db.attempts[h] == old(db.attempts)[h]
  {
    ghost var log0, next0 := db.log, db.issued;
    var err, tr := CreateTransaction(db, retryLimit, timeout);
    ghost var setup := CreateTrace(db.script, tr, retryLimit, timeout);

    if err != 0 {
      RunOnSetupFailure(db.script, op, tr, next0, retryLimit, timeout);
      assert db.log[|log0|..] == setup.calls;
      return NewRunResult(err, db.script.getError);
    }

    ghost var log1 := db.log;
    err := RetryLoop(db, op, tr);
    ghost var loop := Trace(db.log[|log1|..], err);
    RunOnLoop(db.script, op, tr, next0, retryLimit, timeout, loop, db.attempts[tr], db.issued);
    LogSplit(log0, setup.calls, log1, db.log);
    return NewRunResult(err, db.script.getError);
  }
}
