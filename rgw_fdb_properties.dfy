/** What `run` promises, proved of its reference trace (RgwFdb.RunTrace), which
    RgwFdb.Run is proved to follow. */
module RgwFdbProperties {
  import opened FdbHeader
  import opened FdbClient
  import opened RgwFdb

  /** A call made on transaction `tr` while it is in use: running the
      operation, committing, classifying an error, or destroying a future. */
  ghost predicate OnHandle(c: Call, tr: Handle)
  {
    match c
    case InvokeCall(t, _) => t == tr
    case CommitCall(t, _) => t == tr
    case OnErrorCall(t, _, _) => t == tr
    case FutureDestroyCall(_) => true
    case _ => false
  }

  /** What must come after call `i` of `calls` in `run`'s loop on `tr`:
      - the operation succeeded: a commit on `tr`;
      - the operation failed: `on_error` on `tr` with that same error;
      - a commit or `on_error` call: its future is destroyed at once; then,
        for a commit that succeeded or a fatal verdict, `tr` is destroyed
        and nothing follows; for a failed commit, `on_error` on `tr` with
        the commit's error; for a verdict of 0, the operation runs again on `tr`. */
  ghost predicate Follows(calls: seq<Call>, tr: Handle, i: nat)
    requires i < |calls|
  {
    match calls[i]
    case InvokeCall(_, e) =>
      && i + 1 < |calls|
      && if e == 0 then calls[i + 1].CommitCall? && calls[i + 1].tr == tr
         else calls[i + 1].OnErrorCall? && calls[i + 1].tr == tr && calls[i + 1].err == e
    case CommitCall(_, f) =>
      && i + 2 < |calls| && calls[i + 1] == FutureDestroyCall(f.id)
      && if WaitError(f) == 0 then calls[i + 2] == DestroyCall(tr) && i + 3 == |calls|
         else calls[i + 2].OnErrorCall? && calls[i + 2].tr == tr && calls[i + 2].err == WaitError(f)
    case OnErrorCall(_, _, g) =>
      && i + 2 < |calls| && calls[i + 1] == FutureDestroyCall(g.id)
      && if WaitError(g) != 0 then calls[i + 2] == DestroyCall(tr) && i + 3 == |calls|
         else calls[i + 2].InvokeCall? && calls[i + 2].tr == tr
    case _ => true
  }

  /** Call `i` of the loop's calls on `tr` is in place: it is followed as
      Follows says, it works on `tr` unless it is the last call, and if it is
      a commit, the operation returned 0 on `tr` just before. */
  ghost predicate InPlace(calls: seq<Call>, tr: Handle, i: nat)
    requires i < |calls|
  {
    && Follows(calls, tr, i)
    && (i + 1 < |calls| ==> OnHandle(calls[i], tr))
    && (calls[i].CommitCall? ==> 0 < i && calls[i - 1] == InvokeCall(tr, 0))
  }

  /** The calls of `run`'s loop on `tr`, from its first pass to the end. */
  ghost predicate LoopProtocol(calls: seq<Call>, tr: Handle)
  {
    && 2 <= |calls|
    && calls[0].InvokeCall? && calls[0].tr == tr
    && calls[|calls| - 1] == DestroyCall(tr)
    && forall i :: 0 <= i < |calls| ==> InPlace(calls, tr, i)
  }

  /** The calls one attempt makes, spelled out case by case. */
  lemma AttemptCases(s: Script, op: nat -> ErrorCode, tr: Handle, k: nat, next: nat)
    ensures var p := AttemptTrace(s, op, tr, k, next);
      var f := Future(next, s.commit(tr, k));
      var e := WaitError(f);
      op(k) == 0 && e == 0 ==> p == Stop([InvokeCall(tr, 0), CommitCall(tr, f), FutureDestroyCall(next)], 0)
    ensures var p := AttemptTrace(s, op, tr, k, next);
      var f := Future(next, s.commit(tr, k));
      var e := WaitError(f);
      var g := Future(next + 1, s.onError(tr, k, e));
      op(k) == 0 && e != 0 ==>
        && p.calls == [InvokeCall(tr, 0), CommitCall(tr, f), FutureDestroyCall(next), OnErrorCall(tr, e, g), FutureDestroyCall(next + 1)]
        && p == if WaitError(g) != 0 then Stop(p.calls, WaitError(g)) else Retry(p.calls, next + 2)
    ensures var p := AttemptTrace(s, op, tr, k, next);
      var g := Future(next, s.onError(tr, k, op(k)));
      op(k) != 0 ==>
        && p.calls == [InvokeCall(tr, op(k)), OnErrorCall(tr, op(k), g), FutureDestroyCall(next)]
        && p == if WaitError(g) != 0 then Stop(p.calls, WaitError(g)) else Retry(p.calls, next + 1)
  {
  }

  /** The calls of one attempt are in place, whatever follows them: the
      transaction's destruction after a final attempt, another pass on
      `tr` after a retry. */
  lemma AttemptInPlace(s: Script, op: nat -> ErrorCode, tr: Handle, k: nat, next: nat, c: seq<Call>)
    requires AttemptTrace(s, op, tr, k, next).Stop? ==> c == [DestroyCall(tr)]
    requires AttemptTrace(s, op, tr, k, next).Retry? ==> 0 < |c| && c[0].InvokeCall? && c[0].tr == tr
    ensures var a := AttemptTrace(s, op, tr, k, next).calls;
      forall i :: 0 <= i < |a| ==> InPlace(a + c, tr, i)
  {
    AttemptCases(s, op, tr, k, next);
    var a := AttemptTrace(s, op, tr, k, next).calls;
    forall i | 0 <= i < |a|
      ensures InPlace(a + c, tr, i)
    {
      assert (a + c)[|a|] == c[0];
    }
  }

  /** Calls in place stay in place behind any prefix. */
  lemma InPlaceShift(a: seq<Call>, r: seq<Call>, tr: Handle, j: nat)
    requires j < |r| && InPlace(r, tr, j)
    ensures InPlace(a + r, tr, |a| + j)
  {
    var i := |a| + j;
    assert (a + r)[i] == r[j];
    if j + 1 < |r| { assert (a + r)[i + 1] == r[j + 1]; }
    if j + 2 < |r| { assert (a + r)[i + 2] == r[j + 2]; }
    if 0 < j { assert (a + r)[i - 1] == r[j - 1]; }
  }

  /** A prefix whose calls are in place, before calls in place. */
  lemma ConcatInPlace(a: seq<Call>, r: seq<Call>, tr: Handle)
    requires forall i :: 0 <= i < |a| ==> InPlace(a + r, tr, i)
    requires forall j :: 0 <= j < |r| ==> InPlace(r, tr, j)
    ensures forall i :: 0 <= i < |a + r| ==> InPlace(a + r, tr, i)
  {
    forall i | |a| <= i < |a + r|
      ensures InPlace(a + r, tr, i)
    {
      InPlaceShift(a, r, tr, i - |a|);
    }
  }

  /** Every pass and the end of the loop follow the protocol. */
  lemma {:induction false} LoopFollowsProtocol(s: Script, op: nat -> ErrorCode, tr: Handle, k: nat, next: nat, fuel: nat, t: Trace)
    requires LoopTrace(s, op, tr, k, next, fuel) == Some(t)
    ensures LoopProtocol(t.calls, tr)
    decreases fuel
  {
    match AttemptTrace(s, op, tr, k, next)
    case Stop(a, code) =>
      LoopOnStop(s, op, tr, k, next, fuel, t, a, code);
      AttemptInPlace(s, op, tr, k, next, [DestroyCall(tr)]);
      AttemptCases(s, op, tr, k, next);
    case Retry(a, next') =>
      LoopOnRetry(s, op, tr, k, next, fuel, t, a, next');
      var r := LoopTrace(s, op, tr, k + 1, next', fuel - 1).value;
      LoopFollowsProtocol(s, op, tr, k + 1, next', fuel - 1, r);
      AttemptInPlace(s, op, tr, k, next, r.calls);
      AttemptCases(s, op, tr, k, next);
      ConcatInPlace(a, r.calls, tr);
  }

  /** `calls` end as `run`'s loop on `tr` ends with `code`: 0 exactly when
      the operation, then its commit, reported no error; otherwise the
      verdict of the last `on_error` call, which got a non-zero error. */
  ghost predicate EndsAs(calls: seq<Call>, tr: Handle, code: ErrorCode)
  {
    var n := |calls|;
    && (code == 0 <==>
          && 4 <= n && calls[n - 4] == InvokeCall(tr, 0) && calls[n - 3].CommitCall?
          && WaitError(calls[n - 3].future) == 0)
    && (code != 0 ==>
          && 3 <= n && calls[n - 3].OnErrorCall? && calls[n - 3].err != 0
          && code == WaitError(calls[n - 3].future))
  }

  /** A final attempt, followed by the transaction's destruction, ends as
      the loop does. */
  lemma AttemptEnding(s: Script, op: nat -> ErrorCode, tr: Handle, k: nat, next: nat)
    requires AttemptTrace(s, op, tr, k, next).Stop?
    ensures var p := AttemptTrace(s, op, tr, k, next);
      EndsAs(p.calls + [DestroyCall(tr)], tr, p.code)
  {
    AttemptCases(s, op, tr, k, next);
  }

  /** How calls end does not change with a prefix. */
  lemma EndsAsAfterPrefix(a: seq<Call>, r: seq<Call>, tr: Handle, code: ErrorCode)
    requires EndsAs(r, tr, code)
    ensures EndsAs(a + r, tr, code)
  {
    var n, m := |a + r|, |r|;
    assert (a + r)[n - 3] == r[m - 3];
    if code == 0 {
      assert (a + r)[n - 4] == r[m - 4];
    }
  }

  /** How the loop ends: `run` returns 0 exactly when the last pass ran the
      operation, committed and the commit reported no error; otherwise it
      returns the verdict of the last `on_error` call, which got a non-zero
      error, and not that error itself. */
  lemma {:induction false} LoopEnding(s: Script, op: nat -> ErrorCode, tr: Handle, k: nat, next: nat, fuel: nat, t: Trace)
    requires LoopTrace(s, op, tr, k, next, fuel) == Some(t)
    ensures EndsAs(t.calls, tr, t.code)
    decreases fuel
  {
    match AttemptTrace(s, op, tr, k, next)
    case Stop(a, code) =>
      LoopOnStop(s, op, tr, k, next, fuel, t, a, code);
      AttemptEnding(s, op, tr, k, next);
    case Retry(a, next') =>
      LoopOnRetry(s, op, tr, k, next, fuel, t, a, next');
      var r := LoopTrace(s, op, tr, k + 1, next', fuel - 1).value;
      LoopEnding(s, op, tr, k + 1, next', fuel - 1, r);
      EndsAsAfterPrefix(a, r.calls, tr, r.code);
  }

  /** The ids of the futures issued, and of those destroyed, in `calls` are
      at least `lo`. */
  ghost predicate IdsFrom(calls: seq<Call>, lo: int)
  {
    && (forall i :: 0 <= i < |calls| && (calls[i].CommitCall? || calls[i].OnErrorCall?) ==> lo <= calls[i].future.id)
    && (forall i :: 0 <= i < |calls| && calls[i].FutureDestroyCall? ==> lo <= calls[i].id)
  }

  /** The ids of the futures issued, and of those destroyed, in `calls` are
      below `hi`. */
  ghost predicate IdsBelow(calls: seq<Call>, hi: int)
  {
    && (forall i :: 0 <= i < |calls| && (calls[i].CommitCall? || calls[i].OnErrorCall?) ==> calls[i].future.id < hi)
    && (forall i :: 0 <= i < |calls| && calls[i].FutureDestroyCall? ==> calls[i].id < hi)
  }

  /** A future issued in `calls` is destroyed there, if at all, only by the
      call right after the one that issued it. */
  ghost predicate DestroyedOnce(calls: seq<Call>)
  {
    forall i, j ::
      (0 <= i < |calls| && 0 <= j < |calls| && (calls[i].CommitCall? || calls[i].OnErrorCall?) &&
       calls[j] == FutureDestroyCall(calls[i].future.id)) ==> j == i + 1
  }

  /** One attempt issues futures from `next` on, below the id it leaves
      for the next attempt, and destroys each of them once. */
  lemma AttemptFutures(s: Script, op: nat -> ErrorCode, tr: Handle, k: nat, next: nat)
    ensures var p := AttemptTrace(s, op, tr, k, next);
      && DestroyedOnce(p.calls) && IdsFrom(p.calls, next)
      && (p.Retry? ==> next <= p.next && IdsBelow(p.calls, p.next))
  {
    AttemptCases(s, op, tr, k, next);
  }

  /** Calls whose futures are destroyed once, before calls with higher ids
      whose futures are destroyed once. */
  lemma ConcatFutures(a: seq<Call>, r: seq<Call>, lo: int, hi: int)
    requires lo <= hi
    requires DestroyedOnce(a) && IdsFrom(a, lo) && IdsBelow(a, hi)
    requires DestroyedOnce(r) && IdsFrom(r, hi)
    ensures DestroyedOnce(a + r) && IdsFrom(a + r, lo)
  {
    var c := a + r;
    forall i, j | 0 <= i < |c| && 0 <= j < |c| && (c[i].CommitCall? || c[i].OnErrorCall?) &&
                  c[j] == FutureDestroyCall(c[i].future.id)
      ensures j == i + 1
    {
      if i >= |a| {
        assert c[i] == r[i - |a|];
        if j >= |a| {
          assert c[j] == r[j - |a|];
        }
      }
    }
  }

  /** The loop started at `next` issues futures from `next` on and destroys
      each of them exactly once. */
  lemma {:induction false} LoopFutures(s: Script, op: nat -> ErrorCode, tr: Handle, k: nat, next: nat, fuel: nat, t: Trace)
    requires LoopTrace(s, op, tr, k, next, fuel) == Some(t)
    ensures IdsFrom(t.calls, next) && DestroyedOnce(t.calls)
    decreases fuel
  {
    AttemptFutures(s, op, tr, k, next);
    match AttemptTrace(s, op, tr, k, next)
    case Stop(a, code) =>
      LoopOnStop(s, op, tr, k, next, fuel, t, a, code);
      ConcatFutures(a, [DestroyCall(tr)], next, next + 2);
    case Retry(a, next') =>
      LoopOnRetry(s, op, tr, k, next, fuel, t, a, next');
      var r := LoopTrace(s, op, tr, k + 1, next', fuel - 1).value;
      LoopFutures(s, op, tr, k + 1, next', fuel - 1, r);
      ConcatFutures(a, r.calls, next, next');
  }

  /** The loop's trace does not depend on how much fuel it was given. */
  lemma {:induction false} LoopDeterministic(s: Script, op: nat -> ErrorCode, tr: Handle, k: nat, next: nat, f1: nat, f2: nat)
    requires LoopTrace(s, op, tr, k, next, f1).Some? && LoopTrace(s, op, tr, k, next, f2).Some?
    ensures LoopTrace(s, op, tr, k, next, f1) == LoopTrace(s, op, tr, k, next, f2)
    decreases f1
  {
    match AttemptTrace(s, op, tr, k, next)
    case Stop(_, _) =>
    case Retry(_, next') =>
      LoopDeterministic(s, op, tr, k + 1, next', f1 - 1, f2 - 1);
  }

  // ---------------------------------------------------------------------
  // The whole of `run`.

  /** After a successful set-up, `run`'s calls are the three set-up calls
      followed by the loop's. */
  lemma RunSplit(s: Script, op: nat -> ErrorCode, tr: Handle, next: nat, limit: uint64, timeout: uint64, fuel: nat, t: Trace)
    requires RunTrace(s, op, tr, next, limit, timeout, fuel) == Some(t)
    requires CreateTrace(s, tr, limit, timeout).code == 0
    ensures LoopTrace(s, op, tr, 0, next, fuel).Some?
    ensures t == Trace(SetupCalls(s, tr, limit, timeout) + LoopTrace(s, op, tr, 0, next, fuel).value.calls,
                       LoopTrace(s, op, tr, 0, next, fuel).value.code)
  {
  }

  /** If `createTransaction` fails, `run` returns its error and makes no call
      but the create and set-option calls: no operation, commit, `on_error`
      or destroy, even when the transaction had been created. */
  lemma RunSetupFailure(s: Script, op: nat -> ErrorCode, tr: Handle, next: nat, limit: uint64, timeout: uint64, fuel: nat)
    requires CreateTrace(s, tr, limit, timeout).code != 0
    ensures RunTrace(s, op, tr, next, limit, timeout, fuel) == Some(CreateTrace(s, tr, limit, timeout))
    ensures var t := RunTrace(s, op, tr, next, limit, timeout, fuel).value;
      && t.code == CreateTrace(s, tr, limit, timeout).code && |t.calls| <= 3
      && forall i :: 0 <= i < |t.calls| ==> t.calls[i].CreateCall? || t.calls[i].SetOptionCall?
  {
    var t := CreateTrace(s, tr, limit, timeout);
    forall i | 0 <= i < |t.calls|
      ensures t.calls[i].CreateCall? || t.calls[i].SetOptionCall?
    {
      assert t.calls[i] == SetupCalls(s, tr, limit, timeout)[i];
    }
  }

  /** Once the transaction is set up, `run` creates no other transaction and
      destroys `tr` exactly once, as its very last call; every call in
      between works on `tr` and is in place: a commit only right after the
      operation returned 0, every error handed to `on_error`, every future
      destroyed right after it is waited on, and a verdict of 0 followed by
      the operation again on the same `tr`. */
  lemma RunHandleLifecycle(s: Script, op: nat -> ErrorCode, tr: Handle, next: nat, limit: uint64, timeout: uint64, fuel: nat, t: Trace)
    requires RunTrace(s, op, tr, next, limit, timeout, fuel) == Some(t)
    requires CreateTrace(s, tr, limit, timeout).code == 0
    ensures 7 <= |t.calls| && t.calls[..3] == SetupCalls(s, tr, limit, timeout)
    ensures forall i :: 0 <= i < 3 ==> t.calls[i].CreateCall? || t.calls[i].SetOptionCall?
    ensures t.calls[0] == CreateCall(tr, 0) && t.calls[|t.calls| - 1] == DestroyCall(tr)
    ensures forall i :: 0 <= i < |t.calls| && t.calls[i].CreateCall? ==> i == 0
    ensures forall i :: 0 <= i < |t.calls| && t.calls[i].DestroyCall? ==> i == |t.calls| - 1
    ensures forall i :: 3 <= i < |t.calls| ==> InPlace(t.calls, tr, i)
  {
    RunSplit(s, op, tr, next, limit, timeout, fuel, t);
    var setup := SetupCalls(s, tr, limit, timeout);
    var loop := LoopTrace(s, op, tr, 0, next, fuel).value.calls;
    LoopFollowsProtocol(s, op, tr, 0, next, fuel, LoopTrace(s, op, tr, 0, next, fuel).value);
    assert InPlace(loop, tr, 0) && InPlace(loop, tr, 1);
    forall i | 3 <= i < |t.calls|
      ensures InPlace(t.calls, tr, i)
    {
      InPlaceShift(setup, loop, tr, i - 3);
    }
    forall i | 0 < i < |t.calls|
      ensures !t.calls[i].CreateCall?
      ensures i < |t.calls| - 1 ==> !t.calls[i].DestroyCall?
    {
      if i < 3 {
        assert t.calls[i] == setup[i];
      } else {
        assert InPlace(t.calls, tr, i);
      }
    }
  }

  /** A commit is issued only right after the operation returned 0, on `tr`. */
  lemma RunCommitsOnlyAfterSuccess(s: Script, op: nat -> ErrorCode, tr: Handle, next: nat, limit: uint64, timeout: uint64, fuel: nat, t: Trace)
    requires RunTrace(s, op, tr, next, limit, timeout, fuel) == Some(t)
    ensures forall i :: 0 <= i < |t.calls| && t.calls[i].CommitCall? ==> 0 < i && t.calls[i - 1] == InvokeCall(tr, 0)
  {
    if CreateTrace(s, tr, limit, timeout).code == 0 {
      RunHandleLifecycle(s, op, tr, next, limit, timeout, fuel, t);
      forall i | 0 <= i < |t.calls| && t.calls[i].CommitCall?
        ensures 0 < i && t.calls[i - 1] == InvokeCall(tr, 0)
      {
        assert InPlace(t.calls, tr, i);
      }
    } else {
      RunSetupFailure(s, op, tr, next, limit, timeout, fuel);
    }
  }

  /** What `run` returns: 0 exactly when the set-up succeeded and the last
      pass ran the operation and committed, both with no error; the set-up's
      error when that failed; otherwise the non-zero verdict of the last
      `on_error` call, after which nothing but destroying its future and
      `tr` happens. */
  lemma RunResultCode(s: Script, op: nat -> ErrorCode, tr: Handle, next: nat, limit: uint64, timeout: uint64, fuel: nat, t: Trace)
    requires RunTrace(s, op, tr, next, limit, timeout, fuel) == Some(t)
    ensures var n := |t.calls|;
      t.code == 0 <==>
        && CreateTrace(s, tr, limit, timeout).code == 0
        && 4 <= n && t.calls[n - 4] == InvokeCall(tr, 0) && t.calls[n - 3].CommitCall?
        && WaitError(t.calls[n - 3].future) == 0
    ensures CreateTrace(s, tr, limit, timeout).code != 0 ==> t.code == CreateTrace(s, tr, limit, timeout).code
    ensures var n := |t.calls|;
      CreateTrace(s, tr, limit, timeout).code == 0 && t.code != 0 ==>
        && 3 <= n && t.calls[n - 3].OnErrorCall? && t.calls[n - 3].tr == tr && t.calls[n - 3].err != 0
        && t.code == WaitError(t.calls[n - 3].future)
        && t.calls[n - 2] == FutureDestroyCall(t.calls[n - 3].future.id)
        && t.calls[n - 1] == DestroyCall(tr)
  {
    if CreateTrace(s, tr, limit, timeout).code == 0 {
      RunSplit(s, op, tr, next, limit, timeout, fuel, t);
      var loop := LoopTrace(s, op, tr, 0, next, fuel).value;
      LoopEnding(s, op, tr, 0, next, fuel, loop);
      RunHandleLifecycle(s, op, tr, next, limit, timeout, fuel, t);
      EndsAsAfterPrefix(SetupCalls(s, tr, limit, timeout), loop.calls, tr, loop.code);
      if t.code != 0 {
        assert InPlace(t.calls, tr, |t.calls| - 3);
      }
    } else {
      RunSetupFailure(s, op, tr, next, limit, timeout, fuel);
    }
  }

  /** Each future `run` issues, for a commit or an `on_error` call, is
      destroyed exactly once: by the call right after, and by no other. */
  lemma RunDestroysFuturesOnce(s: Script, op: nat -> ErrorCode, tr: Handle, next: nat, limit: uint64, timeout: uint64, fuel: nat, t: Trace)
    requires RunTrace(s, op, tr, next, limit, timeout, fuel) == Some(t)
    ensures forall i :: 0 <= i < |t.calls| && (t.calls[i].CommitCall? || t.calls[i].OnErrorCall?) ==>
              i + 1 < |t.calls| && t.calls[i + 1] == FutureDestroyCall(t.calls[i].future.id)
    ensures forall i, j ::
              (0 <= i < |t.calls| && 0 <= j < |t.calls| && (t.calls[i].CommitCall? || t.calls[i].OnErrorCall?) &&
               t.calls[j] == FutureDestroyCall(t.calls[i].future.id)) ==> j == i + 1
  {
    if CreateTrace(s, tr, limit, timeout).code == 0 {
      RunSplit(s, op, tr, next, limit, timeout, fuel, t);
      var setup := SetupCalls(s, tr, limit, timeout);
      var loop := LoopTrace(s, op, tr, 0, next, fuel).value;
      LoopFutures(s, op, tr, 0, next, fuel, loop);
      RunHandleLifecycle(s, op, tr, next, limit, timeout, fuel, t);
      ConcatFutures(setup, loop.calls, next, next);
      forall i | 0 <= i < |t.calls| && (t.calls[i].CommitCall? || t.calls[i].OnErrorCall?)
        ensures i + 1 < |t.calls| && t.calls[i + 1] == FutureDestroyCall(t.calls[i].future.id)
      {
        assert InPlace(t.calls, tr, i);
      }
    } else {
      RunSetupFailure(s, op, tr, next, limit, timeout, fuel);
    }
  }

  /** `run` ends whenever the set-up fails or the script makes some attempt
      final, and then what it does does not depend on the fuel. */
  lemma RunTerminates(s: Script, op: nat -> ErrorCode, tr: Handle, next: nat, limit: uint64, timeout: uint64, k: nat)
    requires CreateTrace(s, tr, limit, timeout).code != 0 || Final(s, op, tr, k)
    ensures RunTrace(s, op, tr, next, limit, timeout, k + 1).Some?
    ensures forall fuel: nat :: RunTrace(s, op, tr, next, limit, timeout, fuel).Some? ==>
              RunTrace(s, op, tr, next, limit, timeout, fuel) == RunTrace(s, op, tr, next, limit, timeout, k + 1)
  {
    if CreateTrace(s, tr, limit, timeout).code == 0 {
      FinalBoundsLoop(s, op, tr, 0, k, next);
      forall fuel: nat | RunTrace(s, op, tr, next, limit, timeout, fuel).Some?
        ensures RunTrace(s, op, tr, next, limit, timeout, fuel) == RunTrace(s, op, tr, next, limit, timeout, k + 1)
      {
        LoopDeterministic(s, op, tr, 0, next, fuel, k + 1);
      }
    }
  }

  /** The store's verdict on error `e` in attempt `k` on `tr` is to give up. */
  ghost predicate GivesUp(s: Script, tr: Handle, k: nat, e: ErrorCode)
  {
    s.onError(tr, k, e).blockError != 0 || s.onError(tr, k, e).error != 0
  }

  /** If the store honours the retry limit, giving up on every error once
      `limit` retries have been made (attempt `k`, counted from 0), `run`'s
      loop ends within `limit + 1` passes; with the default limit that is at
      most 2^64 passes. */
  lemma RetryLimitBoundsRun(s: Script, op: nat -> ErrorCode, tr: Handle, next: nat, limit: uint64, timeout: uint64, k: nat)
    requires k == limit as nat
    requires forall e: ErrorCode :: e != 0 ==> GivesUp(s, tr, k, e)
    ensures RunTrace(s, op, tr, next, limit, timeout, k + 1).Some?
  {
    var f := Future(next, s.commit(tr, k));
    if op(k) == 0 {
      if WaitError(f) != 0 {
        assert GivesUp(s, tr, k, WaitError(f));
      }
    } else {
      assert GivesUp(s, tr, k, op(k));
    }
    assert Final(s, op, tr, k);
    RunTerminates(s, op, tr, next, limit, timeout, k);
  }
}
