/** The FoundationDB C client calls that rgw_fdb.cc makes, as a scripted oracle.
    What the store answers is fixed in advance by a `Script`; the `Client` hands
    out those answers and records every call, in order, in `log`. */
module FdbClient {
  import opened FdbHeader

  /** An `FDBTransaction*`: the index of the create call that made it. */
  type Handle = nat

  /** The two transaction options `createTransaction` sets. */
  datatype TxOption = RetryLimit | Timeout

  /** What a future reports once it completes: the error of
      `fdb_future_block_until_ready` and that of `fdb_future_get_error`. */
  datatype Reply = Reply(blockError: ErrorCode, error: ErrorCode)

  /** An `FDBFuture*`: its identity and what it reports. */
  datatype Future = Future(id: nat, reply: Reply)

  /** One recorded call, with the error code it returned where it returns one. */
  datatype Call =
    | CreateCall(tr: Handle, err: ErrorCode)
    | SetOptionCall(tr: Handle, option: TxOption, value: uint64, err: ErrorCode)
    | InvokeCall(tr: Handle, err: ErrorCode)
    | CommitCall(tr: Handle, future: Future)
    | OnErrorCall(tr: Handle, err: ErrorCode, future: Future)
    | FutureDestroyCall(id: nat)
    | DestroyCall(tr: Handle)

  /** The store's answers. `commit` and `onError` are indexed by the handle and
      by how many `fdb_transaction_on_error` calls that handle has seen (each one
      resets the transaction for a new attempt); `getError` is `fdb_get_error`. */
  datatype Script = Script(
    create: Handle -> ErrorCode,
    setOption: (Handle, TxOption, uint64) -> ErrorCode,
    commit: (Handle, nat) -> Reply,
    onError: (Handle, nat, ErrorCode) -> Reply,
    getError: ErrorCode -> string)

  class Client {
    const script: Script
    /** Every call made so far, oldest first. */
    var log: seq<Call>
    /** Number of create calls so far; the next handle. */
    var created: nat
    /** Number of futures issued so far; the next future's id. */
    var issued: nat
    /** Transactions created and not yet destroyed. */
    var live: set<Handle>
    /** For each created transaction, how many on_error calls it has seen. */
    var attempts: map<Handle, nat>
    /** Futures issued and not yet destroyed. */
    var pending: set<nat>

    ghost predicate Valid()
      reads this
    {
      && live <= attempts.Keys
      && (forall tr :: tr in attempts ==> tr < created)
      && (forall id :: id in pending ==> id < issued)
    }

    constructor (script: Script)
      ensures Valid() && this.script == script
      ensures log == [] && created == 0 && issued == 0
      ensures live == {} && attempts == map[] && pending == {}
    {
      this.script := script;
      log, created, issued := [], 0, 0;
      live, attempts, pending := {}, map[], {};
    }

    /** `fdb_database_create_transaction`. */
    method DatabaseCreateTransaction() returns (err: ErrorCode, tr: Handle)
      requires Valid()
      modifies this
      ensures Valid()
      ensures tr == old(created) && err == script.create(tr)
      ensures log == old(log) + [CreateCall(tr, err)]
      ensures created == old(created) + 1
      ensures live == if err == 0 then old(live) + {tr} else old(live)
      ensures attempts == if err == 0 then old(attempts)[tr := 0] else old(attempts)
      ensures issued == old(issued) && pending == old(pending)
    {
      tr := created;
      err := script.create(tr);
      created := created + 1;
      if err == 0 {
        live := live + {tr};
        attempts := attempts[tr := 0];
      }
      log := log + [CreateCall(tr, err)];
    }

    /** `fdb_transaction_set_option` with a 64-bit value. */
    method TransactionSetOption(tr: Handle, option: TxOption, value: uint64) returns (err: ErrorCode)
      requires Valid() && tr in live
      modifies this`log
      ensures err == script.setOption(tr, option, value)
      ensures log == old(log) + [SetOptionCall(tr, option, value, err)]
    {
      err := script.setOption(tr, option, value);
      log := log + [SetOptionCall(tr, option, value, err)];
    }

    /** The caller's operation `func`, run on `tr`; `op(k)` is what it returns in
        attempt `k`. */
    method Invoke(op: nat -> ErrorCode, tr: Handle) returns (err: ErrorCode)
      requires Valid() && tr in live
      modifies this`log
      ensures err == op(attempts[tr])
      ensures log == old(log) + [InvokeCall(tr, err)]
    {
      err := op(attempts[tr]);
      log := log + [InvokeCall(tr, err)];
    }

    /** `fdb_transaction_commit`. */
    method TransactionCommit(tr: Handle) returns (f: Future)
      requires Valid() && tr in live
      modifies this`log, this`issued, this`pending
      ensures Valid()
      ensures f == Future(old(issued), script.commit(tr, attempts[tr]))
      ensures log == old(log) + [CommitCall(tr, f)]
      ensures issued == old(issued) + 1 && pending == old(pending) + {f.id}
    {
      f := Future(issued, script.commit(tr, attempts[tr]));
      issued := issued + 1;
      pending := pending + {f.id};
      log := log + [CommitCall(tr, f)];
    }

    /** `fdb_transaction_on_error`: the store classifies `err` and resets `tr`
        for its next attempt. */
    method TransactionOnError(tr: Handle, err: ErrorCode) returns (f: Future)
      requires Valid() && tr in live
      modifies this`log, this`issued, this`pending, this`attempts
      ensures Valid()
      ensures f == Future(old(issued), script.onError(tr, old(attempts)[tr], err))
      ensures log == old(log) + [OnErrorCall(tr, err, f)]
      ensures issued == old(issued) + 1 && pending == old(pending) + {f.id}
      ensures attempts == old(attempts)[tr := old(attempts)[tr] + 1]
    {
      f := Future(issued, script.onError(tr, attempts[tr], err));
      issued := issued + 1;
      pending := pending + {f.id};
      attempts := attempts[tr := attempts[tr] + 1];
      log := log + [OnErrorCall(tr, err, f)];
    }

    /** `fdb_future_destroy`. */
    method FutureDestroy(f: Future)
      requires Valid() && f.id in pending
      modifies this`log, this`pending
      ensures Valid()
      ensures log == old(log) + [FutureDestroyCall(f.id)]
      ensures pending == old(pending) - {f.id}
    {
      pending := pending - {f.id};
      log := log + [FutureDestroyCall(f.id)];
    }

    /** `fdb_transaction_destroy`. */
    method TransactionDestroy(tr: Handle)
      requires Valid() && tr in live
      modifies this`log, this`live
      ensures Valid()
      ensures log == old(log) + [DestroyCall(tr)]
      ensures live == old(live) - {tr}
    {
      live := live - {tr};
      log := log + [DestroyCall(tr)];
    }
  }
}
