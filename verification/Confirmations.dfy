/**
 A bucket is only ever deleted on purpose: deletion begins with a token that was prepared for
 that very bucket, no sooner than it became ready and before it expired, and a token that
 began a deletion is spent.
 */
module Confirmations {
  import opened Ledger

  ghost predicate Prepares(op: Op, b: Id, hash: string, readyAt: int, expiresAt: int) {
    op.Prepare? && op.id == b && op.hash == hash && op.readyAt == readyAt && op.expiresAt == expiresAt
  }
  /** Someone prepared this token earlier in the run. */
  ghost predicate Prepared(ops: seq<Op>, hash: string, row: Confirmation) {
    exists i :: 0 <= i < |ops| && Prepares(ops[i], row.bucket, hash, row.readyAt, row.expiresAt)
  }
  /** A deletion of the bucket begins at step j with a token prepared before it, in its time. */
  ghost predicate Confirmed(ops: seq<Op>, b: Id, j: nat) {
    j < |ops| && ops[j].Begin? && ops[j].id == b
    && exists row: Confirmation :: Prepared(ops[..j], ops[j].hash, row) && row.bucket == b && row.readyAt <= ops[j].now < row.expiresAt
  }

  lemma StepConfirms(t: Tables, c: Limits, op: Op, hash: string)
    requires hash in Next(t, c, op).confirmations
    ensures (hash in t.confirmations && t.confirmations[hash] == Next(t, c, op).confirmations[hash])
      || (var row := Next(t, c, op).confirmations[hash]; Prepares(op, row.bucket, hash, row.readyAt, row.expiresAt))
  {
    hide ReserveRefusal, CommitRefusal, Deadline, Used, Reserved, SourceUsed, SourceReserved;
  }
  lemma StepDeletes(t: Tables, c: Limits, op: Op, b: Id)
    requires b !in t.deletions && b in Next(t, c, op).deletions
    ensures op.Begin? && op.id == b && op.hash in t.confirmations
    ensures var row := t.confirmations[op.hash]; row.bucket == b && row.readyAt <= op.now < row.expiresAt
    ensures op.hash !in Next(t, c, op).confirmations
  {
    hide ReserveRefusal, CommitRefusal, Deadline, Used, Reserved, SourceUsed, SourceReserved;
  }

  lemma {:induction false} RunUnfolds(t: Tables, c: Limits, ops: seq<Op>)
    requires ops != []
    ensures Run(t, c, ops) == Next(Run(t, c, ops[..|ops| - 1]), c, ops[|ops| - 1])
    decreases ops
  {
    if |ops| > 1 {
      RunUnfolds(Next(t, c, ops[0]), c, ops[1..]);
      assert ops[1..][..|ops| - 2] == ops[..|ops| - 1][1..];
    } else {
      assert ops == [ops[0]] && ops[1..] == [];
    }
  }

  lemma {:induction false} EveryTokenWasPrepared(t: Tables, c: Limits, ops: seq<Op>, hash: string)
    requires t.confirmations == map[] && hash in Run(t, c, ops).confirmations
    ensures Prepared(ops, hash, Run(t, c, ops).confirmations[hash])
    decreases |ops|
  {
    if ops != [] {
      hide Next;
      var n := |ops| - 1;
      RunUnfolds(t, c, ops);
      var before := Run(t, c, ops[..n]);
      StepConfirms(before, c, ops[n], hash);
      if hash in before.confirmations && before.confirmations[hash] == Run(t, c, ops).confirmations[hash] {
        EveryTokenWasPrepared(t, c, ops[..n], hash);
        var row := before.confirmations[hash];
        var i :| 0 <= i < n && Prepares(ops[..n][i], row.bucket, hash, row.readyAt, row.expiresAt);
        assert Prepares(ops[i], row.bucket, hash, row.readyAt, row.expiresAt);
      }
    }
  }

  /** Whenever a bucket is being deleted, its deletion was confirmed. */
  lemma {:induction false} DeletionWasConfirmed(t: Tables, c: Limits, ops: seq<Op>, b: Id)
    requires t.confirmations == map[] && b !in t.deletions && b in Run(t, c, ops).deletions
    ensures exists j :: 0 <= j < |ops| && Confirmed(ops, b, j)
    decreases |ops|
  {
    hide Next;
    var n := |ops| - 1;
    if ops != [] {
      RunUnfolds(t, c, ops);
      var before := Run(t, c, ops[..n]);
      if b in before.deletions {
        DeletionWasConfirmed(t, c, ops[..n], b);
        var j :| 0 <= j < n && Confirmed(ops[..n], b, j);
        assert ops[..n][..j] == ops[..j];
        assert Confirmed(ops, b, j);
      } else {
        StepDeletes(before, c, ops[n], b);
        EveryTokenWasPrepared(t, c, ops[..n], ops[n].hash);
        assert Confirmed(ops, b, n);
      }
    }
  }

  /** A token works once: when it has begun a deletion, no token for that bucket is left. */
  lemma TokensAreSpent(t: Tables, now: int, b: Id, hash: string, h: string)
    requires b !in t.deletions && BeginBucketDeletion(t, now, b, hash).Done?
    requires h in BeginBucketDeletion(t, now, b, hash).tables.confirmations
    ensures h != hash && BeginBucketDeletion(t, now, b, hash).tables.confirmations[h].bucket != b
  {
    hide Deadline;
  }
}
