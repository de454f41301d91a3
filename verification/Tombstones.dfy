/**
 Late sweeps of deleted buckets. A finished deletion leaves a tombstone, and the staging names
 of its bucket are swept every quarter of an hour for a week, because a store checks a signed
 PUT when the transfer starts, not when it ends. One pass takes the fifty tombstones that
 have been due longest.
 */
module Tombstones {
  import opened Ledger
  import opened Sorting

  const BATCH := 50

  type Stones = map<Id, Tombstone>

  // ---------- One pass ----------

  function Due(stones: Stones, now: int): map<Id, int> {
    map b | b in stones && stones[b].next <= now :: stones[b].next
  }
  /** `WHERE next_at<=now ORDER BY next_at LIMIT 50` */
  ghost predicate IsDueList(stones: Stones, now: int, list: seq<Id>) {
    IsOldest(Due(stones, now), BATCH, list)
  }

  /** What became of one tombstone: how long its sweep took, whether it succeeded, and how
      long until the row was then written. */
  datatype Sweep = Sweep(took: nat, ok: bool, lag: nat)

  /** Done with at `now`: dropped if a sweep that succeeded ended no earlier than its week. */
  function Handled(stones: Stones, b: Id, finished: bool, now: int): Stones {
    if finished then stones - {b}
    else if b in stones then stones[b := stones[b].(next := now + SWEEP_INTERVAL)]
    else stones
  }
  predicate Finished(stones: Stones, b: Id, ok: bool, now: int) {
    ok && b in stones && stones[b].until <= now
  }

  datatype Table = Table(stones: Stones, now: int)

  /** Works through the list as far as there are sweeps; fewer sweeps than tombstones means
      the pass was cut short. */
  function Pass(t: Table, list: seq<Id>, sweeps: seq<Sweep>): Table
    decreases |list|
  {
    if list == [] || sweeps == [] then t
    else
      var s := sweeps[0];
      var ended := t.now + s.took;
      var stones := Handled(t.stones, list[0], Finished(t.stones, list[0], s.ok, ended), ended + s.lag);
      Pass(Table(stones, ended + s.lag), list[1..], sweeps[1..])
  }

  // ---------- Runs ----------

  datatype Event =
    | Delay(seconds: nat)
    | Bury(bucket: Id)
    | Cleanup(list: seq<Id>, sweeps: seq<Sweep>)

  ghost predicate Possible(t: Table, e: Event) {
    e.Cleanup? ==> IsDueList(t.stones, t.now, e.list) && |e.sweeps| <= |e.list|
  }
  function Next(t: Table, e: Event): Table {
    match e
    case Delay(seconds) => t.(now := t.now + seconds)
    case Bury(b) =>
      if b in t.stones then t
      else t.(stones := t.stones[b := Tombstone(t.now + LATE_TRANSFER_WINDOW, t.now + SWEEP_INTERVAL)])
    case Cleanup(list, sweeps) => Pass(t, list, sweeps)
  }
  ghost predicate PossibleRun(t: Table, events: seq<Event>)
    decreases events
  {
    events == [] || (Possible(t, events[0]) && PossibleRun(Next(t, events[0]), events[1..]))
  }
  function Run(t: Table, events: seq<Event>): Table
    decreases events
  {
    if events == [] then t else Run(Next(t, events[0]), events[1..])
  }

  predicate Sweeps(e: Event, b: Id) {
    e.Cleanup? && |e.sweeps| <= |e.list| && b in e.list[..|e.sweeps|]
  }
  predicate SweptIn(events: seq<Event>, b: Id) {
    exists i :: 0 <= i < |events| && Sweeps(events[i], b)
  }
  function Completed(events: seq<Event>): nat {
    if events == [] then 0
    else (if events[0].Cleanup? && |events[0].sweeps| == |events[0].list| then 1 else 0) + Completed(events[1..])
  }

  /** The other tombstones due at or before `b`. */
  function Before(stones: Stones, b: Id): set<Id>
    requires b in stones
  {
    set c | c in stones && c != b && stones[c].next <= stones[b].next
  }

  /** Of all transactions only a finished deletion writes a tombstone, as a burial does. */
  lemma FinishBuries(t: Tables, c: Limits, op: Op)
    ensures Ledger.Next(t, c, op).tombstones ==
      if op.Finish? && FinishBucketDeletion(t, op.now, op.id).Done?
      then Next(Table(t.tombstones, op.now), Bury(op.id)).stones else t.tombstones
    ensures op.Finish? && FinishBucketDeletion(t, op.now, op.id).Done? ==>
      Ledger.Next(t, c, op).tombstones ==
        if op.id in t.tombstones then t.tombstones else t.tombstones[op.id := Tombstone(op.now + 7 * 86400, op.now + 900)]
  {
    hide ReserveRefusal, CommitRefusal, Deadline, Used, Reserved, SourceUsed, SourceReserved;
  }

  // ---------- Nothing due starves ----------

  lemma {:induction false} PassSkips(t: Table, list: seq<Id>, sweeps: seq<Sweep>, b: Id)
    requires b in t.stones && b !in list && t.stones[b].next <= t.now && |sweeps| <= |list|
    ensures var t' := Pass(t, list, sweeps);
      && b in t'.stones && t'.stones[b] == t.stones[b] && t.now <= t'.now
      && Before(t'.stones, b) <= Before(t.stones, b) - (set c | c in list[..|sweeps|])
    decreases |list|
  {
    if list != [] && sweeps != [] {
      var s := sweeps[0];
      var ended := t.now + s.took;
      var t1 := Table(Handled(t.stones, list[0], Finished(t.stones, list[0], s.ok, ended), ended + s.lag), ended + s.lag);
      PassSkips(t1, list[1..], sweeps[1..], b);
      assert list[..|sweeps|] == [list[0]] + list[1..][..|sweeps| - 1];
    }
  }

  lemma {:induction false} Distinct(list: seq<Id>)
    requires forall i, j :: 0 <= i < j < |list| ==> list[i] != list[j]
    ensures |set c | c in list| == |list|
  {
    if list != [] {
      Distinct(list[1..]);
      assert (set c | c in list) == {list[0]} + (set c | c in list[1..]);
      assert list[0] !in list[1..];
    }
  }

  /** A completed pass that leaves out a due tombstone takes fifty of those before it. */
  lemma FullPass(t: Table, list: seq<Id>, sweeps: seq<Sweep>, b: Id)
    requires b in t.stones && t.stones[b].next <= t.now && b !in list
    requires IsDueList(t.stones, t.now, list) && |sweeps| == |list|
    ensures var t' := Pass(t, list, sweeps);
      && b in t'.stones && t'.stones[b] == t.stones[b] && t.now <= t'.now
      && |Before(t'.stones, b)| + BATCH <= |Before(t.stones, b)|
  {
    PassSkips(t, list, sweeps, b);
    Distinct(list);
    assert list[..|sweeps|] == list;
    var took := set c | c in list;
    var t' := Pass(t, list, sweeps);
    assert took <= Before(t.stones, b) by {
      forall c | c in list ensures c in Before(t.stones, b) { assert b in Due(t.stones, t.now); }
    }
    assert Before(t'.stones, b) <= Before(t.stones, b) - took;
    Fewer(Before(t'.stones, b), Before(t.stones, b) - took);
  }
  lemma {:induction false} Fewer(a: set<Id>, b: set<Id>)
    requires a <= b
    ensures |a| <= |b|
    decreases |a|
  {
    if x :| x in a { Fewer(a - {x}, b - {x}); }
  }

  /** A step that does not sweep a due tombstone leaves it as it is, with no more before it. */
  lemma StillDue(t: Table, e: Event, b: Id)
    requires b in t.stones && t.stones[b].next <= t.now && Possible(t, e) && !Sweeps(e, b)
    ensures var t' := Next(t, e);
      && b in t'.stones && t'.stones[b] == t.stones[b] && t'.stones[b].next <= t'.now
      && |Before(t'.stones, b)| + BATCH * Completed([e]) <= |Before(t.stones, b)|
  {
    assert Completed([e]) == if e.Cleanup? && |e.sweeps| == |e.list| then 1 else 0;
    match e
    case Delay(_) =>
    case Bury(c) => assert Before(Next(t, e).stones, b) == Before(t.stones, b);
    case Cleanup(list, sweeps) =>
      if |sweeps| == |list| {
        assert list[..|sweeps|] == list;
        FullPass(t, list, sweeps, b);
      } else {
        ShortPass(t, list, sweeps, b);
      }
  }
  lemma {:induction false} ShortPass(t: Table, list: seq<Id>, sweeps: seq<Sweep>, b: Id)
    requires b in t.stones && t.stones[b].next <= t.now && |sweeps| <= |list| && b !in list[..|sweeps|]
    ensures var t' := Pass(t, list, sweeps);
      && b in t'.stones && t'.stones[b] == t.stones[b] && t.now <= t'.now
      && |Before(t'.stones, b)| <= |Before(t.stones, b)|
  {
    PassTakes(t, list, sweeps);
    PassSkips(t, list[..|sweeps|], sweeps, b);
    Fewer(Before(Pass(t, list, sweeps).stones, b), Before(t.stones, b));
  }
  /** Only as many tombstones matter as there are sweeps. */
  lemma {:induction false} PassTakes(t: Table, list: seq<Id>, sweeps: seq<Sweep>)
    requires |sweeps| <= |list|
    ensures Pass(t, list, sweeps) == Pass(t, list[..|sweeps|], sweeps)
    decreases |list|
  {
    if sweeps != [] {
      var s := sweeps[0];
      var ended := t.now + s.took;
      var t1 := Table(Handled(t.stones, list[0], Finished(t.stones, list[0], s.ok, ended), ended + s.lag), ended + s.lag);
      PassTakes(t1, list[1..], sweeps[1..]);
      assert list[..|sweeps|][1..] == list[1..][..|sweeps| - 1];
    }
  }

  /** A due tombstone with n others due at or before it is swept within (n + 50) / 50
      completed passes, whatever is buried, delayed or cut short meanwhile. */
  lemma {:induction false} NothingDueStarves(t: Table, events: seq<Event>, b: Id)
    requires b in t.stones && t.stones[b].next <= t.now && PossibleRun(t, events)
    requires Completed(events) >= (|Before(t.stones, b)| + BATCH) / BATCH
    ensures SweptIn(events, b)
    decreases events
  {
    if Sweeps(events[0], b) {
    } else {
      var e, rest := events[0], events[1..];
      StillDue(t, e, b);
      assert [e][1..] == [];
      assert Completed(events) == Completed([e]) + Completed(rest);
      NothingDueStarves(Next(t, e), rest, b);
      var i :| 0 <= i < |rest| && Sweeps(rest[i], b);
      assert Sweeps(events[i + 1], b);
    }
  }

  // ---------- Nothing is dropped early ----------

  /** When the sweep of the j-th tombstone of a pass ended. */
  function EndOf(now: int, sweeps: seq<Sweep>, j: nat): int
    requires j < |sweeps|
    decreases j
  {
    if j == 0 then now + sweeps[0].took else EndOf(now + sweeps[0].took + sweeps[0].lag, sweeps[1..], j - 1)
  }
  /** The pass swept the bucket successfully, ending no earlier than `until`. */
  predicate SweptAfter(now: int, list: seq<Id>, sweeps: seq<Sweep>, b: Id, until: int) {
    exists j :: 0 <= j < |sweeps| && j < |list| && list[j] == b && sweeps[j].ok && until <= EndOf(now, sweeps, j)
  }

  predicate SweepsLate(t: Table, e: Event, b: Id, until: int) {
    e.Cleanup? && SweptAfter(t.now, e.list, e.sweeps, b, until)
  }

  lemma {:induction false} PassNeverAdds(t: Table, list: seq<Id>, sweeps: seq<Sweep>, b: Id)
    requires b !in t.stones
    ensures b !in Pass(t, list, sweeps).stones
    decreases |list|
  {
    if list != [] && sweeps != [] {
      var s := sweeps[0];
      var ended := t.now + s.took;
      var t1 := Table(Handled(t.stones, list[0], Finished(t.stones, list[0], s.ok, ended), ended + s.lag), ended + s.lag);
      PassNeverAdds(t1, list[1..], sweeps[1..], b);
    }
  }

  /** A pass drops a tombstone exactly when it swept the bucket after the tombstone's week. */
  lemma {:induction false} PassDropsIff(t: Table, list: seq<Id>, sweeps: seq<Sweep>, b: Id)
    requires b in t.stones
    ensures b !in Pass(t, list, sweeps).stones <==> SweptAfter(t.now, list, sweeps, b, t.stones[b].until)
    ensures b in Pass(t, list, sweeps).stones ==> Pass(t, list, sweeps).stones[b].until == t.stones[b].until
    decreases |list|
  {
    if list != [] && sweeps != [] {
      var s := sweeps[0];
      var ended := t.now + s.took;
      var until := t.stones[b].until;
      var t1 := Table(Handled(t.stones, list[0], Finished(t.stones, list[0], s.ok, ended), ended + s.lag), ended + s.lag);
      SweptFirstOrLater(t.now, list, sweeps, b, until);
      if b in t1.stones {
        PassDropsIff(t1, list[1..], sweeps[1..], b);
      } else {
        PassNeverAdds(t1, list[1..], sweeps[1..], b);
      }
    }
  }
  lemma SweptFirstOrLater(now: int, list: seq<Id>, sweeps: seq<Sweep>, b: Id, until: int)
    requires list != [] && sweeps != []
    ensures SweptAfter(now, list, sweeps, b, until) <==>
      (list[0] == b && sweeps[0].ok && until <= now + sweeps[0].took)
      || SweptAfter(now + sweeps[0].took + sweeps[0].lag, list[1..], sweeps[1..], b, until)
  {
    var later := now + sweeps[0].took + sweeps[0].lag;
    if j :| 0 <= j < |sweeps[1..]| && j < |list[1..]| && list[1..][j] == b && sweeps[1..][j].ok && until <= EndOf(later, sweeps[1..], j) {
      assert list[j + 1] == b && EndOf(now, sweeps, j + 1) == EndOf(later, sweeps[1..], j);
    }
    if j :| 0 <= j < |sweeps| && j < |list| && list[j] == b && sweeps[j].ok && until <= EndOf(now, sweeps, j) {
      if j == 0 {
        assert EndOf(now, sweeps, 0) == now + sweeps[0].took;
      } else {
        assert list[1..][j - 1] == b && sweeps[1..][j - 1].ok && EndOf(later, sweeps[1..], j - 1) == EndOf(now, sweeps, j);
      }
    }
    if list[0] == b && sweeps[0].ok && until <= now + sweeps[0].took { assert EndOf(now, sweeps, 0) == now + sweeps[0].took; }
  }

  /** Over any run a tombstone disappears only if some pass swept its bucket's staging names
      successfully and that sweep ended after the week it was buried for. */
  lemma {:induction false} NothingIsDroppedEarly(t: Table, events: seq<Event>, b: Id)
    requires b in t.stones && b !in Run(t, events).stones
    ensures exists i :: 0 <= i < |events| && SweepsLate(Run(t, events[..i]), events[i], b, t.stones[b].until)
    decreases events
  {
    var e, rest := events[0], events[1..];
    var t' := Next(t, e);
    if b !in t'.stones {
      PassDropsIff(t, e.list, e.sweeps, b);
      assert events[..0] == [];
    } else {
      if e.Cleanup? { PassDropsIff(t, e.list, e.sweeps, b); }
      NothingIsDroppedEarly(t', rest, b);
      var i :| 0 <= i < |rest| && SweepsLate(Run(t', rest[..i]), rest[i], b, t.stones[b].until);
      assert events[..i + 1][0] == e && events[..i + 1][1..] == rest[..i];
      assert events[i + 1] == rest[i];
    }
  }

  /** One more sweep at the end of a pass. */
  lemma {:induction false} PassOneMore(t: Table, list: seq<Id>, sweeps: seq<Sweep>, b: Id, s: Sweep)
    requires |list| == |sweeps|
    ensures Pass(t, list + [b], sweeps + [s]) == Pass(Pass(t, list, sweeps), [b], [s])
    decreases |list|
  {
    if list == [] {
      assert list + [b] == [b] && sweeps + [s] == [s];
    } else {
      var s0 := sweeps[0];
      var ended := t.now + s0.took;
      var t1 := Table(Handled(t.stones, list[0], Finished(t.stones, list[0], s0.ok, ended), ended + s0.lag), ended + s0.lag);
      PassOneMore(t1, list[1..], sweeps[1..], b, s);
      assert (list + [b])[1..] == list[1..] + [b] && (sweeps + [s])[1..] == sweeps[1..] + [s];
      assert (list + [b])[0] == list[0] && (sweeps + [s])[0] == s0;
    }
  }
}
