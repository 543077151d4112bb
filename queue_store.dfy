/**
 * The rows of the queue and turn tables, the row-level effects of the
 * queries the turn handlers issue, and the density invariant those handlers
 * maintain: in every queue the spot numbers held by its turns are exactly
 * 1..last_assigned_spot, each held once.
 */
module QueueStore {
  import opened Wrappers

  /** A row of `events`: only the columns the join handler reads. */
  datatype EventRow = EventRow(eventId: int, eventCode: Option<string>)

  /** A row of `queues`. `current_spot` and `estimated_wait` are always 0 here and left out. */
  datatype Queue = Queue(queueId: nat, eventId: int, lastAssigned: int)

  /** A row of `turns`; `queue_id` and `spot_number` are nullable columns. */
  datatype Turn = Turn(turnId: nat, studentId: int, eventId: int, queueId: Option<nat>, spot: Option<int>)

  /**
   * `findFirst`: the index of the first row satisfying `p`, if any.
   */
  function FindFirst<T>(rows: seq<T>, p: T -> bool): (r: Option<nat>)
    ensures r.Some? ==> r.value < |rows| && p(rows[r.value])
    ensures r.Some? ==> forall j :: 0 <= j < r.value ==> !p(rows[j])
    ensures r.None? <==> forall j :: 0 <= j < |rows| ==> !p(rows[j])
  {
    if rows == [] then None
    else if p(rows[0]) then Some(0)
    else
      match FindFirst(rows[1..], p)
      case None => None
      case Some(j) => Some(j + 1)
  }

  /** The first turn of `student` for `event` (the `findFirst` on both columns). */
  function FindTurn(ts: seq<Turn>, student: int, event: int): Option<nat> {
    FindFirst(ts, (t: Turn) => t.studentId == student && t.eventId == event)
  }

  /** The first queue of `event`. */
  function FindQueueOfEvent(qs: seq<Queue>, event: int): Option<nat> {
    FindFirst(qs, (q: Queue) => q.eventId == event)
  }

  /** The queue row whose primary key is `id`. */
  function FindQueue(qs: seq<Queue>, id: nat): Option<nat> {
    FindFirst(qs, (q: Queue) => q.queueId == id)
  }

  /** The turn row whose primary key is `id`. */
  function FindTurnById(ts: seq<Turn>, id: nat): Option<nat> {
    FindFirst(ts, (t: Turn) => t.turnId == id)
  }

  /** A row whose key no earlier row has is found where it was appended. */
  lemma FindTurnByIdLast(ts: seq<Turn>, t: Turn)
    requires forall j :: 0 <= j < |ts| ==> ts[j].turnId != t.turnId
    ensures FindTurnById(ts + [t], t.turnId) == Some(|ts|)
  {
    assert forall j :: 0 <= j < |ts| ==> (ts + [t])[j] == ts[j];
    assert (ts + [t])[|ts|].turnId == t.turnId;
  }

  /** With unique queue ids, looking a queue up by its own id finds it. */
  lemma FindQueueOwnId(qs: seq<Queue>, qi: nat)
    requires qi < |qs|
    requires forall i, j :: 0 <= i < |qs| && 0 <= j < |qs| && i != j ==> qs[i].queueId != qs[j].queueId
    ensures FindQueue(qs, qs[qi].queueId) == Some(qi)
  {
  }

  /** The table without row `k` (a `delete` by primary key). */
  function RemoveAt(ts: seq<Turn>, k: nat): (r: seq<Turn>)
    requires k < |ts|
    ensures |r| == |ts| - 1
    ensures forall i :: 0 <= i < k ==> r[i] == ts[i]
    ensures forall i :: k <= i < |r| ==> r[i] == ts[i + 1]
  {
    ts[..k] + ts[k + 1..]
  }

  /** Turn `t` sits in queue `q` and holds a spot number. */
  predicate Holds(t: Turn, q: nat) {
    t.queueId == Some(q) && t.spot.Some?
  }

  /**
   * The effect of the renumbering `updateMany` on one row: a turn of queue
   * `q` whose spot is greater than `s` moves up by one; every other row,
   * including one whose spot is null, is left alone.
   */
  function Lowered(t: Turn, q: nat, s: int): Turn {
    if Holds(t, q) && t.spot.value > s then t.(spot := Some(t.spot.value - 1)) else t
  }

  /** The renumbering `updateMany` applied to a whole table. */
  function Renumbered(ts: seq<Turn>, q: nat, s: int): (r: seq<Turn>)
    ensures |r| == |ts|
  {
    seq(|ts|, i requires 0 <= i < |ts| => Lowered(ts[i], q, s))
  }

  /**
   * The `_max` aggregate of `spot_number` over the turns of queue `q`;
   * `None` when no turn of the queue holds a spot.
   */
  function MaxSpot(ts: seq<Turn>, q: nat): (m: Option<int>)
    ensures m.None? <==> forall i :: 0 <= i < |ts| ==> !Holds(ts[i], q)
    ensures m.Some? ==> IsHeld(ts, q, m.value)
    ensures m.Some? ==> forall i :: 0 <= i < |ts| && Holds(ts[i], q) ==> ts[i].spot.value <= m.value
  {
    if ts == [] then None
    else
      var init := ts[..|ts| - 1];
      var last := ts[|ts| - 1];
      var rest := MaxSpot(init, q);
      assert forall i :: 0 <= i < |init| ==> init[i] == ts[i];
      if !Holds(last, q) then
        assert rest.Some? ==> IsHeld(ts, q, rest.value) by {
          if rest.Some? {
            var j :| 0 <= j < |init| && Holds(init[j], q) && init[j].spot.value == rest.value;
            assert ts[j] == init[j];
          }
        }
        rest
      else if rest.Some? && rest.value >= last.spot.value then
        assert IsHeld(ts, q, rest.value) by {
          var j :| 0 <= j < |init| && Holds(init[j], q) && init[j].spot.value == rest.value;
          assert ts[j] == init[j];
        }
        rest
      else
        assert IsHeld(ts, q, last.spot.value) by {
          assert Holds(ts[|ts| - 1], q);
        }
        last.spot
  }

  /** Some turn of queue `q` holds spot `x`. */
  ghost predicate IsHeld(ts: seq<Turn>, q: nat, x: int) {
    exists i :: 0 <= i < |ts| && Holds(ts[i], q) && ts[i].spot.value == x
  }

  /** The spots held in `q` lie in 1..n. */
  ghost predicate InRange(ts: seq<Turn>, q: nat, n: int) {
    forall i :: 0 <= i < |ts| && Holds(ts[i], q) ==> 1 <= ts[i].spot.value <= n
  }

  /** No two turns of `q` hold the same spot. */
  ghost predicate Distinct(ts: seq<Turn>, q: nat) {
    forall i, j :: 0 <= i < |ts| && 0 <= j < |ts| && i != j && Holds(ts[i], q) && Holds(ts[j], q) ==>
      ts[i].spot != ts[j].spot
  }

  /** Every spot in 1..n is held by some turn of `q`. */
  ghost predicate Covers(ts: seq<Turn>, q: nat, n: int) {
    forall x :: 1 <= x <= n ==> IsHeld(ts, q, x)
  }

  /**
   * The density invariant of queue `q` with counter `n`: the spots held by
   * its turns are exactly 1..n, each held once. Turns whose spot is still
   * null are not counted.
   */
  ghost predicate Dense(ts: seq<Turn>, q: nat, n: int) {
    n >= 0 && InRange(ts, q, n) && Distinct(ts, q) && Covers(ts, q, n)
  }

  /**
   * A queue that no turn refers to is dense with counter 0: this is the
   * state of a queue the join handler has just created.
   */
  lemma EmptyQueueDense(ts: seq<Turn>, q: nat)
    requires forall i :: 0 <= i < |ts| ==> ts[i].queueId != Some(q)
    ensures Dense(ts, q, 0)
  {
  }

  /**
   * Appending a turn that holds no spot in `q` (a turn of another queue, or
   * the join handler's new turn before its spot is written) keeps the
   * density of `q` with the same counter.
   */
  lemma {:induction false} AppendUnheldKeepsDense(ts: seq<Turn>, t: Turn, q: nat, n: int)
    requires !Holds(t, q)
    ensures Dense(ts + [t], q, n) <==> Dense(ts, q, n)
  {
    var ts' := ts + [t];
    assert forall i :: 0 <= i < |ts| ==> ts'[i] == ts[i];
    forall x | IsHeld(ts, q, x) ensures IsHeld(ts', q, x) {
      var i :| 0 <= i < |ts| && Holds(ts[i], q) && ts[i].spot.value == x;
      assert ts'[i] == ts[i];
    }
    forall x | IsHeld(ts', q, x) ensures IsHeld(ts, q, x) {
      var i :| 0 <= i < |ts'| && Holds(ts'[i], q) && ts'[i].spot.value == x;
      assert i < |ts|;
      assert ts[i] == ts'[i];
    }
  }

  /**
   * The join transaction's transient state: once the counter is `n + 1`
   * and the new turn of `q` has no spot yet, the spots are still 1..n, so
   * the queue is not dense with its new counter.
   */
  lemma JoinTransientDense(ts: seq<Turn>, t: Turn, q: nat, n: int)
    requires Dense(ts, q, n)
    requires t.queueId == Some(q) && t.spot.None?
    ensures Dense(ts + [t], q, n) && !Dense(ts + [t], q, n + 1)
  {
    AppendUnheldKeepsDense(ts, t, q, n);
    var ts' := ts + [t];
    forall i | 0 <= i < |ts'| && Holds(ts'[i], q) ensures ts'[i].spot.value <= n {
      assert i < |ts| && ts'[i] == ts[i];
    }
    assert !IsHeld(ts', q, n + 1);
  }

  /**
   * Join: appending a turn of `q` whose spot is the incremented counter
   * `n + 1` takes the density of `q` from `n` to `n + 1`.
   */
  lemma JoinKeepsDense(ts: seq<Turn>, t: Turn, q: nat, n: int)
    requires Dense(ts, q, n)
    requires t.queueId == Some(q) && t.spot == Some(n + 1)
    ensures Dense(ts + [t], q, n + 1)
  {
    var ts' := ts + [t];
    assert forall i :: 0 <= i < |ts| ==> ts'[i] == ts[i];
    assert ts'[|ts|] == t;
    forall x | 1 <= x <= n + 1 ensures IsHeld(ts', q, x) {
      if x == n + 1 {
        assert Holds(ts'[|ts|], q) && ts'[|ts|].spot.value == x;
      } else {
        assert IsHeld(ts, q, x);
        var i :| 0 <= i < |ts| && Holds(ts[i], q) && ts[i].spot.value == x;
        assert ts'[i] == ts[i];
      }
    }
  }

  /** Which row of the old table row `i` of the table without row `k` was. */
  function Orig(i: nat, k: nat): nat {
    if i < k then i else i + 1
  }

  /** Row `i` of the table after Process is row `Orig(i, k)` of the old table, renumbered. */
  lemma RemovedRow(ts: seq<Turn>, k: nat, q: nat, s: int, i: nat)
    requires k < |ts| && i < |ts| - 1
    ensures Orig(i, k) < |ts| && Orig(i, k) != k
    ensures Renumbered(RemoveAt(ts, k), q, s)[i] == Lowered(ts[Orig(i, k)], q, s)
  {
  }

  lemma RemoveKeepsInRange(ts: seq<Turn>, k: nat, q: nat, n: int)
    requires k < |ts| && Holds(ts[k], q)
    requires InRange(ts, q, n) && Distinct(ts, q)
    ensures InRange(Renumbered(RemoveAt(ts, k), q, ts[k].spot.value), q, n - 1)
  {
    var s := ts[k].spot.value;
    var r := Renumbered(RemoveAt(ts, k), q, s);
    forall i | 0 <= i < |r| && Holds(r[i], q)
      ensures 1 <= r[i].spot.value <= n - 1
    {
      RemovedRow(ts, k, q, s, i);
      var j := Orig(i, k);
      assert Holds(ts[j], q);
      assert ts[j].spot != ts[k].spot;
    }
  }

  lemma RemoveKeepsDistinct(ts: seq<Turn>, k: nat, q: nat)
    requires k < |ts| && Holds(ts[k], q)
    requires Distinct(ts, q)
    ensures Distinct(Renumbered(RemoveAt(ts, k), q, ts[k].spot.value), q)
  {
    var s := ts[k].spot.value;
    var r := Renumbered(RemoveAt(ts, k), q, s);
    forall i, i' | 0 <= i < |r| && 0 <= i' < |r| && i != i' && Holds(r[i], q) && Holds(r[i'], q)
      ensures r[i].spot != r[i'].spot
    {
      RemovedRow(ts, k, q, s, i);
      RemovedRow(ts, k, q, s, i');
      var j, j' := Orig(i, k), Orig(i', k);
      assert j != j';
      assert Holds(ts[j], q) && Holds(ts[j'], q);
      assert ts[j].spot != ts[j'].spot && ts[j].spot != ts[k].spot && ts[j'].spot != ts[k].spot;
    }
  }

  lemma RemoveKeepsCovers(ts: seq<Turn>, k: nat, q: nat, n: int)
    requires k < |ts| && Holds(ts[k], q)
    requires Distinct(ts, q) && Covers(ts, q, n)
    ensures Covers(Renumbered(RemoveAt(ts, k), q, ts[k].spot.value), q, n - 1)
  {
    var s := ts[k].spot.value;
    var r := Renumbered(RemoveAt(ts, k), q, s);
    forall x | 1 <= x <= n - 1 ensures IsHeld(r, q, x) {
      var y := if x < s then x else x + 1;
      assert IsHeld(ts, q, y);
      var j :| 0 <= j < |ts| && Holds(ts[j], q) && ts[j].spot.value == y;
      assert j != k;
      var i := if j < k then j else j - 1;
      RemovedRow(ts, k, q, s, i);
      assert Orig(i, k) == j;
      assert Holds(r[i], q) && r[i].spot.value == x;
    }
  }

  /**
   * Process: deleting the turn that held spot `s` in `q` and moving every
   * later spot of `q` up by one takes the density of `q` from `n` to
   * `n - 1`.
   */
  lemma RemoveKeepsDense(ts: seq<Turn>, k: nat, q: nat, n: int)
    requires k < |ts| && Holds(ts[k], q)
    requires Dense(ts, q, n)
    ensures Dense(Renumbered(RemoveAt(ts, k), q, ts[k].spot.value), q, n - 1)
  {
    assert 1 <= ts[k].spot.value <= n;
    RemoveKeepsInRange(ts, k, q, n);
    RemoveKeepsDistinct(ts, k, q);
    RemoveKeepsCovers(ts, k, q, n);
  }

  /**
   * Process leaves the density of every other queue as it was: the deleted
   * turn held a spot in `q`, and the renumbering touches only `q`.
   */
  lemma RemoveKeepsOtherDense(ts: seq<Turn>, k: nat, q: nat, q': nat, n: int)
    requires k < |ts| && Holds(ts[k], q) && q' != q
    requires Dense(ts, q', n)
    ensures Dense(Renumbered(RemoveAt(ts, k), q, ts[k].spot.value), q', n)
  {
    var s := ts[k].spot.value;
    var r := Renumbered(RemoveAt(ts, k), q, s);
    forall i | 0 <= i < |r|
      ensures Holds(r[i], q') <==> Holds(ts[Orig(i, k)], q')
      ensures Holds(r[i], q') ==> r[i] == ts[Orig(i, k)]
    {
      RemovedRow(ts, k, q, s, i);
    }
    forall x | 1 <= x <= n ensures IsHeld(r, q', x) {
      assert IsHeld(ts, q', x);
      var j :| 0 <= j < |ts| && Holds(ts[j], q') && ts[j].spot.value == x;
      var i := if j < k then j else j - 1;
      assert Orig(i, k) == j;
      assert Holds(r[i], q') && r[i].spot.value == x;
    }
    forall i, i' | 0 <= i < |r| && 0 <= i' < |r| && i != i' && Holds(r[i], q') && Holds(r[i'], q')
      ensures r[i].spot != r[i'].spot
    {
      assert Orig(i, k) != Orig(i', k);
    }
  }

  /**
   * Under density the counter is the recomputed maximum: `n` equals the
   * `_max` aggregate of the queue's spots, or 0 when the queue holds none.
   */
  lemma DenseCounterIsMax(ts: seq<Turn>, q: nat, n: int)
    requires Dense(ts, q, n)
    ensures MaxSpot(ts, q).GetOr(0) == n
  {
    var m := MaxSpot(ts, q);
    if n == 0 {
      assert m.None?;
    } else {
      assert IsHeld(ts, q, n);
      var i :| 0 <= i < |ts| && Holds(ts[i], q) && ts[i].spot.value == n;
      assert m.Some?;
      var j :| 0 <= j < |ts| && Holds(ts[j], q) && ts[j].spot.value == m.value;
    }
  }

  /**
   * Decrementing the counter on removal agrees with recomputing it as the
   * maximum remaining spot (0 when none remain), whenever the queue was
   * dense before the removal.
   */
  lemma DecrementIsRecomputedMax(ts: seq<Turn>, k: nat, q: nat, n: int)
    requires k < |ts| && Holds(ts[k], q)
    requires Dense(ts, q, n)
    ensures MaxSpot(Renumbered(RemoveAt(ts, k), q, ts[k].spot.value), q).GetOr(0) == n - 1
  {
    RemoveKeepsDense(ts, k, q, n);
    DenseCounterIsMax(Renumbered(RemoveAt(ts, k), q, ts[k].spot.value), q, n - 1);
  }

  /** Queue ids are a primary key. */
  ghost predicate UniqueQueueIds(qs: seq<Queue>) {
    forall i, j :: 0 <= i < |qs| && 0 <= j < |qs| && i != j ==> qs[i].queueId != qs[j].queueId
  }

  /** Every queue of the table is dense with its own counter. */
  ghost predicate AllDense(qs: seq<Queue>, ts: seq<Turn>) {
    forall i :: 0 <= i < |qs| ==> Dense(ts, qs[i].queueId, qs[i].lastAssigned)
  }

  /**
   * Adding a queue with counter 0 that no turn refers to keeps every queue
   * dense.
   */
  lemma NewQueueKeepsAllDense(qs: seq<Queue>, ts: seq<Turn>, created: Queue)
    requires AllDense(qs, ts)
    requires created.lastAssigned == 0
    requires forall i :: 0 <= i < |ts| ==> ts[i].queueId != Some(created.queueId)
    ensures AllDense(qs + [created], ts)
  {
    var qs' := qs + [created];
    forall i | 0 <= i < |qs'| ensures Dense(ts, qs'[i].queueId, qs'[i].lastAssigned) {
      if i == |qs| {
        EmptyQueueDense(ts, created.queueId);
      } else {
        assert qs'[i] == qs[i];
      }
    }
  }

  /**
   * A whole join: incrementing the counter of queue `qi` and appending a
   * turn of that queue holding the new counter value keeps every queue
   * dense.
   */
  lemma JoinKeepsAllDense(qs: seq<Queue>, ts: seq<Turn>, qi: nat, t: Turn)
    requires AllDense(qs, ts) && UniqueQueueIds(qs)
    requires qi < |qs|
    requires t.queueId == Some(qs[qi].queueId) && t.spot == Some(qs[qi].lastAssigned + 1)
    ensures AllDense(qs[qi := qs[qi].(lastAssigned := qs[qi].lastAssigned + 1)], ts + [t])
  {
    var qs' := qs[qi := qs[qi].(lastAssigned := qs[qi].lastAssigned + 1)];
    forall i | 0 <= i < |qs'| ensures Dense(ts + [t], qs'[i].queueId, qs'[i].lastAssigned) {
      assert Dense(ts, qs[i].queueId, qs[i].lastAssigned);
      if i == qi {
        JoinKeepsDense(ts, t, qs[qi].queueId, qs[qi].lastAssigned);
      } else {
        assert qs[i].queueId != qs[qi].queueId;
        AppendUnheldKeepsDense(ts, t, qs[i].queueId, qs[i].lastAssigned);
      }
    }
  }

  /**
   * A whole removal: deleting turn `k` of queue `qi`, renumbering that
   * queue and decrementing its counter keeps every queue dense.
   */
  lemma RemoveKeepsAllDense(qs: seq<Queue>, ts: seq<Turn>, qi: nat, k: nat)
    requires AllDense(qs, ts) && UniqueQueueIds(qs)
    requires qi < |qs| && k < |ts| && Holds(ts[k], qs[qi].queueId)
    ensures AllDense(qs[qi := qs[qi].(lastAssigned := qs[qi].lastAssigned - 1)],
                     Renumbered(RemoveAt(ts, k), qs[qi].queueId, ts[k].spot.value))
  {
    var q := qs[qi].queueId;
    var qs' := qs[qi := qs[qi].(lastAssigned := qs[qi].lastAssigned - 1)];
    var ts' := Renumbered(RemoveAt(ts, k), q, ts[k].spot.value);
    forall i | 0 <= i < |qs'| ensures Dense(ts', qs'[i].queueId, qs'[i].lastAssigned) {
      assert Dense(ts, qs[i].queueId, qs[i].lastAssigned);
      if i == qi {
        RemoveKeepsDense(ts, k, q, qs[qi].lastAssigned);
      } else {
        RemoveKeepsOtherDense(ts, k, q, qs[i].queueId, qs[i].lastAssigned);
      }
    }
  }

  /**
   * The process transaction on turn `k` of queue `q` at spot `s`, stated
   * with the queue and spot as they are read from the row: a dense table
   * stays dense.
   */
  lemma ProcessKeepsAllDense(qs: seq<Queue>, ts: seq<Turn>, qi: nat, k: nat, q: nat, s: int)
    requires UniqueQueueIds(qs) && qi < |qs| && k < |ts|
    requires qs[qi].queueId == q && ts[k].queueId == Some(q) && ts[k].spot == Some(s)
    ensures AllDense(qs, ts) ==>
              AllDense(qs[qi := qs[qi].(lastAssigned := qs[qi].lastAssigned - 1)], Renumbered(RemoveAt(ts, k), q, s))
  {
    if AllDense(qs, ts) {
      RemoveKeepsAllDense(qs, ts, qi, k);
    }
  }
}
