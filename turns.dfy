/**
 * The two turn handlers over one store: joining an event's queue
 * (server/api/turns.post.ts) and processing, that is removing, a student's
 * turn (server/api/turns/process.post.ts). Each `$transaction` is one atomic
 * step: it is computed on local copies of the tables and committed whole,
 * or not at all.
 */
module Turns {
  import opened Wrappers
  import opened Web
  import opened QueueStore

  /** The join request body: `event_id` and `event_code`, either may be missing. */
  datatype JoinBody = JoinBody(eventId: Value, eventCode: Value)

  /** The join reply `{ turn, student, event }`. */
  datatype JoinReply = JoinReply(turn: Turn, studentId: int, event: EventRow)

  /** The process request body: `student_id` and `event_id`. */
  datatype ProcessBody = ProcessBody(studentId: Value, eventId: Value)

  /** Why the store rolled a `$transaction` back or refused an update. */
  datatype StoreError =
    | UniqueViolation   // P2002: a second turn for the same (event, student)
    | RecordNotFound    // P2025: the row to update does not exist

  /** The join body is present and names an event by a truthy id or code. */
  predicate JoinRequestOk(body: Option<JoinBody>) {
    body.Some? && (Truthy(body.value.eventId) || Truthy(body.value.eventCode))
  }

  /**
   * The student of the session context: 401 when there is no user or its
   * `student_id` is falsy, 500 when `Number()` of it is NaN (the store
   * rejects such a key).
   */
  function SessionStudentId(user: Option<Claims>): (r: Result<int, Failure>)
    ensures r == Err(Unauthorized) <==> user.None? || !Truthy(Field(user.value, "student_id"))
    ensures r.Err? ==> r.error == Unauthorized || r.error == Internal
    ensures r.Ok? ==> user.Some? && ToNumber(Field(user.value, "student_id")) == Some(r.value)
    ensures user.Some? && Truthy(Field(user.value, "student_id"))
            && ToNumber(Field(user.value, "student_id")).Some? ==>
              r == Ok(ToNumber(Field(user.value, "student_id")).value)
  {
    if user.None? || !Truthy(Field(user.value, "student_id")) then Err(Unauthorized)
    else
      match ToNumber(Field(user.value, "student_id"))
      case None => Err(Internal)
      case Some(n) => Ok(n)
  }

  /**
   * The event a join body names: by primary key whenever `event_id` is a
   * number (even when a code is given too), otherwise by the first event
   * whose code equals a string `event_code`.
   */
  function ResolveEvent(events: seq<EventRow>, body: JoinBody): (r: Option<EventRow>)
    ensures r.Some? ==> r.value in events
    ensures body.eventId.Num? ==>
      && (r.Some? <==> exists i :: 0 <= i < |events| && events[i].eventId == body.eventId.n)
      && (r.Some? ==> r.value.eventId == body.eventId.n)
    ensures !body.eventId.Num? && body.eventCode.Str? ==>
      && (r.Some? <==> exists i :: 0 <= i < |events| && events[i].eventCode == Some(body.eventCode.s))
      && (r.Some? ==> r.value.eventCode == Some(body.eventCode.s))
    ensures !body.eventId.Num? && !body.eventCode.Str? ==> r.None?
  {
    if body.eventId.Num? then
      match FindFirst(events, (e: EventRow) => e.eventId == body.eventId.n)
      case Some(i) => Some(events[i])
      case None => None
    else if body.eventCode.Str? then
      match FindFirst(events, (e: EventRow) => e.eventCode == Some(body.eventCode.s))
      case Some(i) => Some(events[i])
      case None => None
    else None
  }

  /**
   * Everything the join handler checks before it writes: a bad body is a
   * 400 before the session is looked at, a missing session student a 401
   * before the store is read; then an unknown student or event is a 404 and
   * an existing turn for the pair a 409. On success it yields the student id
   * and the event row.
   */
  function JoinPrecheck(students: set<int>, events: seq<EventRow>, turns: seq<Turn>,
                        body: Option<JoinBody>, user: Option<Claims>): (r: Result<(int, EventRow), Failure>)
    ensures !JoinRequestOk(body) ==> r == Err(BadRequest)
    ensures JoinRequestOk(body) && SessionStudentId(user).Err? ==> r == Err(SessionStudentId(user).error)
    ensures JoinRequestOk(body) && SessionStudentId(user).Ok? ==>
      var sid := SessionStudentId(user).value;
      var ev := ResolveEvent(events, body.value);
      && (r == Err(NotFound) <==> sid !in students || ev.None?)
      && (r == Err(Conflict) <==> sid in students && ev.Some? && FindTurn(turns, sid, ev.value.eventId).Some?)
      && (r.Ok? <==> sid in students && ev.Some? && FindTurn(turns, sid, ev.value.eventId).None?)
      && (r.Ok? ==> r.value == (sid, ev.value))
  {
    if !JoinRequestOk(body) then Err(BadRequest)
    else
      match SessionStudentId(user)
      case Err(f) => Err(f)
      case Ok(sid) =>
        if sid !in students then Err(NotFound)
        else
          match ResolveEvent(events, body.value)
          case None => Err(NotFound)
          case Some(ev) =>
            if FindTurn(turns, sid, ev.eventId).Some? then Err(Conflict)
            else Ok((sid, ev))
  }

  /** How the join handler reports a store error from its `try` block. */
  function JoinStoreFailure(e: StoreError): (f: Failure)
    ensures f == Conflict <==> e == UniqueViolation
    ensures f == Conflict || f == Internal
  {
    match e
    case UniqueViolation => Conflict
    case RecordNotFound => Internal
  }

  /**
   * The student and event numbers of a process body: 500 when there is no
   * body at all (destructuring it throws), 400 when either is falsy, 500
   * when `Number()` of either is NaN.
   */
  function ProcessKey(body: Option<ProcessBody>): (r: Result<(int, int), Failure>)
    ensures body.None? ==> r == Err(Internal)
    ensures r.Err? ==> r.error == BadRequest || r.error == Internal
    ensures body.Some? ==>
      (r == Err(BadRequest) <==> !Truthy(body.value.studentId) || !Truthy(body.value.eventId))
    ensures r.Ok? ==> body.Some? && ToNumber(body.value.studentId) == Some(r.value.0)
                                  && ToNumber(body.value.eventId) == Some(r.value.1)
    ensures body.Some? && body.value.studentId.Num? && body.value.eventId.Num?
            && body.value.studentId.n != 0 && body.value.eventId.n != 0 ==>
              r == Ok((body.value.studentId.n, body.value.eventId.n))
    ensures body.Some? && Truthy(body.value.studentId) && Truthy(body.value.eventId)
            && ToNumber(body.value.studentId).Some? && ToNumber(body.value.eventId).Some? ==>
              r == Ok((ToNumber(body.value.studentId).value, ToNumber(body.value.eventId).value))
  {
    if body.None? then Err(Internal)
    else if !Truthy(body.value.studentId) || !Truthy(body.value.eventId) then Err(BadRequest)
    else
      match (ToNumber(body.value.studentId), ToNumber(body.value.eventId))
      case (Some(sid), Some(eid)) => Ok((sid, eid))
      case _ => Err(Internal)
  }

  /**
   * Everything the process handler checks before its transaction: the body
   * as `ProcessKey` says, then a 404 when the student holds no turn for the
   * event, and a 500 integrity error when that turn has no queue or no
   * spot. On success it yields the index of the turn to remove.
   */
  function ProcessPrecheck(turns: seq<Turn>, body: Option<ProcessBody>): (r: Result<nat, Failure>)
    ensures ProcessKey(body).Err? ==> r == Err(ProcessKey(body).error)
    ensures ProcessKey(body).Ok? ==>
      var (sid, eid) := ProcessKey(body).value;
      && (r == Err(NotFound) <==> forall i :: 0 <= i < |turns| ==> !(turns[i].studentId == sid && turns[i].eventId == eid))
      && (r.Ok? ==> r.value < |turns| && turns[r.value].studentId == sid && turns[r.value].eventId == eid)
      && (r.Ok? ==> FindTurn(turns, sid, eid) == Some(r.value))
      && (r.Ok? <==> r != Err(NotFound) && r != Err(Internal))
      && (r == Err(Internal) <==> exists i :: 0 <= i < |turns| && FindTurn(turns, sid, eid) == Some(i)
                                             && (turns[i].queueId.None? || turns[i].spot.None?))
    ensures r.Ok? ==> turns[r.value].queueId.Some? && turns[r.value].spot.Some?
  {
    match ProcessKey(body)
    case Err(f) => Err(f)
    case Ok((sid, eid)) =>
      match FindTurn(turns, sid, eid)
      case None => Err(NotFound)
      case Some(k) =>
        if turns[k].queueId.None? || turns[k].spot.None? then Err(Internal)
        else Ok(k)
  }

  /**
   * The renumbering `updateMany`: every turn of queue `q` whose spot is
   * greater than `s` has its spot decremented, in one pass over the table.
   */
  method DecrementSpotsAbove(ts: seq<Turn>, q: nat, s: int) returns (r: seq<Turn>)
    ensures r == Renumbered(ts, q, s)
  {
    r := ts;
    var i := 0;
    while i < |r|
      invariant |r| == |ts| && 0 <= i <= |r|
      invariant forall j :: 0 <= j < i ==> r[j] == Lowered(ts[j], q, s)
      invariant forall j :: i <= j < |r| ==> r[j] == ts[j]
    {
      if Holds(r[i], q) && r[i].spot.value > s {
        r := r[i := r[i].(spot := Some(r[i].spot.value - 1))];
      }
      i := i + 1;
    }
  }

  /** Queue ids are unique and below the next id to hand out. */
  ghost predicate QueueKeys(qs: seq<Queue>, nextQueueId: nat) {
    UniqueQueueIds(qs) && forall i :: 0 <= i < |qs| ==> qs[i].queueId < nextQueueId
  }

  /**
   * Turn ids are unique and below the next id to hand out, every turn's
   * queue id was handed out, and (event, student) is unique among turns.
   */
  ghost predicate TurnKeys(ts: seq<Turn>, nextQueueId: nat, nextTurnId: nat) {
    && (forall i, j :: 0 <= i < |ts| && 0 <= j < |ts| && i != j ==> ts[i].turnId != ts[j].turnId)
    && (forall i :: 0 <= i < |ts| ==> ts[i].turnId < nextTurnId)
    && (forall i :: 0 <= i < |ts| && ts[i].queueId.Some? ==> ts[i].queueId.value < nextQueueId)
    && (forall i, j :: 0 <= i < |ts| && 0 <= j < |ts| && i != j ==>
          !(ts[i].studentId == ts[j].studentId && ts[i].eventId == ts[j].eventId))
  }

  /**
   * A removal keeps the turn keys: the remaining rows keep their keys, and
   * the removed (student, event) pair no longer holds a turn.
   */
  lemma RemoveKeepsTurnKeys(ts: seq<Turn>, k: nat, q: nat, s: int, nextQueueId: nat, nextTurnId: nat)
    requires k < |ts| && TurnKeys(ts, nextQueueId, nextTurnId)
    ensures TurnKeys(Renumbered(RemoveAt(ts, k), q, s), nextQueueId, nextTurnId)
    ensures FindTurn(Renumbered(RemoveAt(ts, k), q, s), ts[k].studentId, ts[k].eventId).None?
  {
    var r := Renumbered(RemoveAt(ts, k), q, s);
    forall i | 0 <= i < |r|
      ensures Orig(i, k) < |ts| && Orig(i, k) != k
      ensures r[i].(spot := ts[Orig(i, k)].spot) == ts[Orig(i, k)]
    {
      RemovedRow(ts, k, q, s, i);
    }
    forall i, j | 0 <= i < |r| && 0 <= j < |r| && i != j
      ensures r[i].turnId != r[j].turnId
      ensures !(r[i].studentId == r[j].studentId && r[i].eventId == r[j].eventId)
    {
      assert Orig(i, k) != Orig(j, k);
    }
  }

  /** Changing one queue's counter keeps the queue keys. */
  lemma RecountKeepsQueueKeys(qs: seq<Queue>, qi: nat, c: int, nextQueueId: nat)
    requires qi < |qs| && QueueKeys(qs, nextQueueId)
    ensures QueueKeys(qs[qi := qs[qi].(lastAssigned := c)], nextQueueId)
  {
    var qs' := qs[qi := qs[qi].(lastAssigned := c)];
    assert forall i :: 0 <= i < |qs| ==> qs'[i].queueId == qs[i].queueId;
  }

  /** Appending a turn with a fresh id, a handed-out queue and a new (student, event) pair keeps the turn keys. */
  lemma AppendKeepsTurnKeys(ts: seq<Turn>, t: Turn, nextQueueId: nat, nextTurnId: nat)
    requires TurnKeys(ts, nextQueueId, nextTurnId)
    requires t.turnId == nextTurnId && (t.queueId.Some? ==> t.queueId.value < nextQueueId)
    requires FindTurn(ts, t.studentId, t.eventId).None?
    ensures TurnKeys(ts + [t], nextQueueId, nextTurnId + 1)
  {
  }

  /** The queue and turn tables, with the student and event tables they read. */
  class Store {
    var students: set<int>
    var events: seq<EventRow>
    var queues: seq<Queue>
    var turns: seq<Turn>
    var nextQueueId: nat
    var nextTurnId: nat

    /**
     * The store's key constraints: queue and turn ids are unique and below
     * the next id to hand out, every turn's queue id was handed out, and
     * (event, student) is unique among turns.
     */
    ghost predicate Valid()
      reads this
    {
      QueueKeys(queues, nextQueueId) && TurnKeys(turns, nextQueueId, nextTurnId)
    }

    /** Valid, and every queue dense: the state between whole requests. */
    ghost predicate Consistent()
      reads this
    {
      Valid() && AllDense(queues, turns)
    }

    constructor (students: set<int>, events: seq<EventRow>)
      ensures Consistent()
      ensures this.students == students && this.events == events
      ensures queues == [] && turns == []
    {
      this.students := students;
      this.events := events;
      queues, turns := [], [];
      nextQueueId, nextTurnId := 1, 1;
    }

    /**
     * The join `$transaction`: increment the counter of queue `qid`, then
     * insert a turn for (`event`, `student`) in that queue with no spot. The
     * first step fails when the queue row is missing, the second when the
     * pair already holds a turn; either failure rolls both back.
     */
    method JoinTransaction(qid: nat, event: int, student: int) returns (r: Result<(Queue, Turn), StoreError>)
      requires Valid()
      modifies this
      ensures Valid()
      ensures students == old(students) && events == old(events) && nextQueueId == old(nextQueueId)
      ensures FindQueue(old(queues), qid).None? ==> r == Err(RecordNotFound) && unchanged(this)
      ensures FindQueue(old(queues), qid).Some? && FindTurn(old(turns), student, event).Some? ==>
                r == Err(UniqueViolation) && unchanged(this)
      ensures FindQueue(old(queues), qid).Some? && FindTurn(old(turns), student, event).None? ==>
        var qi := FindQueue(old(queues), qid).value;
        var updated := old(queues)[qi].(lastAssigned := old(queues)[qi].lastAssigned + 1);
        var created := Turn(old(nextTurnId), student, event, Some(qid), None);
        && r == Ok((updated, created))
        && queues == old(queues)[qi := updated]
        && turns == old(turns) + [created]
        && nextTurnId == old(nextTurnId) + 1
        && (Dense(old(turns), qid, old(queues)[qi].lastAssigned) ==>
              Dense(turns, qid, old(queues)[qi].lastAssigned) && !Dense(turns, qid, updated.lastAssigned))
    {
      var qi := FindQueue(queues, qid);
      if qi.None? {
        return Err(RecordNotFound);
      }
      if FindTurn(turns, student, event).Some? {
        return Err(UniqueViolation);
      }
      var updated := queues[qi.value].(lastAssigned := queues[qi.value].lastAssigned + 1);
      var created := Turn(nextTurnId, student, event, Some(qid), None);
      ghost var n := queues[qi.value].lastAssigned;
      AppendKeepsTurnKeys(turns, created, nextQueueId, nextTurnId);
      RecountKeepsQueueKeys(queues, qi.value, n + 1, nextQueueId);
      assert Dense(turns, qid, n) ==>
               Dense(turns + [created], qid, n) && !Dense(turns + [created], qid, n + 1) by {
        if Dense(turns, qid, n) {
          JoinTransientDense(turns, created, qid, n);
        }
      }
      queues, turns, nextTurnId := queues[qi.value := updated], turns + [created], nextTurnId + 1;
      r := Ok((updated, created));
    }

    /**
     * The follow-up `update` of a turn's `spot_number` by turn id; a
     * missing turn is a store error and changes nothing.
     */
    method SetSpot(turnId: nat, spot: int) returns (r: Result<Turn, StoreError>)
      requires Valid()
      modifies this
      ensures Valid()
      ensures students == old(students) && events == old(events) && queues == old(queues)
      ensures nextQueueId == old(nextQueueId) && nextTurnId == old(nextTurnId)
      ensures FindTurnById(old(turns), turnId).None? ==> r == Err(RecordNotFound) && unchanged(this)
      ensures FindTurnById(old(turns), turnId).Some? ==>
        var k := FindTurnById(old(turns), turnId).value;
        && r == Ok(old(turns)[k].(spot := Some(spot)))
        && turns == old(turns)[k := r.value]
    {
      var k := FindTurnById(turns, turnId);
      if k.None? {
        return Err(RecordNotFound);
      }
      var t := turns[k.value].(spot := Some(spot));
      turns := turns[k.value := t];
      r := Ok(t);
    }

    /**
     * The queue of event `e`: the first queue row of the event, or else a
     * new row with counter 0, created outside any transaction.
     */
    method FindOrCreateQueue(e: int) returns (qi: nat)
      requires Valid()
      modifies this
      ensures Valid()
      ensures students == old(students) && events == old(events) && turns == old(turns)
      ensures nextTurnId == old(nextTurnId)
      ensures qi < |queues|
      ensures FindQueueOfEvent(old(queues), e).Some? ==>
                qi == FindQueueOfEvent(old(queues), e).value && unchanged(this)
      ensures FindQueueOfEvent(old(queues), e).None? ==>
                && qi == |old(queues)|
                && queues == old(queues) + [Queue(old(nextQueueId), e, 0)]
                && nextQueueId == old(nextQueueId) + 1
      ensures FindQueue(queues, queues[qi].queueId) == Some(qi)
      ensures AllDense(old(queues), turns) ==> AllDense(queues, turns)
    {
      var found := FindQueueOfEvent(queues, e);
      if found.Some? {
        qi := found.value;
      } else {
        ghost var queues0 := queues;
        qi := |queues|;
        queues := queues + [Queue(nextQueueId, e, 0)];
        nextQueueId := nextQueueId + 1;
        if AllDense(queues0, turns) {
          NewQueueKeepsAllDense(queues0, turns, queues[qi]);
        }
      }
      FindQueueOwnId(queues, qi);
    }

    /**
     * The writes of a join that passed its checks: find or create the
     * event's queue, run the transaction, then write the new counter into
     * the new turn. The new turn is the only new turn and holds the
     * incremented counter, no other queue changes, and dense queues stay
     * dense.
     */
    method Enqueue(sid: int, e: int) returns (r: Result<Turn, Failure>)
      requires Valid()
      requires FindTurn(turns, sid, e).None?
      modifies this
      ensures Valid()
      ensures students == old(students) && events == old(events)
      ensures
        var found := FindQueueOfEvent(old(queues), e);
        var qi := if found.Some? then found.value else |old(queues)|;
        var qid := if found.Some? then old(queues)[qi].queueId else old(nextQueueId);
        var last := if found.Some? then old(queues)[qi].lastAssigned + 1 else 1;
        var created := Turn(old(nextTurnId), sid, e, Some(qid), Some(last));
        && r == Ok(created)
        && turns == old(turns) + [created]
        && (found.Some? ==> queues == old(queues)[qi := old(queues)[qi].(lastAssigned := last)])
        && (found.None? ==> queues == old(queues) + [Queue(qid, e, 1)])
      ensures AllDense(old(queues), old(turns)) ==> AllDense(queues, turns)
    {
      ghost var turns0, queues0 := turns, queues;
      ghost var found := FindQueueOfEvent(queues, e);
      var qi := FindOrCreateQueue(e);
      ghost var queues1 := queues;
      var qid := queues[qi].queueId;
      var tx := JoinTransaction(qid, e, sid);
      var updatedQueue, createdTurn;
      match tx {
        case Err(failure) => return Err(JoinStoreFailure(failure));
        case Ok((u, c)) => updatedQueue, createdTurn := u, c;
      }
      assert updatedQueue.lastAssigned == queues1[qi].lastAssigned + 1;
      assert createdTurn == Turn(old(nextTurnId), sid, e, Some(qid), None);
      FindTurnByIdLast(turns0, createdTurn);
      var written := SetSpot(createdTurn.turnId, updatedQueue.lastAssigned);
      var turn;
      match written {
        case Err(failure) => return Err(JoinStoreFailure(failure));
        case Ok(t) => turn := t;
      }
      assert turn == createdTurn.(spot := Some(updatedQueue.lastAssigned));
      r := Ok(turn);
      assert turns == turns0 + [turn];
      assert queues == queues1[qi := updatedQueue];
      if found.Some? {
        assert queues1 == queues0 && qi == found.value;
      } else {
        assert queues1 == queues0 + [Queue(qid, e, 0)] && qi == |queues0|;
        assert updatedQueue == Queue(qid, e, 1);
        assert queues == queues0 + [Queue(qid, e, 1)];
      }
      assert AllDense(queues1, turns0) ==> AllDense(queues, turns) by {
        if AllDense(queues1, turns0) {
          JoinKeepsAllDense(queues1, turns0, qi, turn);
        }
      }
    }

    /**
     * POST /api/turns: the checks of `JoinPrecheck`, and on success the
     * writes of `Enqueue`; a failed check changes nothing.
     */
    method Join(body: Option<JoinBody>, user: Option<Claims>) returns (r: Result<JoinReply, Failure>)
      requires Valid()
      modifies this
      ensures Valid()
      ensures students == old(students) && events == old(events)
      ensures var pre := JoinPrecheck(old(students), old(events), old(turns), body, user);
        pre.Err? ==> r == Err(pre.error) && unchanged(this)
      ensures var pre := JoinPrecheck(old(students), old(events), old(turns), body, user);
        pre.Ok? ==>
          var (sid, ev) := pre.value;
          var found := FindQueueOfEvent(old(queues), ev.eventId);
          var qi := if found.Some? then found.value else |old(queues)|;
          var qid := if found.Some? then old(queues)[qi].queueId else old(nextQueueId);
          var last := if found.Some? then old(queues)[qi].lastAssigned + 1 else 1;
          var created := Turn(old(nextTurnId), sid, ev.eventId, Some(qid), Some(last));
          && r == Ok(JoinReply(created, sid, ev))
          && turns == old(turns) + [created]
          && (found.Some? ==> queues == old(queues)[qi := old(queues)[qi].(lastAssigned := last)])
          && (found.None? ==> queues == old(queues) + [Queue(qid, ev.eventId, 1)])
      ensures old(Consistent()) ==> Consistent()
    {
      var pre := JoinPrecheck(students, events, turns, body, user);
      if pre.Err? {
        return Err(pre.error);
      }
      var (sid, ev) := pre.value;
      var t := Enqueue(sid, ev.eventId);
      match t {
        case Err(failure) => r := Err(failure);
        case Ok(turn) => r := Ok(JoinReply(turn, sid, ev));
      }
    }

    /**
     * The process transaction for turn `k`: delete it, move every later
     * spot of its queue up by one and decrement the queue's counter, all on
     * local copies that are committed together; if the queue row is missing
     * nothing is committed.
     */
    method RemoveTurn(k: nat) returns (r: Result<int, Failure>)
      requires Valid()
      requires k < |turns| && turns[k].queueId.Some? && turns[k].spot.Some?
      modifies this
      ensures Valid()
      ensures students == old(students) && events == old(events)
      ensures nextQueueId == old(nextQueueId) && nextTurnId == old(nextTurnId)
      ensures
        var q := old(turns)[k].queueId.value;
        var s := old(turns)[k].spot.value;
        var qi := FindQueue(old(queues), q);
        && (qi.None? ==> r == Err(Internal) && unchanged(this))
        && (qi.Some? ==>
              && r == Ok(s)
              && turns == Renumbered(RemoveAt(old(turns), k), q, s)
              && queues == old(queues)[qi.value := old(queues)[qi.value].(lastAssigned := old(queues)[qi.value].lastAssigned - 1)])
      ensures r.Ok? ==> FindTurn(turns, old(turns)[k].studentId, old(turns)[k].eventId).None?
      ensures AllDense(old(queues), old(turns)) ==> AllDense(queues, turns)
    {
      var q := turns[k].queueId.value;
      var s := turns[k].spot.value;
      var qi := FindQueue(queues, q);
      if qi.None? {
        return Err(Internal);
      }
      var recounted := queues[qi.value := queues[qi.value].(lastAssigned := queues[qi.value].lastAssigned - 1)];
      RemoveKeepsTurnKeys(turns, k, q, s, nextQueueId, nextTurnId);
      RecountKeepsQueueKeys(queues, qi.value, queues[qi.value].lastAssigned - 1, nextQueueId);
      ProcessKeepsAllDense(queues, turns, qi.value, k, q, s);
      var renumbered := DecrementSpotsAbove(RemoveAt(turns, k), q, s);
      turns, queues := renumbered, recounted;
      r := Ok(s);
    }

    /**
     * POST /api/turns/process: the checks of `ProcessPrecheck`, and on
     * success the transaction of `RemoveTurn`. A failed check changes
     * nothing; on success the reply is the removed spot and the student no
     * longer holds a turn for the event, so a second call is a 404.
     */
    method Process(body: Option<ProcessBody>) returns (r: Result<int, Failure>)
      requires Valid()
      modifies this
      ensures Valid()
      ensures students == old(students) && events == old(events)
      ensures nextQueueId == old(nextQueueId) && nextTurnId == old(nextTurnId)
      ensures var pre := ProcessPrecheck(old(turns), body);
        pre.Err? ==> r == Err(pre.error) && unchanged(this)
      ensures var pre := ProcessPrecheck(old(turns), body);
        pre.Ok? ==>
          var k := pre.value;
          var q := old(turns)[k].queueId.value;
          var s := old(turns)[k].spot.value;
          var qi := FindQueue(old(queues), q);
          && (qi.None? ==> r == Err(Internal) && unchanged(this))
          && (qi.Some? ==>
                && r == Ok(s)
                && turns == Renumbered(RemoveAt(old(turns), k), q, s)
                && queues == old(queues)[qi.value := old(queues)[qi.value].(lastAssigned := old(queues)[qi.value].lastAssigned - 1)])
      ensures r.Ok? ==>
        && ProcessKey(body).Ok?
        && FindTurn(turns, ProcessKey(body).value.0, ProcessKey(body).value.1).None?
      ensures old(Consistent()) ==> Consistent()
    {
      var pre := ProcessPrecheck(turns, body);
      if pre.Err? {
        return Err(pre.error);
      }
      r := RemoveTurn(pre.value);
    }
  }

  /**
   * A student who joins an event and then sends the same join again gets
   * a 409 the second time: the first join left a turn for the pair.
   */
  method JoinTwice(store: Store, body: Option<JoinBody>, user: Option<Claims>)
    returns (first: Result<JoinReply, Failure>, second: Result<JoinReply, Failure>)
    requires store.Valid()
    modifies store
    ensures first.Ok? ==> second == Err(Conflict)
  {
    first := store.Join(body, user);
    ghost var turns1 := store.turns;
    second := store.Join(body, user);
    if first.Ok? {
      var t := first.value.turn;
      assert turns1[|turns1| - 1] == t;
      assert FindTurn(turns1, t.studentId, t.eventId).Some?;
    }
  }

  /**
   * Processing the same student and event twice: once the first call has
   * removed the turn, the second finds nothing and is a 404, never a
   * second success.
   */
  method ProcessTwice(store: Store, body: Option<ProcessBody>)
    returns (first: Result<int, Failure>, second: Result<int, Failure>)
    requires store.Valid()
    modifies store
    ensures first.Ok? ==> second == Err(NotFound)
  {
    first := store.Process(body);
    second := store.Process(body);
  }
}
