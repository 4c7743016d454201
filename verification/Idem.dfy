/** Idempotency keys (app/services/idem.py and its use in create_queue_task): one Redis key per token
    and client key, raced by requests. */
module Idem {
  import opened Wrappers

  type TaskId = nat
  type RequestId = nat

  /** The value under the key. */
  datatype Value = Absent | Pending | Filled(task: TaskId)

  // ---- the Redis key ----

  /** From `expires` on Redis no longer has it. */
  datatype Key = Key(value: Value, expires: int)

  const NO_KEY := Key(Absent, 0)

  /** GET */
  function Read(k: Key, now: int): Value { if now >= k.expires then Absent else k.value }

  /** SET NX takes the key unless it is there. */
  predicate Takes(k: Key, now: int) { Read(k, now) == Absent }

  function Placed(now: int, ttl: nat): Key { Key(Pending, now + ttl) }

  /** `set_task_id`: whatever is there is overwritten. */
  function Fill(t: TaskId, now: int, ttl: nat): Key { Key(Filled(t), now + ttl) }

  /** `release`: the CAS delete of the placeholder. */
  function Released(k: Key, now: int): Key { if Read(k, now) == Pending then NO_KEY else k }

  /** The key, updated in place by the statements of idem.py. */
  class IdemKey {
    var key: Key

    constructor ()
      ensures key == NO_KEY
    { key := NO_KEY; }

    /** The first statement of `acquire`; the second one, if it is needed, is TaskIdAt. */
    method Place(now: int, ttl: nat) returns (owned: bool)
      modifies this
      ensures owned == Takes(old(key), now)
      ensures key == if owned then Placed(now, ttl) else old(key)
    {
      owned := now >= key.expires || key.value.Absent?;
      if owned { key := Key(Pending, now + ttl); }
    }

    /** `get_task_id` */
    method TaskIdAt(now: int) returns (task: Option<TaskId>)
      ensures task == if Read(key, now).Filled? then Some(Read(key, now).task) else None
    {
      task := if now < key.expires && key.value.Filled? then Some(key.value.task) else None;
    }

    /** From now on, and for its whole time to live, every reader finds the task id; then nothing. */
    method SetTaskId(t: TaskId, now: int, ttl: nat)
      modifies this
      ensures key == Fill(t, now, ttl)
      ensures forall later | later >= now :: Read(key, later) == if later < now + ttl then Filled(t) else Absent
    {
      key := Key(Filled(t), now + ttl);
    }

    /** No reader finds the placeholder any more, and a reader of a task id still finds it. */
    method Release(now: int)
      modifies this
      ensures key == Released(old(key), now)
      ensures forall later | later >= now ::
                Read(key, later) == if Read(old(key), now) == Pending then Absent else Read(old(key), later)
    {
      if now < key.expires && key.value.Pending? { key := NO_KEY; }
    }
  }

  /** One turn of the polling loop: the clock as the loop test reads it, and the value then read. */
  datatype Turn = Turn(clock: real, value: Value)

  /** The turn at which polling ends: the clock ran out or the key is no placeholder any more. */
  predicate Ends(turn: Turn, deadline: real) { turn.clock >= deadline || turn.value != Pending }

  /** `wait_task_id`: polls until the placeholder is replaced, vanishes, or the deadline passes.  The
      turns are what successive iterations observe; `|turns|` of them bring it past the deadline. */
  method WaitTaskId(turns: seq<Turn>, deadline: real) returns (r: Option<TaskId>)
    ensures r.Some? <==> exists i :: 0 <= i < |turns| && turns[i].clock < deadline && turns[i].value.Filled?
                                     && forall k :: 0 <= k < i ==> !Ends(turns[k], deadline)
    ensures forall i :: 0 <= i < |turns| && Ends(turns[i], deadline) && (forall k :: 0 <= k < i ==> !Ends(turns[k], deadline))
              ==> r == if turns[i].clock < deadline && turns[i].value.Filled? then Some(turns[i].value.task) else None
  {
    var n := 0;
    while n < |turns| && turns[n].clock < deadline
      invariant n <= |turns|
      invariant forall k :: 0 <= k < n ==> !Ends(turns[k], deadline)
    {
      match turns[n].value
      case Absent => return None;
      case Filled(t) => return Some(t);
      case Pending => n := n + 1;
    }
    return None;
  }

  // ---- requests racing on one key ----

  datatype Pc =
    | SetNx                          // about to place
    | Reread                         // placed by another: about to GET
    | Poll(deadline: int)            // waiting for the other's task id
    | Owner                          // owns the placeholder, row not yet created
    | BackFill(task: TaskId)         // row created
    | Serve(task: TaskId)            // back-filled, about to publish and answer
    | Undo(owned: bool)              // in the handler, about to release; `owned`: before back-fill
    | Answered(task: TaskId)
    | Conflict
    | Failed

  datatype Request = Request(pc: Pc, alive: bool)

  datatype State = State(
    key: Key,
    now: int,
    requests: map<RequestId, Request>,
    rows: set<TaskId>,               // rows created under this key
    creator: RequestId)              // history: who created the last of them

  datatype Config = Config(pendingTtl: nat, idemTtl: nat, replayWait: nat)

  datatype Event =
    | Arrive(r: RequestId)
    | Advance(r: RequestId)                  // the next statement succeeds
    | CreateRow(r: RequestId, task: TaskId)
    | Raise(r: RequestId)                    // the next statement, or a check before it, raises
    | Crash(r: RequestId)
    | Tick(seconds: nat)

  predicate Enabled(s: State, e: Event) {
    match e
    case Arrive(r) => r !in s.requests
    case Advance(r) =>
      r in s.requests && s.requests[r].alive
      && (var pc := s.requests[r].pc; pc.SetNx? || pc.Reread? || pc.Poll? || pc.BackFill? || pc.Serve? || pc.Undo?)
    case CreateRow(r, t) => r in s.requests && s.requests[r].alive && s.requests[r].pc.Owner? && t !in s.rows
    case Raise(r) =>
      r in s.requests && s.requests[r].alive
      && (var pc := s.requests[r].pc; pc.Owner? || pc.BackFill? || pc.Serve?)
    case Crash(r) => r in s.requests
    case Tick(_) => true
  }

  function Seen(s: State): Value { Read(s.key, s.now) }

  function Go(s: State, r: RequestId, pc: Pc): State { s.(requests := s.requests[r := Request(pc, true)]) }

  function Next(cfg: Config, s: State, e: Event): State
    requires Enabled(s, e)
  {
    match e
    case Arrive(r) => Go(s, r, SetNx)
    case Advance(r) =>
      (match s.requests[r].pc
       case SetNx =>
         if Takes(s.key, s.now) then Go(s, r, Owner).(key := Placed(s.now, cfg.pendingTtl))
         else Go(s, r, Reread)
       case Reread =>
         if Seen(s).Filled? then Go(s, r, Answered(Seen(s).task)) else Go(s, r, Poll(s.now + cfg.replayWait))
       case Poll(deadline) =>
         if s.now >= deadline || Seen(s) == Absent then Go(s, r, Conflict)
         else if Seen(s).Filled? then Go(s, r, Answered(Seen(s).task))
         else s
       case BackFill(t) => Go(s, r, Serve(t)).(key := Fill(t, s.now, cfg.idemTtl))
       case Serve(t) => Go(s, r, Answered(t))
       case _ => Go(s, r, Failed).(key := Released(s.key, s.now)))
    case CreateRow(r, t) => Go(s, r, BackFill(t)).(rows := s.rows + {t}, creator := r)
    case Raise(r) => Go(s, r, Undo(!s.requests[r].pc.Serve?))
    case Crash(r) => s.(requests := s.requests[r := s.requests[r].(alive := false)])
    case Tick(d) => s.(now := s.now + d)
  }

  predicate Runs(cfg: Config, s: State, es: seq<Event>)
    decreases |es|
  {
    es == [] || (Enabled(s, es[0]) && Runs(cfg, Next(cfg, s, es[0]), es[1..]))
  }

  function Exec(cfg: Config, s: State, es: seq<Event>): State
    requires Runs(cfg, s, es)
    decreases |es|
  {
    if es == [] then s else Exec(cfg, Next(cfg, s, es[0]), es[1..])
  }

  const INIT := State(NO_KEY, 0, map[], {}, 0)

  // ---- the hypotheses ----

  /** A request that lives on the placeholder: it owns it and has not replaced or released it. */
  predicate OnPlaceholder(q: Request) {
    || q.pc.BackFill?
    || (q.alive && (q.pc.Owner? || q.pc == Undo(true)))
  }

  /** Creation finishes within the placeholder's TTL. */
  ghost predicate InTime(s: State, e: Event) {
    e.Tick? && (exists r | r in s.requests :: OnPlaceholder(s.requests[r])) ==> s.now + e.seconds < s.key.expires
  }

  /** The run stays within the TTL of the task id. */
  predicate KeyLasts(s: State, e: Event) {
    e.Tick? && s.key.value.Filled? ==> s.now + e.seconds < s.key.expires
  }

  /** Nothing fails between the creation of the row and the back-fill. */
  predicate BackFillSafe(s: State, e: Event) {
    (e.Raise? || e.Crash?) && e.r in s.requests ==> !s.requests[e.r].pc.BackFill?
  }

  ghost predicate Disciplined(s: State, e: Event) { InTime(s, e) && KeyLasts(s, e) && BackFillSafe(s, e) }

  ghost predicate DisciplinedRun(cfg: Config, s: State, es: seq<Event>)
    requires Runs(cfg, s, es)
    decreases |es|
  {
    es != [] ==> Disciplined(s, es[0]) && DisciplinedRun(cfg, Next(cfg, s, es[0]), es[1..])
  }

  // ---- the invariant ----

  predicate RequestOk(s: State, q: Request) {
    && (OnPlaceholder(q) ==> Seen(s) == Pending)
    && (q.pc.BackFill? ==> s.rows == {q.pc.task})
    && (q.alive && (q.pc.Owner? || q.pc == Undo(true)) ==> s.rows == {})
    && (q.pc.Serve? || q.pc.Answered? ==> Seen(s) == Filled(q.pc.task))
    && (q.pc == Undo(false) ==> Seen(s).Filled?)
  }

  ghost predicate Inv(s: State) {
    && (forall r | r in s.requests :: RequestOk(s, s.requests[r]))
    && (forall r, q | r in s.requests && q in s.requests
          && OnPlaceholder(s.requests[r]) && OnPlaceholder(s.requests[q]) :: r == q)
    && (s.key.value.Filled? ==> s.now < s.key.expires && s.rows == {s.key.value.task})
    && (s.rows == {} || (exists t :: s.rows == {t}))
    && (s.rows != {} ==> s.key.value.Filled? || (s.creator in s.requests && s.requests[s.creator].pc.BackFill?))
  }

  /** The legal moves of the key. */
  predicate Moves(v: Value, v': Value) {
    v == v' || (v == Absent && v' == Pending) || (v == Pending && v' != Pending)
  }

  lemma AdvanceKeepsInv(cfg: Config, s: State, r: RequestId)
    requires cfg.pendingTtl > 0 && cfg.idemTtl > 0 && Inv(s) && Enabled(s, Advance(r))
    ensures Inv(Next(cfg, s, Advance(r))) && Moves(Seen(s), Seen(Next(cfg, s, Advance(r))))
  {
  }

  /** Every event of a disciplined run keeps the invariant, and the key only moves from absent to
      pending, from pending to the task id, or from pending back to absent. */
  lemma NextKeepsInv(cfg: Config, s: State, e: Event)
    requires cfg.pendingTtl > 0 && cfg.idemTtl > 0 && Inv(s) && Enabled(s, e) && Disciplined(s, e)
    ensures Inv(Next(cfg, s, e)) && Moves(Seen(s), Seen(Next(cfg, s, e)))
  {
    if e.Advance? { AdvanceKeepsInv(cfg, s, e.r); }
  }

  // ---- at most one row, exactly ----

  predicate LivingOwner(s: State, r: RequestId) { r in s.requests && s.requests[r].alive && s.requests[r].pc.Owner? }

  /** One row at most, and nobody left to create a second one. */
  ghost predicate Calm(s: State) {
    && |s.rows| <= 1
    && (forall r | LivingOwner(s, r) :: s.rows == {})
    && (forall r, q | LivingOwner(s, r) && LivingOwner(s, q) :: r == q)
  }

  /** SET NX succeeds although there is a row already, or another owner still on its way to one. */
  ghost predicate Retakes(s: State, e: Event) {
    && e.Advance? && e.r in s.requests && s.requests[e.r].pc.SetNx? && Takes(s.key, s.now)
    && (s.rows != {} || exists q :: LivingOwner(s, q))
  }

  lemma OwnerBefore(cfg: Config, s: State, e: Event, r: RequestId)
    requires Enabled(s, e) && LivingOwner(Next(cfg, s, e), r)
    ensures (LivingOwner(s, r) && !(e.CreateRow? && e.r == r))
            || (e == Advance(r) && s.requests[r].pc.SetNx? && Takes(s.key, s.now))
  {
  }

  lemma RetakingDisturbs(cfg: Config, s: State, e: Event)
    requires Enabled(s, e) && Retakes(s, e)
    ensures !Calm(Next(cfg, s, e))
  {
    var s' := Next(cfg, s, e);
    assert LivingOwner(s', e.r);
    if s.rows == {} {
      var q :| LivingOwner(s, q);
      assert LivingOwner(s', q) && q != e.r;
    }
  }

  lemma RowsStayFew(cfg: Config, s: State, e: Event)
    requires Calm(s) && Enabled(s, e)
    ensures |Next(cfg, s, e).rows| <= 1
  {
    if e.CreateRow? { assert LivingOwner(s, e.r); }
  }

  lemma OwnersStayFew(cfg: Config, s: State, e: Event, r: RequestId, q: RequestId)
    requires Calm(s) && Enabled(s, e) && !Retakes(s, e)
    requires LivingOwner(Next(cfg, s, e), r) && LivingOwner(Next(cfg, s, e), q)
    ensures Next(cfg, s, e).rows == {} && r == q
  {
    assert e.CreateRow? ==> LivingOwner(s, e.r);
    OwnerBefore(cfg, s, e, r);
    OwnerBefore(cfg, s, e, q);
  }

  /** One event keeps a calm state calm if and only if it does not retake the key. */
  lemma CalmStep(cfg: Config, s: State, e: Event)
    requires Calm(s) && Enabled(s, e)
    ensures Calm(Next(cfg, s, e)) <==> !Retakes(s, e)
  {
    if Retakes(s, e) {
      RetakingDisturbs(cfg, s, e);
    } else {
      var s' := Next(cfg, s, e);
      RowsStayFew(cfg, s, e);
      forall r | LivingOwner(s', r) ensures s'.rows == {} { OwnersStayFew(cfg, s, e, r, r); }
      forall r, q | LivingOwner(s', r) && LivingOwner(s', q) ensures r == q { OwnersStayFew(cfg, s, e, r, q); }
    }
  }

  /** What the owners of a state can still do by creating their rows. */
  predicate OnlyCreates(es: seq<Event>) { forall e | e in es :: e.CreateRow? }

  /** No such continuation has two rows under the key. */
  ghost predicate Safe(cfg: Config, s: State) {
    forall es | Runs(cfg, s, es) && OnlyCreates(es) :: |Exec(cfg, s, es).rows| <= 1
  }

  lemma {:induction false} CalmCreates(cfg: Config, s: State, es: seq<Event>)
    requires Calm(s) && Runs(cfg, s, es) && OnlyCreates(es)
    ensures |Exec(cfg, s, es).rows| <= 1
    decreases |es|
  {
    if es != [] {
      assert es[0] in es && forall e | e in es[1..] :: e in es;
      CalmStep(cfg, s, es[0]);
      CalmCreates(cfg, Next(cfg, s, es[0]), es[1..]);
    }
  }

  lemma OneCreate(cfg: Config, s: State, r: RequestId) returns (e: Event)
    requires LivingOwner(s, r)
    ensures e.CreateRow? && e.r == r && Enabled(s, e) && Next(cfg, s, e).rows == s.rows + {e.task} && e.task !in s.rows
    ensures Runs(cfg, s, [e]) && Exec(cfg, s, [e]) == Next(cfg, s, e)
  {
    var t := Unused(s.rows, 0);
    e := CreateRow(r, t);
    assert [e][1..] == [] && Runs(cfg, Next(cfg, s, e), []);
  }

  /** Calm is what safety comes to. */
  lemma SafeIsCalm(cfg: Config, s: State)
    ensures Safe(cfg, s) <==> Calm(s)
  {
    if Calm(s) {
      forall es | Runs(cfg, s, es) && OnlyCreates(es)
        ensures |Exec(cfg, s, es).rows| <= 1
      { CalmCreates(cfg, s, es); }
    } else {
      var es := Disturb(cfg, s);
    }
  }

  /** From a state that is not calm at most two creations lead to two rows. */
  lemma Disturb(cfg: Config, s: State) returns (es: seq<Event>)
    requires !Calm(s)
    ensures Runs(cfg, s, es) && OnlyCreates(es) && |es| <= 2 && |Exec(cfg, s, es).rows| >= 2
  {
    if |s.rows| > 1 {
      es := [];
    } else if r :| LivingOwner(s, r) && s.rows != {} {
      var e := OneCreate(cfg, s, r);
      es := [e];
    } else {
      var r, q :| LivingOwner(s, r) && LivingOwner(s, q) && r != q;
      var e := OneCreate(cfg, s, r);
      var s1 := Next(cfg, s, e);
      assert LivingOwner(s1, q) && e.task in s1.rows;
      var f := OneCreate(cfg, s1, q);
      es := [e, f];
      assert es[1..] == [f];
      assert {e.task, f.task} <= Exec(cfg, s, es).rows;
      SubsetIsSmaller({e.task, f.task}, Exec(cfg, s, es).rows);
    }
  }

  ghost predicate SafeThroughout(cfg: Config, s: State, es: seq<Event>)
    requires Runs(cfg, s, es)
    decreases |es|
  { Safe(cfg, s) && (es != [] ==> SafeThroughout(cfg, Next(cfg, s, es[0]), es[1..])) }

  ghost predicate NeverRetakes(cfg: Config, s: State, es: seq<Event>)
    requires Runs(cfg, s, es)
    decreases |es|
  { es != [] ==> !Retakes(s, es[0]) && NeverRetakes(cfg, Next(cfg, s, es[0]), es[1..]) }

  lemma {:induction false} SafeFrom(cfg: Config, s: State, es: seq<Event>)
    requires Calm(s) && Runs(cfg, s, es)
    ensures SafeThroughout(cfg, s, es) <==> NeverRetakes(cfg, s, es)
    ensures NeverRetakes(cfg, s, es) ==> Calm(Exec(cfg, s, es))
    decreases |es|
  {
    SafeIsCalm(cfg, s);
    if es != [] {
      var s1 := Next(cfg, s, es[0]);
      CalmStep(cfg, s, es[0]);
      SafeIsCalm(cfg, s1);
      if Calm(s1) { SafeFrom(cfg, s1, es[1..]); }
    }
  }

  /** Idempotency, exactly: over any run, whatever expires, raises or crashes, there is at no time more
      than one row under the key, nor an owner that could still create a second one, if and only if SET NX
      never succeeds while there is a row, or another owner on its way to one. */
  lemma OneRowExactly(cfg: Config, es: seq<Event>)
    requires Runs(cfg, INIT, es)
    ensures SafeThroughout(cfg, INIT, es) <==> NeverRetakes(cfg, INIT, es)
  {
    SafeFrom(cfg, INIT, es);
  }

  /** Task ids under the key, and on their way to a client, are those of rows. */
  ghost predicate Named(s: State) {
    && (s.key.value.Filled? ==> s.key.value.task in s.rows)
    && (forall r | r in s.requests ::
          var pc := s.requests[r].pc;
          pc.BackFill? || pc.Serve? || pc.Answered? ==> pc.task in s.rows)
  }

  lemma NextKeepsNamed(cfg: Config, s: State, e: Event)
    requires Named(s) && Enabled(s, e)
    ensures Named(Next(cfg, s, e))
  {
  }

  lemma {:induction false} NamedAlways(cfg: Config, s: State, es: seq<Event>)
    requires Named(s) && Runs(cfg, s, es)
    ensures Named(Exec(cfg, s, es))
    decreases |es|
  {
    if es != [] {
      NextKeepsNamed(cfg, s, es[0]);
      NamedAlways(cfg, Next(cfg, s, es[0]), es[1..]);
    }
  }

  /** While the key is never retaken, at most one row is created under it, at most one living request is
      on its way to one, and every request that was answered -- owner or replay -- was answered with that
      row's id. */
  lemma AtMostOneRow(cfg: Config, es: seq<Event>)
    requires Runs(cfg, INIT, es) && NeverRetakes(cfg, INIT, es)
    ensures var s := Exec(cfg, INIT, es);
            && |s.rows| <= 1
            && (forall r | r in s.requests && s.requests[r].pc.Answered? :: s.rows == {s.requests[r].pc.task})
            && (forall r, q | LivingOwner(s, r) && LivingOwner(s, q) :: r == q)
  {
    SafeFrom(cfg, INIT, es);
    NamedAlways(cfg, INIT, es);
    var s := Exec(cfg, INIT, es);
    forall r | r in s.requests && s.requests[r].pc.Answered?
      ensures s.rows == {s.requests[r].pc.task}
    {
      OnlyOne(s.rows, s.requests[r].pc.task);
    }
  }

  lemma OnlyOne(rows: set<TaskId>, t: TaskId)
    requires |rows| <= 1 && t in rows
    ensures rows == {t}
  {
    if u :| u in rows && u != t { SubsetIsSmaller({t, u}, rows); }
  }

  lemma {:induction false} DisciplineFrom(cfg: Config, s: State, es: seq<Event>)
    requires cfg.pendingTtl > 0 && cfg.idemTtl > 0 && Inv(s) && Runs(cfg, s, es) && DisciplinedRun(cfg, s, es)
    ensures NeverRetakes(cfg, s, es)
    decreases |es|
  {
    if es != [] {
      NextKeepsInv(cfg, s, es[0]);
      assert !Retakes(s, es[0]);
      DisciplineFrom(cfg, Next(cfg, s, es[0]), es[1..]);
    }
  }

  /** The three hypotheses are enough: creation within the placeholder's time, a run within the task id's,
      and no failure between the row and the back-fill. */
  lemma DisciplineSuffices(cfg: Config, es: seq<Event>)
    requires cfg.pendingTtl > 0 && cfg.idemTtl > 0 && Runs(cfg, INIT, es) && DisciplinedRun(cfg, INIT, es)
    ensures NeverRetakes(cfg, INIT, es)
  {
    DisciplineFrom(cfg, INIT, es);
  }

  // ---- what a request with a known key is answered ----

  lemma ConflictStep(cfg: Config, s: State, e: Event, r: RequestId)
    requires Enabled(s, e) && r in s.requests && s.requests[r].pc != Conflict
    requires Next(cfg, s, e).requests[r].pc == Conflict
    ensures e == Advance(r) && s.requests[r].pc.Poll?
    ensures Seen(s) == Absent || s.now >= s.requests[r].pc.deadline
  {
  }

  /** The request looked at the key while polling, and it was absent. */
  ghost predicate FoundAbsent(cfg: Config, s: State, es: seq<Event>, r: RequestId)
    requires Runs(cfg, s, es)
    decreases |es|
  {
    es != [] &&
      ((es[0] == Advance(r) && r in s.requests && s.requests[r].pc.Poll? && Seen(s) == Absent)
       || FoundAbsent(cfg, Next(cfg, s, es[0]), es[1..], r))
  }

  lemma {:induction false} ConflictFrom(cfg: Config, s: State, es: seq<Event>, r: RequestId, since: int)
    requires Runs(cfg, s, es) && r in s.requests && s.requests[r].pc != Conflict && since <= s.now
    requires s.requests[r].pc.Poll? ==> since + cfg.replayWait <= s.requests[r].pc.deadline
    requires r in Exec(cfg, s, es).requests && Exec(cfg, s, es).requests[r].pc == Conflict
    ensures FoundAbsent(cfg, s, es, r) || Exec(cfg, s, es).now >= since + cfg.replayWait
    decreases |es|
  {
    if es != [] {
      var s1 := Next(cfg, s, es[0]);
      if s1.requests[r].pc == Conflict {
        ConflictStep(cfg, s, es[0], r);
        TimeGoesOn(cfg, s1, es[1..]);
      } else {
        ConflictFrom(cfg, s1, es[1..], r, since);
      }
    }
  }

  lemma {:induction false} TimeGoesOn(cfg: Config, s: State, es: seq<Event>)
    requires Runs(cfg, s, es)
    ensures s.now <= Exec(cfg, s, es).now
    decreases |es|
  {
    if es != [] { TimeGoesOn(cfg, Next(cfg, s, es[0]), es[1..]); }
  }

  /** A request is refused with 409 only if it found the key absent while it was waiting, or has waited its
      whole time. */
  lemma NoEarlyConflict(cfg: Config, s: State, r: RequestId, es: seq<Event>)
    requires Enabled(s, Arrive(r)) && Runs(cfg, Next(cfg, s, Arrive(r)), es)
    requires var s1 := Next(cfg, s, Arrive(r));
             r in Exec(cfg, s1, es).requests && Exec(cfg, s1, es).requests[r].pc == Conflict
    ensures var s1 := Next(cfg, s, Arrive(r));
            FoundAbsent(cfg, s1, es, r) || Exec(cfg, s1, es).now >= s.now + cfg.replayWait
  {
    ConflictFrom(cfg, Next(cfg, s, Arrive(r)), es, r, s.now);
  }

  /** The key holds `t` at every state of the run. */
  ghost predicate KeyHolds(cfg: Config, s: State, es: seq<Event>, t: TaskId)
    requires Runs(cfg, s, es)
    decreases |es|
  { Seen(s) == Filled(t) && (es != [] ==> KeyHolds(cfg, Next(cfg, s, es[0]), es[1..], t)) }

  function Advances(es: seq<Event>, r: RequestId): nat {
    if es == [] then 0 else Advances(es[1..], r) + if es[0] == Advance(r) then 1 else 0
  }

  /** Where a request stands after so many of its statements, the key being filled all the time. */
  function ReplayAt(n: nat, t: TaskId): Pc { if n == 0 then SetNx else if n == 1 then Reread else Answered(t) }

  lemma {:induction false} ReplayFrom(cfg: Config, s: State, es: seq<Event>, r: RequestId, t: TaskId, n: nat)
    requires Runs(cfg, s, es) && KeyHolds(cfg, s, es, t)
    requires r in s.requests && s.requests[r].pc == ReplayAt(n, t) && n <= 2
    ensures n + Advances(es, r) <= 2
    ensures r in Exec(cfg, s, es).requests && Exec(cfg, s, es).requests[r].pc == ReplayAt(n + Advances(es, r), t)
    decreases |es|
  {
    if es != [] {
      ReplayFrom(cfg, Next(cfg, s, es[0]), es[1..], r, t, if es[0] == Advance(r) then n + 1 else n);
    }
  }

  /** Replay: a request that arrives while the key holds the id of a task, and as long as it does, takes
      two statements, and is then answered with this id, whatever others do between them. */
  lemma ReplayIsAnswered(cfg: Config, s: State, r: RequestId, es: seq<Event>, t: TaskId)
    requires Enabled(s, Arrive(r)) && Runs(cfg, Next(cfg, s, Arrive(r)), es)
    requires KeyHolds(cfg, Next(cfg, s, Arrive(r)), es, t)
    ensures Advances(es, r) <= 2
    ensures var q := Exec(cfg, Next(cfg, s, Arrive(r)), es).requests;
            r in q && q[r].pc == ReplayAt(Advances(es, r), t)
            && (Advances(es, r) < 2 && q[r].alive ==> Enabled(Exec(cfg, Next(cfg, s, Arrive(r)), es), Advance(r)))
  {
    ReplayFrom(cfg, Next(cfg, s, Arrive(r)), es, r, t, 0);
  }

  /** The request has not started to wait, or waits until `end` at most. */
  predicate WaitsUntil(s: State, r: RequestId, end: int) {
    r in s.requests && !s.requests[r].pc.SetNx? && !s.requests[r].pc.Reread?
    && (s.requests[r].pc.Poll? ==> s.requests[r].pc.deadline <= end)
  }

  lemma {:induction false} WaitsNoLonger(cfg: Config, s: State, es: seq<Event>, r: RequestId, end: int)
    requires Runs(cfg, s, es) && WaitsUntil(s, r, end)
    ensures WaitsUntil(Exec(cfg, s, es), r, end)
    decreases |es|
  {
    if es != [] { WaitsNoLonger(cfg, Next(cfg, s, es[0]), es[1..], r, end); }
  }

  /** A request that has read the key and has to wait waits no longer than its time: its first look after
      that is its last. */
  lemma WaitIsBounded(cfg: Config, s: State, r: RequestId, es: seq<Event>)
    requires Enabled(s, Advance(r)) && s.requests[r].pc.Reread? && Runs(cfg, Next(cfg, s, Advance(r)), es)
    requires var s' := Exec(cfg, Next(cfg, s, Advance(r)), es);
             Enabled(s', Advance(r)) && s'.now >= s.now + cfg.replayWait
    ensures !Next(cfg, Exec(cfg, Next(cfg, s, Advance(r)), es), Advance(r)).requests[r].pc.Poll?
  {
    WaitsNoLonger(cfg, Next(cfg, s, Advance(r)), es, r, s.now + cfg.replayWait);
  }

  /** Waiting: the next look of a request that waits answers it with the id that it finds, and otherwise
      leaves it waiting, refused only for an absent key or at the end of its time. */
  lemma WaiterLooks(cfg: Config, s: State, r: RequestId)
    requires Enabled(s, Advance(r)) && s.requests[r].pc.Poll?
    ensures var pc := Next(cfg, s, Advance(r)).requests[r].pc;
            if s.now >= s.requests[r].pc.deadline || Seen(s) == Absent then pc == Conflict
            else if Seen(s) == Pending then pc == s.requests[r].pc else pc == Answered(Seen(s).task)
  {
  }

  /** Without any hypothesis: releasing never deletes a filled key, and only a request that itself won
      SET NX, and not one that replays or waits, comes to create a row. */
  lemma ReleaseSparesFilled(cfg: Config, s: State, r: RequestId)
    requires Enabled(s, Advance(r)) && s.requests[r].pc.Undo?
    ensures Seen(s).Filled? ==> Next(cfg, s, Advance(r)).key == s.key
    ensures Next(cfg, s, Advance(r)).rows == s.rows
  {
  }

  lemma OwnersWonTheKey(cfg: Config, s: State, e: Event, r: RequestId)
    requires Enabled(s, e) && r in s.requests && !s.requests[r].pc.Owner?
    requires r in Next(cfg, s, e).requests && Next(cfg, s, e).requests[r].pc.Owner?
    ensures e == Advance(r) && s.requests[r].pc.SetNx? && Seen(s) == Absent && Next(cfg, s, e).key == Placed(s.now, cfg.pendingTtl)
  {
  }

  // ---- why the hypotheses ----

  lemma {:induction false} Extend(cfg: Config, s: State, es: seq<Event>, e: Event)
    requires Runs(cfg, s, es) && Enabled(Exec(cfg, s, es), e)
    ensures Runs(cfg, s, es + [e]) && Exec(cfg, s, es + [e]) == Next(cfg, Exec(cfg, s, es), e)
    decreases |es|
  {
    if es == [] {
      assert [e][1..] == [];
    } else {
      assert (es + [e])[0] == es[0] && (es + [e])[1..] == es[1..] + [e];
      Extend(cfg, Next(cfg, s, es[0]), es[1..], e);
    }
  }

  lemma Then(cfg: Config, es: seq<Event>, e: Event) returns (es': seq<Event>)
    requires Runs(cfg, INIT, es) && Enabled(Exec(cfg, INIT, es), e)
    ensures es' == es + [e] && Runs(cfg, INIT, es') && Exec(cfg, INIT, es') == Next(cfg, Exec(cfg, INIT, es), e)
  {
    Extend(cfg, INIT, es, e);
    es' := es + [e];
  }

  /** Two rows when creation outlives the placeholder: the owner is slow, its placeholder expires, a
      second request takes the key, and both create. */
  lemma SlowOwnerDuplicates(cfg: Config) returns (es: seq<Event>)
    ensures Runs(cfg, INIT, es) && Exec(cfg, INIT, es).rows == {1, 2}
    ensures forall i | 0 <= i < |es| :: !es[i].Raise? && !es[i].Crash?
  {
    es := Then(cfg, [], Arrive(1));
    es := Then(cfg, es, Advance(1));
    es := Then(cfg, es, Tick(cfg.pendingTtl));
    es := Then(cfg, es, Arrive(2));
    es := Then(cfg, es, Advance(2));
    es := Then(cfg, es, CreateRow(1, 1));
    es := Then(cfg, es, CreateRow(2, 2));
  }

  /** Two rows when a retry comes after the task id has expired. */
  lemma ExpiredKeyDuplicates(cfg: Config) returns (es: seq<Event>)
    ensures es == [Arrive(1), Advance(1), CreateRow(1, 1), Advance(1), Tick(cfg.idemTtl),
                   Arrive(2), Advance(2), CreateRow(2, 2)]
    ensures Runs(cfg, INIT, es) && Exec(cfg, INIT, es).rows == {1, 2}
  {
    es := Then(cfg, [], Arrive(1));
    es := Then(cfg, es, Advance(1));
    es := Then(cfg, es, CreateRow(1, 1));
    es := Then(cfg, es, Advance(1));
    es := Then(cfg, es, Tick(cfg.idemTtl));
    es := Then(cfg, es, Arrive(2));
    es := Then(cfg, es, Advance(2));
    es := Then(cfg, es, CreateRow(2, 2));
  }

  /** Two rows when the back-fill raises: the handler releases the key of a row that exists, and the
      client's retry creates another. */
  lemma FailedBackFillDuplicates(cfg: Config) returns (es: seq<Event>)
    requires cfg.pendingTtl > 0
    ensures Runs(cfg, INIT, es) && Exec(cfg, INIT, es).rows == {1, 2}
    ensures forall i | 0 <= i < |es| :: !es[i].Tick?
  {
    es := FailedBackFill(cfg);
    es := Then(cfg, es, Arrive(2));
    es := Then(cfg, es, Advance(2));
    es := Then(cfg, es, CreateRow(2, 2));
  }

  /** A row whose key has been released. */
  lemma FailedBackFill(cfg: Config) returns (es: seq<Event>)
    requires cfg.pendingTtl > 0
    ensures Runs(cfg, INIT, es) && Exec(cfg, INIT, es) == State(NO_KEY, 0, map[1 := Request(Failed, true)], {1}, 1)
    ensures forall i | 0 <= i < |es| :: !es[i].Tick?
  {
    es := Then(cfg, [], Arrive(1));
    es := Then(cfg, es, Advance(1));
    es := Then(cfg, es, CreateRow(1, 1));
    es := Then(cfg, es, Raise(1));
    es := Then(cfg, es, Advance(1));
  }

  /** The placeholder does not say whose it is: an owner that outlived its own and then fails deletes
      the placeholder of another, living owner, and a third request takes the key. */
  lemma StaleReleaseFreesTheKey(cfg: Config) returns (es: seq<Event>)
    requires cfg.pendingTtl > 0
    ensures Runs(cfg, INIT, es)
    ensures var q := Exec(cfg, INIT, es).requests;
            2 in q && 3 in q && OnPlaceholder(q[2]) && OnPlaceholder(q[3])
  {
    es := Then(cfg, [], Arrive(1));
    es := Then(cfg, es, Advance(1));
    es := Then(cfg, es, Tick(cfg.pendingTtl));
    es := Then(cfg, es, Arrive(2));
    es := Then(cfg, es, Advance(2));
    es := Then(cfg, es, Raise(1));
    es := Then(cfg, es, Advance(1));
    es := Then(cfg, es, Arrive(3));
    es := Then(cfg, es, Advance(3));
  }
}
