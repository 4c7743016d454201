/** create_queue_task, cancel_queue_task, submit_queue_task, the probe and _finalize_queue as written, on
    the World of module Relay: each goes on with the run that it found by the steps of its actor,
    whatever happens at its awaited calls, reports truly what it did, and leaves the row accordingly. */
module Requests {
  import opened Wrappers
  import opened TaskStore
  import opened Protocol
  import opened ProtocolAnswers
  import opened Relay
  import Batching
  import BatchIndex

  /** From the event `from` on the row of `t` has at some time had this upstream id. */
  ghost predicate RecordedSince(w: World, from: nat, t: TaskId, id: string)
    reads w
  { exists k :: from <= k && RecordedAt(w.cfg, w.start, w.trace, k, t, id) }

  ghost predicate RecordedAt(cfg: Config, start: State, trace: seq<Event>, k: nat, t: TaskId, id: string) {
    && k <= |trace| && Runs(cfg, start, trace[..k])
    && var rows := Exec(cfg, start, trace[..k]).rows; t in rows && rows[t].upstreamTaskId == Some(id)
  }

  lemma RecordedOnce(cfg: Config, start: State, before: seq<Event>, trace: seq<Event>, t: TaskId, id: string)
    requires before <= trace && Runs(cfg, start, before)
    requires var rows := Exec(cfg, start, before).rows; t in rows && rows[t].upstreamTaskId == Some(id)
    ensures RecordedAt(cfg, start, trace, |before|, t, id)
  {
    assert trace[..|before|] == before;
  }

  // ---- _finalize_queue ----

  /** The CAS that decides who closes the task */
  method CasTerminalOf(w: World, a: ActorId, t: TaskId, to: Status, got: Option<string>, reason: string)
    returns (up: bool, won: bool)
    requires w.Valid() && w.At(a, t, Finalize(CasTerminal, to, got, reason))
    modifies w, w.db, w.slots
    ensures w.Valid() && OnlyMoved(old(w.s), w.s, w.base, a) && old(w.trace) <= w.trace && w.next == old(w.next)
    ensures w.last == Call(Finalize(CasTerminal, to, got, reason), if up then Ok else Raise) && (won ==> up)
    ensures w.At(a, t, if won then Finalize(LogFinal, to, got, reason) else Done)
    ensures up ==> t in w.s.rows && if won then w.s.rows[t].status == to && w.s.rows[t].failReason == reason
                                  else Terminal(w.s.rows[t].status)
    ensures won && got.Some? ==> w.s.rows[t].upstreamTaskId == got
    ensures w.own == if won then old(w.own).(won := old(w.own).won + 1) else old(w.own)
  {
    var c := w.Await(a, t, Finalize(CasTerminal, to, got, reason));
    up, won := c == Ok, false;
    if up { won := w.db.CasStatus(t, ACTIVE, to, Patch(upstreamTaskId := got), reason, w.s.now); }
    w.Served(a, t, Finalize(CasTerminal, to, got, reason), c, Step(w.cfg, w.s, t, Finalize(CasTerminal, to, got, reason), c));
  }

  /** statelog.record_transition, which awaits nothing */
  method LogFinalOf(w: World, a: ActorId, t: TaskId, to: Status, got: Option<string>, reason: string)
    requires w.Valid() && w.At(a, t, Finalize(LogFinal, to, got, reason))
    modifies w, w.db, w.slots
    ensures w.Valid() && OnlyMoved(old(w.s), w.s, w.base, a) && old(w.trace) <= w.trace && w.next == old(w.next)
    ensures w.At(a, t, Return(ClaimMask, FromFinalize)) && w.last == Call(Finalize(LogFinal, to, got, reason), Ok)
    ensures w.own == old(w.own).(logged := old(w.own).logged + 1)
  {
    w.ServedQuietly(a, t, Finalize(LogFinal, to, got, reason), Ok, Step(w.cfg, w.s, t, Finalize(LogFinal, to, got, reason), Ok));
  }

  /** publish_notify, if the task has a callback address */
  method CallBack(w: World, a: ActorId, t: TaskId)
    returns (up: bool)
    requires w.Valid() && w.At(a, t, Finalize(Callback, Success, None, ""))
    modifies w, w.db, w.slots
    ensures w.Valid() && OnlyMoved(old(w.s), w.s, w.base, a) && old(w.trace) <= w.trace && w.next == old(w.next)
    ensures w.At(a, t, Done) && w.last == Call(Finalize(Callback, Success, None, ""), if up then Ok else Raise)
    ensures t in w.s.rows
    ensures w.own == if up && w.s.rows[t].callback then old(w.own).(notified := old(w.own).notified + 1) else old(w.own)
  {
    var c := w.Await(a, t, Finalize(Callback, Success, None, ""));
    up := c == Ok;
    w.ServedQuietly(a, t, Finalize(Callback, Success, None, ""), c, Step(w.cfg, w.s, t, Finalize(Callback, Success, None, ""), c));
  }

  /** One log entry, as many callbacks, and nothing else but masks zeroed and their slots given back. */
  predicate Closes(o: Own, o': Own, callbacks: nat) {
    GaveBack(o.(logged := o.logged + 1, notified := o.notified + callbacks), o')
  }

  /** _finalize_queue: only the winner of the CAS logs, gives the slot back and calls back, each once at
      most, and the callback only if there is an address; it leaves its own verdict on the row, and a
      loser finds another one there. */
  method FinalizeQueue(w: World, a: ActorId, t: TaskId, to: Status, got: Option<string>, reason: string)
    returns (up: bool, won: bool)
    requires w.Valid() && Terminal(to) && w.At(a, t, Finalize(CasTerminal, to, got, reason))
    modifies w, w.db, w.slots
    ensures w.Valid() && OnlyMoved(old(w.s), w.s, w.base, a) && old(w.trace) <= w.trace && w.next == old(w.next)
    ensures w.At(a, t, Done) && up == !Threw(w.last)
    ensures up || won ==> t in w.s.rows && Terminal(w.s.rows[t].status)
    ensures won ==> w.s.rows[t].status == to && w.s.rows[t].failReason == reason
    ensures won && got.Some? ==> RecordedSince(w, old(|w.trace|), t, got.value)
    ensures !won ==> w.own == old(w.own)
    ensures won ==> Closes(old(w.own).(won := old(w.own).won + 1), w.own, Bit(up && w.s.rows[t].callback))
  {
    up, won := CasTerminalOf(w, a, t, to, got, reason);
    if won {
      ghost var mid, written := w.s, w.trace;
      up := Close(w, a, t, to, got, reason);
      OnlyMovedTwice(old(w.s), mid, w.s, w.base, a);
      if got.Some? {
        RecordedOnce(w.cfg, w.start, written, w.trace, t, got.value);
        assert RecordedAt(w.cfg, w.start, w.trace, |written|, t, got.value);
      }
    }
  }

  /** What only the winner does: the log entry; the slot, if the mask was still set; and, if that did not
      raise, the callback. */
  method Close(w: World, a: ActorId, t: TaskId, to: Status, got: Option<string>, reason: string) returns (up: bool)
    requires w.Valid() && w.At(a, t, Finalize(LogFinal, to, got, reason))
    modifies w, w.db, w.slots
    ensures w.Valid() && OnlyMoved(old(w.s), w.s, w.base, a) && old(w.trace) <= w.trace && w.next == old(w.next)
    ensures w.At(a, t, Done) && up == !Threw(w.last) && t in w.s.rows
    ensures Closes(old(w.own), w.own, Bit(up && w.s.rows[t].callback))
  {
    LogFinalOf(w, a, t, to, got, reason);
    ghost var mid := w.s;
    up := SlotAndCallBack(w, a, t);
    OnlyMovedTwice(old(w.s), mid, w.s, w.base, a);
  }

  method SlotAndCallBack(w: World, a: ActorId, t: TaskId) returns (up: bool)
    requires w.Valid() && w.At(a, t, Return(ClaimMask, FromFinalize))
    modifies w, w.db, w.slots
    ensures w.Valid() && OnlyMoved(old(w.s), w.s, w.base, a) && old(w.trace) <= w.trace && w.next == old(w.next)
    ensures w.At(a, t, Done) && up == !Threw(w.last) && t in w.s.rows
    ensures GaveBack(old(w.own).(notified := old(w.own).notified + Bit(up && w.s.rows[t].callback)), w.own)
  {
    up := w.ReleaseSlot(a, t, FromFinalize);
    if up {
      ghost var mid := w.s;
      up := CallBack(w, a, t);
      OnlyMovedTwice(old(w.s), mid, w.s, w.base, a);
    }
  }

  // ---- cancel_queue_task ----

  /** The first read */
  method ReadForCancel(w: World, a: ActorId, t: TaskId)
    returns (up: bool, live: bool)
    requires w.Valid() && w.At(a, t, Cancel(ReadTask))
    modifies w, w.db, w.slots
    ensures w.Valid() && OnlyMoved(old(w.s), w.s, w.base, a) && old(w.trace) <= w.trace && w.next == old(w.next) && w.own == old(w.own)
    ensures w.last == Call(Cancel(ReadTask), if up then Ok else Raise) && (live ==> up)
    ensures up ==> (live <==> t in w.s.rows && !Terminal(w.s.rows[t].status))
    ensures w.At(a, t, if live then Cancel(CasCanceled) else Done)
  {
    var c := w.Await(a, t, Cancel(ReadTask));
    up, live := c == Ok, false;
    if up {
      var task := w.db.Get(t);
      live := task.Some? && !Terminal(task.value.status);
    }
    w.ServedQuietly(a, t, Cancel(ReadTask), c, Step(w.cfg, w.s, t, Cancel(ReadTask), c));
  }

  /** The CAS to CANCELED */
  method CasCanceledOf(w: World, a: ActorId, t: TaskId)
    returns (up: bool, won: bool)
    requires w.Valid() && w.At(a, t, Cancel(CasCanceled))
    modifies w, w.db, w.slots
    ensures w.Valid() && OnlyMoved(old(w.s), w.s, w.base, a) && old(w.trace) <= w.trace && w.next == old(w.next)
    ensures w.last == Call(Cancel(CasCanceled), if up then Ok else Raise) && (won ==> up)
    ensures w.At(a, t, if won then Cancel(LogCanceled) else Done)
    ensures up ==> t in w.s.rows && if won then w.s.rows[t].status == Canceled && w.s.rows[t].failReason == "canceled by user"
                                  else Terminal(w.s.rows[t].status)
    ensures w.own == if won then old(w.own).(won := old(w.own).won + 1) else old(w.own)
  {
    var c := w.Await(a, t, Cancel(CasCanceled));
    up, won := c == Ok, false;
    if up { won := w.db.CasStatus(t, ACTIVE, Canceled, Patch(), "canceled by user", w.s.now); }
    w.Served(a, t, Cancel(CasCanceled), c, Step(w.cfg, w.s, t, Cancel(CasCanceled), c));
  }

  /** statelog.record_transition */
  method LogCanceledOf(w: World, a: ActorId, t: TaskId)
    requires w.Valid() && w.At(a, t, Cancel(LogCanceled))
    modifies w, w.db, w.slots
    ensures w.Valid() && OnlyMoved(old(w.s), w.s, w.base, a) && old(w.trace) <= w.trace && w.next == old(w.next)
    ensures w.At(a, t, Return(ClaimMask, FromCancel)) && w.own == old(w.own).(logged := old(w.own).logged + 1)
  {
    w.ServedQuietly(a, t, Cancel(LogCanceled), Ok, Step(w.cfg, w.s, t, Cancel(LogCanceled), Ok));
  }

  /** cancel_queue_task, up to the slot: a task that it reports canceled is CANCELED, one that it does not
      is missing or ended otherwise; it logs exactly if it canceled, and never calls back. */
  method CancelQueueTask(w: World, a: ActorId, t: TaskId) returns (up: bool, canceled: bool)
    requires w.Valid() && w.At(a, t, Cancel(ReadTask))
    modifies w, w.db, w.slots
    ensures w.Valid() && OnlyMoved(old(w.s), w.s, w.base, a) && old(w.trace) <= w.trace && w.next == old(w.next)
    ensures w.At(a, t, Done) && up == !Threw(w.last)
    ensures canceled ==>
              t in w.s.rows && w.s.rows[t].status == Canceled && w.s.rows[t].failReason == "canceled by user"
    ensures up && !canceled ==> t !in w.s.rows || Terminal(w.s.rows[t].status)
    ensures if canceled then Closes(old(w.own).(won := old(w.own).won + 1), w.own, 0) else w.own == old(w.own)
  {
    var live;
    up, live := ReadForCancel(w, a, t);
    if !live { return up, false; }
    ghost var mid := w.s;
    up, canceled := CasCanceledOf(w, a, t);
    OnlyMovedTwice(old(w.s), mid, w.s, w.base, a);
    if canceled {
      mid := w.s;
      up := CloseCanceled(w, a, t);
      OnlyMovedTwice(old(w.s), mid, w.s, w.base, a);
    }
  }

  method CloseCanceled(w: World, a: ActorId, t: TaskId) returns (up: bool)
    requires w.Valid() && w.At(a, t, Cancel(LogCanceled))
    modifies w, w.db, w.slots
    ensures w.Valid() && OnlyMoved(old(w.s), w.s, w.base, a) && old(w.trace) <= w.trace && w.next == old(w.next)
    ensures w.At(a, t, Done) && up == !Threw(w.last)
    ensures Closes(old(w.own), w.own, 0)
  {
    LogCanceledOf(w, a, t);
    ghost var mid := w.s;
    up := w.ReleaseSlot(a, t, FromCancel);
    OnlyMovedTwice(old(w.s), mid, w.s, w.base, a);
  }

  // ---- submit_queue_task ----

  /** What a worker submits: an active task that does not wait in a batch and is not submitted yet. */
  predicate GateOpen(rows: map<TaskId, Row>, t: TaskId) {
    t in rows && rows[t].status in ACTIVE && !Claimable(rows[t].batchState) && rows[t].upstreamTaskId == None
  }

  /** The gate */
  method PassGate(w: World, a: ActorId, t: TaskId, manual: bool)
    returns (up: bool, pass: bool)
    requires w.Valid() && w.At(a, t, Submit(Gate, manual, ""))
    modifies w, w.db, w.slots
    ensures w.Valid() && OnlyMoved(old(w.s), w.s, w.base, a) && old(w.trace) <= w.trace && w.next == old(w.next) && w.own == old(w.own)
    ensures w.last == Call(Submit(Gate, manual, ""), if up then Ok else Raise) && (pass ==> up)
    ensures up ==> (pass <==> GateOpen(w.s.rows, t))
    ensures w.At(a, t, if pass then Submit(Post, manual, "") else Done)
  {
    var c := w.Await(a, t, Submit(Gate, manual, ""));
    up, pass := c == Ok, false;
    if up {
      var task := w.db.Get(t);
      pass := task.Some? && task.value.status in ACTIVE && !Claimable(task.value.batchState)
              && task.value.upstreamTaskId == None;
    }
    w.ServedQuietly(a, t, Submit(Gate, manual, ""), c, Step(w.cfg, w.s, t, Submit(Gate, manual, ""), c));
  }

  /** What the answer of the upstream, if any, leads to. */
  function AfterPost(manual: bool, c: Choice): Pc {
    if c.Replied? then
      match c.reply
      case Unreachable => Done
      case Rejected(reason) => Finalize(CasTerminal, Failure, None, reason)
      case NoId => Finalize(CasTerminal, Failure, None, "upstream response missing task id")
      case Accepted(u, m) =>
        if m.Some? && Terminal(m.value) then Finalize(CasTerminal, m.value, Some(u), "")
        else Submit(CasQueued, manual, u)
    else Done
  }

  /** call_upstream */
  method PostUpstream(w: World, a: ActorId, t: TaskId, manual: bool)
    returns (c: Choice)
    requires w.Valid() && w.At(a, t, Submit(Post, manual, ""))
    modifies w, w.db, w.slots
    ensures w.Valid() && OnlyMoved(old(w.s), w.s, w.base, a) && old(w.trace) <= w.trace && w.next == old(w.next) && w.own == old(w.own)
    ensures w.last == Call(Submit(Post, manual, ""), c) && (c == Raise || c.Replied?)
    ensures w.At(a, t, AfterPost(manual, c))
  {
    c := w.Await(a, t, Submit(Post, manual, ""));
    w.ServedQuietly(a, t, Submit(Post, manual, ""), c, Step(w.cfg, w.s, t, Submit(Post, manual, ""), c));
  }

  /** The CAS to QUEUED that records the upstream id */
  method CasQueuedOf(w: World, a: ActorId, t: TaskId, manual: bool, id: string)
    returns (up: bool, won: bool)
    requires w.Valid() && w.At(a, t, Submit(CasQueued, manual, id))
    modifies w, w.db, w.slots
    ensures w.Valid() && OnlyMoved(old(w.s), w.s, w.base, a) && old(w.trace) <= w.trace && w.next == old(w.next) && w.own == old(w.own)
    ensures w.last == Call(Submit(CasQueued, manual, id), if up then Ok else Raise) && (won ==> up)
    ensures up ==> t in w.s.rows && if won then w.s.rows[t].status == Queued && w.s.rows[t].upstreamTaskId == Some(id)
                                  else Terminal(w.s.rows[t].status)
    ensures w.At(a, t, if up && !won then Submit(Orphan, manual, id) else Done)
  {
    var c := w.Await(a, t, Submit(CasQueued, manual, id));
    up, won := c == Ok, false;
    if up { won := w.db.CasStatus(t, ACTIVE, Queued, Patch(upstreamTaskId := Some(id)), "", w.s.now); }
    w.Served(a, t, Submit(CasQueued, manual, id), c, Step(w.cfg, w.s, t, Submit(CasQueued, manual, id), c));
  }

  /** The orphan id, merged into the row of a task that is no longer active */
  method RecordOrphan(w: World, a: ActorId, t: TaskId, manual: bool, id: string)
    returns (up: bool)
    requires w.Valid() && w.At(a, t, Submit(Orphan, manual, id))
    modifies w, w.db, w.slots
    ensures w.Valid() && OnlyMoved(old(w.s), w.s, w.base, a) && old(w.trace) <= w.trace && w.next == old(w.next) && w.own == old(w.own)
    ensures w.last == Call(Submit(Orphan, manual, id), if up then Ok else Raise) && w.At(a, t, Done)
    ensures up ==> t in w.s.rows && w.s.rows[t].upstreamTaskId == Some(id)
  {
    var c := w.Await(a, t, Submit(Orphan, manual, id));
    up := c == Ok;
    if up { w.db.Patched(t, Patch(upstreamTaskId := Some(id)), w.s.now); }
    w.Served(a, t, Submit(Orphan, manual, id), c, Step(w.cfg, w.s, t, Submit(Orphan, manual, id), c));
  }

  /** The row after an answer: ended, by this verdict or by another one before it; or queued with the
      upstream's id; or ended before, and the orphan id recorded. */
  predicate SettledBy(reply: Reply, rows: map<TaskId, Row>, t: TaskId)
    requires !reply.Unreachable?
  {
    t in rows
    && if VerdictOf(Replied(reply)).Ends? then Terminal(rows[t].status)
       else reply.Accepted? && (rows[t].status == Queued || Terminal(rows[t].status)) && rows[t].upstreamTaskId == Some(reply.id)
  }

  /** submit_queue_task, from the answer of the upstream on; its own win leaves its own verdict. */
  method Settle(w: World, a: ActorId, t: TaskId, manual: bool, reply: Reply) returns (up: bool, won: bool)
    requires w.Valid() && w.At(a, t, AfterPost(manual, Replied(reply))) && !reply.Unreachable?
    modifies w, w.db, w.slots
    ensures w.Valid() && OnlyMoved(old(w.s), w.s, w.base, a) && old(w.trace) <= w.trace && w.next == old(w.next)
    ensures w.At(a, t, Done) && up == !Threw(w.last)
    ensures up ==> SettledBy(reply, w.s.rows, t)
    ensures won ==> VerdictOf(Replied(reply)).Ends? && t in w.s.rows
    ensures won ==> var v := VerdictOf(Replied(reply));
              && w.s.rows[t].status == v.to && w.s.rows[t].failReason == v.reason
              && (v.got.Some? ==> RecordedSince(w, old(|w.trace|), t, v.got.value))
    ensures !won ==> w.own == old(w.own)
    ensures w.own.won == old(w.own).won + Bit(won) && w.own.published == old(w.own).published
  {
    match reply
    case Rejected(reason) => up, won := FinalizeQueue(w, a, t, Failure, None, reason);
    case NoId => up, won := FinalizeQueue(w, a, t, Failure, None, "upstream response missing task id");
    case Accepted(id, m) =>
      if m.Some? && Terminal(m.value) {
        up, won := FinalizeQueue(w, a, t, m.value, Some(id), "");
      } else {
        up := QueueOrRecord(w, a, t, manual, id);
        won := false;
      }
  }

  method QueueOrRecord(w: World, a: ActorId, t: TaskId, manual: bool, id: string) returns (up: bool)
    requires w.Valid() && w.At(a, t, Submit(CasQueued, manual, id))
    modifies w, w.db, w.slots
    ensures w.Valid() && OnlyMoved(old(w.s), w.s, w.base, a) && old(w.trace) <= w.trace && w.next == old(w.next)
    ensures w.own == old(w.own) && w.At(a, t, Done) && up == !Threw(w.last)
    ensures up ==> t in w.s.rows && w.s.rows[t].upstreamTaskId == Some(id)
                   && (w.s.rows[t].status == Queued || Terminal(w.s.rows[t].status))
  {
    var won;
    up, won := CasQueuedOf(w, a, t, manual, id);
    if up && !won {
      ghost var mid := w.s;
      up := RecordOrphan(w, a, t, manual, id);
      OnlyMovedTwice(old(w.s), mid, w.s, w.base, a);
    }
  }

  /** submit_queue_task: it leaves with an exception, hence is retried, exactly if a call raised or the
      upstream gave no definite answer; otherwise the gate was shut, or the row is as the answer says. */
  method SubmitQueueTask(w: World, a: ActorId, t: TaskId, manual: bool) returns (up: bool, answer: Option<Reply>)
    requires w.Valid() && w.At(a, t, Submit(Gate, manual, ""))
    modifies w, w.db, w.slots
    ensures w.Valid() && OnlyMoved(old(w.s), w.s, w.base, a) && old(w.trace) <= w.trace && w.next == old(w.next)
    ensures w.At(a, t, Done) && up == !Threw(w.last)
    ensures up && answer == None ==> !GateOpen(w.s.rows, t)
    ensures up && answer.Some? ==> !answer.value.Unreachable? && SettledBy(answer.value, w.s.rows, t)
    ensures w.own.published == old(w.own).published
  {
    var pass;
    up, pass := PassGate(w, a, t, manual);
    answer := None;
    if !pass { return; }
    ghost var mid := w.s;
    up, answer := PostAndSettle(w, a, t, manual);
    OnlyMovedTwice(old(w.s), mid, w.s, w.base, a);
  }

  method PostAndSettle(w: World, a: ActorId, t: TaskId, manual: bool) returns (up: bool, answer: Option<Reply>)
    requires w.Valid() && w.At(a, t, Submit(Post, manual, ""))
    modifies w, w.db, w.slots
    ensures w.Valid() && OnlyMoved(old(w.s), w.s, w.base, a) && old(w.trace) <= w.trace && w.next == old(w.next)
    ensures w.At(a, t, Done) && up == !Threw(w.last)
    ensures up ==> answer.Some? && !answer.value.Unreachable? && SettledBy(answer.value, w.s.rows, t)
    ensures w.own.published == old(w.own).published
  {
    var c := PostUpstream(w, a, t, manual);
    if c == Raise { return false, None; }
    answer := Some(c.reply);
    if c.reply.Unreachable? { return false, answer; }
    ghost var mid := w.s;
    var won;
    up, won := Settle(w, a, t, manual, c.reply);
    OnlyMovedTwice(old(w.s), mid, w.s, w.base, a);
  }

  // ---- create_queue_task, from the concurrency slot on ----

  /** The row is that of the request. */
  predicate RowFor(rows: map<TaskId, Row>, t: TaskId, sp: Spec) {
    t in rows && rows[t].token == sp.token && rows[t].callback == sp.callback
  }

  /** conc_acquire, which raises 429 when there is no slot */
  method AcquireSlot(w: World, a: ActorId, t: TaskId, sp: Spec)
    returns (got: bool)
    requires w.Valid() && w.At(a, t, Create(Acquire, sp, 0))
    modifies w, w.db, w.slots
    ensures w.Valid() && OnlyMoved(old(w.s), w.s, w.base, a) && old(w.trace) <= w.trace && w.next == old(w.next)
    ensures w.own == if got then old(w.own).(taken := old(w.own).taken + 1) else old(w.own)
    ensures w.At(a, t, if got then Create(Insert, sp, 0) else Done) && w.last.pc == Create(Acquire, sp, 0)
  {
    var c := w.Await(a, t, Create(Acquire, sp, 0));
    if c == Ok {
      got := AskForSlot(w, a, t, sp);
    } else {
      got := false;
      w.ServedCreate(a, t, Create(Acquire, sp, 0), c, Effect(Done));
    }
  }

  /** ... when the script runs. */
  method AskForSlot(w: World, a: ActorId, t: TaskId, sp: Spec) returns (got: bool)
    requires w.Valid() && w.At(a, t, Create(Acquire, sp, 0)) && Able(w.s, t, Create(Acquire, sp, 0), Ok)
    modifies w, w.slots
    ensures w.Valid() && OnlyMoved(old(w.s), w.s, w.base, a) && old(w.trace) <= w.trace && w.next == old(w.next)
    ensures w.own == if got then old(w.own).(taken := old(w.own).taken + 1) else old(w.own)
    ensures w.At(a, t, if got then Create(Insert, sp, 0) else Done) && w.last.pc == Create(Acquire, sp, 0)
  {
    got := w.slots.TryAcquire(sp.token, w.cfg.limit);
    var e := if got then Effect(Create(Insert, sp, 0), slot := Inc(sp.token)) else Effect(Done);
    assert w.Mirrors(Apply(w.s, a, t, e));
    w.ServedCreate(a, t, Create(Acquire, sp, 0), Ok, e);
  }

  /** taskstore.create */
  method InsertRow(w: World, a: ActorId, t: TaskId, sp: Spec)
    returns (up: bool)
    requires w.Valid() && w.At(a, t, Create(Insert, sp, 0))
    modifies w, w.db, w.slots
    ensures w.Valid() && OnlyMoved(old(w.s), w.s, w.base, a) && old(w.trace) <= w.trace && w.next == old(w.next)
    ensures w.own == if up && !sp.batched then old(w.own).(masked := old(w.own).masked + 1) else old(w.own)
    ensures w.At(a, t, if up then Create(Backfill, sp, 0) else if sp.batched then Done else Create(UndoFresh, sp, 0))
    ensures w.last.pc == Create(Insert, sp, 0) && (up ==> RowFor(w.s.rows, t, sp))
  {
    var c := w.Await(a, t, Create(Insert, sp, 0));
    up := c == Ok;
    if up {
      StoreRow(w, a, t, sp);
    } else {
      NoRow(w, a, t, sp);
    }
  }

  /** ... which raised. */
  method NoRow(w: World, a: ActorId, t: TaskId, sp: Spec)
    requires w.Valid() && w.At(a, t, Create(Insert, sp, 0))
    modifies w
    ensures w.Valid() && OnlyMoved(old(w.s), w.s, w.base, a) && old(w.trace) <= w.trace && w.next == old(w.next) && w.own == old(w.own)
    ensures w.At(a, t, if sp.batched then Done else Create(UndoFresh, sp, 0)) && w.last.pc == Create(Insert, sp, 0)
  {
    w.ServedCreate(a, t, Create(Insert, sp, 0), Raise, Effect(if sp.batched then Done else Create(UndoFresh, sp, 0)));
  }

  /** ... which meets no row of that name, ids being fresh. */
  method StoreRow(w: World, a: ActorId, t: TaskId, sp: Spec)
    requires w.Valid() && w.At(a, t, Create(Insert, sp, 0)) && Able(w.s, t, Create(Insert, sp, 0), Ok)
    modifies w, w.db
    ensures w.Valid() && OnlyMoved(old(w.s), w.s, w.base, a) && old(w.trace) <= w.trace && w.next == old(w.next)
    ensures w.own == if !sp.batched then old(w.own).(masked := old(w.own).masked + 1) else old(w.own)
    ensures RowFor(w.s.rows, t, sp)
    ensures var r := w.s.rows[t];
            && r.status == Submitted && r.progress == 0 && r.upstreamTaskId == None && r.requeueAttempts == 0
            && r.batchState == (if sp.batched then Waiting else NoBatch) && (Held(r) <==> !sp.batched)
    ensures w.At(a, t, Create(Backfill, sp, 0)) && w.last.pc == Create(Insert, sp, 0)
  {
    var row := NewRow(sp.token, sp.callback, sp.batched, w.s.now);
    var _ := w.db.Create(t, row);
    w.ServedCreate(a, t, Create(Insert, sp, 0), Ok, Effect(Create(Backfill, sp, 0), write := Some(row)));
  }

  /** conc_release of the handler, before there is a row */
  method ReturnUnwritten(w: World, a: ActorId, t: TaskId, sp: Spec)
    requires w.Valid() && w.At(a, t, Create(UndoFresh, sp, 0))
    modifies w, w.db, w.slots
    ensures w.Valid() && OnlyMoved(old(w.s), w.s, w.base, a) && old(w.trace) <= w.trace && w.next == old(w.next)
    ensures w.own == old(w.own).(undone := old(w.own).undone + 1)
    ensures w.At(a, t, Done) && w.last.pc == Create(UndoFresh, sp, 0)
  {
    var c := w.Await(a, t, Create(UndoFresh, sp, 0));
    w.slots.Release(sp.token, c == Raise);
    w.ServedCreate(a, t, Create(UndoFresh, sp, 0), c, CreateStep(w.cfg, w.s, t, Create(UndoFresh, sp, 0), c));
  }

  /** conc_release of the handler, after the row was created with its mask set */
  method ReturnWritten(w: World, a: ActorId, t: TaskId, sp: Spec)
    requires w.Valid() && w.At(a, t, Create(UndoCreated, sp, 0))
    modifies w, w.db, w.slots
    ensures w.Valid() && OnlyMoved(old(w.s), w.s, w.base, a) && old(w.trace) <= w.trace && w.next == old(w.next)
    ensures w.own == old(w.own).(undone := old(w.own).undone + 1)
    ensures w.At(a, t, Done) && w.last.pc == Create(UndoCreated, sp, 0)
  {
    var c := w.Await(a, t, Create(UndoCreated, sp, 0));
    w.slots.Release(sp.token, c == Raise);
    w.ServedCreate(a, t, Create(UndoCreated, sp, 0), c, CreateStep(w.cfg, w.s, t, Create(UndoCreated, sp, 0), c));
  }

  /** idem.set_task_id */
  method FillKey(w: World, a: ActorId, t: TaskId, sp: Spec)
    returns (up: bool)
    requires w.Valid() && w.At(a, t, Create(Backfill, sp, 0))
    modifies w, w.db, w.slots
    ensures w.Valid() && OnlyMoved(old(w.s), w.s, w.base, a) && old(w.trace) <= w.trace && w.next == old(w.next) && w.own == old(w.own)
    ensures w.At(a, t, if up then Create(if sp.batched then Join else Enqueue, sp, 0)
                       else if sp.batched then Done else Create(UndoCreated, sp, 0))
    ensures w.last.pc == Create(Backfill, sp, 0)
  {
    var c := w.Await(a, t, Create(Backfill, sp, 0));
    up := c == Ok;
    w.ServedCreate(a, t, Create(Backfill, sp, 0), c, CreateStep(w.cfg, w.s, t, Create(Backfill, sp, 0), c));
  }

  /** publish_queue_submit */
  method PublishFirst(w: World, a: ActorId, t: TaskId, sp: Spec)
    returns (up: bool)
    requires w.Valid() && w.At(a, t, Create(Enqueue, sp, 0))
    modifies w, w.db, w.slots
    ensures w.Valid() && OnlyMoved(old(w.s), w.s, w.base, a) && old(w.trace) <= w.trace && w.next == old(w.next) && w.own == old(w.own)
    ensures w.At(a, t, if up then Done else if sp.batched then Done else Create(UndoCreated, sp, 0))
    ensures w.last == Call(Create(Enqueue, sp, 0), if up then Ok else Raise)
    ensures up ==> t in w.submits && t in w.s.answered
  {
    var c := w.Await(a, t, Create(Enqueue, sp, 0));
    up := c == Ok;
    if up { w.submits := w.submits + {t}; }
    w.ServedCreate(a, t, Create(Enqueue, sp, 0), c, CreateStep(w.cfg, w.s, t, Create(Enqueue, sp, 0), c));
  }

  /** The books of an attempt: accepted with one slot taken and masked; or refused with as many slots given
      back as taken -- also when the row already says that it holds it. */
  predicate AcceptedOrUndone(o: Own, o': Own, accepted: bool) {
    && o'.(taken := o.taken, masked := o.masked, undone := o.undone) == o
    && (if accepted then o'.taken == o.taken + 1 && o'.masked == o.masked + 1 && o'.undone == o.undone
        else o'.undone - o.undone == o'.taken - o.taken)
  }

  /** The immediate path: a slot first, then the row, the key and the queue. */
  method AcceptImmediate(w: World, a: ActorId, t: TaskId, sp: Spec) returns (accepted: bool)
    requires w.Valid() && !sp.batched && w.At(a, t, Create(Acquire, sp, 0))
    modifies w, w.db, w.slots
    ensures w.Valid() && OnlyMoved(old(w.s), w.s, w.base, a) && old(w.trace) <= w.trace && w.next == old(w.next)
    ensures AcceptedOrUndone(old(w.own), w.own, accepted)
    ensures accepted ==> RowFor(w.s.rows, t, sp)
    ensures w.At(a, t, Done) && (accepted <==> w.last == Call(Create(Enqueue, sp, 0), Ok)) && (accepted ==> t in w.submits && t in w.s.answered)
  {
    var got := AcquireSlot(w, a, t, sp);
    if !got { return false; }
    ghost var mid := w.s;
    var up := InsertRow(w, a, t, sp);
    OnlyMovedTwice(old(w.s), mid, w.s, w.base, a);
    mid := w.s;
    if up { accepted := FillAndEnqueue(w, a, t, sp); } else { ReturnUnwritten(w, a, t, sp); accepted := false; }
    OnlyMovedTwice(old(w.s), mid, w.s, w.base, a);
  }

  method FillAndEnqueue(w: World, a: ActorId, t: TaskId, sp: Spec) returns (accepted: bool)
    requires w.Valid() && !sp.batched && w.At(a, t, Create(Backfill, sp, 0))
    modifies w, w.db, w.slots
    ensures w.Valid() && OnlyMoved(old(w.s), w.s, w.base, a) && old(w.trace) <= w.trace && w.next == old(w.next)
    ensures w.own == if accepted then old(w.own) else old(w.own).(undone := old(w.own).undone + 1)
    ensures w.At(a, t, Done) && (accepted <==> w.last == Call(Create(Enqueue, sp, 0), Ok)) && (accepted ==> t in w.submits && t in w.s.answered)
  {
    accepted := FillKey(w, a, t, sp);
    ghost var mid := w.s;
    if accepted {
      accepted := PublishFirst(w, a, t, sp);
      OnlyMovedTwice(old(w.s), mid, w.s, w.base, a);
      mid := w.s;
    }
    if !accepted {
      ReturnWritten(w, a, t, sp);
      OnlyMovedTwice(old(w.s), mid, w.s, w.base, a);
    }
  }

  /** Deadlines in the index are positive (BatchHistory.DeadlinesArePositive). */
  predicate PositiveDeadlines(z: BatchIndex.Store) {
    var due := BatchIndex.ZSet(z, BatchIndex.DUE_KEY);
    forall k | k in due :: due[k] > 0
  }

  lemma JoinedDeadlineIsPositive(z: BatchIndex.Store, name: string, key: string, now: int, due: int)
    requires PositiveDeadlines(z) && name != "due" && due > 0
    ensures var d := BatchIndex.Deadline(BatchIndex.Joined(z, name, key, now, due), key); d.Some? && d.value > 0
  {
    BatchIndex.NamesDiffer(key, key);
    var z1 := BatchIndex.ZAdd(z, BatchIndex.MemberKey(key), now, name);
    var was, withName := BatchIndex.ZSet(z, BatchIndex.DUE_KEY), BatchIndex.ZSet(z1, BatchIndex.DUE_KEY);
    assert if BatchIndex.MemberKey(key) == BatchIndex.DUE_KEY then withName == was[name := now] else withName == was;
    if key in withName { assert key in was && withName[key] == was[key]; }
  }

  /** The batch that a request is to join: its index, its own name in it, the grouping key, the wait of its
      plan, and what others have made of the index by then. */
  datatype Batch = Batch(index: BatchIndex.Index, name: string, key: string, wait: int, meanwhile: BatchIndex.Store)

  /** The index as a join of this batch at `at` leaves it. */
  function JoinedAt(b: Batch, at: int): BatchIndex.Store {
    BatchIndex.Joined(b.meanwhile, b.name, b.key, at, Batching.OpenerDeadline(at, b.wait))
  }

  /** The join itself, on what others have made of the index. */
  method JoinNow(b: Batch, now: int) returns (deadline: int)
    requires now >= 0 && PositiveDeadlines(b.meanwhile) && b.name != "due"
    modifies b.index
    ensures deadline > 0 && b.index.zsets == JoinedAt(b, now)
    ensures BatchIndex.Deadline(b.index.zsets, b.key) == Some(deadline)
  {
    b.index.zsets := b.meanwhile;
    JoinedDeadlineIsPositive(b.meanwhile, b.name, b.key, now, Batching.OpenerDeadline(now, b.wait));
    var count, wrote;
    count, deadline, wrote := b.index.Join(b.name, b.key, b.wait, now);
  }

  /** batching.join: what it answers is the deadline of the batch, read back from the index. */
  method JoinBatch(w: World, a: ActorId, t: TaskId, sp: Spec, b: Batch) returns (due: Option<int>, ghost at: int)
    requires w.Valid() && w.At(a, t, Create(Join, sp, 0))
    requires w.s.now >= 0 && PositiveDeadlines(b.meanwhile) && b.name != "due"
    modifies w, w.db, w.slots, b.index
    ensures w.Valid() && OnlyMoved(old(w.s), w.s, w.base, a) && old(w.trace) <= w.trace && w.next == old(w.next) && w.own == old(w.own)
    ensures w.At(a, t, if due.Some? then Create(PatchDue, sp, due.value) else Done) && w.last.pc == Create(Join, sp, 0)
    ensures due.Some? ==>
              && due.value > 0 && old(w.s.now) <= at <= w.s.now && b.index.zsets == JoinedAt(b, at)
              && BatchIndex.Deadline(b.index.zsets, b.key) == due
              && |w.trace| > |old(w.trace)| && w.trace[|w.trace| - 1] == Run(a, Joined(due.value))
  {
    var c := w.Await(a, t, Create(Join, sp, 0));
    at := w.s.now;
    if c.Joined? {
      var deadline := JoinNow(b, w.s.now);
      due := Some(deadline);
      w.ServedCreate(a, t, Create(Join, sp, 0), Joined(deadline), Effect(Create(PatchDue, sp, deadline)));
    } else {
      due := None;
      w.ServedCreate(a, t, Create(Join, sp, 0), c, Effect(Done));
    }
  }

  /** The deadline, into the row */
  method PatchDueOf(w: World, a: ActorId, t: TaskId, sp: Spec, due: int)
    returns (up: bool)
    requires w.Valid() && w.At(a, t, Create(PatchDue, sp, due))
    modifies w, w.db, w.slots
    ensures w.Valid() && OnlyMoved(old(w.s), w.s, w.base, a) && old(w.trace) <= w.trace && w.next == old(w.next) && w.own == old(w.own)
    ensures w.At(a, t, if up then Create(Answer, sp, 0) else Done) && w.last.pc == Create(PatchDue, sp, due)
    ensures up ==> t in w.db.rows && w.db.rows[t].batchDueAt == due && w.s.rows == w.db.rows
  {
    var c := w.Await(a, t, Create(PatchDue, sp, due));
    up := c == Ok;
    if up { w.db.Patched(t, Patch(batchDueAt := Some(due)), w.s.now); }
    w.ServedCreate(a, t, Create(PatchDue, sp, due), c, CreateStep(w.cfg, w.s, t, Create(PatchDue, sp, due), c));
  }

  /** The 202 */
  method AnswerClient(w: World, a: ActorId, t: TaskId, sp: Spec)
    requires w.Valid() && w.At(a, t, Create(Answer, sp, 0))
    modifies w, w.db, w.slots
    ensures w.Valid() && OnlyMoved(old(w.s), w.s, w.base, a) && old(w.trace) <= w.trace && w.next == old(w.next) && w.own == old(w.own)
    ensures w.At(a, t, Done) && w.last.pc == Create(Answer, sp, 0) && t in w.s.answered && w.db.rows == old(w.db.rows)
  {
    w.ServedCreate(a, t, Create(Answer, sp, 0), Ok, CreateStep(w.cfg, w.s, t, Create(Answer, sp, 0), Ok));
  }

  /** From the event `from` on the actor was answered by the batch index with this deadline. */
  ghost predicate JoinAnswered(trace: seq<Event>, from: nat, a: ActorId, due: int) {
    exists k :: from <= k < |trace| && trace[k] == Run(a, Joined(due))
  }

  /** The batched path: no slot; the row, the key, the batch and its deadline come before the 202.  The row
      of an accepted request is due at the deadline of its batch, as the index had it at the join; one
      that is refused after its row was created leaves the batch again, unless that raises. */
  method AcceptBatched(w: World, a: ActorId, t: TaskId, sp: Spec, b: Batch, after: BatchIndex.Store, leaves: bool)
    returns (accepted: bool, created: bool, ghost at: int)
    requires w.Valid() && sp.batched && w.At(a, t, Create(Insert, sp, 0))
    requires w.s.now >= 0 && PositiveDeadlines(b.meanwhile) && b.name != "due"
    modifies w, w.db, w.slots, b.index
    ensures w.Valid() && OnlyMoved(old(w.s), w.s, w.base, a) && old(w.trace) <= w.trace && w.next == old(w.next) && w.own == old(w.own)
    ensures w.At(a, t, Done) && (accepted <==> w.last.pc == Create(Answer, sp, 0))
    ensures created ==> RowFor(w.s.rows, t, sp)
    ensures accepted ==>
              && created && t in w.s.answered && w.s.rows[t].batchDueAt > 0
              && old(w.s.now) <= at <= w.s.now && b.index.zsets == JoinedAt(b, at)
              && BatchIndex.Deadline(b.index.zsets, b.key) == Some(w.s.rows[t].batchDueAt)
              && JoinAnswered(w.trace, old(|w.trace|), a, w.s.rows[t].batchDueAt)
    ensures created && !accepted && leaves ==> b.name !in BatchIndex.Members(b.index.zsets, b.key)
  {
    created := InsertRow(w, a, t, sp);
    accepted := false;
    at := w.s.now;
    if created {
      ghost var mid := w.s;
      accepted, at := FillAndJoin(w, a, t, sp, b);
      OnlyMovedTwice(old(w.s), mid, w.s, w.base, a);
      if !accepted { LeaveAgain(b, after, leaves); }
    }
  }

  /** batching.leave in the handler, which swallows its own failure, on what others have made of the index. */
  method LeaveAgain(b: Batch, after: BatchIndex.Store, leaves: bool)
    modifies b.index
    ensures leaves ==> b.name !in BatchIndex.Members(b.index.zsets, b.key)
  {
    b.index.zsets := after;
    if leaves {
      BatchIndex.NamesDiffer(b.key, b.key);
      b.index.Leave(b.name, b.key);
    }
  }

  method FillAndJoin(w: World, a: ActorId, t: TaskId, sp: Spec, b: Batch) returns (accepted: bool, ghost at: int)
    requires w.Valid() && sp.batched && w.At(a, t, Create(Backfill, sp, 0))
    requires w.s.now >= 0 && PositiveDeadlines(b.meanwhile) && b.name != "due"
    modifies w, w.db, w.slots, b.index
    ensures w.Valid() && OnlyMoved(old(w.s), w.s, w.base, a) && old(w.trace) <= w.trace && w.next == old(w.next) && w.own == old(w.own)
    ensures w.At(a, t, Done) && (accepted <==> w.last.pc == Create(Answer, sp, 0))
    ensures accepted ==>
              && t in w.s.answered && t in w.s.rows && w.s.rows[t].batchDueAt > 0
              && old(w.s.now) <= at <= w.s.now && b.index.zsets == JoinedAt(b, at)
              && BatchIndex.Deadline(b.index.zsets, b.key) == Some(w.s.rows[t].batchDueAt)
              && JoinAnswered(w.trace, old(|w.trace|), a, w.s.rows[t].batchDueAt)
  {
    accepted := FillKey(w, a, t, sp);
    at := w.s.now;
    if !accepted { return; }
    ghost var mid := w.s;
    accepted, at := JoinAndAnswer(w, a, t, sp, b);
    OnlyMovedTwice(old(w.s), mid, w.s, w.base, a);
  }

  method JoinAndAnswer(w: World, a: ActorId, t: TaskId, sp: Spec, b: Batch) returns (accepted: bool, ghost at: int)
    requires w.Valid() && sp.batched && w.At(a, t, Create(Join, sp, 0))
    requires w.s.now >= 0 && PositiveDeadlines(b.meanwhile) && b.name != "due"
    modifies w, w.db, w.slots, b.index
    ensures w.Valid() && OnlyMoved(old(w.s), w.s, w.base, a) && old(w.trace) <= w.trace && w.next == old(w.next) && w.own == old(w.own)
    ensures w.At(a, t, Done) && (accepted <==> w.last.pc == Create(Answer, sp, 0))
    ensures accepted ==>
              && t in w.s.answered && t in w.s.rows && w.s.rows[t].batchDueAt > 0
              && old(w.s.now) <= at <= w.s.now && b.index.zsets == JoinedAt(b, at)
              && BatchIndex.Deadline(b.index.zsets, b.key) == Some(w.s.rows[t].batchDueAt)
              && JoinAnswered(w.trace, old(|w.trace|), a, w.s.rows[t].batchDueAt)
  {
    var due;
    due, at := JoinBatch(w, a, t, sp, b);
    if due.None? { return false, at; }
    ghost var mid, joined := w.s, w.trace;
    accepted := DueAndAnswer(w, a, t, sp, due.value);
    OnlyMovedTwice(old(w.s), mid, w.s, w.base, a);
    assert w.trace[|joined| - 1] == joined[|joined| - 1];
  }

  method DueAndAnswer(w: World, a: ActorId, t: TaskId, sp: Spec, due: int) returns (accepted: bool)
    requires w.Valid() && due > 0 && w.At(a, t, Create(PatchDue, sp, due))
    modifies w, w.db, w.slots
    ensures w.Valid() && OnlyMoved(old(w.s), w.s, w.base, a) && old(w.trace) <= w.trace && w.next == old(w.next) && w.own == old(w.own)
    ensures w.At(a, t, Done) && (accepted <==> w.last.pc == Create(Answer, sp, 0))
    ensures accepted ==> t in w.s.answered && t in w.s.rows && w.s.rows[t].batchDueAt == due
  {
    accepted := PatchDueOf(w, a, t, sp, due);
    if accepted {
      ghost var mid := w.s;
      AnswerClient(w, a, t, sp);
      OnlyMovedTwice(old(w.s), mid, w.s, w.base, a);
    }
  }

  // ---- the probe: view_queue_task and _advance_from_probe ----

  /** The read: an active task with an upstream id is worth asking for. */
  method ReadForProbe(w: World, a: ActorId, t: TaskId, any: Status) returns (up: bool, read: Option<Status>)
    requires w.Valid() && w.At(a, t, Probe(ReadProbe, any))
    modifies w, w.db, w.slots
    ensures w.Valid() && OnlyMoved(old(w.s), w.s, w.base, a) && old(w.trace) <= w.trace && w.next == old(w.next) && w.own == old(w.own)
    ensures w.last == Call(Probe(ReadProbe, any), if up then Ok else Raise) && (read.Some? ==> up)
    ensures w.At(a, t, if read.Some? then Probe(Ask, read.value) else Done)
    ensures up ==> (read.Some? <==> t in w.s.rows && w.s.rows[t].status in ACTIVE && w.s.rows[t].upstreamTaskId.Some?)
    ensures read.Some? ==> read.value == w.s.rows[t].status
  {
    var c := w.Await(a, t, Probe(ReadProbe, any));
    up, read := c == Ok, None;
    if up {
      var task := w.db.Get(t);
      if task.Some? && task.value.status in ACTIVE && task.value.upstreamTaskId.Some? { read := Some(task.value.status); }
    }
    w.ServedQuietly(a, t, Probe(ReadProbe, any), c, Step(w.cfg, w.s, t, Probe(ReadProbe, any), c));
  }

  /** Where the answer of a probe leads, the status read before being `read`. */
  function AfterAsk(read: Status, m: Option<Status>): Pc {
    if m == None || m == Some(read) then Probe(PatchStatus, read)
    else if Terminal(m.value) then Finalize(CasTerminal, m.value, None, "")
    else Probe(CasActive, m.value)
  }

  /** call_upstream */
  method AskUpstream(w: World, a: ActorId, t: TaskId, read: Status) returns (c: Choice)
    requires w.Valid() && w.At(a, t, Probe(Ask, read)) && !Terminal(read)
    modifies w, w.db, w.slots
    ensures w.Valid() && OnlyMoved(old(w.s), w.s, w.base, a) && old(w.trace) <= w.trace && w.next == old(w.next) && w.own == old(w.own)
    ensures w.last == Call(Probe(Ask, read), c) && (c == Raise || (c.Probed? && Mapped(c.mapped)))
    ensures w.At(a, t, if c == Raise then Done else AfterAsk(read, c.mapped))
  {
    c := w.Await(a, t, Probe(Ask, read));
    w.ServedQuietly(a, t, Probe(Ask, read), c, Step(w.cfg, w.s, t, Probe(Ask, read), c));
  }

  /** The CAS to another active status. */
  method CasActiveOf(w: World, a: ActorId, t: TaskId, m: Status) returns (up: bool, won: bool)
    requires w.Valid() && w.At(a, t, Probe(CasActive, m))
    modifies w, w.db, w.slots
    ensures w.Valid() && OnlyMoved(old(w.s), w.s, w.base, a) && old(w.trace) <= w.trace && w.next == old(w.next) && w.own == old(w.own)
    ensures w.last == Call(Probe(CasActive, m), if up then Ok else Raise) && (won ==> up)
    ensures up ==> t in w.s.rows && if won then w.s.rows[t].status == m else Terminal(w.s.rows[t].status)
    ensures w.At(a, t, if up && !won then Probe(PatchStatus, m) else Done)
  {
    var c := w.Await(a, t, Probe(CasActive, m));
    up, won := c == Ok, false;
    if up { won := w.db.CasStatus(t, ACTIVE, m, Patch(), "", w.s.now); }
    w.Served(a, t, Probe(CasActive, m), c, Step(w.cfg, w.s, t, Probe(CasActive, m), c));
  }

  /** The merge of the upstream's own word for the status, which is outside the protocol's columns. */
  method TouchRow(w: World, a: ActorId, t: TaskId, any: Status) returns (up: bool)
    requires w.Valid() && w.At(a, t, Probe(PatchStatus, any))
    modifies w, w.db, w.slots
    ensures w.Valid() && OnlyMoved(old(w.s), w.s, w.base, a) && old(w.trace) <= w.trace && w.next == old(w.next) && w.own == old(w.own)
    ensures w.last == Call(Probe(PatchStatus, any), if up then Ok else Raise) && w.At(a, t, Done)
  {
    var c := w.Await(a, t, Probe(PatchStatus, any));
    up := c == Ok;
    if up { w.db.Patched(t, Patch(), w.s.now); }
    w.Served(a, t, Probe(PatchStatus, any), c, Step(w.cfg, w.s, t, Probe(PatchStatus, any), c));
  }

  /** The row after a probe was answered with `m`: ended, if that says so; otherwise with this status, unless
      it had ended before. */
  predicate Advanced(read: Status, m: Option<Status>, rows: map<TaskId, Row>, t: TaskId) {
    m == None || m == Some(read)
    || (t in rows && (Terminal(rows[t].status) || (!Terminal(m.value) && rows[t].status == m.value)))
  }

  /** _advance_from_probe, and the turn of the sweep: an own win leaves the status that was answered; an
      answer that maps to nothing, or to the status read, wins nothing. */
  method AdvanceFromProbe(w: World, a: ActorId, t: TaskId, read: Status, m: Option<Status>) returns (up: bool, won: bool)
    requires w.Valid() && w.At(a, t, AfterAsk(read, m)) && !Terminal(read)
    modifies w, w.db, w.slots
    ensures w.Valid() && OnlyMoved(old(w.s), w.s, w.base, a) && old(w.trace) <= w.trace && w.next == old(w.next)
    ensures w.At(a, t, Done) && up == !Threw(w.last)
    ensures up ==> Advanced(read, m, w.s.rows, t)
    ensures won ==> m.Some? && m != Some(read) && t in w.s.rows && w.s.rows[t].status == m.value
    ensures (m == None || m == Some(read) || !Terminal(m.value)) ==> w.own == old(w.own)
    ensures m.Some? && Terminal(m.value) ==> w.own.won == old(w.own).won + Bit(won)
  {
    if m == None || m == Some(read) {
      up := TouchRow(w, a, t, read);
      won := false;
    } else if Terminal(m.value) {
      up, won := FinalizeQueue(w, a, t, m.value, None, "");
    } else {
      up, won := CasActiveOf(w, a, t, m.value);
      if up && !won {
        ghost var mid := w.s;
        up := TouchRow(w, a, t, m.value);
        OnlyMovedTwice(old(w.s), mid, w.s, w.base, a);
      }
    }
  }

  /** A probe from its first read on. */
  method ProbeTask(w: World, a: ActorId, t: TaskId, any: Status)
    returns (up: bool, read: Option<Status>, answer: Option<Status>, won: bool)
    requires w.Valid() && w.At(a, t, Probe(ReadProbe, any))
    modifies w, w.db, w.slots
    ensures w.Valid() && OnlyMoved(old(w.s), w.s, w.base, a) && old(w.trace) <= w.trace && w.next == old(w.next)
    ensures w.At(a, t, Done) && up == !Threw(w.last)
    ensures up && read.Some? ==> Advanced(read.value, answer, w.s.rows, t)
    ensures won ==> read.Some? && answer.Some? && t in w.s.rows && w.s.rows[t].status == answer.value
  {
    up, read := ReadForProbe(w, a, t, any);
    answer, won := None, false;
    if read.None? { return; }
    ghost var mid := w.s;
    up, answer, won := AskAndAdvance(w, a, t, read.value);
    OnlyMovedTwice(old(w.s), mid, w.s, w.base, a);
  }

  method AskAndAdvance(w: World, a: ActorId, t: TaskId, read: Status)
    returns (up: bool, answer: Option<Status>, won: bool)
    requires w.Valid() && w.At(a, t, Probe(Ask, read)) && !Terminal(read)
    modifies w, w.db, w.slots
    ensures w.Valid() && OnlyMoved(old(w.s), w.s, w.base, a) && old(w.trace) <= w.trace && w.next == old(w.next)
    ensures w.At(a, t, Done) && up == !Threw(w.last)
    ensures up ==> Advanced(read, answer, w.s.rows, t)
    ensures won ==> answer.Some? && t in w.s.rows && w.s.rows[t].status == answer.value
  {
    var c := AskUpstream(w, a, t, read);
    if c == Raise { return false, None, false; }
    answer := c.mapped;
    ghost var mid := w.s;
    up, won := AdvanceFromProbe(w, a, t, read, answer);
    OnlyMovedTwice(old(w.s), mid, w.s, w.base, a);
  }
}
