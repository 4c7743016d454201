/** The release, slot and terminal protocol of `/queue` tasks as a transition system.

    Every asynchronous procedure of app/services/relayflow.py is an actor that works on one task and
    has a program counter; one step of an actor is one awaited call: one SQL statement, one Lua
    script, one message sent or one upstream request.  Actors interleave freely, may crash between
    any two steps, and may see any awaited call raise (the call then had no effect).  A trigger is an
    actor that may or may not appear, so lost, late, doubled and early triggers are all covered.

    `token_hash`, `callback_url` and "is batched at all" are written once, when the row is created
    (ProtocolHistory.RowsEvolve), so an actor that read them earlier and one that reads them again see
    the same value; they are read from the row here. */
module Protocol {
  import opened Wrappers
  import opened TaskStore
  import opened RateLimit
  import Batching

  type ActorId = nat

  /** `limit` is MAX_CONCURRENT_TASKS, `grace` the 120 s of the rescue, `backoffMax` the ceiling of
      the retry delay. */
  datatype Config = Config(limit: nat, grace: nat, backoffMax: int)

  datatype Spec = Spec(token: Token, batched: bool, callback: bool)

  // ---- the statements of each procedure, in source order ----

  /** create_queue_task: the two Undo points are the `conc_release` of its exception handler, before
      and after the row exists. */
  datatype CreateAt = Acquire | Insert | UndoFresh | Backfill | Enqueue | UndoCreated | Join | PatchDue | Answer

  /** release_batched_task; Unstick is the rescue loop's un-claim that precedes it. */
  datatype ReleaseAt = Unstick | Meta | Claim | TakeSlot | Mask | DropSlot | Unclaim | Requeue | Recheck | Publish | FailTask

  /** _release_slot, and who called it. */
  datatype ReturnAt = ClaimMask | Decrement
  datatype Caller = FromRecheck | FromPublish | FromCancel | FromFinalize

  datatype CancelAt = ReadTask | CasCanceled | LogCanceled
  datatype SubmitAt = Gate | Post | CasQueued | Orphan
  datatype ProbeAt = ReadProbe | Ask | CasActive | PatchStatus
  datatype FinalAt = CasTerminal | LogFinal | Callback

  /** The statement an actor is about to execute, with the local variables that it still needs. */
  datatype Pc =
    | Create(c: CreateAt, spec: Spec, due: int)
    | Release(r: ReleaseAt, attempts: nat)
    | Return(b: ReturnAt, caller: Caller)
    | Cancel(k: CancelAt)
    | Submit(w: SubmitAt, manual: bool, upstream: string)
    | Probe(p: ProbeAt, status: Status)
    | Finalize(f: FinalAt, to: Status, got: Option<string>, reason: string)
    | Done

  datatype Actor = Actor(task: TaskId, pc: Pc, alive: bool)

  /** How a CAS into a terminal status was won, and by whom. */
  datatype Kind = ByFinalize | ByCancel | ByEnqueueFailure
  datatype Win = Win(actor: ActorId, kind: Kind)

  /** Observable events, and their counts for one task over the whole run. */
  datatype Mark =
    | Logged          // statelog.record_transition into a terminal status
    | Notified        // publish_notify
    | Published       // publish_queue_submit by the release path
    | FailedPublish   // the same, raising

  datatype Tally = Tally(won: nat, logged: nat, notified: nat, published: nat, failed: nat)

  datatype State = State(
    rows: map<TaskId, Row>,
    conc: map<Token, nat>,          // the Redis counters; a missing key is 0
    actors: map<ActorId, Actor>,
    submits: set<TaskId>,           // submit messages of the service, deliverable any number of times
    manual: set<TaskId>,            // submit messages of /ops/requeue
    now: int,
    filled: set<TaskId>,            // history: tasks whose id is under the idempotency key of its request
    answered: set<TaskId>,          // history: tasks whose own request was answered with 202
    acked: set<TaskId>,             // history: the same, and those whose id a replay was answered with
    wins: map<TaskId, Win>,         // history
    leaked: multiset<Token>,        // history: decrements that raised and were swallowed
    seen: map<TaskId, Tally>)       // history

  // ---- the effect of one step ----

  datatype SlotOp = Keep | Inc(tok: Token) | Dec(tok: Token) | Leak(tok: Token)

  /** `write` is the new content of the actor's own row; `win` says that it was a CAS into a terminal
      status, `mark` is what else the history counts. */
  datatype Effect = Effect(
    next: Pc,
    write: Option<Row> := None,
    slot: SlotOp := Keep,
    submit: bool := false,
    fill: bool := false,
    ack: bool := false,
    win: Option<Kind> := None,
    mark: Option<Mark> := None)

  function SlotApply(conc: map<Token, nat>, op: SlotOp): map<Token, nat> {
    match op
    case Inc(tok) => conc[tok := Counter(conc, tok) + 1]
    case Dec(tok) => conc[tok := Decremented(Counter(conc, tok))]
    case _ => conc
  }

  function Seen(s: State, t: TaskId): Tally { if t in s.seen then s.seen[t] else Tally(0, 0, 0, 0, 0) }

  function Count(n: Tally, e: Effect): Tally {
    Tally(n.won + (if e.win.Some? then 1 else 0),
          n.logged + (if e.mark == Some(Logged) then 1 else 0),
          n.notified + (if e.mark == Some(Notified) then 1 else 0),
          n.published + (if e.mark == Some(Published) then 1 else 0),
          n.failed + (if e.mark == Some(FailedPublish) then 1 else 0))
  }

  function Apply(s: State, a: ActorId, t: TaskId, e: Effect): State {
    s.(rows := if e.write.Some? then s.rows[t := e.write.value] else s.rows,
       conc := SlotApply(s.conc, e.slot),
       actors := s.actors[a := Actor(t, e.next, true)],
       submits := if e.submit then s.submits + {t} else s.submits,
       filled := if e.fill then s.filled + {t} else s.filled,
       answered := if e.ack then s.answered + {t} else s.answered,
       acked := if e.ack then s.acked + {t} else s.acked,
       wins := if e.win.Some? then s.wins[t := Win(a, e.win.value)] else s.wins,
       leaked := if e.slot.Leak? then s.leaked + multiset{e.slot.tok} else s.leaked,
       seen := s.seen[t := Count(Seen(s, t), e)])
  }

  // ---- what the environment answers to the awaited call ----

  datatype Reply = Unreachable | Rejected(reason: string) | NoId | Accepted(id: string, mapped: Option<Status>)

  datatype Choice =
    | Ok
    | Raise
    | Joined(due: int)              // batching.join
    | Jitter(u: real)               // the random factor of batching.requeue
    | Replied(reply: Reply)         // the upstream's answer to a submission
    | Probed(mapped: Option<Status>)

  /** map_status never yields SUBMITTED. */
  predicate Mapped(m: Option<Status>) { m != Some(Submitted) }

  predicate Answers(pc: Pc, c: Choice) {
    match pc
    case Create(Answer, _, _) => c == Ok
    case Create(Join, _, _) => c == Raise || (c.Joined? && c.due > 0)
    case Release(Requeue, _) => c == Raise || (c.Jitter? && -0.1 <= c.u <= 0.1)
    case Cancel(LogCanceled) => c == Ok
    case Submit(Post, _, _) => c == Raise || (c.Replied? && (c.reply.Accepted? ==> Mapped(c.reply.mapped)))
    case Probe(Ask, _) => c == Raise || (c.Probed? && Mapped(c.mapped))
    case Finalize(LogFinal, _, _, _) => c == Ok
    case Done => false
    case _ => c == Ok || c == Raise
  }

  /** The statements that come after the actor has read or written its row. */
  predicate NeedsRow(pc: Pc) {
    match pc
    case Create(at, _, _) => at != Acquire && at != Insert && at != UndoFresh
    case Release(at, _) => at != Meta
    case Return(_, _) => true
    case Cancel(at) => at != ReadTask
    case Submit(at, _, _) => at != Gate
    case Probe(at, _) => at != ReadProbe
    case Finalize(_, _, _, _) => true
    case Done => false
  }

  /** An actor can take a step: the answer fits, its row is there, and uuid4 ids are fresh. */
  predicate Able(s: State, t: TaskId, pc: Pc, c: Choice) {
    && Answers(pc, c)
    && (NeedsRow(pc) ==> t in s.rows)
    && (pc.Create? && pc.c == Insert && c == Ok ==> t !in s.rows)
  }

  // ---- one step of each procedure ----

  function CreateStep(cfg: Config, s: State, t: TaskId, pc: Pc, c: Choice): Effect
    requires pc.Create? && Able(s, t, pc, c)
  {
    var sp := pc.spec;
    var undo := if sp.batched then Done else Create(UndoCreated, sp, 0);
    match pc.c
    case Acquire =>
      if c == Ok && Counter(s.conc, sp.token) < cfg.limit
      then Effect(Create(Insert, sp, 0), slot := Inc(sp.token))
      else Effect(Done)                                       // 429, or the counter is unreachable
    case Insert =>
      if c == Ok
      then Effect(Create(Backfill, sp, 0), write := Some(NewRow(sp.token, sp.callback, sp.batched, s.now)))
      else Effect(if sp.batched then Done else Create(UndoFresh, sp, 0))
    case UndoFresh => Effect(Done, slot := if c == Ok then Dec(sp.token) else Leak(sp.token))
    case Backfill =>
      if c == Ok then Effect(Create(if sp.batched then Join else Enqueue, sp, 0), fill := true) else Effect(undo)
    case Enqueue => if c == Ok then Effect(Done, submit := true, ack := true) else Effect(undo)
    case UndoCreated => Effect(Done, slot := if c == Ok then Dec(sp.token) else Keep)
    case Join => Effect(if c.Joined? then Create(PatchDue, sp, c.due) else Done)
    case PatchDue =>
      if c == Ok
      then Effect(Create(Answer, sp, 0), write := Some(PatchData(s.rows[t], Patch(batchDueAt := Some(pc.due)), s.now)))
      else Effect(Done)
    case Answer => Effect(Done, ack := true)
  }

  const RELEASED_WITH_SLOT := Patch(batchState := Some(Released), slotFlags := Some(1))
  const RELEASED_WITHOUT_SLOT := Patch(batchState := Some(Released), slotFlags := Some(0))

  function RequeuePatch(cfg: Config, attempts: nat, jitter: real, now: int): Patch
    requires -0.1 <= jitter <= 0.1
  {
    Patch(batchState := Some(Requeued),
          requeueAttempts := Some(Batching.NextAttempt(attempts)),
          batchDueAt := Some(now + Batching.RetryDelay(attempts, cfg.backoffMax, jitter)))
  }

  function ReleaseStep(cfg: Config, s: State, t: TaskId, pc: Pc, c: Choice): Effect
    requires pc.Release? && Able(s, t, pc, c)
  {
    var n := pc.attempts;
    match pc.r
    case Unstick =>
      Effect(Release(Meta, 0), write := if c == Ok then UnclaimForRelease(s.rows[t], s.now) else None)
    case Meta =>
      if c == Ok && t in s.rows && s.rows[t].status in ACTIVE && Claimable(s.rows[t].batchState)
      then Effect(Release(Claim, s.rows[t].requeueAttempts)) else Effect(Done)
    case Claim =>
      var won := ClaimForRelease(s.rows[t], s.now);
      if c == Ok && won.Some? then Effect(Release(TakeSlot, n), write := won) else Effect(Done)
    case TakeSlot =>
      if c == Raise then Effect(Done)
      else if Counter(s.conc, s.rows[t].token) < cfg.limit
      then Effect(Release(Mask, n), slot := Inc(s.rows[t].token))
      else Effect(Release(Unclaim, n))
    case Mask =>
      if c == Ok
      then Effect(Release(Recheck, n), write := Some(PatchData(s.rows[t], RELEASED_WITH_SLOT, s.now)))
      else Effect(Release(DropSlot, n))
    case DropSlot =>
      Effect(Release(Unclaim, n), slot := if c == Ok then Dec(s.rows[t].token) else Leak(s.rows[t].token))
    case Unclaim =>
      Effect(Release(Requeue, n), write := if c == Ok then UnclaimForRelease(s.rows[t], s.now) else None)
    case Requeue =>
      if c.Jitter?
      then Effect(Done, write := Some(PatchData(s.rows[t], RequeuePatch(cfg, n, c.u, s.now), s.now)))
      else Effect(Done)
    case Recheck =>
      if c == Raise then Effect(Done)
      else if s.rows[t].status in ACTIVE then Effect(Release(Publish, n))
      else Effect(Return(ClaimMask, FromRecheck))
    case Publish =>
      if c == Ok then Effect(Done, submit := true, mark := Some(Published))
      else Effect(Return(ClaimMask, FromPublish), mark := Some(FailedPublish))
    case FailTask =>
      var won := Cas(s.rows[t], {Submitted}, Failure, RELEASED_WITHOUT_SLOT,
                     "enqueue failed after batch release", s.now);
      if c == Ok && won.Some? then Effect(Done, write := won, win := Some(ByEnqueueFailure)) else Effect(Done)
  }

  /** What a caller of `_release_slot` does next. */
  function AfterReturn(caller: Caller): Pc {
    match caller
    case FromRecheck => Done
    case FromPublish => Release(FailTask, 0)
    case FromCancel => Done
    case FromFinalize => Finalize(Callback, Success, None, "")
  }

  function ReturnStep(s: State, t: TaskId, pc: Pc, c: Choice): Effect
    requires pc.Return? && Able(s, t, pc, c)
  {
    match pc.b
    case ClaimMask =>
      var won := ClaimSlotRelease(s.rows[t], s.now);
      if c == Raise then Effect(Done)
      else if won.Some? then Effect(Return(Decrement, pc.caller), write := won)
      else Effect(AfterReturn(pc.caller))
    case Decrement =>
      Effect(AfterReturn(pc.caller), slot := if c == Ok then Dec(s.rows[t].token) else Leak(s.rows[t].token))
  }

  function CancelStep(s: State, t: TaskId, pc: Pc, c: Choice): Effect
    requires pc.Cancel? && Able(s, t, pc, c)
  {
    match pc.k
    case ReadTask =>
      Effect(if c == Ok && t in s.rows && s.rows[t].status in ACTIVE then Cancel(CasCanceled) else Done)
    case CasCanceled =>
      var won := Cas(s.rows[t], ACTIVE, Canceled, Patch(), "canceled by user", s.now);
      if c == Ok && won.Some? then Effect(Cancel(LogCanceled), write := won, win := Some(ByCancel)) else Effect(Done)
    case LogCanceled => Effect(Return(ClaimMask, FromCancel), mark := Some(Logged))
  }

  function SubmitStep(s: State, t: TaskId, pc: Pc, c: Choice): Effect
    requires pc.Submit? && Able(s, t, pc, c)
  {
    match pc.w
    case Gate =>
      if c == Ok && t in s.rows && s.rows[t].status in ACTIVE
         && !Claimable(s.rows[t].batchState) && s.rows[t].upstreamTaskId == None
      then Effect(Submit(Post, pc.manual, "")) else Effect(Done)
    case Post =>
      if c == Raise then Effect(Done)
      else (match c.reply
        case Unreachable => Effect(Done)
        case Rejected(reason) => Effect(Finalize(CasTerminal, Failure, None, reason))
        case NoId => Effect(Finalize(CasTerminal, Failure, None, "upstream response missing task id"))
        case Accepted(u, m) =>
          if m.Some? && Terminal(m.value) then Effect(Finalize(CasTerminal, m.value, Some(u), ""))
          else Effect(Submit(CasQueued, pc.manual, u)))
    case CasQueued =>
      var won := Cas(s.rows[t], ACTIVE, Queued, Patch(upstreamTaskId := Some(pc.upstream)), "", s.now);
      if c == Raise then Effect(Done)
      else if won.Some? then Effect(Done, write := won)
      else Effect(Submit(Orphan, pc.manual, pc.upstream))
    case Orphan =>
      if c == Ok
      then Effect(Done, write := Some(PatchData(s.rows[t], Patch(upstreamTaskId := Some(pc.upstream)), s.now)))
      else Effect(Done)
  }

  function ProbeStep(s: State, t: TaskId, pc: Pc, c: Choice): Effect
    requires pc.Probe? && Able(s, t, pc, c)
  {
    match pc.p
    case ReadProbe =>
      if c == Ok && t in s.rows && s.rows[t].status in ACTIVE && s.rows[t].upstreamTaskId.Some?
      then Effect(Probe(Ask, s.rows[t].status)) else Effect(Done)
    case Ask =>
      if c == Raise then Effect(Done)
      else (match c.mapped
        case None => Effect(Probe(PatchStatus, pc.status))
        case Some(m) =>
          if Terminal(m) then Effect(Finalize(CasTerminal, m, None, ""))
          else Effect(Probe(if m != pc.status then CasActive else PatchStatus, m)))
    case CasActive =>
      var won := Cas(s.rows[t], ACTIVE, pc.status, Patch(), "", s.now);
      if c == Raise then Effect(Done)
      else if won.Some? then Effect(Done, write := won)
      else Effect(Probe(PatchStatus, pc.status))
    case PatchStatus =>
      Effect(Done, write := if c == Ok then Some(PatchData(s.rows[t], Patch(), s.now)) else None)
  }

  function FinalizeStep(s: State, t: TaskId, pc: Pc, c: Choice): Effect
    requires pc.Finalize? && Able(s, t, pc, c)
  {
    match pc.f
    case CasTerminal =>
      var won := Cas(s.rows[t], ACTIVE, pc.to, Patch(upstreamTaskId := pc.got), pc.reason, s.now);
      if c == Ok && won.Some?
      then Effect(Finalize(LogFinal, pc.to, pc.got, pc.reason), write := won, win := Some(ByFinalize))
      else Effect(Done)
    case LogFinal => Effect(Return(ClaimMask, FromFinalize), mark := Some(Logged))
    case Callback => Effect(Done, mark := if c == Ok && s.rows[t].callback then Some(Notified) else None)
  }

  function Step(cfg: Config, s: State, t: TaskId, pc: Pc, c: Choice): Effect
    requires Able(s, t, pc, c)
  {
    match pc
    case Create(_, _, _) => CreateStep(cfg, s, t, pc, c)
    case Release(_, _) => ReleaseStep(cfg, s, t, pc, c)
    case Return(_, _) => ReturnStep(s, t, pc, c)
    case Cancel(_) => CancelStep(s, t, pc, c)
    case Submit(_, _, _) => SubmitStep(s, t, pc, c)
    case Probe(_, _) => ProbeStep(s, t, pc, c)
    case Finalize(_, _, _, _) => FinalizeStep(s, t, pc, c)
  }

  // ---- events and runs ----

  datatype Event =
    | Spawn(actor: ActorId, task: TaskId, job: Pc)
    | Run(actor: ActorId, choice: Choice)
    | Crash(actor: ActorId)
    | Tick(seconds: nat)
    | ManualRequeue(target: TaskId) // /ops/requeue
    | Replay(original: TaskId)      // a request with the same idempotency key, answered with 202 as well
    | DropMessages                  // Redis loses the queue and the batch index

  /** Jobs that may start: a request, a trigger naming any task at any time, a message in the queue,
      a row that the rescue query selects. */
  predicate Startable(cfg: Config, s: State, t: TaskId, job: Pc) {
    match job
    case Create(at, sp, _) => at == if sp.batched then Insert else Acquire
    case Release(Meta, _) => true
    case Release(Unstick, _) =>
      t in s.rows && StaleBatch(s.rows[t], s.now, cfg.grace) && s.rows[t].batchState == Releasing
    case Cancel(ReadTask) => true
    case Submit(Gate, manual, _) => t in if manual then s.manual else s.submits
    case Probe(ReadProbe, _) => true
    case _ => false
  }

  predicate Enabled(cfg: Config, s: State, e: Event) {
    match e
    case Spawn(a, t, job) => a !in s.actors && Startable(cfg, s, t, job)
    case Run(a, c) => a in s.actors && s.actors[a].alive && Able(s, s.actors[a].task, s.actors[a].pc, c)
    case Crash(a) => a in s.actors
    case Replay(t) => t in s.filled && t in s.rows
    case _ => true
  }

  /** The effect of the step that actor `a` takes on answer `c`. */
  function StepOf(cfg: Config, s: State, a: ActorId, c: Choice): Effect
    requires Enabled(cfg, s, Run(a, c))
  { Step(cfg, s, s.actors[a].task, s.actors[a].pc, c) }

  function Next(cfg: Config, s: State, e: Event): State
    requires Enabled(cfg, s, e)
  {
    match e
    case Spawn(a, t, job) => s.(actors := s.actors[a := Actor(t, job, true)])
    case Run(a, c) => Apply(s, a, s.actors[a].task, StepOf(cfg, s, a, c))
    case Crash(a) => s.(actors := s.actors[a := s.actors[a].(alive := false)])
    case Tick(d) => s.(now := s.now + d)
    case ManualRequeue(t) => s.(manual := s.manual + {t})
    case Replay(t) => s.(acked := s.acked + {t})
    case DropMessages => s.(submits := {}, manual := {})
  }

  /** A run is a sequence of enabled events; `Exec` is the state it reaches. */
  predicate Runs(cfg: Config, s: State, es: seq<Event>)
    decreases |es|
  {
    es == [] || (Enabled(cfg, s, es[0]) && Runs(cfg, Next(cfg, s, es[0]), es[1..]))
  }

  function Exec(cfg: Config, s: State, es: seq<Event>): State
    requires Runs(cfg, s, es)
    decreases |es|
  {
    if es == [] then s else Exec(cfg, Next(cfg, s, es[0]), es[1..])
  }

  lemma {:induction false} Extend(cfg: Config, s: State, es: seq<Event>, e: Event)
    requires Runs(cfg, s, es) && Enabled(cfg, Exec(cfg, s, es), e)
    ensures Runs(cfg, s, es + [e]) && Exec(cfg, s, es + [e]) == Next(cfg, Exec(cfg, s, es), e)
    decreases |es|
  {
    if es == [] {
      assert [e][1..] == [];
    } else {
      assert (es + [e])[0] == es[0] && (es + [e])[1..] == es[1..] + [e];
      Extend(cfg, Next(cfg, s, es[0]), es[1..], e);
    }
  }

  lemma Then(cfg: Config, s: State, es: seq<Event>, e: Event) returns (es': seq<Event>)
    requires Runs(cfg, s, es) && Enabled(cfg, Exec(cfg, s, es), e)
    ensures es' == es + [e] && Runs(cfg, s, es') && Exec(cfg, s, es') == Next(cfg, Exec(cfg, s, es), e)
  {
    Extend(cfg, s, es, e);
    es' := es + [e];
  }

  lemma {:induction false} Concat(cfg: Config, s: State, es: seq<Event>, fs: seq<Event>)
    requires Runs(cfg, s, es) && Runs(cfg, Exec(cfg, s, es), fs)
    ensures Runs(cfg, s, es + fs) && Exec(cfg, s, es + fs) == Exec(cfg, Exec(cfg, s, es), fs)
    decreases |es|
  {
    if es == [] {
      assert es + fs == fs;
    } else {
      assert (es + fs)[0] == es[0] && (es + fs)[1..] == es[1..] + fs;
      Concat(cfg, Next(cfg, s, es[0]), es[1..], fs);
    }
  }

  /** The rows of a token that hold a slot. */
  function HeldRows(rows: map<TaskId, Row>, tok: Token): set<TaskId> {
    set t | t in rows && Held(rows[t]) && rows[t].token == tok
  }

  /** In a row at rest, waiting rows hold no slot and submitted ones do. */
  predicate RestingRow(r: Row) {
    && (Held(r) ==> r.batchState == NoBatch || r.batchState == Released)
    && (r.status in ACTIVE && !Held(r) ==> r.batchState != NoBatch && r.batchState != Released)
  }

  /** A quiescent start: no actor, no message, no history; rows of any age, with or without the keys
      of today; counters that agree with the rows. */
  ghost predicate Initial(cfg: Config, s: State) {
    && s.actors == map[] && s.submits == {} && s.manual == {} && s.now >= 0
    && s.filled == {} && s.answered == {} && s.acked == {} && s.wins == map[] && s.leaked == multiset{} && s.seen == map[]
    && (forall t | t in s.rows :: RestingRow(s.rows[t]))
    && (forall tok :: Counter(s.conc, tok) == |HeldRows(s.rows, tok)| <= cfg.limit)
  }
}
