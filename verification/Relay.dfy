/** release_batched_task, batching.release and _rescue_overdue_batches as they are written: code that
    awaits one call after the other and changes the table, the counters and the queue in place.

    Class World holds what this code shares with everybody else.  At every awaited call anybody else
    may first take any steps (`Moment.others`), and the call may raise.  What is proved: whatever
    happens at the awaited calls, the code goes on with the run of the machine that it found (Valid, and
    `old(trace) <= trace`), takes its actor from the first statement of the procedure to the end, keeps
    its books, and leaves the row as it reports.  All that the modules Protocol* prove about runs holds
    of it. */
module Relay {
  import opened Wrappers
  import opened TaskStore
  import opened RateLimit
  import opened Protocol
  import opened ProtocolRescue
  import opened ProtocolRows
  import Batching
  import ProtocolAnswers
  import ProtocolHistory
  import ProtocolRelease

  /** What release_batched_task returns, or that it raised. */
  datatype Outcome = Sent | Deferred | Skipped | Raised

  /** One awaited call: what others do before it is served, and how it is answered. */
  datatype Moment = Moment(others: seq<Event>, answer: Choice)

  /** An own statement and its answer. */
  datatype Call = Call(pc: Pc, answer: Choice)

  /** The statement, the last one of its procedure, ended it with an exception (conc_release swallows
      its own). */
  predicate Threw(call: Call) {
    (call.answer == Raise && !(call.pc.Return? && call.pc.b == Decrement)) || call.answer == Replied(Unreachable)
  }

  /** What the caller must be told after the last statement of release_batched_task. */
  function Told(call: Call): Outcome {
    if Threw(call) then Raised
    else if call.answer.Jitter? then Deferred
    else if call.pc.Release? && call.pc.r == Publish then Sent
    else Skipped
  }

  // ---- the books of this process ----

  /** What own statements did so far: publications, won CASes into a terminal status, log entries and
      callbacks; slots acquired, masks set, slots given back without a mask, masks zeroed, and slots given
      back after that. */
  datatype Own = Own(
    published: nat, won: nat, logged: nat, notified: nat,
    taken: nat, masked: nat, undone: nat, zeroed: nat, returned: nat)

  function Did(o: Own, pc: Pc, e: Effect): Own {
    match pc
    case Create(Acquire, _, _) => o.(taken := o.taken + Bit(e.slot.Inc?))
    case Create(Insert, sp, _) => o.(masked := o.masked + Bit(e.write.Some? && !sp.batched))
    case Create(UndoFresh, _, _) => o.(undone := o.undone + 1)
    case Create(UndoCreated, _, _) => o.(undone := o.undone + 1)
    case Release(TakeSlot, _) => o.(taken := o.taken + Bit(e.slot.Inc?))
    case Release(Mask, _) => o.(masked := o.masked + Bit(e.write.Some?))
    case Release(DropSlot, _) => o.(undone := o.undone + 1)
    case Release(Publish, _) => o.(published := o.published + Bit(e.mark == Some(Published)))
    case Release(FailTask, _) => o.(won := o.won + Bit(e.win.Some?))
    case Return(ClaimMask, _) => o.(zeroed := o.zeroed + Bit(e.write.Some?))
    case Return(Decrement, _) => o.(returned := o.returned + 1)
    case Cancel(CasCanceled) => o.(won := o.won + Bit(e.win.Some?))
    case Cancel(LogCanceled) => o.(logged := o.logged + Bit(e.mark == Some(Logged)))
    case Finalize(CasTerminal, _, _, _) => o.(won := o.won + Bit(e.win.Some?))
    case Finalize(LogFinal, _, _, _) => o.(logged := o.logged + Bit(e.mark == Some(Logged)))
    case Finalize(Callback, _, _, _) => o.(notified := o.notified + Bit(e.mark == Some(Notified)))
    case _ => o
  }

  /** Nothing but masks zeroed, and for each of them one slot given back. */
  predicate GaveBack(o: Own, o': Own) {
    && o'.(zeroed := o.zeroed, returned := o.returned) == o
    && o'.returned - o.returned == o'.zeroed - o.zeroed
  }

  /** Every slot that was taken is on a mask or was given back, and one more for every mask zeroed; nothing
      was logged or called back. */
  predicate Accounts(o: Own, o': Own) {
    && o'.taken - o.taken == (o'.masked - o.masked) + (o'.undone - o.undone)
    && o'.returned - o.returned == o'.zeroed - o.zeroed
    && o'.logged == o.logged && o'.notified == o.notified
  }

  /** The same, with no slot taken and no mask set. */
  predicate SettlesUp(o: Own, o': Own) {
    Accounts(o, o') && o'.taken == o.taken && o'.masked == o.masked && o'.undone == o.undone
  }

  // ---- what others may do ----

  /** The actors from `base` on are the ones of this process. */
  predicate Foreign(e: Event, base: ActorId) {
    e.Spawn? || e.Run? || e.Crash? ==> e.actor < base
  }

  /** From one moment to a later one the rows stay steady and of this process only `a` moved. */
  ghost predicate OnlyMoved(s: State, s': State, base: ActorId, a: ActorId) {
    && Steady(s.rows, s'.rows) && s.now <= s'.now
    && (forall b | b in s.actors && base <= b && b != a :: b in s'.actors && s'.actors[b] == s.actors[b])
    && (forall b | b in s'.actors && base <= b && b != a :: b in s.actors)
  }

  ghost predicate NobodyMoved(s: State, s': State, base: ActorId) {
    && Steady(s.rows, s'.rows) && s.now <= s'.now
    && (forall b | b in s.actors && base <= b :: b in s'.actors && s'.actors[b] == s.actors[b])
    && (forall b | b in s'.actors && base <= b :: b in s.actors)
  }

  /** The patch of the requeue puts the row off. */
  lemma RequeuePutsOff(cfg: Config, r: Row, n: nat, u: real, now: int)
    requires -0.1 <= u <= 0.1
    ensures PutOff(cfg, PatchData(r, RequeuePatch(cfg, n, u, now), now), n, now)
  {
    Batching.DelayBounds(n, cfg.backoffMax, u);
    Batching.BaseBounds(n, cfg.backoffMax);
  }

  lemma OnlyMovedTwice(s0: State, s1: State, s2: State, base: ActorId, a: ActorId)
    requires OnlyMoved(s0, s1, base, a) && OnlyMoved(s1, s2, base, a)
    ensures OnlyMoved(s0, s2, base, a)
  {
  }

  lemma NobodyMovedTwice(s0: State, s1: State, s2: State, base: ActorId)
    requires NobodyMoved(s0, s1, base) && NobodyMoved(s1, s2, base)
    ensures NobodyMoved(s0, s2, base)
  {
  }

  lemma ForeignEvent(cfg: Config, s: State, e: Event, base: ActorId)
    requires Enabled(cfg, s, e) && Foreign(e, base)
    ensures NobodyMoved(s, Next(cfg, s, e), base)
  {
    NextIsSteady(cfg, s, e);
  }

  lemma {:induction false} OthersLeaveUsAlone(cfg: Config, s: State, es: seq<Event>, base: ActorId)
    requires Runs(cfg, s, es) && forall e | e in es :: Foreign(e, base)
    ensures NobodyMoved(s, Exec(cfg, s, es), base)
    decreases |es|
  {
    if es != [] {
      var s1 := Next(cfg, s, es[0]);
      assert Foreign(es[0], base) && forall e | e in es[1..] :: e in es;
      ForeignEvent(cfg, s, es[0], base);
      OthersLeaveUsAlone(cfg, s1, es[1..], base);
      NobodyMovedTwice(s, s1, Exec(cfg, s, es), base);
    }
  }

  lemma ApplyMoves(s: State, a: ActorId, t: TaskId, e: Effect, base: ActorId)
    requires a in s.actors && (NeedsRow(e.next) ==> e.write.Some? || t in s.rows)
    requires e.write.Some? && t in s.rows ==> Preserves(s.rows[t], e.write.value)
    ensures var s' := Apply(s, a, t, e);
            && OnlyMoved(s, s', base, a) && s'.actors.Keys == s.actors.Keys && s'.now == s.now
            && s'.actors[a] == Actor(t, e.next, true) && (NeedsRow(e.next) ==> t in s'.rows)
  {
  }

  /** What a served call is to the run. */
  lemma OneMoreStep(cfg: Config, start: State, trace: seq<Event>, a: ActorId, t: TaskId, pc: Pc, c: Choice, base: ActorId)
    requires Runs(cfg, start, trace)
    requires var s := Exec(cfg, start, trace);
             && a in s.actors && s.actors[a] == Actor(t, pc, true) && Able(s, t, pc, c)
             && var e := Step(cfg, s, t, pc, c); (NeedsRow(e.next) ==> e.write.Some? || t in s.rows)
    ensures Runs(cfg, start, trace + [Run(a, c)])
    ensures var s := Exec(cfg, start, trace); var s' := Apply(s, a, t, Step(cfg, s, t, pc, c));
            && Exec(cfg, start, trace + [Run(a, c)]) == s'
            && OnlyMoved(s, s', base, a) && s'.actors.Keys == s.actors.Keys
  {
    var s := Exec(cfg, start, trace);
    Extend(cfg, start, trace, Run(a, c));
    WriteOfStep(cfg, s, t, pc, c);
    ApplyMoves(s, a, t, Step(cfg, s, t, pc, c), base);
  }

  ghost predicate HadIn(cfg: Config, start: State, trace: seq<Event>, k: nat, t: TaskId, attempts: nat) {
    && k <= |trace| && Runs(cfg, start, trace[..k])
    && var x := Exec(cfg, start, trace[..k]); t in x.rows && x.rows[t].requeueAttempts == attempts
  }

  lemma HadOnce(cfg: Config, start: State, before: seq<Event>, trace: seq<Event>, t: TaskId, attempts: nat)
    requires before <= trace && Runs(cfg, start, before)
    requires var x := Exec(cfg, start, before); t in x.rows && x.rows[t].requeueAttempts == attempts
    ensures HadIn(cfg, start, trace, |before|, t, attempts)
  {
    assert trace[..|before|] == before;
  }

  class World {
    const cfg: Config
    const db: TaskTable
    const slots: SlotCounters
    const base: ActorId
    var submits: set<TaskId>
    var moments: seq<Moment>
    var s: State                // the system as everybody sees it
    var next: ActorId           // the next free name of an own actor
    ghost const start: State
    ghost var trace: seq<Event> // all that has happened since `start`
    ghost var last: Call        // the last own statement
    ghost var own: Own          // the books of this process

    ghost predicate Mirrors(x: State)
      reads this, db, slots
    {
      && db.rows == x.rows && submits == x.submits
      && forall tok :: Counter(slots.conc, tok) == Counter(x.conc, tok)
    }

    ghost predicate Valid()
      reads this, db, slots
    {
      && Mirrors(s)
      && Runs(cfg, start, trace) && Exec(cfg, start, trace) == s
      && base <= next && forall a | a in s.actors :: a < next
    }

    ghost predicate At(a: ActorId, t: TaskId, pc: Pc)
      reads this
    {
      a in s.actors && base <= a && s.actors[a] == Actor(t, pc, true) && (NeedsRow(pc) ==> t in s.rows)
    }

    /** The row of `t` has been put off, after so many attempts before. */
    predicate PutBack(t: TaskId, attempts: nat)
      reads this, db
    {
      t in db.rows && PutOff(cfg, db.rows[t], attempts, s.now)
    }

    constructor (cfg: Config, start: State, base: ActorId, moments: seq<Moment>)
      requires forall a | a in start.actors :: a < base
      ensures Valid() && fresh(db) && fresh(slots)
      ensures s == start && next == base && this.cfg == cfg && this.base == base && this.start == start
    {
      this.cfg, this.base, this.moments, this.start := cfg, base, moments, start;
      s, submits, next, trace := start, start.submits, base, [];
      last, own := Call(Done, Ok), Own(0, 0, 0, 0, 0, 0, 0, 0, 0);
      db := new TaskTable();
      slots := new SlotCounters();
      new;
      db.rows, slots.conc := start.rows, start.conc;
    }

    /** There is something to release. */
    predicate Releasable(t: TaskId)
      reads this, db
    {
      t in db.rows && db.rows[t].status == Submitted && Claimable(db.rows[t].batchState)
    }

    /** At the k-th event of the run the row said that there had been so many attempts. */
    ghost predicate Had(k: nat, t: TaskId, attempts: nat)
      reads this
    { HadIn(cfg, start, trace, k, t, attempts) }

    /** Others take some steps. */
    method Others(es: seq<Event>)
      requires Valid()
      modifies this, db, slots
      ensures Valid() && NobodyMoved(old(s), s, base) && old(trace) <= trace
      ensures last == old(last) && own == old(own) && next == old(next)
    {
      if Runs(cfg, s, es) && (forall e | e in es :: Foreign(e, base))
         && (forall x | x in Exec(cfg, s, es).actors :: x < next) {
        OthersLeaveUsAlone(cfg, s, es, base);
        Concat(cfg, start, trace, es);
        s := Exec(cfg, s, es);
        trace := trace + es;
        db.rows, slots.conc, submits := s.rows, s.conc, s.submits;
      }
    }

    /** Wait for the next call: others go first, then the call is answered. */
    method Await(a: ActorId, t: TaskId, pc: Pc) returns (c: Choice)
      requires Valid() && At(a, t, pc) && Answers(pc, Raise)
      modifies this, db, slots
      ensures Valid() && At(a, t, pc) && Able(s, t, pc, c)
      ensures OnlyMoved(old(s), s, base, a) && old(trace) <= trace
      ensures last == old(last) && own == old(own) && next == old(next)
    {
      c := Raise;
      if moments != [] {
        var m := moments[0];
        moments := moments[1..];
        Others(m.others);
        if Able(s, t, pc, m.answer) { c := m.answer; }
      }
    }

    /** The call was served: the own actor has taken its step `e`. */
    method Served(a: ActorId, t: TaskId, pc: Pc, c: Choice, e: Effect)
      requires At(a, t, pc) && Able(s, t, pc, c) && e == Step(cfg, s, t, pc, c)
      requires Runs(cfg, start, trace) && Exec(cfg, start, trace) == s
      requires base <= next && forall b | b in s.actors :: b < next
      requires (NeedsRow(e.next) ==> e.write.Some? || t in s.rows) && Mirrors(Apply(s, a, t, e))
      modifies this
      ensures Valid() && At(a, t, e.next) && trace == old(trace) + [Run(a, c)]
      ensures OnlyMoved(old(s), s, base, a) && next == old(next) && submits == old(submits) && s.now == old(s).now
      ensures last == Call(pc, c) && own == Did(old(own), pc, e) && (e.ack ==> t in s.answered)
    {
      OneMoreStep(cfg, start, trace, a, t, pc, c, base);
      trace := trace + [Run(a, c)];
      last := Call(pc, c);
      own := Did(own, pc, e);
      s := Apply(s, a, t, e);
    }

    /** ... a statement of release_batched_task or of the rescue loop ... */
    method ServedRelease(a: ActorId, t: TaskId, pc: Pc, c: Choice, e: Effect)
      requires pc.Release? && At(a, t, pc) && Able(s, t, pc, c) && e == ReleaseStep(cfg, s, t, pc, c)
      requires Runs(cfg, start, trace) && Exec(cfg, start, trace) == s
      requires base <= next && forall b | b in s.actors :: b < next
      requires (NeedsRow(e.next) ==> e.write.Some? || t in s.rows) && Mirrors(Apply(s, a, t, e))
      modifies this
      ensures Valid() && At(a, t, e.next) && trace == old(trace) + [Run(a, c)]
      ensures OnlyMoved(old(s), s, base, a) && next == old(next) && submits == old(submits) && s.now == old(s).now
      ensures last == Call(pc, c) && own == Did(old(own), pc, e)
    {
      Served(a, t, pc, c, e);
    }

    /** ... of _release_slot ... */
    method ServedReturn(a: ActorId, t: TaskId, pc: Pc, c: Choice, e: Effect)
      requires pc.Return? && At(a, t, pc) && Able(s, t, pc, c) && e == ReturnStep(s, t, pc, c)
      requires Runs(cfg, start, trace) && Exec(cfg, start, trace) == s
      requires base <= next && forall b | b in s.actors :: b < next
      requires (NeedsRow(e.next) ==> e.write.Some? || t in s.rows) && Mirrors(Apply(s, a, t, e))
      modifies this
      ensures Valid() && At(a, t, e.next) && trace == old(trace) + [Run(a, c)]
      ensures OnlyMoved(old(s), s, base, a) && next == old(next) && submits == old(submits) && s.now == old(s).now
      ensures last == Call(pc, c) && own == Did(old(own), pc, e)
    {
      Served(a, t, pc, c, e);
    }

    /** ... of create_queue_task. */
    method ServedCreate(a: ActorId, t: TaskId, pc: Pc, c: Choice, e: Effect)
      requires pc.Create? && At(a, t, pc) && Able(s, t, pc, c) && e == CreateStep(cfg, s, t, pc, c)
      requires Runs(cfg, start, trace) && Exec(cfg, start, trace) == s
      requires base <= next && forall b | b in s.actors :: b < next
      requires (NeedsRow(e.next) ==> e.write.Some? || t in s.rows) && Mirrors(Apply(s, a, t, e))
      modifies this
      ensures Valid() && At(a, t, e.next) && trace == old(trace) + [Run(a, c)]
      ensures OnlyMoved(old(s), s, base, a) && next == old(next) && submits == old(submits) && s.now == old(s).now
      ensures last == Call(pc, c) && own == Did(old(own), pc, e) && (e.ack ==> t in s.answered)
    {
      Served(a, t, pc, c, e);
    }

    /** A call that wrote nothing was served. */
    method ServedQuietly(a: ActorId, t: TaskId, pc: Pc, c: Choice, e: Effect)
      requires Valid() && At(a, t, pc) && Able(s, t, pc, c) && e == Step(cfg, s, t, pc, c)
      requires e.write == None && e.slot == Keep && !e.submit && (NeedsRow(e.next) ==> t in s.rows)
      modifies this
      ensures Valid() && At(a, t, e.next) && trace == old(trace) + [Run(a, c)]
      ensures OnlyMoved(old(s), s, base, a) && next == old(next) && submits == old(submits) && s.now == old(s).now
      ensures last == Call(pc, c) && own == Did(old(own), pc, e) && (e.ack ==> t in s.answered)
    {
      Served(a, t, pc, c, e);
    }

    // ---- _release_slot ----

    /** claim_slot_release */
    method ClaimMaskOf(a: ActorId, t: TaskId, caller: Caller) returns (up: bool, mine: bool)
      requires Valid() && At(a, t, Return(ClaimMask, caller))
      modifies this, db, slots
      ensures Valid() && OnlyMoved(old(s), s, base, a) && old(trace) <= trace && next == old(next)
      ensures own == if mine then old(own).(zeroed := old(own).zeroed + 1) else old(own)
      ensures (mine ==> up) && (up ==> t in db.rows && !Held(db.rows[t]))
      ensures last == Call(Return(ClaimMask, caller), if up then Ok else Raise)
      ensures At(a, t, if !up then Done else if mine then Return(Decrement, caller) else AfterReturn(caller))
    {
      var c := Await(a, t, Return(ClaimMask, caller));
      up, mine := c == Ok, false;
      if up { mine := db.ClaimSlot(t, s.now); }
      ServedReturn(a, t, Return(ClaimMask, caller), c, ReturnStep(s, t, Return(ClaimMask, caller), c));
    }

    /** conc_release, which swallows its own failure */
    method DecrementFor(a: ActorId, t: TaskId, caller: Caller)
      requires Valid() && At(a, t, Return(Decrement, caller))
      modifies this, db, slots
      ensures Valid() && OnlyMoved(old(s), s, base, a) && old(trace) <= trace && next == old(next)
      ensures own == old(own).(returned := old(own).returned + 1)
      ensures At(a, t, AfterReturn(caller)) && last.pc == Return(Decrement, caller) && last.answer in {Ok, Raise}
    {
      var c := Await(a, t, Return(Decrement, caller));
      slots.Release(db.rows[t].token, c == Raise);
      ServedReturn(a, t, Return(Decrement, caller), c, ReturnStep(s, t, Return(Decrement, caller), c));
    }

    /** _release_slot; false: an exception left it. */
    method ReleaseSlot(a: ActorId, t: TaskId, caller: Caller) returns (up: bool)
      requires Valid() && At(a, t, Return(ClaimMask, caller))
      modifies this, db, slots
      ensures Valid() && OnlyMoved(old(s), s, base, a) && old(trace) <= trace && next == old(next)
      ensures GaveBack(old(own), own) && own.zeroed <= old(own).zeroed + 1
      ensures At(a, t, if up then AfterReturn(caller) else Done)
      ensures last.pc.Return? && last.answer in {Ok, Raise} && up == !Threw(last)
    {
      var mine;
      up, mine := ClaimMaskOf(a, t, caller);
      if up && mine {
        ghost var mid := s;
        DecrementFor(a, t, caller);
        OnlyMovedTwice(old(s), mid, s, base, a);
      }
    }

    // ---- the statements of release_batched_task ----

    /** get_batch_meta and the fast path: the attempts so far, if there is something to release */
    method ReadMeta(a: ActorId, t: TaskId, n0: nat) returns (up: bool, attempts: Option<nat>)
      requires Valid() && At(a, t, Release(Meta, n0))
      modifies this, db, slots
      ensures Valid() && OnlyMoved(old(s), s, base, a) && old(trace) <= trace && next == old(next) && own == old(own)
      ensures last == Call(Release(Meta, n0), if up then Ok else Raise) && (attempts.Some? ==> up)
      ensures attempts.Some? ==>
                t in db.rows && db.rows[t].requeueAttempts == attempts.value && !Terminal(db.rows[t].status)
      ensures up && attempts.None? ==> !Releasable(t)
      ensures At(a, t, if attempts.Some? then Release(Claim, attempts.value) else Done)
    {
      var c := Await(a, t, Release(Meta, n0));
      up, attempts := c == Ok, None;
      if up {
        var meta := db.Get(t);
        if meta.Some? && meta.value.status in ACTIVE && Claimable(meta.value.batchState) {
          attempts := Some(meta.value.requeueAttempts);
        }
      }
      ServedRelease(a, t, Release(Meta, n0), c, ReleaseStep(cfg, s, t, Release(Meta, n0), c));
    }

    /** claim_for_release */
    method ClaimRow(a: ActorId, t: TaskId, n: nat) returns (up: bool, won: bool)
      requires Valid() && At(a, t, Release(Claim, n))
      modifies this, db, slots
      ensures Valid() && OnlyMoved(old(s), s, base, a) && old(trace) <= trace && next == old(next) && own == old(own)
      ensures last == Call(Release(Claim, n), if up then Ok else Raise) && (won ==> up)
      ensures up && !won ==> !Releasable(t)
      ensures At(a, t, if won then Release(TakeSlot, n) else Done)
    {
      var c := Await(a, t, Release(Claim, n));
      up, won := c == Ok, false;
      if up { won := db.Claim(t, s.now); }
      ServedRelease(a, t, Release(Claim, n), c, ReleaseStep(cfg, s, t, Release(Claim, n), c));
    }

    /** conc_try_acquire */
    method TakeSlotFor(a: ActorId, t: TaskId, n: nat) returns (up: bool, got: bool)
      requires Valid() && At(a, t, Release(TakeSlot, n))
      modifies this, db, slots
      ensures Valid() && OnlyMoved(old(s), s, base, a) && old(trace) <= trace && next == old(next)
      ensures own == if got then old(own).(taken := old(own).taken + 1) else old(own)
      ensures last == Call(Release(TakeSlot, n), if up then Ok else Raise) && (got ==> up)
      ensures At(a, t, if !up then Done else if got then Release(Mask, n) else Release(Unclaim, n))
    {
      var c := Await(a, t, Release(TakeSlot, n));
      up, got := c == Ok, false;
      if up { got := slots.TryAcquire(db.rows[t].token, cfg.limit); }
      ServedRelease(a, t, Release(TakeSlot, n), c, ReleaseStep(cfg, s, t, Release(TakeSlot, n), c));
    }

    /** The mask and the release mark, in one patch */
    method WriteMask(a: ActorId, t: TaskId, n: nat) returns (up: bool)
      requires Valid() && At(a, t, Release(Mask, n))
      modifies this, db, slots
      ensures Valid() && OnlyMoved(old(s), s, base, a) && old(trace) <= trace && next == old(next)
      ensures own == if up then old(own).(masked := old(own).masked + 1) else old(own)
      ensures up ==> t in db.rows && Held(db.rows[t]) && db.rows[t].batchState == Released
      ensures At(a, t, if up then Release(Recheck, n) else Release(DropSlot, n))
    {
      var c := Await(a, t, Release(Mask, n));
      up := c == Ok;
      if up { db.Patched(t, RELEASED_WITH_SLOT, s.now); }
      ServedRelease(a, t, Release(Mask, n), c, ReleaseStep(cfg, s, t, Release(Mask, n), c));
    }

    /** conc_release of a slot whose mask was not written */
    method DropSlotOf(a: ActorId, t: TaskId, n: nat)
      requires Valid() && At(a, t, Release(DropSlot, n))
      modifies this, db, slots
      ensures Valid() && OnlyMoved(old(s), s, base, a) && old(trace) <= trace && next == old(next)
      ensures own == old(own).(undone := old(own).undone + 1)
      ensures At(a, t, Release(Unclaim, n))
    {
      var c := Await(a, t, Release(DropSlot, n));
      slots.Release(db.rows[t].token, c == Raise);
      ServedRelease(a, t, Release(DropSlot, n), c, ReleaseStep(cfg, s, t, Release(DropSlot, n), c));
    }

    /** unclaim_for_release, which swallows its own failure */
    method UnclaimRow(a: ActorId, t: TaskId, n: nat)
      requires Valid() && At(a, t, Release(Unclaim, n))
      modifies this, db, slots
      ensures Valid() && OnlyMoved(old(s), s, base, a) && old(trace) <= trace && next == old(next) && own == old(own)
      ensures At(a, t, Release(Requeue, n))
    {
      var c := Await(a, t, Release(Unclaim, n));
      if c == Ok { db.Unclaim(t, s.now); }
      ServedRelease(a, t, Release(Unclaim, n), c, ReleaseStep(cfg, s, t, Release(Unclaim, n), c));
    }

    /** batching.requeue, up to its patch */
    method RequeueRow(a: ActorId, t: TaskId, n: nat) returns (up: bool)
      requires Valid() && At(a, t, Release(Requeue, n))
      modifies this, db, slots
      ensures Valid() && OnlyMoved(old(s), s, base, a) && old(trace) <= trace && next == old(next) && own == old(own)
      ensures last.pc == Release(Requeue, n) && (if up then last.answer.Jitter? else last.answer == Raise)
      ensures At(a, t, Done) && (up ==> PutBack(t, n))
    {
      var c := Await(a, t, Release(Requeue, n));
      up := c.Jitter?;
      if up {
        RequeuePutsOff(cfg, s.rows[t], n, c.u, s.now);
        db.Patched(t, RequeuePatch(cfg, n, c.u, s.now), s.now);
      }
      ServedRelease(a, t, Release(Requeue, n), c, ReleaseStep(cfg, s, t, Release(Requeue, n), c));
    }

    /** get_batch_meta again: does the task still want to be sent? */
    method ReadAgain(a: ActorId, t: TaskId, n: nat) returns (up: bool, live: bool)
      requires Valid() && At(a, t, Release(Recheck, n))
      modifies this, db, slots
      ensures Valid() && OnlyMoved(old(s), s, base, a) && old(trace) <= trace && next == old(next) && own == old(own)
      ensures last == Call(Release(Recheck, n), if up then Ok else Raise)
      ensures up ==> t in s.rows && (live <==> !Terminal(s.rows[t].status))
      ensures At(a, t, if !up then Done else if live then Release(Publish, n) else Return(ClaimMask, FromRecheck))
    {
      var c := Await(a, t, Release(Recheck, n));
      up, live := c == Ok, false;
      if up {
        var again := db.Get(t);
        live := again.Some? && again.value.status in ACTIVE;
      }
      ServedRelease(a, t, Release(Recheck, n), c, ReleaseStep(cfg, s, t, Release(Recheck, n), c));
    }

    /** publish_queue_submit */
    method PublishSubmit(a: ActorId, t: TaskId, n: nat) returns (up: bool)
      requires Valid() && At(a, t, Release(Publish, n))
      modifies this, db, slots
      ensures Valid() && OnlyMoved(old(s), s, base, a) && old(trace) <= trace && next == old(next)
      ensures own == if up then old(own).(published := old(own).published + 1) else old(own)
      ensures last == Call(Release(Publish, n), if up then Ok else Raise) && (up ==> t in submits)
      ensures At(a, t, if up then Done else Return(ClaimMask, FromPublish))
    {
      var c := Await(a, t, Release(Publish, n));
      up := c == Ok;
      if up { submits := submits + {t}; }
      ServedRelease(a, t, Release(Publish, n), c, ReleaseStep(cfg, s, t, Release(Publish, n), c));
    }

    /** The CAS to FAILURE after a failed publication */
    method FailRow(a: ActorId, t: TaskId) returns (up: bool, won: bool)
      requires Valid() && At(a, t, Release(FailTask, 0))
      modifies this, db, slots
      ensures Valid() && OnlyMoved(old(s), s, base, a) && old(trace) <= trace && next == old(next)
      ensures own == if won then old(own).(won := old(own).won + 1) else old(own)
      ensures up ==> t in s.rows && if won then s.rows[t].status == Failure else s.rows[t].status != Submitted
      ensures last == Call(Release(FailTask, 0), if up then Ok else Raise) && At(a, t, Done) && (won ==> up)
    {
      var c := Await(a, t, Release(FailTask, 0));
      up, won := c == Ok, false;
      if up {
        won := db.CasStatus(t, {Submitted}, Failure, RELEASED_WITHOUT_SLOT, "enqueue failed after batch release", s.now);
      }
      ServedRelease(a, t, Release(FailTask, 0), c, ReleaseStep(cfg, s, t, Release(FailTask, 0), c));
    }

    // ---- release_batched_task ----

    /** Back to waiting, then to the retry delay; false: an exception left it. */
    method BackOff(a: ActorId, t: TaskId, n: nat) returns (up: bool)
      requires Valid() && At(a, t, Release(Unclaim, n))
      modifies this, db, slots
      ensures Valid() && OnlyMoved(old(s), s, base, a) && old(trace) <= trace && next == old(next) && own == old(own)
      ensures At(a, t, Done) && Told(last) == (if up then Deferred else Raised) && (up ==> PutBack(t, n))
    {
      UnclaimRow(a, t, n);
      ghost var mid := s;
      up := RequeueRow(a, t, n);
      OnlyMovedTwice(old(s), mid, s, base, a);
    }

    /** From the written mask on: sent, unless the task is no longer active, or the publication fails. */
    method Dispatch(a: ActorId, t: TaskId, n: nat) returns (out: Outcome)
      requires Valid() && At(a, t, Release(Recheck, n))
      modifies this, db, slots
      ensures Valid() && OnlyMoved(old(s), s, base, a) && old(trace) <= trace && next == old(next)
      ensures At(a, t, Done) && out == Told(last) && own.published == old(own).published + (if out == Sent then 1 else 0)
      ensures old(t in s.rows && Terminal(s.rows[t].status)) ==> out != Sent
      ensures SettlesUp(old(own), own) && out != Deferred
      ensures out == Sent ==> t in submits
      ensures out == Skipped ==> t in s.rows && s.rows[t].status != Submitted
    {
      var up, live := ReadAgain(a, t, n);
      if !up { return Raised; }
      ghost var mid, was := s, trace;
      if live {
        out := SendOrUndo(a, t, n);
      } else {
        up := ReleaseSlot(a, t, FromRecheck);
        out := if up then Skipped else Raised;
      }
      OnlyMovedTwice(old(s), mid, s, base, a);
      assert old(trace) <= was <= trace;
    }

    method SendOrUndo(a: ActorId, t: TaskId, n: nat) returns (out: Outcome)
      requires Valid() && At(a, t, Release(Publish, n))
      modifies this, db, slots
      ensures Valid() && OnlyMoved(old(s), s, base, a) && old(trace) <= trace && next == old(next)
      ensures At(a, t, Done) && out == Told(last) && own.published == old(own).published + (if out == Sent then 1 else 0)
      ensures SettlesUp(old(own), own) && out != Deferred
      ensures out == Sent ==> t in submits
      ensures out == Skipped ==> t in s.rows && s.rows[t].status != Submitted
    {
      var up := PublishSubmit(a, t, n);
      if up { return Sent; }
      ghost var mid := s;
      out := Undo(a, t);
      OnlyMovedTwice(old(s), mid, s, base, a);
    }

    /** The publication failed. */
    method Undo(a: ActorId, t: TaskId) returns (out: Outcome)
      requires Valid() && At(a, t, Return(ClaimMask, FromPublish))
      modifies this, db, slots
      ensures Valid() && OnlyMoved(old(s), s, base, a) && old(trace) <= trace && next == old(next)
      ensures SettlesUp(old(own), own) && own.published == old(own).published
      ensures own.won == old(own).won || (own.won == old(own).won + 1 && t in s.rows && s.rows[t].status == Failure)
      ensures out == Skipped ==> t in s.rows && s.rows[t].status != Submitted
      ensures At(a, t, Done) && out == Told(last) && out in {Skipped, Raised}
    {
      var up := ReleaseSlot(a, t, FromPublish);
      if !up { return Raised; }
      ghost var mid := s;
      var won;
      up, won := FailRow(a, t);
      OnlyMovedTwice(old(s), mid, s, base, a);
      return if up then Skipped else Raised;
    }

    /** With the right to release won: no slot, or no mask on it, leads to the retry delay, and a mask to the
        dispatch. */
    method TakeSlotAndDispatch(a: ActorId, t: TaskId, n: nat) returns (out: Outcome)
      requires Valid() && At(a, t, Release(TakeSlot, n))
      modifies this, db, slots
      ensures Valid() && OnlyMoved(old(s), s, base, a) && old(trace) <= trace && next == old(next)
      ensures At(a, t, Done) && out == Told(last) && own.published == old(own).published + (if out == Sent then 1 else 0)
      ensures Accounts(old(own), own)
      ensures out == Sent ==> t in submits && own.masked == old(own).masked + 1
      ensures out == Skipped ==> t in s.rows && s.rows[t].status != Submitted && own.masked == old(own).masked + 1
      ensures out == Deferred ==> PutBack(t, n) && own.masked == old(own).masked
    {
      var up, got := TakeSlotFor(a, t, n);
      if !up { return Raised; }
      ghost var mid := s;
      if got {
        out := MaskAndDispatch(a, t, n);
      } else {
        up := BackOff(a, t, n);
        out := if up then Deferred else Raised;
      }
      OnlyMovedTwice(old(s), mid, s, base, a);
    }

    method MaskAndDispatch(a: ActorId, t: TaskId, n: nat) returns (out: Outcome)
      requires Valid() && At(a, t, Release(Mask, n))
      modifies this, db, slots
      ensures Valid() && OnlyMoved(old(s), s, base, a) && old(trace) <= trace && next == old(next)
      ensures At(a, t, Done) && out == Told(last) && own.published == old(own).published + (if out == Sent then 1 else 0)
      ensures own.taken == old(own).taken && Accounts(old(own), own.(taken := own.taken + 1))
      ensures out == Sent ==> t in submits && own.masked == old(own).masked + 1
      ensures out == Skipped ==> t in s.rows && s.rows[t].status != Submitted && own.masked == old(own).masked + 1
      ensures out == Deferred ==> PutBack(t, n) && own.masked == old(own).masked
    {
      var written := WriteMask(a, t, n);
      ghost var mid := s;
      if written {
        out := Dispatch(a, t, n);
      } else {
        out := DropAndBackOff(a, t, n);
      }
      OnlyMovedTwice(old(s), mid, s, base, a);
    }

    method DropAndBackOff(a: ActorId, t: TaskId, n: nat) returns (out: Outcome)
      requires Valid() && At(a, t, Release(DropSlot, n))
      modifies this, db, slots
      ensures Valid() && OnlyMoved(old(s), s, base, a) && old(trace) <= trace && next == old(next)
      ensures At(a, t, Done) && out == Told(last) && own == old(own).(undone := old(own).undone + 1)
      ensures out in {Deferred, Raised} && (out == Deferred ==> PutBack(t, n))
    {
      DropSlotOf(a, t, n);
      ghost var mid := s;
      var up := BackOff(a, t, n);
      out := if up then Deferred else Raised;
      OnlyMovedTwice(old(s), mid, s, base, a);
    }

    /** release_batched_task: whatever the others do meanwhile and whichever calls raise, the actor takes
        the steps of the machine from its first statement to its end (so says Valid), and the caller is
        told what the last of them was: "released" exactly by the one that published; "requeued" with the
        row put off by one attempt more than it had when the job read it; "skipped" only when at the last
        statement there is nothing to release; a task that has ended before is left alone.  Every slot
        taken is on the mask or given back. */
    method ReleaseBatchedTask(a: ActorId, t: TaskId) returns (out: Outcome)
      requires Valid() && At(a, t, Release(Meta, 0))
      modifies this, db, slots
      ensures Valid() && OnlyMoved(old(s), s, base, a) && old(trace) <= trace && next == old(next)
      ensures At(a, t, Done) && out == Told(last) && own.published == old(own).published + (if out == Sent then 1 else 0)
      ensures Accounts(old(own), own)
      ensures out == Sent ==> t in submits
      ensures out == Deferred ==> exists k: nat, n: nat :: |old(trace)| <= k && Had(k, t, n) && PutBack(t, n)
      ensures old(t in s.rows && Terminal(s.rows[t].status)) ==> out in {Skipped, Raised} && own == old(own)
      ensures out == Skipped ==> !Releasable(t)
    {
      var up, attempts := ReadMeta(a, t, 0);
      if attempts.None? { return if up then Skipped else Raised; }
      ghost var mid, read := s, trace;
      out := ClaimAndRelease(a, t, attempts.value);
      OnlyMovedTwice(old(s), mid, s, base, a);
      HadOnce(cfg, start, read, trace, t, attempts.value);
      assert Had(|read|, t, attempts.value);
    }

    method ClaimAndRelease(a: ActorId, t: TaskId, n: nat) returns (out: Outcome)
      requires Valid() && At(a, t, Release(Claim, n))
      modifies this, db, slots
      ensures Valid() && OnlyMoved(old(s), s, base, a) && old(trace) <= trace && next == old(next)
      ensures At(a, t, Done) && out == Told(last) && own.published == old(own).published + (if out == Sent then 1 else 0)
      ensures Accounts(old(own), own)
      ensures out == Sent ==> t in submits
      ensures out == Deferred ==> PutBack(t, n)
      ensures out == Skipped ==> !Releasable(t)
    {
      var up, won := ClaimRow(a, t, n);
      if !won { return if up then Skipped else Raised; }
      ghost var mid := s;
      out := TakeSlotAndDispatch(a, t, n);
      OnlyMovedTwice(old(s), mid, s, base, a);
    }

    // ---- the loops around it ----

    /** Name an actor for a task that the rescue query or a claimed batch lists. */
    method Start(t: TaskId, job: Pc) returns (a: ActorId)
      requires Valid() && Startable(cfg, s, t, job) && job.Release?
      modifies this
      ensures Valid() && old(trace) <= trace && At(a, t, job) && a == old(next) && next == a + 1 && own == old(own)
      ensures s.rows == old(s).rows && s.now == old(s).now
      ensures forall b, u, pc | old(At(b, u, pc)) :: At(b, u, pc)
    {
      a := next;
      Extend(cfg, start, trace, Spawn(a, t, job));
      trace := trace + [Spawn(a, t, job)];
      s := Next(cfg, s, Spawn(a, t, job));
      next := next + 1;
    }

    /** batching.release, after its claim: every member is released, one that raises counts as requeued
        (it is left to the rescue). */
    method ReleaseBatch(ids: seq<TaskId>)
      returns (released: nat, requeued: nat, skipped: nat, ghost outs: seq<Outcome>)
      requires Valid()
      modifies this, db, slots
      ensures Valid() && old(trace) <= trace && |outs| == |ids| == released + requeued + skipped
      ensures released == multiset(outs)[Sent] == own.published - old(own).published
      ensures requeued == multiset(outs)[Deferred] + multiset(outs)[Raised] && skipped == multiset(outs)[Skipped]
      ensures Accounts(old(own), own)
    {
      released, requeued, skipped, outs := 0, 0, 0, [];
      for i := 0 to |ids|
        invariant Valid() && old(trace) <= trace && |outs| == i == released + requeued + skipped
        invariant released == multiset(outs)[Sent] == own.published - old(own).published
        invariant requeued == multiset(outs)[Deferred] + multiset(outs)[Raised] && skipped == multiset(outs)[Skipped]
        invariant Accounts(old(own), own)
      {
        var a := Start(ids[i], Release(Meta, 0));
        var out := ReleaseBatchedTask(a, ids[i]);
        outs := outs + [out];
        match out
        case Sent => released := released + 1;
        case Deferred => requeued := requeued + 1;
        case Skipped => skipped := skipped + 1;
        case Raised => requeued := requeued + 1;
      }
    }

    /** The un-claim of the rescue loop, which swallows its own failure. */
    method UnstickRow(a: ActorId, t: TaskId)
      requires Valid() && At(a, t, Release(Unstick, 0))
      modifies this, db, slots
      ensures Valid() && OnlyMoved(old(s), s, base, a) && old(trace) <= trace && next == old(next) && own == old(own)
      ensures At(a, t, Release(Meta, 0))
    {
      var c := Await(a, t, Release(Unstick, 0));
      if c == Ok { db.Unclaim(t, s.now); }
      ServedRelease(a, t, Release(Unstick, 0), c, ReleaseStep(cfg, s, t, Release(Unstick, 0), c));
    }

    /** One round of the rescue loop. */
    method Rescue(a: ActorId, t: TaskId, stuck: bool) returns (out: Outcome)
      requires Valid() && At(a, t, Release(if stuck then Unstick else Meta, 0))
      modifies this, db, slots
      ensures Valid() && OnlyMoved(old(s), s, base, a) && old(trace) <= trace && next == old(next)
      ensures Accounts(old(own), own) && (out == Skipped ==> !Releasable(t))
      ensures At(a, t, Done) && own.published == old(own).published + (if out == Sent then 1 else 0)
    {
      ghost var mid := s;
      if stuck {
        UnstickRow(a, t);
        mid := s;
      }
      out := ReleaseBatchedTask(a, t);
      OnlyMovedTwice(old(s), mid, s, base, a);
    }

    /** Jobs from the actor `first` on stand at their first statement. */
    ghost predicate Waiting(first: ActorId, listed: seq<TaskId>, stuck: seq<bool>, from: nat)
      requires |stuck| <= |listed|
      reads this
    {
      forall k | from <= k < |stuck| ::
        At(first + k, listed[k], Release(if stuck[k] then Unstick else Meta, 0))
    }

    /** One job for each row that the query listed. */
    method StartAll(listed: seq<TaskId>) returns (stuck: seq<bool>)
      requires Valid()
      requires forall t | t in listed :: t in db.rows && StaleBatch(db.rows[t], s.now, cfg.grace)
      modifies this
      ensures Valid() && old(trace) <= trace && own == old(own) && next == old(next) + |listed|
      ensures |stuck| == |listed| && Waiting(old(next), listed, stuck, 0)
    {
      stuck := [];
      for i := 0 to |listed|
        invariant Valid() && old(trace) <= trace && s.rows == old(s).rows && s.now == old(s).now && own == old(own)
        invariant |stuck| == i && next == old(next) + i && Waiting(old(next), listed, stuck, 0)
      {
        var row := db.rows[listed[i]];
        assert listed[i] in listed;
        var _ := Start(listed[i], RescueJob(row));
        stuck := stuck + [row.batchState == Releasing];
      }
    }

    /** _rescue_overdue_batches on what its query listed: an un-claim first where the row was listed as
        releasing; the first exception ends the round.  The number it returns counts its publications,
        and a round that finishes has brought every listed row's job to its end. */
    method RescueOverdueBatches(listed: seq<TaskId>) returns (rescued: nat, finished: bool)
      requires Valid()
      requires forall t | t in listed :: t in db.rows && StaleBatch(db.rows[t], s.now, cfg.grace)
      modifies this, db, slots
      ensures Valid() && old(trace) <= trace && Accounts(old(own), own)
      ensures rescued == own.published - old(own).published && next == old(next) + |listed|
      ensures finished ==> forall k | 0 <= k < |listed| :: At(old(next) + k, listed[k], Done)
    {
      var first := next;
      var stuck := StartAll(listed);
      rescued := 0;
      for i := 0 to |listed|
        invariant Valid() && old(trace) <= trace && Accounts(old(own), own)
        invariant next == first + |listed| && own.published == old(own).published + rescued
        invariant Waiting(first, listed, stuck, i)
        invariant forall k | 0 <= k < i :: At(first + k, listed[k], Done)
      {
        var out := Rescue(first + i, listed[i], stuck[i]);
        if out == Raised { return rescued, false; }
        if out == Sent { rescued := rescued + 1; }
      }
      finished := true;
    }
  }

  /** What the machine promises, said of this code's own table and counters: if the system started at
      rest, then at every point at which World is Valid -- before and after each method above -- no
      counter exceeds the limit, no terminal status was won twice, and a task that ended did so as the
      upstream answered, by cancellation, or for want of a publication.  Every batched task that was
      answered with 202, by its own request or by a replay, is past SUBMITTED, released, or selected by
      the rescue query from its due time or last write plus the grace on, if it has a due time; and it
      has one if its own request was answered.  If the run was disciplined no task was published twice. */
  lemma CodeKeepsThePromises(w: World, t: TaskId, tok: Token, later: int)
    requires w.Valid() && Initial(w.cfg, w.start)
    ensures Counter(w.slots.conc, tok) <= w.cfg.limit
    ensures Seen(w.s, t).won <= 1 && Seen(w.s, t).notified <= Seen(w.s, t).won
    ensures t in w.s.wins ==> t in w.db.rows && ProtocolAnswers.EndedAs(w.trace, w.s.wins[t], w.db.rows[t])
    ensures t in w.s.acked ==>
              && t in w.db.rows
              && var r := w.db.rows[t];
              && (t in w.s.answered && r.batchState != NoBatch ==> r.batchDueAt > 0)
              && (r.batchState != NoBatch && r.batchDueAt > 0 ==>
                    || r.status != Submitted || r.batchState == Released
                    || later < r.batchDueAt + w.cfg.grace || later < r.updatedAt + w.cfg.grace
                    || StaleBatch(r, later, w.cfg.grace))
    ensures ProtocolRelease.DisciplinedRun(w.cfg, w.start, w.trace) ==> Seen(w.s, t).published <= 1
  {
    ProtocolHistory.CounterNeverExceedsLimit(w.cfg, w.start, w.trace, tok);
    ProtocolHistory.TerminalOnce(w.cfg, w.start, w.trace, t);
    if t in w.s.wins { ProtocolAnswers.EndsAsAnswered(w.cfg, w.start, w.trace, t); }
    ProtocolHistory.InitialHistory(w.cfg, w.start);
    ProtocolHistory.HistoryAlways(w.cfg, w.start, w.trace);
    if ProtocolRelease.DisciplinedRun(w.cfg, w.start, w.trace) {
      ProtocolRelease.PublishedAtMostOnce(w.cfg, w.start, w.trace, t);
    }
  }
}
