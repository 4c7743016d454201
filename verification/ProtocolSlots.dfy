/** Slot accounting: the Redis counter of a token against its rows that hold a slot, the actors that
    hold one not yet (or no longer) written on a row, and the decrements that were swallowed. */
module ProtocolSlots {
  import opened Wrappers
  import opened TaskStore
  import opened RateLimit
  import opened Protocol
  import opened ProtocolHistory
  import opened ProtocolRelease

  /** The token of which an actor holds a slot: acquired and not yet written as a mask, or zeroed and
      not yet decremented.  A crashed actor keeps it. */
  function HolderOf(rows: map<TaskId, Row>, t: TaskId, pc: Pc): Option<Token> {
    match pc
    case Create(at, sp, _) => if (at == Insert && !sp.batched) || at == UndoFresh then Some(sp.token) else None
    case Release(at, _) => if (at == Mask || at == DropSlot) && t in rows then Some(rows[t].token) else None
    case Return(at, _) => if at == Decrement && t in rows then Some(rows[t].token) else None
    case _ => None
  }

  function Holders(s: State, tok: Token): set<ActorId> {
    set a | a in s.actors && HolderOf(s.rows, s.actors[a].task, s.actors[a].pc) == Some(tok)
  }

  /** Slots of a token that somebody accounts for. */
  function Accounted(s: State, tok: Token): nat {
    |HeldRows(s.rows, tok)| + |Holders(s, tok)| + s.leaked[tok]
  }

  /** Conservation: the counter equals what is accounted for. */
  ghost predicate Balanced(s: State) {
    forall tok :: Counter(s.conc, tok) == Accounted(s, tok)
  }

  /** The weaker half, which survives the handler's excess decrement. */
  ghost predicate Covered(s: State) {
    forall tok :: Counter(s.conc, tok) <= Accounted(s, tok)
  }

  /** H3: the exception handler of the immediate path gives back the slot of a row that it has already
      created with mask 1, while the counter is positive. */
  predicate Overreleases(s: State, e: Event) {
    && e.Run? && e.choice == Ok && e.actor in s.actors
    && s.actors[e.actor].pc.Create? && s.actors[e.actor].pc.c == UndoCreated
    && Counter(s.conc, s.actors[e.actor].pc.spec.token) > 0
  }

  // ---- counting ----

  predicate HoldsFor(rows: map<TaskId, Row>, t: TaskId, tok: Token) {
    t in rows && Held(rows[t]) && rows[t].token == tok
  }

  lemma WriteRow(rows: map<TaskId, Row>, t: TaskId, r: Row, tok: Token)
    ensures |HeldRows(rows[t := r], tok)| + Bit(HoldsFor(rows, t, tok))
         == |HeldRows(rows, tok)| + Bit(HoldsFor(rows[t := r], t, tok))
  {
    assert HeldRows(rows[t := r], tok) - {t} == HeldRows(rows, tok) - {t};
    Replace(HeldRows(rows, tok), HeldRows(rows[t := r], tok), t);
  }

  lemma OtherHoldersStay(rows: map<TaskId, Row>, rows': map<TaskId, Row>, t: TaskId, pc: Pc)
    requires PcOk(rows, t, pc) && RowsEvolve(rows, rows')
    ensures HolderOf(rows', t, pc) == HolderOf(rows, t, pc)
  {
  }

  lemma Replace<T>(before: set<T>, after: set<T>, x: T)
    requires after - {x} == before - {x}
    ensures |after| + Bit(x in before) == |before| + Bit(x in after)
  {
    assert |before - {x}| == |before| - Bit(x in before);
    assert |after - {x}| == |after| - Bit(x in after);
  }

  /** After a step of actor `a` that leaves every token in place, only `a` may have become or ceased to
      be a holder. */
  lemma MoveActor(s: State, a: ActorId, e: Effect, tok: Token)
    requires PcsOk(s) && a in s.actors
    requires var s' := Apply(s, a, s.actors[a].task, e); RowsEvolve(s.rows, s'.rows)
    ensures var t := s.actors[a].task; var s' := Apply(s, a, t, e);
            |Holders(s', tok)| + Bit(HolderOf(s.rows, t, s.actors[a].pc) == Some(tok))
            == |Holders(s, tok)| + Bit(HolderOf(s'.rows, t, e.next) == Some(tok))
  {
    var s' := Apply(s, a, s.actors[a].task, e);
    forall b | b in s.actors && b != a ensures b in Holders(s', tok) <==> b in Holders(s, tok) {
      assert PcOk(s.rows, s.actors[b].task, s.actors[b].pc);
      OtherHoldersStay(s.rows, s'.rows, s.actors[b].task, s.actors[b].pc);
    }
    assert Holders(s', tok) - {a} == Holders(s, tok) - {a};
    Replace(Holders(s, tok), Holders(s', tok), a);
  }

  // ---- one step ----

  /** By how much the counter moves, clamp aside. */
  function Delta(op: SlotOp, tok: Token): int {
    if op == Inc(tok) then 1 else if op == Dec(tok) then -1 else 0
  }

  /** The handler gives back a slot that the row still holds. */
  predicate ExcessDecrement(pc: Pc, e: Effect) { pc.Create? && pc.c == UndoCreated && e.slot.Dec? }

  /** The books of one step: what the row and the actor hold afterwards, and what leaked, is what they
      held before plus what the counter was asked to do -- up to one decrement too many, which only
      the handler of the immediate path makes. */
  predicate Books(s: State, t: TaskId, pc: Pc, e: Effect, tok: Token) {
    var rows' := if e.write.Some? then s.rows[t := e.write.value] else s.rows;
    Bit(HoldsFor(rows', t, tok)) + Bit(HolderOf(rows', t, e.next) == Some(tok)) + Bit(e.slot == Leak(tok))
    == Bit(HoldsFor(s.rows, t, tok)) + Bit(HolderOf(s.rows, t, pc) == Some(tok)) + Delta(e.slot, tok)
       + Bit(ExcessDecrement(pc, e) && e.slot == Dec(tok))
  }

  lemma BooksOfCreate(cfg: Config, s: State, t: TaskId, pc: Pc, c: Choice, tok: Token)
    requires pc.Create? && Able(s, t, pc, c) && PcOk(s.rows, t, pc)
    ensures Books(s, t, pc, CreateStep(cfg, s, t, pc, c), tok)
  {
  }

  lemma BooksOfRelease(cfg: Config, s: State, t: TaskId, pc: Pc, c: Choice, tok: Token)
    requires pc.Release? && Able(s, t, pc, c) && PcOk(s.rows, t, pc)
    requires t in s.rows ==> RowOk(s.rows[t], Seen(s, t)) && (InSection(pc) ==> SectionRow(s.rows[t], Seen(s, t), pc))
    ensures Books(s, t, pc, ReleaseStep(cfg, s, t, pc, c), tok)
  {
  }

  lemma BooksOfOthers(cfg: Config, s: State, t: TaskId, pc: Pc, c: Choice, tok: Token)
    requires !pc.Create? && !pc.Release? && Able(s, t, pc, c)
    ensures Books(s, t, pc, Step(cfg, s, t, pc, c), tok)
  {
  }

  lemma BooksOfStep(cfg: Config, s: State, a: ActorId, c: Choice, tok: Token)
    requires ReleaseInv(cfg, s) && Enabled(cfg, s, Run(a, c))
    ensures Books(s, s.actors[a].task, s.actors[a].pc, StepOf(cfg, s, a, c), tok)
  {
    var t, pc := s.actors[a].task, s.actors[a].pc;
    assert PcOk(s.rows, t, pc);
    assert t in s.rows ==> RowOk(s.rows[t], Seen(s, t));
    match pc
    case Create(_, _, _) => BooksOfCreate(cfg, s, t, pc, c, tok);
    case Release(_, _) => BooksOfRelease(cfg, s, t, pc, c, tok);
    case _ => BooksOfOthers(cfg, s, t, pc, c, tok);
  }

  /** What a step accounts for afterwards. */
  lemma AccountedAfter(s: State, a: ActorId, e: Effect, tok: Token)
    requires PcsOk(s) && a in s.actors && Books(s, s.actors[a].task, s.actors[a].pc, e, tok)
    requires var s' := Apply(s, a, s.actors[a].task, e); RowsEvolve(s.rows, s'.rows)
    ensures var s' := Apply(s, a, s.actors[a].task, e);
            Accounted(s', tok) == Accounted(s, tok) + Delta(e.slot, tok)
              + Bit(ExcessDecrement(s.actors[a].pc, e) && e.slot == Dec(tok))
  {
    var t := s.actors[a].task;
    if e.write.Some? { WriteRow(s.rows, t, e.write.value, tok); }
    MoveActor(s, a, e, tok);
  }

  lemma OnlyTheHandlerOverreleases(cfg: Config, s: State, a: ActorId, c: Choice)
    requires Enabled(cfg, s, Run(a, c))
    ensures var e := StepOf(cfg, s, a, c);
            && (ExcessDecrement(s.actors[a].pc, e) ==> c == Ok && e.slot == Dec(s.actors[a].pc.spec.token))
            && (s.actors[a].pc.Create? && s.actors[a].pc.c == UndoCreated && c == Ok ==> e.slot.Dec?)
  {
  }

  lemma BooksOfRun(cfg: Config, s: State, a: ActorId, c: Choice, tok: Token)
    requires ReleaseInv(cfg, s) && Enabled(cfg, s, Run(a, c))
    ensures var s' := Next(cfg, s, Run(a, c)); var e := StepOf(cfg, s, a, c);
            && s'.conc == SlotApply(s.conc, e.slot)
            && Accounted(s', tok) == Accounted(s, tok) + Delta(e.slot, tok)
                 + Bit(ExcessDecrement(s.actors[a].pc, e) && e.slot == Dec(tok))
  {
    RunKeepsHistory(cfg, s, a, c);
    BooksOfStep(cfg, s, a, c, tok);
    AccountedAfter(s, a, StepOf(cfg, s, a, c), tok);
  }

  lemma BooksOfOtherEvents(cfg: Config, s: State, e: Event, tok: Token)
    requires ReleaseInv(cfg, s) && Enabled(cfg, s, e) && !e.Run?
    ensures var s' := Next(cfg, s, e); s'.conc == s.conc && Accounted(s', tok) == Accounted(s, tok)
  {
    assert Holders(Next(cfg, s, e), tok) == Holders(s, tok);
  }

  /** What the counter does: it moves as it was asked to, or stays at 0. */
  lemma CounterAfter(conc: map<Token, nat>, op: SlotOp, tok: Token)
    ensures var n := Counter(conc, tok) + Delta(op, tok);
            Counter(SlotApply(conc, op), tok) == if n < 0 then 0 else n
  {
  }

  /** The counter of one token is brought below what is accounted for by the handler only. */
  lemma BalanceOfToken(cfg: Config, s: State, e: Event, tok: Token)
    requires ReleaseInv(cfg, s) && Enabled(cfg, s, e) && Counter(s.conc, tok) == Accounted(s, tok)
    ensures var s' := Next(cfg, s, e);
            Counter(s'.conc, tok) == Accounted(s', tok)
            <==> !(Overreleases(s, e) && s.actors[e.actor].pc.spec.token == tok)
  {
    if e.Run? {
      OnlyTheHandlerOverreleases(cfg, s, e.actor, e.choice);
      BooksOfRun(cfg, s, e.actor, e.choice, tok);
      CounterAfter(s.conc, StepOf(cfg, s, e.actor, e.choice).slot, tok);
    } else {
      BooksOfOtherEvents(cfg, s, e, tok);
    }
  }

  /** Conservation, one step: an event keeps the books balanced if and only if it is not the handler's
      excess decrement. */
  lemma NextKeepsBalance(cfg: Config, s: State, e: Event)
    requires ReleaseInv(cfg, s) && Enabled(cfg, s, e) && Balanced(s)
    ensures Balanced(Next(cfg, s, e)) <==> !Overreleases(s, e)
  {
    var s' := Next(cfg, s, e);
    forall tok
      ensures Counter(s'.conc, tok) == Accounted(s', tok)
              <==> !(Overreleases(s, e) && s.actors[e.actor].pc.spec.token == tok)
    {
      assert Counter(s.conc, tok) == Accounted(s, tok);
      BalanceOfToken(cfg, s, e, tok);
    }
    if Overreleases(s, e) {
      var tok := s.actors[e.actor].pc.spec.token;
      assert Counter(s'.conc, tok) != Accounted(s', tok);
    }
  }

  /** In balanced books no honest decrement meets a counter at 0: the clamp of the release script is
      never taken. */
  lemma ClampIsNeverTaken(cfg: Config, s: State, a: ActorId, c: Choice)
    requires ReleaseInv(cfg, s) && Enabled(cfg, s, Run(a, c)) && Balanced(s)
    requires var e := StepOf(cfg, s, a, c); e.slot.Dec? && !ExcessDecrement(s.actors[a].pc, e)
    ensures Counter(s.conc, StepOf(cfg, s, a, c).slot.tok) > 0
  {
    var tok := StepOf(cfg, s, a, c).slot.tok;
    BooksOfRun(cfg, s, a, c, tok);
    assert Counter(s.conc, tok) == Accounted(s, tok);
  }

  lemma CoverOfToken(cfg: Config, s: State, e: Event, tok: Token)
    requires ReleaseInv(cfg, s) && Enabled(cfg, s, e) && Counter(s.conc, tok) <= Accounted(s, tok)
    ensures Counter(Next(cfg, s, e).conc, tok) <= Accounted(Next(cfg, s, e), tok)
  {
    if e.Run? {
      BooksOfRun(cfg, s, e.actor, e.choice, tok);
      CounterAfter(s.conc, StepOf(cfg, s, e.actor, e.choice).slot, tok);
    } else {
      BooksOfOtherEvents(cfg, s, e, tok);
    }
  }

  /** The weaker half survives every event: a counter never exceeds what is accounted for. */
  lemma NextKeepsCover(cfg: Config, s: State, e: Event)
    requires ReleaseInv(cfg, s) && Enabled(cfg, s, e) && Covered(s)
    ensures Covered(Next(cfg, s, e))
  {
    var s' := Next(cfg, s, e);
    forall tok ensures Counter(s'.conc, tok) <= Accounted(s', tok) {
      assert Counter(s.conc, tok) <= Accounted(s, tok);
      CoverOfToken(cfg, s, e, tok);
    }
  }

  // ---- whole runs ----

  ghost predicate BalancedThroughout(cfg: Config, s: State, es: seq<Event>)
    requires Runs(cfg, s, es)
    decreases |es|
  {
    Balanced(s) && (es != [] ==> BalancedThroughout(cfg, Next(cfg, s, es[0]), es[1..]))
  }

  ghost predicate NeverOverreleases(cfg: Config, s: State, es: seq<Event>)
    requires Runs(cfg, s, es)
    decreases |es|
  {
    es != [] ==> !Overreleases(s, es[0]) && NeverOverreleases(cfg, Next(cfg, s, es[0]), es[1..])
  }

  lemma {:induction false} BalanceAlways(cfg: Config, s: State, es: seq<Event>)
    requires ReleaseInv(cfg, s) && Balanced(s) && Runs(cfg, s, es) && DisciplinedRun(cfg, s, es)
    ensures BalancedThroughout(cfg, s, es) <==> NeverOverreleases(cfg, s, es)
    ensures NeverOverreleases(cfg, s, es) ==> Balanced(Exec(cfg, s, es))
    decreases |es|
  {
    if es != [] {
      var s1 := Next(cfg, s, es[0]);
      NextKeepsBalance(cfg, s, es[0]);
      if Balanced(s1) {
        NextKeepsRelease(cfg, s, es[0]);
        BalanceAlways(cfg, s1, es[1..]);
      }
    }
  }

  lemma InitialBalance(cfg: Config, s: State)
    requires Initial(cfg, s)
    ensures Balanced(s)
  {
    forall tok ensures Counter(s.conc, tok) == Accounted(s, tok) {
      assert Holders(s, tok) == {};
    }
  }

  /** Slot conservation: over a disciplined run the books are balanced in every state if and only if
      the exception handler of the immediate path never gives back the slot of a row that it has
      already created, at a positive counter. */
  lemma SlotConservation(cfg: Config, s: State, es: seq<Event>)
    requires Initial(cfg, s) && Runs(cfg, s, es) && DisciplinedRun(cfg, s, es)
    ensures BalancedThroughout(cfg, s, es) <==> NeverOverreleases(cfg, s, es)
  {
    InitialRelease(cfg, s);
    InitialBalance(cfg, s);
    BalanceAlways(cfg, s, es);
  }

  lemma {:induction false} CoverAlways(cfg: Config, s: State, es: seq<Event>)
    requires ReleaseInv(cfg, s) && Covered(s) && Runs(cfg, s, es) && DisciplinedRun(cfg, s, es)
    ensures Covered(Exec(cfg, s, es))
    decreases |es|
  {
    if es != [] {
      NextKeepsCover(cfg, s, es[0]);
      NextKeepsRelease(cfg, s, es[0]);
      CoverAlways(cfg, Next(cfg, s, es[0]), es[1..]);
    }
  }

  /** Without the third hypothesis the counter may fall behind, but it is never ahead. */
  lemma CounterNeverAhead(cfg: Config, s: State, es: seq<Event>, tok: Token)
    requires Initial(cfg, s) && Runs(cfg, s, es) && DisciplinedRun(cfg, s, es)
    ensures Counter(Exec(cfg, s, es).conc, tok) <= Accounted(Exec(cfg, s, es), tok)
  {
    InitialRelease(cfg, s);
    InitialBalance(cfg, s);
    CoverAlways(cfg, s, es);
  }

  /** Concurrency cap: the rows of a token that hold a slot and the actors about to write or give back
      one never exceed its counter, which never exceeds the limit -- however large the batches. */
  lemma ConcurrencyCap(cfg: Config, s: State, es: seq<Event>, tok: Token)
    requires Initial(cfg, s) && Runs(cfg, s, es) && DisciplinedRun(cfg, s, es) && NeverOverreleases(cfg, s, es)
    ensures var s' := Exec(cfg, s, es);
            |HeldRows(s'.rows, tok)| + |Holders(s', tok)| <= Counter(s'.conc, tok) <= cfg.limit
  {
    InitialRelease(cfg, s);
    InitialBalance(cfg, s);
    BalanceAlways(cfg, s, es);
    ReleaseAlways(cfg, s, es);
    assert Counter(Exec(cfg, s, es).conc, tok) == Accounted(Exec(cfg, s, es), tok);
  }

  // ---- with excess decrements: by how much the counter falls behind ----

  /** A decrement asked of the counter of `tok`. */
  ghost predicate Decrements(cfg: Config, s: State, e: Event, tok: Token)
    requires Enabled(cfg, s, e)
  { e.Run? && StepOf(cfg, s, e.actor, e.choice).slot == Dec(tok) }

  /** ... by the handler that gives back the slot of a row it has created. */
  predicate Excess(s: State, e: Event) {
    e.Run? && e.actor in s.actors && s.actors[e.actor].pc.Create? && s.actors[e.actor].pc.c == UndoCreated
  }

  /** What an event adds to the gap between what is accounted for and the counter: an excess decrement
      that the counter follows adds one, an honest one that finds the counter at 0 takes one away. */
  ghost function GapOf(cfg: Config, s: State, e: Event, tok: Token): int
    requires Enabled(cfg, s, e)
  {
    if !Decrements(cfg, s, e, tok) then 0
    else if Excess(s, e) && Counter(s.conc, tok) > 0 then 1
    else if !Excess(s, e) && Counter(s.conc, tok) == 0 then -1
    else 0
  }

  ghost function Gap(cfg: Config, s: State, es: seq<Event>, tok: Token): int
    requires Runs(cfg, s, es)
    decreases |es|
  { if es == [] then 0 else GapOf(cfg, s, es[0], tok) + Gap(cfg, Next(cfg, s, es[0]), es[1..], tok) }

  lemma GapOfEvent(cfg: Config, s: State, e: Event, tok: Token)
    requires ReleaseInv(cfg, s) && Enabled(cfg, s, e)
    ensures var s' := Next(cfg, s, e);
            Accounted(s', tok) - Counter(s'.conc, tok)
            == Accounted(s, tok) - Counter(s.conc, tok) + GapOf(cfg, s, e, tok)
  {
    if e.Run? {
      BooksOfRun(cfg, s, e.actor, e.choice, tok);
      CounterAfter(s.conc, StepOf(cfg, s, e.actor, e.choice).slot, tok);
    } else {
      BooksOfOtherEvents(cfg, s, e, tok);
    }
  }

  lemma {:induction false} GapAlways(cfg: Config, s: State, es: seq<Event>, tok: Token)
    requires ReleaseInv(cfg, s) && Runs(cfg, s, es) && DisciplinedRun(cfg, s, es)
    ensures ReleaseInv(cfg, Exec(cfg, s, es))
    ensures var s' := Exec(cfg, s, es);
            Accounted(s', tok) - Counter(s'.conc, tok)
            == Accounted(s, tok) - Counter(s.conc, tok) + Gap(cfg, s, es, tok)
    decreases |es|
  {
    if es != [] {
      GapOfEvent(cfg, s, es[0], tok);
      NextKeepsRelease(cfg, s, es[0]);
      GapAlways(cfg, Next(cfg, s, es[0]), es[1..], tok);
    }
  }

  /** Concurrency cap, exactly: after a disciplined run, with excess decrements or without, the rows and
      actors that hold a slot of a token, and its leaks, exceed its counter by exactly the excess
      decrements less the clamped honest ones; so they are within the limit if and only if the counter
      leaves room for that many. */
  lemma CapExactly(cfg: Config, s: State, es: seq<Event>, tok: Token)
    requires Initial(cfg, s) && Runs(cfg, s, es) && DisciplinedRun(cfg, s, es)
    ensures var s' := Exec(cfg, s, es);
            && Accounted(s', tok) == Counter(s'.conc, tok) + Gap(cfg, s, es, tok)
            && (|HeldRows(s'.rows, tok)| + |Holders(s', tok)| <= cfg.limit
                <==> Counter(s'.conc, tok) + Gap(cfg, s, es, tok) <= cfg.limit + s'.leaked[tok])
  {
    InitialRelease(cfg, s);
    InitialBalance(cfg, s);
    GapAlways(cfg, s, es, tok);
    assert Counter(s.conc, tok) == Accounted(s, tok);
  }
}
