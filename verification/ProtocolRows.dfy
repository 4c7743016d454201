/** No run leaves a row whose columns contradict each other, such as QUEUED at 100%: what bare status
    updates would do to a task that was canceled while its submission was under way.  And no write
    touches the status columns of a terminal row, in whatever state the actors are. */
module ProtocolRows {
  import opened TaskStore
  import opened Protocol

  /** Complete exactly if terminal, and not finished before. */
  predicate Consistent(r: Row) {
    && (Terminal(r.status) <==> r.progress == 100)
    && (!Terminal(r.status) ==> r.finishTime == 0)
  }

  /** Who owns a row and where it calls back stay, and so do the status columns of a terminal one. */
  predicate Preserves(r: Row, r': Row) {
    && r'.token == r.token && r'.callback == r.callback
    && (Terminal(r.status) ==>
          r'.status == r.status && r'.progress == r.progress
          && r'.finishTime == r.finishTime && r'.failReason == r.failReason)
  }

  ghost predicate Steady(rows: map<TaskId, Row>, rows': map<TaskId, Row>) {
    forall t {:trigger t in rows'} {:trigger rows'[t]} | t in rows :: t in rows' && Preserves(rows[t], rows'[t])
  }

  /** A write stamps its row, keeps it consistent or creates a consistent one, and stamps the end of a task. */
  predicate WriteOk(rows: map<TaskId, Row>, t: TaskId, e: Effect, now: int) {
    e.write.Some? ==>
      var w := e.write.value;
      && w.updatedAt == now
      && (t in rows ==> Preserves(rows[t], w))
      && ((t in rows ==> Consistent(rows[t])) ==> Consistent(w))
      && (t in rows && !Terminal(rows[t].status) && Terminal(w.status) ==> w.finishTime == now == w.updatedAt)
  }

  lemma WriteOfRelease(cfg: Config, s: State, t: TaskId, pc: Pc, c: Choice)
    requires pc.Release? && Able(s, t, pc, c)
    ensures WriteOk(s.rows, t, ReleaseStep(cfg, s, t, pc, c), s.now)
  {
  }

  lemma WriteOfCreate(cfg: Config, s: State, t: TaskId, pc: Pc, c: Choice)
    requires pc.Create? && Able(s, t, pc, c)
    ensures WriteOk(s.rows, t, CreateStep(cfg, s, t, pc, c), s.now)
  {
  }

  lemma WriteOfOthers(cfg: Config, s: State, t: TaskId, pc: Pc, c: Choice)
    requires !pc.Release? && !pc.Create? && Able(s, t, pc, c)
    ensures WriteOk(s.rows, t, Step(cfg, s, t, pc, c), s.now)
  {
    match pc
    case Return(_, _) => assert WriteOk(s.rows, t, ReturnStep(s, t, pc, c), s.now);
    case Cancel(_) => assert WriteOk(s.rows, t, CancelStep(s, t, pc, c), s.now);
    case Submit(_, _, _) => assert WriteOk(s.rows, t, SubmitStep(s, t, pc, c), s.now);
    case Probe(_, _) => assert WriteOk(s.rows, t, ProbeStep(s, t, pc, c), s.now);
    case Finalize(_, _, _, _) => assert WriteOk(s.rows, t, FinalizeStep(s, t, pc, c), s.now);
  }

  lemma WriteOfStep(cfg: Config, s: State, t: TaskId, pc: Pc, c: Choice)
    requires Able(s, t, pc, c)
    ensures WriteOk(s.rows, t, Step(cfg, s, t, pc, c), s.now)
  {
    match pc
    case Create(_, _, _) => WriteOfCreate(cfg, s, t, pc, c);
    case Release(_, _) => WriteOfRelease(cfg, s, t, pc, c);
    case _ => WriteOfOthers(cfg, s, t, pc, c);
  }

  /** A row that an event creates or changes carries the time of the event: the rescue can tell how long ago
      somebody last worked on it. */
  lemma ChangesAreStamped(cfg: Config, s: State, e: Event, t: TaskId)
    requires Enabled(cfg, s, e) && t in Next(cfg, s, e).rows
    requires t in s.rows ==> Next(cfg, s, e).rows[t] != s.rows[t]
    ensures Next(cfg, s, e).rows[t].updatedAt == s.now
  {
    if e.Run? { WriteOfStep(cfg, s, s.actors[e.actor].task, s.actors[e.actor].pc, e.choice); }
  }

  /** A task ends in the instant of the event that ends it. */
  lemma EndIsStamped(cfg: Config, s: State, e: Event, t: TaskId)
    requires Enabled(cfg, s, e) && t in s.rows && !Terminal(s.rows[t].status)
    ensures var rows' := Next(cfg, s, e).rows;
            t in rows' && (Terminal(rows'[t].status) ==> rows'[t].finishTime == s.now == rows'[t].updatedAt)
  {
    if e.Run? { WriteOfStep(cfg, s, s.actors[e.actor].task, s.actors[e.actor].pc, e.choice); }
  }

  lemma NextKeepsRow(cfg: Config, s: State, e: Event, t: TaskId)
    requires Enabled(cfg, s, e) && (t in s.rows ==> Consistent(s.rows[t]))
    ensures t in Next(cfg, s, e).rows ==> Consistent(Next(cfg, s, e).rows[t])
  {
    if e.Run? { WriteOfStep(cfg, s, s.actors[e.actor].task, s.actors[e.actor].pc, e.choice); }
  }

  /** No contradictory row: over any run, from any state, a row that was consistent, or not there, at
      the start is consistent, or not there, at the end. */
  lemma {:induction false} NoContradictoryRow(cfg: Config, s: State, es: seq<Event>, t: TaskId)
    requires Runs(cfg, s, es) && (t in s.rows ==> Consistent(s.rows[t]))
    ensures t in Exec(cfg, s, es).rows ==> Consistent(Exec(cfg, s, es).rows[t])
    decreases |es|
  {
    if es != [] {
      NextKeepsRow(cfg, s, es[0], t);
      NoContradictoryRow(cfg, Next(cfg, s, es[0]), es[1..], t);
    }
  }

  /** Every event leaves all rows steady: no hypothesis on the state is needed. */
  lemma NextIsSteady(cfg: Config, s: State, e: Event)
    requires Enabled(cfg, s, e)
    ensures Steady(s.rows, Next(cfg, s, e).rows)
  {
    if e.Run? { WriteOfStep(cfg, s, s.actors[e.actor].task, s.actors[e.actor].pc, e.choice); }
  }
}
