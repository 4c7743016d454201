/** The `tasks` table (app/services/taskstore.py).

    Each SQL statement of the source is one function on the row it addresses: `None` is a row count
    of 0, `Some(r)` a row count of 1 with the row rewritten to `r`.  Class TaskTable runs the
    statements in place; the protocol machine (module Protocol) runs the same functions as atomic
    steps. */
module TaskStore {
  import opened Wrappers

  type TaskId = nat
  type Token = nat

  /** app/schemas.py */
  datatype Status = Submitted | Queued | InProgress | Success | Failure | Canceled

  const ACTIVE: set<Status> := {Submitted, Queued, InProgress}

  predicate Terminal(st: Status) { st !in ACTIVE }

  /** `data.batch_state`; NoBatch is a row without the key (the immediate path, and old rows). */
  datatype BatchState = NoBatch | Waiting | Releasing | Released | Requeued

  predicate Claimable(b: BatchState) { b == Waiting || b == Requeued }

  /** One row.  `slotFlags == None` is a row without the key; `batchDueAt == 0` likewise. */
  datatype Row = Row(
    status: Status,
    progress: nat,
    finishTime: int,
    failReason: string,
    updatedAt: int,
    token: Token,
    callback: bool,
    batchState: BatchState,
    slotFlags: Option<int>,
    batchDueAt: int,
    requeueAttempts: nat,
    upstreamTaskId: Option<string>)

  /** The members of a JSON merge patch that the statements below write (section 2 of RFC 7396;
      every one of them is a flat scalar). */
  datatype Patch = Patch(
    batchState: Option<BatchState> := None,
    slotFlags: Option<int> := None,
    batchDueAt: Option<int> := None,
    requeueAttempts: Option<nat> := None,
    upstreamTaskId: Option<string> := None)

  function Or<T>(o: Option<T>, default: T): T {
    match o case Some(v) => v case None => default
  }

  function Merge(row: Row, p: Patch): Row {
    row.(batchState := Or(p.batchState, row.batchState),
         slotFlags := if p.slotFlags.Some? then p.slotFlags else row.slotFlags,
         batchDueAt := Or(p.batchDueAt, row.batchDueAt),
         requeueAttempts := Or(p.requeueAttempts, row.requeueAttempts),
         upstreamTaskId := if p.upstreamTaskId.Some? then p.upstreamTaskId else row.upstreamTaskId)
  }

  /** INSERT of a fresh row: SUBMITTED, 0%, no attempt yet. */
  function NewRow(token: Token, callback: bool, batched: bool, now: int): Row {
    Row(Submitted, 0, 0, "", now, token, callback,
        if batched then Waiting else NoBatch,
        Some(if batched then 0 else 1), 0, 0, None)
  }

  /** `cas`: the guarded status transition. */
  function Cas(row: Row, froms: set<Status>, to: Status, p: Patch, reason: string, now: int): Option<Row> {
    if row.status !in froms then None
    else
      var r := Merge(row, p);
      Some(r.(status := to, updatedAt := now, failReason := reason,
              finishTime := if Terminal(to) then now else row.finishTime,
              progress := if Terminal(to) then 100 else row.progress))
  }

  /** `patch_data`: merge with no guard on the status. */
  function PatchData(row: Row, p: Patch, now: int): Row {
    Merge(row, p).(updatedAt := now)
  }

  /** `claim_for_release`: SUBMITTED and waiting or requeued, to releasing. */
  function ClaimForRelease(row: Row, now: int): Option<Row> {
    if row.status == Submitted && Claimable(row.batchState)
    then Some(row.(batchState := Releasing, updatedAt := now)) else None
  }

  /** `unclaim_for_release` with its default `restore`: SUBMITTED and releasing, to waiting. */
  function UnclaimForRelease(row: Row, now: int): Option<Row> {
    if row.status == Submitted && row.batchState == Releasing
    then Some(row.(batchState := Waiting, updatedAt := now)) else None
  }

  /** The slot mask as `claim_slot_release` reads it: a missing key counts as held. */
  predicate Held(row: Row) { Or(row.slotFlags, 1) > 0 }

  /** `claim_slot_release`: zero a positive mask. */
  function ClaimSlotRelease(row: Row, now: int): Option<Row> {
    if Held(row) then Some(row.(slotFlags := Some(0), updatedAt := now)) else None
  }

  // ---- time columns ----

  const UNIX_MS_THRESHOLD: int := 100_000_000_000

  /** The SQL expression of `_secs` on a stored integer (DIV truncates; here its operand is positive). */
  function Secs(column: int): int {
    if column > UNIX_MS_THRESHOLD then column / 1000 else column
  }

  /** What `as_unix_seconds` may be handed: nothing usable, or an integer. */
  datatype RawTime = Unusable | Number(n: int)

  function AsUnixSeconds(v: RawTime): int {
    match v
    case Unusable => 0
    case Number(n) => if n > UNIX_MS_THRESHOLD then n / 1000 else n
  }

  /** One instant, stored in seconds by this service and in milliseconds by another writer, reads
      back as the same second on the SQL side and on the Python side -- exactly from the moment on
      at which its millisecond form exceeds the threshold. */
  lemma BothUnitsReadAlike(sec: int, ms: int)
    requires 0 <= sec <= 100_000_000_000 && 0 <= ms < 1000
    ensures Secs(sec) == AsUnixSeconds(Number(sec)) == sec
    ensures Secs(1000 * sec + ms) == AsUnixSeconds(Number(1000 * sec + ms))
    ensures Secs(1000 * sec + ms) == sec
            <==> (1000 * sec + ms > 100_000_000_000 || (sec == 0 && ms == 0))
  {
    assert (1000 * sec + ms) / 1000 == sec;
  }

  // ---- the rescue query ----

  /** The WHERE clause of `stale_batch_waiting` at time `now`. */
  predicate StaleBatch(row: Row, now: int, grace: nat) {
    var cutoff := now - grace;
    && row.status == Submitted
    && ( (Claimable(row.batchState) && 0 < row.batchDueAt <= cutoff)
      || (row.batchState == Releasing && Secs(row.updatedAt) <= cutoff))
  }

  /** The claim and the rescue query fit together: a row just claimed is left alone for the whole grace,
      whatever its due time, and is selected from then on. */
  lemma ClaimIsGraced(row: Row, now: int, later: int, grace: nat)
    requires ClaimForRelease(row, now).Some? && 0 <= now <= UNIX_MS_THRESHOLD
    ensures StaleBatch(ClaimForRelease(row, now).value, later, grace) <==> later >= now + grace
  {
  }

  /** The releasers' statements and the rescue query pass by whatever is not theirs: a task past SUBMITTED,
      a row outside the batches, and one that has been released. */
  lemma OnlyOpenRows(row: Row, now: int, grace: nat)
    ensures row.status != Submitted || row.batchState == NoBatch || row.batchState == Released ==>
              && ClaimForRelease(row, now) == None && UnclaimForRelease(row, now) == None && !StaleBatch(row, now, grace)
    ensures row.batchState == Releasing ==> ClaimForRelease(row, now) == None
    ensures row.batchState == Waiting || row.batchState == Requeued ==> UnclaimForRelease(row, now) == None
  {
  }

  /** A row that waits, in its batch or for a retry, is left alone for the whole grace after its due time. */
  lemma WaitIsGraced(row: Row, later: int, grace: nat)
    requires row.status == Submitted && Claimable(row.batchState) && row.batchDueAt > 0
    ensures StaleBatch(row, later, grace) <==> later >= row.batchDueAt + grace
  {
  }

  /** ... so a row just put into its batch is selected exactly from then on. */
  lemma JoinIsGraced(token: Token, callback: bool, born: int, due: int, now: int, later: int, grace: nat)
    requires due > 0
    ensures var row := PatchData(NewRow(token, callback, true, born), Patch(batchDueAt := Some(due)), now);
            StaleBatch(row, later, grace) <==> later >= due + grace
  {
  }

  /** The un-claim undoes the claim, the time stamp aside, exactly if the row was waiting: a requeued one
      comes back as waiting. */
  lemma UnclaimUndoesClaim(row: Row, now: int, later: int)
    requires ClaimForRelease(row, now).Some?
    ensures var back := UnclaimForRelease(ClaimForRelease(row, now).value, later);
            && back.Some? && Claimable(back.value.batchState)
            && (back.value == row.(updatedAt := later) <==> row.batchState == Waiting)
  {
  }

  /** What no statement of the service ever undoes on a row: the status columns of a terminal row,
      the identity columns, being batched at all, and having a due time. */
  predicate Evolves(r: Row, r': Row) {
    && r'.token == r.token && r'.callback == r.callback
    && (Terminal(r.status) ==>
          r'.status == r.status && r'.progress == r.progress
          && r'.finishTime == r.finishTime && r'.failReason == r.failReason)
    && (r.batchState == NoBatch <==> r'.batchState == NoBatch)
    && (r.batchDueAt > 0 ==> r'.batchDueAt > 0)
  }

  /** The table, updated in place. */
  class TaskTable {
    var rows: map<TaskId, Row>

    constructor ()
      ensures rows == map[]
    { rows := map[]; }

    /** `create` fails on a duplicate primary key and then changes nothing. */
    method Create(t: TaskId, row: Row) returns (ok: bool)
      modifies this
      ensures ok == (t !in old(rows))
      ensures rows == if ok then old(rows)[t := row] else old(rows)
    {
      ok := t !in rows;
      if ok { rows := rows[t := row]; }
    }

    method Get(t: TaskId) returns (row: Option<Row>)
      ensures row == if t in rows then Some(rows[t]) else None
    {
      row := if t in rows then Some(rows[t]) else None;
    }

    /** Run one guarded UPDATE on row `t`: the row count is 1 exactly when the row exists and the
        statement's guard holds of it. */
    method Update(t: TaskId, stmt: Row -> Option<Row>) returns (won: bool)
      modifies this
      ensures won == (t in old(rows) && stmt(old(rows)[t]).Some?)
      ensures rows == if won then old(rows)[t := stmt(old(rows)[t]).value] else old(rows)
    {
      won := false;
      if t in rows {
        var res := stmt(rows[t]);
        if res.Some? {
          rows := rows[t := res.value];
          won := true;
        }
      }
    }

    method CasStatus(t: TaskId, froms: set<Status>, to: Status, p: Patch, reason: string, now: int)
      returns (won: bool)
      modifies this
      ensures won == (t in old(rows) && old(rows)[t].status in froms)
      ensures won ==> rows == old(rows)[t := Cas(old(rows)[t], froms, to, p, reason, now).value]
      ensures !won ==> rows == old(rows)
    {
      won := Update(t, row => Cas(row, froms, to, p, reason, now));
    }

    method Patched(t: TaskId, p: Patch, now: int)
      modifies this
      ensures rows == if t in old(rows) then old(rows)[t := PatchData(old(rows)[t], p, now)] else old(rows)
    {
      var _ := Update(t, row => Some(PatchData(row, p, now)));
    }

    method Claim(t: TaskId, now: int) returns (won: bool)
      modifies this
      ensures won == (t in old(rows) && ClaimForRelease(old(rows)[t], now).Some?)
      ensures rows == if won then old(rows)[t := ClaimForRelease(old(rows)[t], now).value] else old(rows)
    {
      won := Update(t, row => ClaimForRelease(row, now));
    }

    method Unclaim(t: TaskId, now: int)
      modifies this
      ensures rows == if t in old(rows) && UnclaimForRelease(old(rows)[t], now).Some?
                      then old(rows)[t := UnclaimForRelease(old(rows)[t], now).value] else old(rows)
    {
      var _ := Update(t, row => UnclaimForRelease(row, now));
    }

    method ClaimSlot(t: TaskId, now: int) returns (won: bool)
      modifies this
      ensures won == (t in old(rows) && Held(old(rows)[t]))
      ensures rows == if won then old(rows)[t := ClaimSlotRelease(old(rows)[t], now).value] else old(rows)
    {
      won := Update(t, row => ClaimSlotRelease(row, now));
    }
  }
}
