/** Retry, dead letter and replay of submit and notify messages (app/queue.py). */
module Queue {
  import opened Wrappers
  import Batching

  // ---- _backoff and _retry_or_dlq ----

  /** `_backoff`: 2 s, 4 s, ... capped at 300 s. */
  function Backoff(attempts: nat): nat {
    if Batching.Pow2(attempts) < 300 then Batching.Pow2(attempts) else 300
  }

  /** Retry delays double from two seconds on until they reach 300 s and then stay there. */
  lemma BackoffShape(a: nat)
    requires a >= 1
    ensures 2 <= Backoff(a) <= Backoff(a + 1) <= 300
    ensures Backoff(a + 1) == if a <= 7 then 2 * Backoff(a) else 300
  {
    Batching.Pow2Grows(1, a);
    assert Batching.Pow2(8) == 2 * Batching.Pow2(7) && Batching.Pow2(7) == 128 by {
      assert Batching.Pow2(4) == 16;
    }
    if a <= 7 { Batching.Pow2Grows(a, 7); } else { Batching.Pow2Grows(8, a); }
  }

  /** The delays before the first `n` retries, together. */
  function Waits(n: nat): nat { if n == 0 then 0 else Waits(n - 1) + Backoff(n) }

  /** Up to the eighth retry the delays add up to 2^(n+1) - 2 seconds. */
  lemma {:induction false} WaitsInClosedForm(n: nat)
    requires n <= 8
    ensures Waits(n) == Batching.Pow2(n + 1) - 2
  {
    if n > 0 {
      WaitsInClosedForm(n - 1);
      Batching.Pow2Grows(n, 8);
      assert Batching.Pow2(8) == 256 by { assert Batching.Pow2(4) == 16; }
    } else {
      assert Batching.Pow2(1) == 2 * Batching.Pow2(0);
    }
  }

  /** How often a message is run at most: the handler runs it once before it looks at the setting
      `event_max_attempts`. */
  function Cap(maxAttempts: int): nat { if maxAttempts < 1 then 1 else maxAttempts }

  type JobId = nat

  /** Where a message is: in the Redis list, in the schedule, in a worker, finished, in the dead
      letter stream, deleted from there after its replay, or gone: with a worker that crashed, or because
      its failure could be neither scheduled nor put to the dead letters. */
  datatype Place = Pending | Delayed | Running | Finished | Dead | Replayed | Lost

  /** One life of a job, from its publication or replay on; `attempts` is the message's label.
      Ghost in the source: how often it was started, when it was published, and when it last failed. */
  datatype Life = Life(job: JobId, place: Place, attempts: nat, due: int, starts: nat, born: int, failed: int)

  /** `replaying` is the dead letter between its `kiq` and its `xdel`. */
  datatype State = State(lives: seq<Life>, replaying: Option<nat>, now: int)

  datatype Event =
    | Publish(job: JobId)
    | Take(i: nat)         // a worker receives message i
    | Succeed(i: nat)
    | Fail(i: nat)         // the handler raises
    | LoseRetry(i: nat)    // ... and so does _retry_or_dlq
    | Dispatch(i: nat)     // the scheduler sends a delayed message
    | Enqueue(i: nat)      // replay: task.kiq
    | Delete               // replay: xdel
    | CrashWorker(i: nat)
    | CrashReplay
    | Tick(seconds: nat)

  function Fresh(job: JobId, now: int): Life { Life(job, Pending, 0, now, 0, now, now) }

  /** `_retry_or_dlq`: dead from the last permitted attempt on, otherwise scheduled with one more
      attempt on its label. */
  function RetryOrDlq(m: Life, maxAttempts: int, now: int): Life {
    var attempts := m.attempts + 1;
    if attempts >= maxAttempts then m.(place := Dead, attempts := attempts)
    else m.(place := Delayed, attempts := attempts, due := now + Backoff(attempts))
  }

  predicate At(s: State, i: nat, p: Place) { i < |s.lives| && s.lives[i].place == p }

  predicate Enabled(s: State, e: Event) {
    match e
    case Publish(job) => forall k | 0 <= k < |s.lives| :: s.lives[k].job != job
    case Take(i) => At(s, i, Pending)
    case Succeed(i) => At(s, i, Running)
    case Fail(i) => At(s, i, Running)
    case LoseRetry(i) => At(s, i, Running)
    case Dispatch(i) => At(s, i, Delayed) && s.lives[i].due <= s.now
    case Enqueue(i) => At(s, i, Dead) && s.replaying == None
    case Delete => s.replaying.Some?
    case CrashWorker(i) => At(s, i, Running)
    case CrashReplay => s.replaying.Some?
    case Tick(_) => true
  }

  function Moved(s: State, i: nat, p: Place): State
    requires i < |s.lives|
  { s.(lives := s.lives[i := s.lives[i].(place := p)]) }

  function Next(maxAttempts: int, s: State, e: Event): State
    requires Enabled(s, e)
  {
    match e
    case Publish(job) => s.(lives := s.lives + [Fresh(job, s.now)])
    case Take(i) => s.(lives := s.lives[i := s.lives[i].(place := Running, starts := s.lives[i].starts + 1)])
    case Succeed(i) => Moved(s, i, Finished)
    case Fail(i) => s.(lives := s.lives[i := RetryOrDlq(s.lives[i], maxAttempts, s.now).(failed := s.now)])
    case LoseRetry(i) => Moved(s, i, Lost)
    case Dispatch(i) => Moved(s, i, Pending)
    case Enqueue(i) => s.(lives := s.lives + [Fresh(s.lives[i].job, s.now)], replaying := Some(i))
    case Delete =>
      if s.replaying.value < |s.lives| then Moved(s, s.replaying.value, Replayed).(replaying := None)
      else s.(replaying := None)
    case CrashWorker(i) => Moved(s, i, Lost)
    case CrashReplay => s.(replaying := None)
    case Tick(d) => s.(now := s.now + d)
  }

  predicate Runs(maxAttempts: int, s: State, es: seq<Event>)
    decreases |es|
  {
    es == [] || (Enabled(s, es[0]) && Runs(maxAttempts, Next(maxAttempts, s, es[0]), es[1..]))
  }

  function Exec(maxAttempts: int, s: State, es: seq<Event>): State
    requires Runs(maxAttempts, s, es)
    decreases |es|
  { if es == [] then s else Exec(maxAttempts, Next(maxAttempts, s, es[0]), es[1..]) }

  function Empty(now: int): State { State([], None, now) }

  // ---- what every life keeps ----

  /** The label counts the failed runs; the last permitted one is fatal, and only that one; a retry
      waits for its delay. */
  predicate LifeOk(m: Life, maxAttempts: int, now: int) {
    && (match m.place
        case Pending => m.starts == m.attempts < Cap(maxAttempts) && m.born + Waits(m.attempts) <= now
        case Delayed => m.starts == m.attempts < Cap(maxAttempts) && m.born + Waits(m.attempts) <= m.due
                        && m.failed <= now && m.due == m.failed + Backoff(m.attempts)
        case Dead => m.starts == m.attempts == Cap(maxAttempts) && m.born + Waits(m.attempts - 1) <= now
        case Replayed => m.starts == m.attempts == Cap(maxAttempts) && m.born + Waits(m.attempts - 1) <= now
        case _ => m.starts == m.attempts + 1 <= Cap(maxAttempts) && m.born + Waits(m.attempts) <= now)
  }

  predicate LivesOk(s: State, maxAttempts: int) {
    && (forall i | 0 <= i < |s.lives| :: LifeOk(s.lives[i], maxAttempts, s.now))
    && (s.replaying.Some? ==> At(s, s.replaying.value, Dead))
  }

  lemma FailKeepsLife(m: Life, maxAttempts: int, now: int)
    requires LifeOk(m, maxAttempts, now) && m.place == Running
    ensures LifeOk(RetryOrDlq(m, maxAttempts, now).(failed := now), maxAttempts, now)
  {
  }

  lemma NextKeepsLives(maxAttempts: int, s: State, e: Event)
    requires LivesOk(s, maxAttempts) && Enabled(s, e)
    ensures LivesOk(Next(maxAttempts, s, e), maxAttempts)
  {
    var s' := Next(maxAttempts, s, e);
    if e.Fail? { FailKeepsLife(s.lives[e.i], maxAttempts, s.now); }
    forall i | 0 <= i < |s'.lives|
      ensures LifeOk(s'.lives[i], maxAttempts, s'.now)
    {
      if i < |s.lives| { assert LifeOk(s.lives[i], maxAttempts, s.now); }
    }
  }

  lemma {:induction false} LivesAlways(maxAttempts: int, s: State, es: seq<Event>)
    requires LivesOk(s, maxAttempts) && Runs(maxAttempts, s, es)
    ensures LivesOk(Exec(maxAttempts, s, es), maxAttempts)
    decreases |es|
  {
    if es != [] {
      NextKeepsLives(maxAttempts, s, es[0]);
      LivesAlways(maxAttempts, Next(maxAttempts, s, es[0]), es[1..]);
    }
  }

  /** A publication or a replay is started at most event_max_attempts times (and at least once before
      it is given up); it ends in the dead letters exactly after that many failures, and no sooner
      than all its retry delays together; and a retry is due exactly its delay after the failure. */
  lemma RunsPerLife(maxAttempts: int, t0: int, es: seq<Event>, i: nat)
    requires Runs(maxAttempts, Empty(t0), es) && i < |Exec(maxAttempts, Empty(t0), es).lives|
    ensures var s := Exec(maxAttempts, Empty(t0), es); var m := s.lives[i];
            && m.starts <= Cap(maxAttempts)
            && (m.place == Dead ==> m.starts == m.attempts == Cap(maxAttempts)
                                    && s.now >= m.born + Waits(Cap(maxAttempts) - 1))
            && (m.place in {Pending, Delayed} ==> m.starts == m.attempts < Cap(maxAttempts))
            && (m.place == Delayed ==> m.due == m.failed + Backoff(m.attempts))
  {
    LivesAlways(maxAttempts, Empty(t0), es);
    assert LifeOk(Exec(maxAttempts, Empty(t0), es).lives[i], maxAttempts, Exec(maxAttempts, Empty(t0), es).now);
  }

  // ---- each job is in one place ----

  /** Deleted letters and messages lost with a worker are nowhere. */
  predicate Open(m: Life) { m.place != Replayed && m.place != Lost }

  /** The letter that is being replayed and has been enqueued, but is not yet deleted. */
  predicate InReplay(s: State, i: nat) { s.replaying == Some(i) }

  /** No job is in two places, the letter being replayed aside. */
  predicate OnePlace(s: State) {
    forall i, j | 0 <= i < j < |s.lives| && s.lives[i].job == s.lives[j].job ::
      !Open(s.lives[i]) || !Open(s.lives[j]) || InReplay(s, i)
  }

  /** The job is somewhere, even without the letter being replayed. */
  predicate Somewhere(s: State, job: JobId) {
    exists j | 0 <= j < |s.lives| :: Keeps(s, j, job)
  }
  predicate Keeps(s: State, j: nat, job: JobId) {
    j < |s.lives| && s.lives[j].job == job && Open(s.lives[j]) && !InReplay(s, j)
  }

  predicate SomePlace(s: State) {
    forall i | 0 <= i < |s.lives| :: Somewhere(s, s.lives[i].job)
  }

  predicate SameJobs(s: State, s': State) {
    |s.lives| == |s'.lives| && forall i | 0 <= i < |s.lives| :: s.lives[i].job == s'.lives[i].job
  }

  /** A step that closes lives at most. */
  lemma ClosingKeepsOnePlace(s: State, s': State)
    requires OnePlace(s) && SameJobs(s, s')
    requires forall i | 0 <= i < |s.lives| ::
               Open(s'.lives[i]) ==> Open(s.lives[i]) && (InReplay(s, i) ==> InReplay(s', i))
    ensures OnePlace(s')
  {
    forall i, j | 0 <= i < j < |s'.lives| && s'.lives[i].job == s'.lives[j].job
      ensures !Open(s'.lives[i]) || !Open(s'.lives[j]) || InReplay(s', i)
    {
      assert s.lives[i].job == s.lives[j].job;
    }
  }

  lemma BirthKeepsOnePlace(s: State, s': State, job: JobId)
    requires OnePlace(s) && s'.lives == s.lives + [Fresh(job, s.now)]
    requires s.replaying == None
    requires forall i | 0 <= i < |s.lives| && s.lives[i].job == job :: Open(s.lives[i]) ==> InReplay(s', i)
    ensures OnePlace(s')
  {
    forall i, j | 0 <= i < j < |s'.lives| && s'.lives[i].job == s'.lives[j].job
      ensures !Open(s'.lives[i]) || !Open(s'.lives[j]) || InReplay(s', i)
    {
      if j < |s.lives| { assert s.lives[i].job == s.lives[j].job; }
    }
  }

  /** A publication gives its job a name of its own. */
  lemma PublishKeepsOnePlace(s: State, job: JobId)
    requires OnePlace(s) && forall k | 0 <= k < |s.lives| :: s.lives[k].job != job
    ensures OnePlace(s.(lives := s.lives + [Fresh(job, s.now)]))
  {
    var s' := s.(lives := s.lives + [Fresh(job, s.now)]);
    forall i, j | 0 <= i < j < |s'.lives| && s'.lives[i].job == s'.lives[j].job
      ensures !Open(s'.lives[i]) || !Open(s'.lives[j]) || InReplay(s', i)
    {
      if j < |s.lives| { assert s.lives[i].job == s.lives[j].job; }
    }
  }

  lemma NextKeepsOnePlace(maxAttempts: int, s: State, e: Event)
    requires OnePlace(s) && LivesOk(s, maxAttempts) && Enabled(s, e) && !e.CrashReplay?
    ensures OnePlace(Next(maxAttempts, s, e))
  {
    var s' := Next(maxAttempts, s, e);
    match e
    case Publish(job) => PublishKeepsOnePlace(s, job);
    case Enqueue(i) =>
      forall k | 0 <= k < |s.lives| && s.lives[k].job == s.lives[i].job
        ensures Open(s.lives[k]) ==> InReplay(s', k)
      {
        if k < i { assert !Open(s.lives[k]) || !Open(s.lives[i]) || InReplay(s, k); }
        if i < k { assert !Open(s.lives[i]) || !Open(s.lives[k]) || InReplay(s, i); }
      }
      BirthKeepsOnePlace(s, s', s.lives[i].job);
    case _ => ClosingKeepsOnePlace(s, s');
  }

  /** A step that moves no other life than ones that stay open. */
  lemma MovingKeepsSomePlace(s: State, s': State)
    requires SomePlace(s) && SameJobs(s, s')
    requires forall i | 0 <= i < |s.lives| ::
               Open(s.lives[i]) && !InReplay(s, i) ==> Open(s'.lives[i]) && !InReplay(s', i)
    ensures SomePlace(s')
  {
    forall i | 0 <= i < |s'.lives|
      ensures Somewhere(s', s'.lives[i].job)
    {
      assert Somewhere(s, s.lives[i].job);
      var j :| 0 <= j < |s.lives| && Keeps(s, j, s.lives[i].job);
      assert Keeps(s', j, s'.lives[i].job);
    }
  }

  lemma BirthKeepsSomePlace(s: State, s': State, job: JobId)
    requires SomePlace(s) && s'.lives == s.lives + [Fresh(job, s.now)]
    requires s'.replaying == s.replaying
             || (s'.replaying.Some? && s'.replaying.value < |s.lives| && s.lives[s'.replaying.value].job == job)
    requires s.replaying.Some? ==> s.replaying.value < |s.lives|
    ensures SomePlace(s')
  {
    assert Keeps(s', |s.lives|, job);
    forall i | 0 <= i < |s'.lives|
      ensures Somewhere(s', s'.lives[i].job)
    {
      if s'.lives[i].job != job {
        assert Somewhere(s, s.lives[i].job);
        var j :| 0 <= j < |s.lives| && Keeps(s, j, s.lives[i].job);
        assert Keeps(s', j, s'.lives[i].job) || s'.replaying == Some(j);
      }
    }
  }

  /** The events that lose a message. */
  predicate Loses(e: Event) { e.CrashWorker? || e.LoseRetry? }

  lemma NextKeepsSomePlace(maxAttempts: int, s: State, e: Event)
    requires SomePlace(s) && LivesOk(s, maxAttempts) && Enabled(s, e) && !Loses(e)
    ensures SomePlace(Next(maxAttempts, s, e))
  {
    var s' := Next(maxAttempts, s, e);
    match e
    case Publish(job) => BirthKeepsSomePlace(s, s', job);
    case Enqueue(i) => BirthKeepsSomePlace(s, s', s.lives[i].job);
    case _ => MovingKeepsSomePlace(s, s');
  }

  predicate CrashFree(es: seq<Event>) { forall e | e in es :: !Loses(e) && !e.CrashReplay? }

  lemma {:induction false} PlacesAlways(maxAttempts: int, s: State, es: seq<Event>)
    requires LivesOk(s, maxAttempts) && Runs(maxAttempts, s, es)
    ensures OnePlace(s) && (forall e | e in es :: !e.CrashReplay?) ==> OnePlace(Exec(maxAttempts, s, es))
    ensures SomePlace(s) && (forall e | e in es :: !Loses(e)) ==> SomePlace(Exec(maxAttempts, s, es))
    decreases |es|
  {
    if es != [] {
      var e, rest := es[0], es[1..];
      assert e in es && forall f | f in rest :: f in es;
      NextKeepsLives(maxAttempts, s, e);
      if OnePlace(s) && !e.CrashReplay? { NextKeepsOnePlace(maxAttempts, s, e); }
      if SomePlace(s) && !Loses(e) { NextKeepsSomePlace(maxAttempts, s, e); }
      PlacesAlways(maxAttempts, Next(maxAttempts, s, e), rest);
    }
  }

  /** Without a crash or a loss every job ever published is, apart from the letter that is being replayed, in
      exactly one of pending, delayed, running, finished or dead letters. */
  lemma ExactlyOnePlace(maxAttempts: int, t0: int, es: seq<Event>, i: nat)
    requires Runs(maxAttempts, Empty(t0), es) && CrashFree(es)
    requires i < |Exec(maxAttempts, Empty(t0), es).lives|
    ensures var s := Exec(maxAttempts, Empty(t0), es);
            && Somewhere(s, s.lives[i].job)
            && (forall j, k | 0 <= j < |s.lives| && 0 <= k < |s.lives| ::
                  Keeps(s, j, s.lives[i].job) && Keeps(s, k, s.lives[i].job) ==> j == k)
  {
    PlacesAlways(maxAttempts, Empty(t0), es);
  }

  /** Replay never loses a job, wherever it is interrupted. */
  lemma ReplayNeverLoses(maxAttempts: int, t0: int, es: seq<Event>, i: nat)
    requires Runs(maxAttempts, Empty(t0), es) && forall e | e in es :: !Loses(e)
    requires i < |Exec(maxAttempts, Empty(t0), es).lives|
    ensures var s := Exec(maxAttempts, Empty(t0), es);
            Somewhere(s, s.lives[i].job)
  {
    PlacesAlways(maxAttempts, Empty(t0), es);
  }

  /** But interrupted between `kiq` and `xdel` it leaves the job in two places. */
  lemma InterruptedReplayDoubles(maxAttempts: int, s: State, i: nat)
    requires LivesOk(s, maxAttempts) && Enabled(s, Enqueue(i))
    ensures var s1 := Next(maxAttempts, s, Enqueue(i));
            && Enabled(s1, CrashReplay)
            && var s2 := Next(maxAttempts, s1, CrashReplay);
            && Keeps(s2, i, s.lives[i].job) && Keeps(s2, |s.lives|, s.lives[i].job)
            && !OnePlace(s2)
  {
    var s2 := Next(maxAttempts, Next(maxAttempts, s, Enqueue(i)), CrashReplay);
    assert s2.lives[i].job == s2.lives[|s.lives|].job && Open(s2.lives[i]) && Open(s2.lives[|s.lives|]);
  }

  // ---- replay_dlq ----

  /** `type` of a dead letter: in the replay table, or not. */
  datatype Kind = QueueSubmit | Notify | Unknown
  datatype Letter = Letter(id: nat, kind: Kind, args: string)

  predicate Replayable(l: Letter) { l.kind != Unknown }

  datatype Message = Message(kind: Kind, args: string, attempts: nat)

  function Reborn(l: Letter): Message { Message(l.kind, l.args, 0) }

  /** The queue after a replay of the first `n` letters, and which of these letters that leaves. */
  function Enqueued(queue: seq<Message>, was: seq<Letter>, n: nat): seq<Message>
    requires n <= |was|
  {
    if n == 0 then queue
    else if Replayable(was[n - 1]) then Enqueued(queue, was, n - 1) + [Reborn(was[n - 1])]
    else Enqueued(queue, was, n - 1)
  }
  function Left(was: seq<Letter>, n: nat): seq<Letter>
    requires n <= |was|
  { if n == 0 then [] else Left(was, n - 1) + if Replayable(was[n - 1]) then [] else [was[n - 1]] }

  /** A replay splits the letters: behind what was queued it enqueues one message, with its arguments
      and no attempt yet, for each letter that it knows, leaves the others, and does nothing else. */
  lemma {:induction false} ReplaySplits(queue: seq<Message>, was: seq<Letter>, n: nat)
    requires n <= |was|
    ensures |Enqueued(queue, was, n)| + |Left(was, n)| == |queue| + n && queue <= Enqueued(queue, was, n)
    ensures forall i | 0 <= i < n ::
              if Replayable(was[i]) then Message(was[i].kind, was[i].args, 0) in Enqueued(queue, was, n)
              else was[i] in Left(was, n)
  {
    if n > 0 { ReplaySplits(queue, was, n - 1); }
  }

  lemma {:induction false} LeftAreUnknown(was: seq<Letter>, n: nat)
    requires n <= |was|
    ensures forall l | l in Left(was, n) :: !Replayable(l) && exists i | 0 <= i < n :: was[i] == l
  {
    if n > 0 { LeftAreUnknown(was, n - 1); }
  }

  predicate DistinctIds(letters: seq<Letter>) {
    forall i, j | 0 <= i < j < |letters| :: letters[i].id != letters[j].id
  }

  /** XDEL. */
  function Without(letters: seq<Letter>, id: nat): seq<Letter> {
    if letters == [] then []
    else if letters[0].id == id then letters[1..]
    else [letters[0]] + Without(letters[1..], id)
  }

  lemma {:induction false} DeleteInside(pre: seq<Letter>, l: Letter, post: seq<Letter>)
    requires forall k | 0 <= k < |pre| :: pre[k].id != l.id
    ensures Without(pre + [l] + post, l.id) == pre + post
    decreases |pre|
  {
    var all := pre + [l] + post;
    if pre == [] {
      assert all[1..] == post;
    } else {
      assert all[0] == pre[0] && all[1..] == pre[1..] + [l] + post;
      DeleteInside(pre[1..], l, post);
      assert [pre[0]] + (pre[1..] + post) == pre + post;
    }
  }

  /** The oldest `limit` letters. */
  function First(letters: seq<Letter>, limit: nat): (r: seq<Letter>)
    ensures |r| == (if |letters| < limit then |letters| else limit) && r == letters[..|r|]
  { if |letters| <= limit then letters else letters[..limit] }

  lemma LeftHasOtherIds(was: seq<Letter>, n: nat)
    requires DistinctIds(was) && n < |was|
    ensures forall k | 0 <= k < |Left(was, n)| :: Left(was, n)[k].id != was[n].id
  {
    var left := Left(was, n);
    LeftAreUnknown(was, n);
    forall k | 0 <= k < |left|
      ensures left[k].id != was[n].id
    {
      assert left[k] in left;
      var i :| 0 <= i < n && was[i] == left[k];
      assert was[i].id != was[n].id;
    }
  }

  /** The stream when the first `n` letters have been dealt with. */
  function Rest(was: seq<Letter>, n: nat): seq<Letter>
    requires n <= |was|
  { Left(was, n) + was[n..] }

  /** What entry `n` of a replay does to the stream. */
  lemma OneEntry(was: seq<Letter>, n: nat)
    requires DistinctIds(was) && n < |was|
    ensures Rest(was, n + 1) == if Replayable(was[n]) then Without(Rest(was, n), was[n].id) else Rest(was, n)
  {
    var l, left, post := was[n], Left(was, n), was[n + 1..];
    assert was[n..] == [l] + post;
    assert left + [l] + post == Rest(was, n);
    LeftHasOtherIds(was, n);
    DeleteInside(left, l, post);
  }

  class DeadLetters {
    var stream: seq<Letter>
    var pending: seq<Message>

    constructor (letters: seq<Letter>)
      ensures stream == letters && pending == []
    { stream, pending := letters, []; }

    /** One turn of the loop. */
    method Turn(l: Letter) returns (known: bool)
      modifies this
      ensures known == Replayable(l)
      ensures stream == if known then Without(old(stream), l.id) else old(stream)
      ensures pending == if known then old(pending) + [Reborn(l)] else old(pending)
    {
      known := Replayable(l);
      if known {
        pending := pending + [Message(l.kind, l.args, 0)];
        stream := Without(stream, l.id);
      }
    }

    /** The loop, up to its `n`-th turn. */
    method Turns(entries: seq<Letter>, n: nat) returns (replayed: nat)
      requires DistinctIds(stream) && entries <= stream && n <= |entries|
      modifies this
      ensures stream == Rest(old(stream), n) && pending == Enqueued(old(pending), old(stream), n)
      ensures replayed + |Left(old(stream), n)| == n
    {
      ghost var was, queue := stream, pending;
      replayed := 0;
      for i := 0 to n
        invariant stream == Rest(was, i) && pending == Enqueued(queue, was, i)
        invariant replayed + |Left(was, i)| == i
      {
        OneEntry(was, i);
        var known := Turn(entries[i]);
        if known { replayed := replayed + 1; }
      }
    }

    /** Replay the oldest `limit` letters. */
    method ReplayDlq(limit: nat) returns (replayed: nat)
      requires DistinctIds(stream)
      modifies this
      ensures var n := if |old(stream)| < limit then |old(stream)| else limit;
              && stream == Rest(old(stream), n) && pending == Enqueued(old(pending), old(stream), n)
              && replayed + |Left(old(stream), n)| == n
    {
      var entries := First(stream, limit);
      replayed := Turns(entries, |entries|);
    }

    /** A process that stops between the `kiq` and the `xdel` of the k-th letter: this one is then in both
        places, the earlier ones that it knows are replayed, and all others are still in the stream. */
    method InterruptedReplay(limit: nat, k: nat)
      requires DistinctIds(stream) && k < |First(stream, limit)| && Replayable(stream[k])
      modifies this
      ensures stream == Rest(old(stream), k) && old(stream)[k] in stream
      ensures pending == Enqueued(old(pending), old(stream), k + 1)
    {
      var entries := First(stream, limit);
      var l := entries[k];
      assert l == stream[k] && l in stream[k..];
      var _ := Turns(entries, k);
      pending := pending + [Message(l.kind, l.args, 0)];
    }
  }
}
