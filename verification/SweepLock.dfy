/** The re-entrance lock of the sweep (sweep_queue_once in app/services/relayflow.py, LUA_CAS_DELETE in
    app/redis.py): SET NX EX with a fresh guard on entry, compare-and-delete on exit. */
module SweepLock {
  import opened Wrappers

  type Guard = nat

  datatype Key = Key(guard: Guard, expires: int)

  /** What Redis still has at time `now`. */
  function Live(key: Option<Key>, now: int): Option<Key> {
    if key.Some? && now < key.value.expires then key else None
  }

  /** SET NX EX takes the key unless it is there; it raises on a time to live that is not positive. */
  predicate Takes(key: Option<Key>, ttl: int, now: int) { ttl > 0 && Live(key, now) == None }

  /** LUA_CAS_DELETE */
  function Deleted(key: Option<Key>, guard: Guard, now: int): Option<Key> {
    if Live(key, now).Some? && key.value.guard == guard then None else key
  }

  class Lock {
    var key: Option<Key>

    constructor ()
      ensures key == None
    { key := None; }

    method Enter(guard: Guard, ttl: int, now: int) returns (locked: bool)
      modifies this
      ensures locked == Takes(old(key), ttl, now)
      ensures key == if locked then Some(Key(guard, now + ttl)) else old(key)
    {
      locked := ttl > 0 && (key.None? || now >= key.value.expires);
      if locked { key := Some(Key(guard, now + ttl)); }
    }

    method Exit(guard: Guard, now: int)
      modifies this
      ensures key == Deleted(old(key), guard, now)
    {
      if key.Some? && now < key.value.expires && key.value.guard == guard { key := None; }
    }
  }

  // ---- rounds of any number of processes ----

  /** A round that took the lock at `since`; `inBody` until its `finally`. */
  datatype Round = Round(since: int, inBody: bool)

  datatype State = State(key: Option<Key>, rounds: map<Guard, Round>, now: int)

  /** A round that overruns its time to live is not stopped by anything. */
  datatype Event =
    | Enter(g: Guard)               // with a fresh uuid4
    | Exit(g: Guard, raises: bool)  // its CAS delete may raise, which is swallowed
    | Die(g: Guard)
    | Tick(seconds: nat)

  predicate Enabled(s: State, e: Event) {
    match e
    case Enter(g) => g !in s.rounds
    case Exit(g, _) => g in s.rounds && s.rounds[g].inBody
    case Die(g) => g in s.rounds && s.rounds[g].inBody
    case Tick(_) => true
  }

  function Next(ttl: int, s: State, e: Event): State
    requires Enabled(s, e)
  {
    match e
    case Enter(g) =>
      if Takes(s.key, ttl, s.now)
      then s.(key := Some(Key(g, s.now + ttl)), rounds := s.rounds[g := Round(s.now, true)])
      else s.(rounds := s.rounds[g := Round(s.now, false)])
    case Exit(g, raises) =>
      s.(key := if raises then s.key else Deleted(s.key, g, s.now),
         rounds := s.rounds[g := s.rounds[g].(inBody := false)])
    case Die(g) => s.(rounds := s.rounds[g := s.rounds[g].(inBody := false)])
    case Tick(d) => s.(now := s.now + d)
  }

  predicate Runs(ttl: int, s: State, es: seq<Event>)
    decreases |es|
  {
    es == [] || (Enabled(s, es[0]) && Runs(ttl, Next(ttl, s, es[0]), es[1..]))
  }

  function Exec(ttl: int, s: State, es: seq<Event>): State
    requires Runs(ttl, s, es)
    decreases |es|
  { if es == [] then s else Exec(ttl, Next(ttl, s, es[0]), es[1..]) }

  /** In its body, and its time to live has not run out. */
  predicate Protected(s: State, ttl: int, g: Guard) {
    g in s.rounds && s.rounds[g].inBody && s.now < s.rounds[g].since + ttl
  }

  /** A protected round owns the key, which lives as long as the protection; keys name known rounds. */
  ghost predicate Inv(s: State, ttl: int) {
    && (forall g | Protected(s, ttl, g) :: s.key == Some(Key(g, s.rounds[g].since + ttl)))
    && (s.key.Some? ==> s.key.value.guard in s.rounds)
  }

  lemma NextKeepsInv(ttl: int, s: State, e: Event)
    requires Inv(s, ttl) && Enabled(s, e)
    ensures Inv(Next(ttl, s, e), ttl)
  {
    var s' := Next(ttl, s, e);
    forall g | Protected(s', ttl, g)
      ensures s'.key == Some(Key(g, s'.rounds[g].since + ttl))
    {
      if !(e.Enter? && e.g == g) { assert Protected(s, ttl, g); }
    }
  }

  lemma {:induction false} InvAlways(ttl: int, s: State, es: seq<Event>)
    requires Inv(s, ttl) && Runs(ttl, s, es)
    ensures Inv(Exec(ttl, s, es), ttl)
    decreases |es|
  {
    if es != [] {
      NextKeepsInv(ttl, s, es[0]);
      InvAlways(ttl, Next(ttl, s, es[0]), es[1..]);
    }
  }

  /** No round yet, and no key. */
  predicate Initial(s: State) { s.rounds == map[] && s.key == None }

  /** Sweep lock: in every run at most one round is in its body while its time to live lasts. */
  lemma OneRoundAtATime(ttl: int, s: State, es: seq<Event>, g: Guard, h: Guard)
    requires Initial(s) && Runs(ttl, s, es)
    requires Protected(Exec(ttl, s, es), ttl, g) && Protected(Exec(ttl, s, es), ttl, h)
    ensures g == h
  {
    InvAlways(ttl, s, es);
  }

  /** A round keeps its lock until it exits itself or its time to live is over: other rounds, earlier
      ones that overran and later ones, may come, finish and die as they like. */
  lemma {:induction false} LockLastsItsTime(ttl: int, s: State, es: seq<Event>, g: Guard)
    requires Runs(ttl, s, es) && (forall e | e in es :: !(e.Exit? && e.g == g))
    requires g in s.rounds && s.key == Some(Key(g, s.rounds[g].since + ttl))
    ensures var s' := Exec(ttl, s, es);
            && g in s'.rounds && s'.rounds[g].since == s.rounds[g].since
            && (s'.now < s'.rounds[g].since + ttl ==> s'.key == s.key)
    decreases |es|
  {
    if es != [] {
      var s1 := Next(ttl, s, es[0]);
      assert es[0] in es && forall e | e in es[1..] :: e in es;
      TimeIsMonotone(ttl, s1, es[1..]);
      if s1.key == s.key {
        LockLastsItsTime(ttl, s1, es[1..], g);
      } else {
        SinceIsFixed(ttl, s1, es[1..], g);
      }
    }
  }

  lemma {:induction false} TimeIsMonotone(ttl: int, s: State, es: seq<Event>)
    requires Runs(ttl, s, es)
    ensures s.now <= Exec(ttl, s, es).now
    decreases |es|
  {
    if es != [] { TimeIsMonotone(ttl, Next(ttl, s, es[0]), es[1..]); }
  }

  lemma {:induction false} SinceIsFixed(ttl: int, s: State, es: seq<Event>, g: Guard)
    requires Runs(ttl, s, es) && g in s.rounds
    ensures g in Exec(ttl, s, es).rounds && Exec(ttl, s, es).rounds[g].since == s.rounds[g].since
    decreases |es|
  {
    if es != [] { SinceIsFixed(ttl, Next(ttl, s, es[0]), es[1..], g); }
  }

  /** A round that overran its time to live exits without removing the lock that a later round took. */
  lemma OverrunSparesTheNext(ttl: int, s: State, es: seq<Event>, g: Guard, raises: bool)
    requires Initial(s) && Runs(ttl, s, es)
    requires Enabled(Exec(ttl, s, es), Exit(g, raises))
    requires var s' := Exec(ttl, s, es); s'.now >= s'.rounds[g].since + ttl
    ensures var s' := Exec(ttl, s, es);
            Live(Next(ttl, s', Exit(g, raises)).key, s'.now) == Live(s'.key, s'.now)
  {
    KeysNameTheirRound(ttl, s, es);
  }

  /** The key of a round expires with it. */
  lemma {:induction false} KeysNameTheirRound(ttl: int, s: State, es: seq<Event>)
    requires Runs(ttl, s, es) && KeyOk(s, ttl)
    ensures KeyOk(Exec(ttl, s, es), ttl)
    decreases |es|
  {
    if es != [] { KeysNameTheirRound(ttl, Next(ttl, s, es[0]), es[1..]); }
  }

  predicate KeyOk(s: State, ttl: int) {
    s.key.Some? ==> s.key.value.guard in s.rounds
                    && s.key.value.expires == s.rounds[s.key.value.guard].since + ttl
  }

  // ---- one body at a time, exactly ----

  /** At most one round is in its body, in time or not. */
  ghost predicate OneBody(s: State) {
    forall g, h | g in s.rounds && h in s.rounds && s.rounds[g].inBody && s.rounds[h].inBody :: g == h
  }

  /** A round takes the lock while another one, which must have overrun its time, is still in its body. */
  ghost predicate Overtakes(ttl: int, s: State, e: Event) {
    e.Enter? && Takes(s.key, ttl, s.now) && exists g | g in s.rounds :: s.rounds[g].inBody
  }

  /** One event keeps the bodies apart if and only if it does not overtake; and whoever is overtaken has
      overrun its time to live. */
  lemma OneBodyStep(ttl: int, s: State, e: Event)
    requires Inv(s, ttl) && OneBody(s) && Enabled(s, e)
    ensures OneBody(Next(ttl, s, e)) <==> !Overtakes(ttl, s, e)
    ensures Overtakes(ttl, s, e) ==>
              forall g | g in s.rounds && s.rounds[g].inBody :: s.now >= s.rounds[g].since + ttl
  {
    var s' := Next(ttl, s, e);
    if Overtakes(ttl, s, e) {
      var g :| g in s.rounds && s.rounds[g].inBody;
      assert s'.rounds[g].inBody && s'.rounds[e.g].inBody && g != e.g;
      forall h | h in s.rounds && s.rounds[h].inBody
        ensures s.now >= s.rounds[h].since + ttl
      {
        if s.now < s.rounds[h].since + ttl { assert Protected(s, ttl, h); }
      }
    }
  }

  ghost predicate OneBodyThroughout(ttl: int, s: State, es: seq<Event>)
    requires Runs(ttl, s, es)
    decreases |es|
  { OneBody(s) && (es != [] ==> OneBodyThroughout(ttl, Next(ttl, s, es[0]), es[1..])) }

  ghost predicate NeverOvertaken(ttl: int, s: State, es: seq<Event>)
    requires Runs(ttl, s, es)
    decreases |es|
  { es != [] ==> !Overtakes(ttl, s, es[0]) && NeverOvertaken(ttl, Next(ttl, s, es[0]), es[1..]) }

  lemma {:induction false} OneBodyFrom(ttl: int, s: State, es: seq<Event>)
    requires Inv(s, ttl) && OneBody(s) && Runs(ttl, s, es)
    ensures OneBodyThroughout(ttl, s, es) <==> NeverOvertaken(ttl, s, es)
    decreases |es|
  {
    if es != [] {
      OneBodyStep(ttl, s, es[0]);
      if !Overtakes(ttl, s, es[0]) {
        NextKeepsInv(ttl, s, es[0]);
        OneBodyFrom(ttl, Next(ttl, s, es[0]), es[1..]);
      }
    }
  }

  /** Sweep lock, exactly: over a run at most one round is ever in its body if and only if no round takes
      the lock while one that has overrun its time to live is still in its body. */
  lemma OneBodyExactly(ttl: int, s: State, es: seq<Event>)
    requires Initial(s) && Runs(ttl, s, es)
    ensures OneBodyThroughout(ttl, s, es) <==> NeverOvertaken(ttl, s, es)
  {
    OneBodyFrom(ttl, s, es);
  }

  /** The time to live is all the protection there is: a round that needs longer overlaps the next. */
  lemma OverrunOverlaps(ttl: int, g: Guard, h: Guard, t0: int)
    requires ttl > 0 && g != h
    ensures var s := State(None, map[], t0); var es := [Enter(g), Tick(ttl), Enter(h)];
            && Runs(ttl, s, es)
            && var s' := Exec(ttl, s, es);
            && g in s'.rounds && s'.rounds[g].inBody && Protected(s', ttl, h)
  {
    var s := State(None, map[], t0);
    var es := [Enter(g), Tick(ttl), Enter(h)];
    var s1 := Next(ttl, s, es[0]);
    var s2 := Next(ttl, s1, es[1]);
    var s3 := Next(ttl, s2, es[2]);
    assert es[2..][0] == es[2] && es[2..][1..] == [];
    assert Runs(ttl, s3, []) && Exec(ttl, s3, []) == s3;
    assert Runs(ttl, s2, es[2..]) && Exec(ttl, s2, es[2..]) == s3;
    assert es[1..][0] == es[1] && es[1..][1..] == es[2..];
    assert Runs(ttl, s1, es[1..]) && Exec(ttl, s1, es[1..]) == s3;
  }
}
