/** The circuit breaker of an upstream host (app/services/upstream.py): a Redis counter that a success
    deletes and a failure raises and gives a new time to live. */
module Upstream {
  import opened Wrappers

  type Host = string

  type Positive = n: int | n > 0 witness 1

  /** A counter key; from `expires` on Redis no longer has it. */
  datatype Entry = Entry(failures: Positive, expires: int)

  /** GET at time `now`. */
  function Live(e: Option<Entry>, now: int): nat {
    if e.Some? && now < e.value.expires then e.value.failures else 0
  }

  /** DEL on success; on failure INCR, which starts again at 0 if the key has expired, and EXPIRE,
      which deletes the key when the window is not positive. */
  function Reported(e: Option<Entry>, ok: bool, now: int, window: int): Option<Entry> {
    if ok || window <= 0 then None else Some(Entry(Live(e, now) + 1, now + window))
  }

  function Lookup(keys: map<Host, Entry>, h: Host): Option<Entry> {
    if h in keys then Some(keys[h]) else None
  }

  class Breaker {
    var keys: map<Host, Entry>

    constructor ()
      ensures keys == map[]
    { keys := map[]; }

    /** `breaker_guard`: refuse from `threshold` failures on -- but never without a failure on record,
        whatever the threshold. */
    method Guard(host: Host, threshold: int, now: int) returns (refused: bool)
      ensures refused <==> Refuses(Lookup(keys, host), threshold, now)
    {
      var failures := if host in keys && now < keys[host].expires then Some(keys[host].failures) else None;
      refused := failures.Some? && failures.value >= threshold;
    }

    /** `breaker_report` */
    method Report(host: Host, ok: bool, now: int, window: int)
      modifies this
      ensures Lookup(keys, host) == Reported(old(Lookup(keys, host)), ok, now, window)
      ensures forall h | h != host :: Lookup(keys, h) == old(Lookup(keys, h))
    {
      if ok {
        keys := keys - {host};
      } else {
        var n := if host in keys && now < keys[host].expires then keys[host].failures + 1 else 1;
        keys := if window <= 0 then keys - {host} else keys[host := Entry(n, now + window)];
      }
    }
  }

  predicate Refuses(e: Option<Entry>, threshold: int, now: int) {
    Live(e, now) >= if threshold < 1 then 1 else threshold
  }

  // ---- any sequence of reports ----

  datatype Report = Report(host: Host, ok: bool, at: int)

  predicate Ordered(rs: seq<Report>) { forall i, j | 0 <= i < j < |rs| :: rs[i].at <= rs[j].at }

  /** The key of `h` after `rs`, reported to any hosts. */
  function After(rs: seq<Report>, h: Host, window: int): Option<Entry> {
    if rs == [] then None
    else
      var last := rs[|rs| - 1];
      var before := After(rs[..|rs| - 1], h, window);
      if last.host == h then Reported(before, last.ok, last.at, window) else before
  }

  /** The reports of one host. */
  function Of(rs: seq<Report>, h: Host): (own: seq<Report>)
    ensures forall r | r in own :: r in rs && r.host == h
  {
    if rs == [] then []
    else Of(rs[..|rs| - 1], h) + if rs[|rs| - 1].host == h then [rs[|rs| - 1]] else []
  }

  lemma {:induction false} OfIsOrdered(rs: seq<Report>, h: Host)
    requires Ordered(rs)
    ensures Ordered(Of(rs, h))
  {
    if rs != [] {
      var init, last := rs[..|rs| - 1], rs[|rs| - 1];
      OfIsOrdered(init, h);
      assert forall i | 0 <= i < |init| :: init[i].at <= last.at;
      assert forall r | r in Of(init, h) :: r.at <= last.at;
      Appended(Of(init, h), last);
    }
  }

  lemma Appended(rs: seq<Report>, last: Report)
    requires Ordered(rs) && forall r | r in rs :: r.at <= last.at
    ensures Ordered(rs + [last])
  {
    forall i, j | 0 <= i < j < |rs + [last]|
      ensures (rs + [last])[i].at <= (rs + [last])[j].at
    {
      assert rs[i] in rs;
    }
  }

  /** Hosts do not disturb each other. */
  lemma {:induction false} HostsAreSeparate(rs: seq<Report>, h: Host, window: int)
    ensures After(rs, h, window) == After(Of(rs, h), h, window)
  {
    if rs != [] {
      var init, last := rs[..|rs| - 1], rs[|rs| - 1];
      HostsAreSeparate(init, h, window);
      if last.host == h { AfterOne(Of(init, h), last, window); } else { assert Of(rs, h) == Of(init, h); }
    }
  }

  lemma AfterOne(rs: seq<Report>, last: Report, window: int)
    ensures After(rs + [last], last.host, window)
            == Reported(After(rs, last.host, window), last.ok, last.at, window)
  {
    assert (rs + [last])[..|rs + [last]| - 1] == rs;
  }

  /** The last `k` reports failed, each less than a window before the next one or, for the last of
      them, before `now`. */
  predicate Streak(rs: seq<Report>, window: int, now: int, k: nat) {
    k <= |rs| && forall i | |rs| - k <= i < |rs| :: !rs[i].ok && Gap(rs, now, i) < window
  }

  /** The time from report `i` to the next one, or to `now`. */
  function Gap(rs: seq<Report>, now: int, i: nat): int
    requires i < |rs|
  { (if i == |rs| - 1 then now else rs[i + 1].at) - rs[i].at }

  lemma {:induction false} CounterOfOwnReports(rs: seq<Report>, h: Host, window: int, now: int, k: nat)
    requires Ordered(rs) && (forall r | r in rs :: r.host == h && r.at <= now)
    ensures k <= Live(After(rs, h, window), now) <==> Streak(rs, window, now, k)
  {
    if rs != [] && k > 0 {
      var init, last := rs[..|rs| - 1], rs[|rs| - 1];
      assert last in rs && forall r | r in init :: r in rs && r.at <= last.at;
      CounterOfOwnReports(init, h, window, last.at, k - 1);
      StreakGrows(init, last, window, now, k);
      assert init + [last] == rs;
    }
  }

  /** A streak of `k` is a failing last report, not too long ago, after a streak of `k - 1`. */
  lemma StreakGrows(init: seq<Report>, last: Report, window: int, now: int, k: nat)
    requires k > 0
    ensures Streak(init + [last], window, now, k)
            <==> !last.ok && now - last.at < window && Streak(init, window, last.at, k - 1)
  {
    var rs := init + [last];
    assert rs[|init|] == last && Gap(rs, now, |init|) == now - last.at;
    forall i | 0 <= i < |init|
      ensures rs[i] == init[i] && Gap(rs, now, i) == Gap(init, last.at, i)
    {}
    if Streak(rs, window, now, k) {
      forall i | |init| - (k - 1) <= i < |init|
        ensures !init[i].ok && Gap(init, last.at, i) < window
      {
        assert !rs[i].ok && Gap(rs, now, i) < window;
      }
    }
  }

  /** Breaker refinement: after any reports, to any hosts, the counter of a host is at least `k` exactly
      when its own last `k` reports failed with gaps, up to now, below the window. */
  lemma CounterIsTheStreak(rs: seq<Report>, h: Host, window: int, now: int, k: nat)
    requires Ordered(rs) && forall r | r in rs :: r.at <= now
    ensures k <= Live(After(rs, h, window), now) <==> Streak(Of(rs, h), window, now, k)
  {
    HostsAreSeparate(rs, h, window);
    OfIsOrdered(rs, h);
    CounterOfOwnReports(Of(rs, h), h, window, now, k);
  }

  /** The guard refuses exactly after a long enough streak. */
  lemma RefusesAfterStreak(rs: seq<Report>, h: Host, threshold: int, window: int, now: int)
    requires Ordered(rs) && forall r | r in rs :: r.at <= now
    ensures Refuses(After(rs, h, window), threshold, now)
            <==> Streak(Of(rs, h), window, now, if threshold < 1 then 1 else threshold)
  {
    CounterIsTheStreak(rs, h, window, now, if threshold < 1 then 1 else threshold);
  }

  /** A breaker that opened with a report stays open, if none follows, until exactly one window after
      it: reports that other hosts get meanwhile do not matter. */
  lemma OpenForOneWindow(rs: seq<Report>, last: Report, others: seq<Report>, threshold: int, window: int, now: int)
    requires forall r | r in others :: r.host != last.host
    requires Refuses(After(rs + [last], last.host, window), threshold, last.at) && now >= last.at
    ensures Refuses(After(rs + [last] + others, last.host, window), threshold, now) <==> now < last.at + window
  {
    OthersChangeNothing(rs + [last], others, last.host, window);
    AfterOne(rs, last, window);
  }

  lemma {:induction false} OthersChangeNothing(rs: seq<Report>, others: seq<Report>, h: Host, window: int)
    requires forall r | r in others :: r.host != h
    ensures After(rs + others, h, window) == After(rs, h, window)
    decreases |others|
  {
    if others == [] {
      assert rs + others == rs;
    } else {
      var n := |others| - 1;
      assert (rs + others)[..|rs + others| - 1] == rs + others[..n];
      assert others[n] in others;
      OthersChangeNothing(rs, others[..n], h, window);
    }
  }
}
