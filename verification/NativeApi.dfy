/** Rewriting upstream ids to local ids in bodies (app/services/nativeapi.py), and the shape of local
    ids (app/services/ids.py) that makes it reversible. */
module NativeApi {

  type Byte = n: nat | n < 256
  type Bytes = seq<Byte>

  // ---- bytes.replace ----

  predicate StartsWith(b: Bytes, f: Bytes) { |f| <= |b| && b[..|f|] == f }

  predicate Occurs(f: Bytes, b: Bytes) {
    exists i | 0 <= i <= |b| :: StartsWith(b[i..], f)
  }

  /** Every occurrence of `f`, from the left and without overlaps, becomes `t`. */
  function Replace(b: Bytes, f: Bytes, t: Bytes): Bytes
    requires f != []
  {
    if |b| < |f| then b
    else if StartsWith(b, f) then t + Replace(b[|f|..], f, t)
    else [b[0]] + Replace(b[1..], f, t)
  }

  /** `rewrite_ids`; ids are given by their UTF-8 form. */
  function RewriteIds(body: Bytes, from: Bytes, to: Bytes): Bytes {
    if body == [] || from == [] || to == [] || from == to then body else Replace(body, from, to)
  }

  /** The stretches of a body between the occurrences that are replaced. */
  function Pieces(b: Bytes, f: Bytes): (ps: seq<Bytes>)
    requires f != []
    ensures ps != []
  {
    if |b| < |f| then [b]
    else if StartsWith(b, f) then [[]] + Pieces(b[|f|..], f)
    else var ps := Pieces(b[1..], f); [[b[0]] + ps[0]] + ps[1..]
  }

  function Join(ps: seq<Bytes>, sep: Bytes): Bytes
    requires ps != []
  { if |ps| == 1 then ps[0] else ps[0] + sep + Join(ps[1..], sep) }

  lemma PrependToJoin(x: Byte, ps: seq<Bytes>, sep: Bytes)
    requires ps != []
    ensures Join([[x] + ps[0]] + ps[1..], sep) == [x] + Join(ps, sep)
  {
    var qs := [[x] + ps[0]] + ps[1..];
    assert qs[1..] == ps[1..];
    if |ps| > 1 {
      assert ([x] + ps[0]) + sep + Join(ps[1..], sep) == [x] + (ps[0] + sep + Join(ps[1..], sep));
    }
  }

  /** Joined by what replaces `f` the pieces are the rewritten body. */
  lemma {:induction false} JoinReplaced(b: Bytes, f: Bytes, t: Bytes)
    requires f != []
    ensures Join(Pieces(b, f), t) == Replace(b, f, t)
    decreases |b|
  {
    if |b| < |f| {
    } else if StartsWith(b, f) {
      JoinReplaced(b[|f|..], f, t);
      var ps := Pieces(b[|f|..], f);
      assert ([[]] + ps)[1..] == ps;
      assert [] + t + Join(ps, t) == t + Join(ps, t);
    } else {
      JoinReplaced(b[1..], f, t);
      PrependToJoin(b[0], Pieces(b[1..], f), t);
    }
  }

  /** Replacing `f` by itself changes nothing, so joined by `f` the pieces are the body. */
  lemma {:induction false} JoinBack(b: Bytes, f: Bytes)
    requires f != []
    ensures Replace(b, f, f) == b == Join(Pieces(b, f), f)
    decreases |b|
  {
    JoinReplaced(b, f, f);
    if |b| < |f| {
    } else if StartsWith(b, f) {
      JoinBack(b[|f|..], f);
      assert b == f + b[|f|..];
    } else {
      JoinBack(b[1..], f);
    }
  }

  lemma OccursInTail(l: Bytes, b: Bytes, k: nat)
    requires k <= |b| && Occurs(l, b[k..])
    ensures Occurs(l, b)
  {
    var i :| 0 <= i <= |b[k..]| && StartsWith(b[k..][i..], l);
    assert b[k..][i..] == b[k + i..];
  }

  lemma OccursInPrefix(l: Bytes, b: Bytes, n: nat)
    requires n <= |b| && Occurs(l, b[..n])
    ensures Occurs(l, b)
  {
    var i :| 0 <= i <= n && StartsWith(b[..n][i..], l);
    assert b[..n][i..][..|l|] == b[i..][..|l|];
    assert StartsWith(b[i..], l);
  }

  lemma {:induction false} FirstPieceIsPrefix(b: Bytes, f: Bytes)
    requires f != []
    ensures StartsWith(b, Pieces(b, f)[0])
    decreases |b|
  {
    if |f| <= |b| && !StartsWith(b, f) {
      FirstPieceIsPrefix(b[1..], f);
      var p := Pieces(b[1..], f)[0];
      assert b[..|p| + 1] == [b[0]] + b[1..][..|p|];
    }
  }

  /** A piece is a stretch of the body. */
  lemma {:induction false} PiecesOccur(b: Bytes, f: Bytes, l: Bytes, p: Bytes)
    requires f != [] && l != [] && p in Pieces(b, f) && Occurs(l, p)
    ensures Occurs(l, b)
    decreases |b|
  {
    if |b| < |f| {
    } else if StartsWith(b, f) {
      PiecesOccur(b[|f|..], f, l, p);
      OccursInTail(l, b, |f|);
    } else {
      var ps := Pieces(b[1..], f);
      if p == [b[0]] + ps[0] {
        FirstPieceIsPrefix(b, f);
        assert p == b[..|p|];
        OccursInPrefix(l, b, |p|);
      } else {
        PiecesOccur(b[1..], f, l, p);
        OccursInTail(l, b, 1);
      }
    }
  }

  // ---- replacement changes exactly what contains the pattern ----

  lemma {:induction false} LengthMoves(b: Bytes, f: Bytes, t: Bytes)
    requires f != []
    ensures |f| <= |t| ==> |b| <= |Replace(b, f, t)|
    ensures |t| <= |f| ==> |Replace(b, f, t)| <= |b|
    decreases |b|
  {
    if |b| < |f| {
    } else if StartsWith(b, f) {
      LengthMoves(b[|f|..], f, t);
    } else {
      LengthMoves(b[1..], f, t);
    }
  }

  lemma NotInside(b: Bytes, f: Bytes)
    requires f != [] && !StartsWith(b, f) && Occurs(f, b)
    ensures b != [] && Occurs(f, b[1..])
  {
    assert b[0..] == b;
    var i :| 0 <= i <= |b| && StartsWith(b[i..], f);
    assert i > 0 && b[1..][i - 1..] == b[i..];
  }

  lemma {:induction false} ChangedIffOccurs(b: Bytes, f: Bytes, t: Bytes)
    requires f != [] && f != t
    ensures Replace(b, f, t) != b <==> Occurs(f, b)
    decreases |b|
  {
    if |b| < |f| {
    } else if StartsWith(b, f) {
      assert b[0..] == b;
      LengthMoves(b[|f|..], f, t);
      assert Replace(b, f, t)[..|t|] == t && b[..|f|] == f;
    } else {
      ChangedIffOccurs(b[1..], f, t);
      if Occurs(f, b) { NotInside(b, f); }
      if Occurs(f, b[1..]) { OccursInTail(f, b, 1); }
      assert b == [b[0]] + b[1..];
      assert Replace(b, f, t)[1..] == Replace(b[1..], f, t);
    }
  }

  // ---- planted ids ----

  /** The first byte of `l` occurs nowhere else in it: an occurrence cannot overlap another one. */
  predicate Marked(l: Bytes) { l != [] && forall i | 1 <= i < |l| :: l[i] != l[0] }

  /** Where `l` does not start in a stretch, it does not start across the `l` planted after it. */
  lemma NoFalseStart(p: Bytes, l: Bytes, rest: Bytes)
    requires Marked(l) && p != [] && !StartsWith(p, l)
    ensures !StartsWith(p + l + rest, l)
  {
    var w := p + l + rest;
    assert w[|p|] == l[0];
    if |l| <= |p| {
      assert w[..|l|] == p[..|l|];
    } else {
      assert w[..|l|][|p|] == w[|p|] && l[|p|] != l[0];
    }
  }

  /** Replacing the ids planted between two stretches leaves the stretches to themselves. */
  lemma {:induction false} NoStraddling(p: Bytes, l: Bytes, rest: Bytes, u: Bytes)
    requires Marked(l)
    ensures Replace(p + l + rest, l, u) == Replace(p, l, u) + u + Replace(rest, l, u)
    decreases |p|
  {
    var w := p + l + rest;
    if p == [] {
      assert w == l + rest && w[|l|..] == rest;
    } else if StartsWith(p, l) {
      assert w[..|l|] == p[..|l|];
      NoStraddling(p[|l|..], l, rest, u);
      Peel(p, |l|, l, rest);
      Regroup(u, Replace(p[|l|..], l, u), u, Replace(rest, l, u));
    } else {
      NoFalseStart(p, l, rest);
      ShortIsKept(p, l, u);
      ShortIsKept(w, l, u);
      NoStraddling(p[1..], l, rest, u);
      Peel(p, 1, l, rest);
      Regroup([p[0]], Replace(p[1..], l, u), u, Replace(rest, l, u));
    }
  }

  lemma Peel(p: Bytes, k: nat, l: Bytes, rest: Bytes)
    requires k <= |p|
    ensures (p + l + rest)[k..] == p[k..] + l + rest
  {
  }

  lemma Regroup(a: Bytes, b: Bytes, c: Bytes, d: Bytes)
    ensures a + (b + c + d) == (a + b) + c + d
  {
  }

  /** One byte further, where the pattern does not start. */
  lemma ShortIsKept(p: Bytes, l: Bytes, u: Bytes)
    requires l != [] && p != [] && !StartsWith(p, l)
    ensures Replace(p, l, u) == [p[0]] + Replace(p[1..], l, u)
  {
    assert p == [p[0]] + p[1..];
  }

  function Rewritten(ps: seq<Bytes>, l: Bytes, u: Bytes): (qs: seq<Bytes>)
    requires l != []
    ensures |qs| == |ps| && forall i | 0 <= i < |ps| :: qs[i] == Replace(ps[i], l, u)
  { seq(|ps|, i requires 0 <= i < |ps| => Replace(ps[i], l, u)) }

  lemma {:induction false} PlantedAreFound(ps: seq<Bytes>, l: Bytes, u: Bytes)
    requires Marked(l) && ps != []
    ensures Replace(Join(ps, l), l, u) == Join(Rewritten(ps, l, u), u)
    decreases |ps|
  {
    if |ps| > 1 {
      NoStraddling(ps[0], l, Join(ps[1..], l), u);
      PlantedAreFound(ps[1..], l, u);
      assert Rewritten(ps, l, u)[1..] == Rewritten(ps[1..], l, u);
    }
  }

  /** Joined with the same separator, pieces that are all at least as long give the same only if they
      are the same. */
  lemma {:induction false} LongerPieces(ps: seq<Bytes>, qs: seq<Bytes>, sep: Bytes)
    requires ps != [] && |qs| == |ps| && forall i | 0 <= i < |ps| :: |ps[i]| <= |qs[i]|
    ensures |Join(ps, sep)| <= |Join(qs, sep)|
    ensures Join(ps, sep) == Join(qs, sep) ==> ps == qs
    decreases |ps|
  {
    if |ps| > 1 {
      LongerPieces(ps[1..], qs[1..], sep);
      var p, q := Join(ps, sep), Join(qs, sep);
      if p == q {
        assert |ps[0]| == |qs[0]|;
        assert p[..|ps[0]|] == ps[0] && q[..|qs[0]|] == qs[0];
        var k := |ps[0]| + |sep|;
        assert p[k..] == Join(ps[1..], sep) && q[k..] == Join(qs[1..], sep);
        assert ps == [ps[0]] + ps[1..] && qs == [qs[0]] + qs[1..];
      }
    }
  }

  /** Rewrite round trip, exactly: rewriting upstream ids to a marked local id and back gives the
      original bytes if and only if no stretch of the body between two upstream ids contains the local
      id. */
  lemma RoundTripExactly(body: Bytes, u: Bytes, l: Bytes)
    requires u != [] && Marked(l) && u != l
    ensures RewriteIds(RewriteIds(body, u, l), l, u) == body
            <==> forall p | p in Pieces(body, u) :: !Occurs(l, p)
  {
    var ps := Pieces(body, u);
    JoinReplaced(body, u, l);
    JoinBack(body, u);
    PlantedAreFound(ps, l, u);
    var qs := Rewritten(ps, l, u);
    forall i | 0 <= i < |ps|
      ensures qs[i] != ps[i] <==> Occurs(l, ps[i])
      ensures |l| <= |u| ==> |ps[i]| <= |qs[i]|
      ensures |u| <= |l| ==> |qs[i]| <= |ps[i]|
    {
      ChangedIffOccurs(ps[i], l, u);
      LengthMoves(ps[i], l, u);
    }
    if |l| <= |u| { LongerPieces(ps, qs, u); } else { LongerPieces(qs, ps, u); }
    assert Join(qs, u) == Join(ps, u) <==> qs == ps;
    assert RewriteIds(RewriteIds(body, u, l), l, u) == Replace(Replace(body, u, l), l, u);
  }
}
