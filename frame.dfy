/**
  What one animation frame draws.  The canvas calls become a list of draw
  records: a circle for each particle after it moved, and a line for each
  pair of particles closer than the link distance.  Particle i, already
  moved, is compared with the particles after it, which have not moved yet
  in this frame.  The square root the distance needs is a parameter.
 */
module Frame {
  import opened Physics

  /** The records of the drawing calls of one frame. */
  datatype DrawCall =
    | Circle(index: nat, x: real, y: real, radius: real)
    | Line(from: nat, to: nat, opacity: real)

  /** Lines are drawn between particles closer than this many pixels. */
  const LinkDistance: real := 150.0

  /** The opacity of a line between two particles at the same place. */
  const MaxLinkOpacity: real := 0.2

  /** `root` is a square root on the non-negative reals. */
  ghost predicate IsSqrt(root: real -> real)
  {
    forall q :: 0.0 <= q ==> 0.0 <= root(q) && root(q) * root(q) == q
  }

  /** The opacity of a line between particles at distance d: it fades
      linearly from 0.2 at distance 0 to 0 at the link distance. */
  function Opacity(d: real): real
  {
    0.2 * (1.0 - d / 150.0)
  }

  /** Below the link distance a line is visible and at most 0.2 opaque; it
      is exactly 0.2 at distance 0 and would vanish at the link distance. */
  lemma OpacityRange(d: real)
    ensures 0.0 <= d < LinkDistance ==> 0.0 < Opacity(d) <= MaxLinkOpacity
    ensures Opacity(0.0) == MaxLinkOpacity
    ensures Opacity(LinkDistance) == 0.0
  {
  }

  /** The farther apart, the fainter the line. */
  lemma OpacityDecreasing(d1: real, d2: real)
    requires d1 < d2
    ensures Opacity(d2) < Opacity(d1)
  {
  }

  function SquaredDistance(p: Particle, other: Particle): real
  {
    var dx := p.x - other.x;
    var dy := p.y - other.y;
    dx * dx + dy * dy
  }

  /** The check of particle i (at p) against particle j (at other): one line
      record when they are closer than the link distance, else nothing. */
  function Link(i: nat, j: nat, p: Particle, other: Particle, root: real -> real): seq<DrawCall>
  {
    var distance := root(SquaredDistance(p, other));
    if distance < LinkDistance then [Line(i, j, Opacity(distance))] else []
  }

  lemma ProductNonNegative(a: real, b: real)
    requires 0.0 <= a && 0.0 <= b
    ensures 0.0 <= a * b
  {
  }

  /** For a non-negative distance, comparing it with 150 is comparing its
      square with 22500. */
  lemma SquareBelow(d: real)
    requires 0.0 <= d
    ensures d < LinkDistance <==> d * d < 22500.0
  {
    if d < LinkDistance {
      ProductNonNegative(d, 150.0 - d);
      assert d * (150.0 - d) == d * 150.0 - d * d;
      assert d * d <= d * 150.0;
      assert d * 150.0 < 22500.0;
    } else {
      ProductNonNegative(d, d - 150.0);
      assert d * (d - 150.0) == d * d - d * 150.0;
    }
  }

  /** With a true square root, a line is drawn exactly when the squared
      distance is below 150 * 150, and its opacity is then in (0, 0.2]. */
  lemma LinkIff(i: nat, j: nat, p: Particle, other: Particle, root: real -> real)
    requires IsSqrt(root)
    ensures Link(i, j, p, other, root) != [] <==> SquaredDistance(p, other) < 22500.0
    ensures Link(i, j, p, other, root) == [] || exists o :: 0.0 < o <= MaxLinkOpacity && Link(i, j, p, other, root) == [Line(i, j, o)]
  {
    var dx := p.x - other.x;
    var dy := p.y - other.y;
    assert 0.0 <= dx * dx && 0.0 <= dy * dy;
    var q := SquaredDistance(p, other);
    assert 0.0 <= q;
    var d := root(q);
    assert 0.0 <= d && d * d == q;
    SquareBelow(d);
    OpacityRange(d);
    assert d < LinkDistance <==> q < 22500.0;
  }

  /** The checks of particle i, at p, against the k particles after it,
      which `others` holds from index `start` on: others[start + m] is
      particle i + 1 + m. */
  function Links(i: nat, p: Particle, others: seq<Particle>, start: nat, k: nat, root: real -> real): seq<DrawCall>
    requires start + k <= |others|
  {
    if k == 0 then [] else Links(i, p, others, start, k - 1, root) + Link(i, i + k, p, others[start + k - 1], root)
  }

  /** Checking against a slice from `start` is checking against the list
      from `start` on. */
  lemma {:induction false} LinksSlice(i: nat, p: Particle, ps: seq<Particle>, start: nat, k: nat, root: real -> real)
    requires start + k <= |ps|
    ensures Links(i, p, ps[start..], 0, k, root) == Links(i, p, ps, start, k, root)
  {
    if k > 0 {
      LinksSlice(i, p, ps, start, k - 1, root);
      assert ps[start..][k - 1] == ps[start + k - 1];
    }
  }

  /** The draw records of particle j in a frame that found the list ps:
      its circle at its new position, then the lines from its checks
      against the particles after it, which are still at their old
      positions. */
  function Block(ps: seq<Particle>, j: nat, width: nat, height: nat, root: real -> real): seq<DrawCall>
    requires j < |ps|
  {
    [CircleOf(ps, j, width, height)] + Links(j, StepParticle(ps[j], width, height), ps, j + 1, |ps| - j - 1, root)
  }

  /** The circle of particle j, drawn at its new position. */
  function CircleOf(ps: seq<Particle>, j: nat, width: nat, height: nat): (c: DrawCall)
    requires j < |ps|
    ensures c.Circle? && c.index == j
  {
    var q := StepParticle(ps[j], width, height);
    Circle(j, q.x, q.y, q.radius)
  }

  /** Particle i's circle followed by the lines of its checks: its records. */
  lemma BlockOf(ps: seq<Particle>, i: nat, width: nat, height: nat, root: real -> real,
                circle: DrawCall, lines: seq<DrawCall>)
    requires i < |ps|
    requires circle == CircleOf(ps, i, width, height)
    requires lines == Links(i, StepParticle(ps[i], width, height), ps, i + 1, |ps| - i - 1, root)
    ensures [circle] + lines == Block(ps, i, width, height, root)
  {
  }

  /** The draw records of the first i particles of a frame that found the
      list ps. */
  function FrameUpTo(ps: seq<Particle>, i: nat, width: nat, height: nat, root: real -> real): seq<DrawCall>
    requires i <= |ps|
  {
    if i == 0 then [] else FrameUpTo(ps, i - 1, width, height, root) + Block(ps, i - 1, width, height, root)
  }

  /** The concatenation of a list of record blocks. */
  function Flatten(blocks: seq<seq<DrawCall>>): seq<DrawCall>
  {
    if blocks == [] then [] else Flatten(blocks[..|blocks| - 1]) + blocks[|blocks| - 1]
  }

  /** A record that no block but block `owner` holds is in the
      concatenation exactly when that block holds it. */
  lemma {:induction false} FlattenMember(blocks: seq<seq<DrawCall>>, c: DrawCall, owner: nat)
    requires forall j :: 0 <= j < |blocks| && j != owner ==> c !in blocks[j]
    ensures c in Flatten(blocks) <==> owner < |blocks| && c in blocks[owner]
  {
    if blocks != [] {
      var n := |blocks| - 1;
      FlattenMember(blocks[..n], c, owner);
    }
  }

  /** The record blocks of the first i particles. */
  function Blocks(ps: seq<Particle>, i: nat, width: nat, height: nat, root: real -> real): (blocks: seq<seq<DrawCall>>)
    requires i <= |ps|
    ensures |blocks| == i
    ensures forall j :: 0 <= j < i ==> blocks[j] == Block(ps, j, width, height, root)
  {
    seq(i, j requires 0 <= j < i => Block(ps, j, width, height, root))
  }

  /** A frame's records so far are the blocks of the particles visited. */
  lemma {:induction false} FrameUpToFlatten(ps: seq<Particle>, i: nat, width: nat, height: nat, root: real -> real)
    requires i <= |ps|
    ensures FrameUpTo(ps, i, width, height, root) == Flatten(Blocks(ps, i, width, height, root))
  {
    if i > 0 {
      FrameUpToFlatten(ps, i - 1, width, height, root);
      assert Blocks(ps, i, width, height, root)[..i - 1] == Blocks(ps, i - 1, width, height, root);
    }
  }

  /** All draw records of a frame that starts from the list ps. */
  function FrameCalls(ps: seq<Particle>, width: nat, height: nat, root: real -> real): seq<DrawCall>
  {
    FrameUpTo(ps, |ps|, width, height, root)
  }

  /** The particle list at the end of a frame. */
  function StepAll(ps: seq<Particle>, width: nat, height: nat): (qs: seq<Particle>)
    ensures |qs| == |ps|
  {
    seq(|ps|, k requires 0 <= k < |ps| => StepParticle(ps[k], width, height))
  }

  /** The list part-way through a frame: the first i particles have moved,
      the rest are as the frame found them. */
  function Moved(ps: seq<Particle>, i: nat, width: nat, height: nat): seq<Particle>
    requires i <= |ps|
  {
    StepAll(ps[..i], width, height) + ps[i..]
  }

  /** Moving particle i advances the part-way list by one; before that it,
      and every particle after it, is still as the frame found it. */
  lemma MovedNext(ps: seq<Particle>, i: nat, width: nat, height: nat)
    requires i < |ps|
    ensures Moved(ps, i, width, height)[i] == ps[i]
    ensures Moved(ps, i, width, height)[i := StepParticle(ps[i], width, height)] == Moved(ps, i + 1, width, height)
    ensures Moved(ps, i + 1, width, height)[i + 1..] == ps[i + 1..]
  {
    var m := Moved(ps, i, width, height);
    var m' := m[i := StepParticle(ps[i], width, height)];
    var next := Moved(ps, i + 1, width, height);
    assert |m'| == |next|;
    forall k | 0 <= k < |m'|
      ensures m'[k] == next[k]
    {
      if k < i {
        assert m'[k] == StepAll(ps[..i], width, height)[k];
      }
    }
    assert next[i + 1..] == ps[i + 1..];
  }

  lemma MovedEnds(ps: seq<Particle>, width: nat, height: nat)
    ensures Moved(ps, 0, width, height) == ps
    ensures Moved(ps, |ps|, width, height) == StepAll(ps, width, height)
  {
    assert ps[..|ps|] == ps;
  }

  /** A frame keeps every contained particle contained. */
  lemma StepAllPreservesContained(ps: seq<Particle>, width: nat, height: nat)
    requires AllContained(ps, width, height)
    ensures AllContained(StepAll(ps, width, height), width, height)
  {
    forall k | 0 <= k < |ps|
      ensures Contained(StepAll(ps, width, height)[k], width, height)
    {
      StepPreservesContained(ps[k], width, height);
    }
  }

  // ---------------------------------------------------------------------
  // The pairs a frame checks

  /** The first k checks of particle i: (i, i + 1), ..., (i, i + k). */
  function Row(i: nat, k: nat): (row: seq<(nat, nat)>)
    ensures |row| == k
    ensures forall m :: 0 <= m < k ==> row[m] == (i, i + 1 + m)
  {
    if k == 0 then [] else Row(i, k - 1) + [(i, i + k)]
  }

  /** The checks made for the first i of n particles. */
  function PairsUpTo(n: nat, i: nat): seq<(nat, nat)>
    requires i <= n
  {
    if i == 0 then [] else PairsUpTo(n, i - 1) + Row(i - 1, n - i)
  }

  /** Appending particle i's row to the checks of the particles before it
      gives the checks of the first i + 1. */
  lemma PairsUpToAppend(n: nat, i: nat, checks: seq<(nat, nat)>, row: seq<(nat, nat)>)
    requires i < n
    requires checks == PairsUpTo(n, i) && row == Row(i, n - i - 1)
    ensures checks + row == PairsUpTo(n, i + 1)
  {
  }

  /** The pairs checked by one frame over n particles, in checking order. */
  function Pairs(n: nat): seq<(nat, nat)>
  {
    PairsUpTo(n, n)
  }

  /** Lexicographic order of pairs: the order in which they are checked. */
  predicate Before(a: (nat, nat), b: (nat, nat))
  {
    a.0 < b.0 || (a.0 == b.0 && a.1 < b.1)
  }

  lemma {:induction false} PairsUpToCount(n: nat, i: nat)
    requires i <= n
    ensures 2 * |PairsUpTo(n, i)| == i * (2 * n - i - 1)
  {
    if i > 0 {
      PairsUpToCount(n, i - 1);
      var t := i * (2 * n - i);
      assert (i - 1) * (2 * n - i) == t - (2 * n - i);
      assert i * (2 * n - i - 1) == t - i;
    }
  }

  /** A frame over n particles makes n * (n - 1) / 2 connection checks. */
  lemma PairsCount(n: nat)
    ensures |Pairs(n)| == n * (n - 1) / 2
  {
    PairsUpToCount(n, n);
  }

  lemma RowMembers(i: nat, k: nat, a: nat, b: nat)
    ensures (a, b) in Row(i, k) <==> a == i && i < b <= i + k
  {
    if a == i && i < b <= i + k {
      assert Row(i, k)[b - i - 1] == (a, b);
    }
  }

  lemma {:induction false} PairsUpToMembers(n: nat, i: nat, a: nat, b: nat)
    requires i <= n
    ensures (a, b) in PairsUpTo(n, i) <==> a < i && a < b < n
  {
    if i > 0 {
      PairsUpToMembers(n, i - 1, a, b);
      RowMembers(i - 1, n - i, a, b);
    }
  }

  lemma {:induction false} PairsUpToOrdered(n: nat, i: nat)
    requires i <= n
    ensures forall k, l :: 0 <= k < l < |PairsUpTo(n, i)| ==> Before(PairsUpTo(n, i)[k], PairsUpTo(n, i)[l])
  {
    if i > 0 {
      PairsUpToOrdered(n, i - 1);
      var done := PairsUpTo(n, i - 1);
      var row := Row(i - 1, n - i);
      var s := PairsUpTo(n, i);
      assert s == done + row;
      forall k, l | 0 <= k < l < |s|
        ensures Before(s[k], s[l])
      {
        if l < |done| {
          assert s[k] == done[k] && s[l] == done[l];
        } else if k < |done| {
          var pair := done[k];
          assert pair in done;
          PairsUpToMembers(n, i - 1, pair.0, pair.1);
          assert s[k] == pair && s[l] == row[l - |done|];
        } else {
          assert s[k] == row[k - |done|] && s[l] == row[l - |done|];
        }
      }
    }
  }

  /** One frame checks every unordered pair i < j exactly once, never a
      particle against itself, and in the order of i, then j. */
  lemma PairsExactlyOnce(n: nat)
    ensures forall a: nat, b: nat :: (a, b) in Pairs(n) <==> a < b < n
    ensures forall k, l :: 0 <= k < l < |Pairs(n)| ==> Before(Pairs(n)[k], Pairs(n)[l]) && Pairs(n)[k] != Pairs(n)[l]
  {
    forall a: nat, b: nat
      ensures (a, b) in Pairs(n) <==> a < b < n
    {
      PairsUpToMembers(n, n, a, b);
    }
    PairsUpToOrdered(n, n);
  }

  // ---------------------------------------------------------------------
  // What a frame draws

  /** The checks of particle i against the first k particles after it draw
      the line (a, b, o) exactly when a is i, b is one of those particles,
      and the check of that pair draws it. */
  lemma {:induction false} LinksLines(i: nat, p: Particle, others: seq<Particle>, start: nat, k: nat, root: real -> real,
                                      a: nat, b: nat, o: real)
    requires start + k <= |others|
    ensures Line(a, b, o) in Links(i, p, others, start, k, root) <==>
              a == i && i < b <= i + k && Line(a, b, o) in Link(i, b, p, others[start + b - i - 1], root)
  {
    if k > 0 {
      LinksLines(i, p, others, start, k - 1, root, a, b, o);
    }
  }

  /** The checks of a particle draw no circle. */
  lemma {:induction false} LinksNoCircles(i: nat, p: Particle, others: seq<Particle>, start: nat, k: nat, root: real -> real,
                                          a: nat, x: real, y: real, r: real)
    requires start + k <= |others|
    ensures Circle(a, x, y, r) !in Links(i, p, others, start, k, root)
  {
    if k > 0 {
      LinksNoCircles(i, p, others, start, k - 1, root, a, x, y, r);
    }
  }

  /** Particle j's records hold the line (a, b, o) exactly when a is j, b
      is a later particle, and the check of moved particle j against the
      not yet moved particle b draws it. */
  lemma BlockLines(ps: seq<Particle>, j: nat, width: nat, height: nat, root: real -> real,
                   a: nat, b: nat, o: real)
    requires j < |ps|
    ensures Line(a, b, o) in Block(ps, j, width, height, root) <==>
              a == j && j < b < |ps| && Line(a, b, o) in Link(j, b, StepParticle(ps[j], width, height), ps[b], root)
  {
    var q := StepParticle(ps[j], width, height);
    LinksLines(j, q, ps, j + 1, |ps| - j - 1, root, a, b, o);
  }

  /** Particle j's records hold exactly one circle: its own. */
  lemma BlockCircles(ps: seq<Particle>, j: nat, width: nat, height: nat, root: real -> real,
                     a: nat, x: real, y: real, r: real)
    requires j < |ps|
    ensures Circle(a, x, y, r) in Block(ps, j, width, height, root) <==> Circle(a, x, y, r) == CircleOf(ps, j, width, height)
  {
    LinksNoCircles(j, StepParticle(ps[j], width, height), ps, j + 1, |ps| - j - 1, root, a, x, y, r);
  }

  /** The records of the first i particles hold the line (a, b, o) exactly
      when a is one of them, b a later particle, and the check of moved
      particle a against the not yet moved particle b draws it. */
  lemma FrameUpToLines(ps: seq<Particle>, i: nat, width: nat, height: nat, root: real -> real,
                       a: nat, b: nat, o: real)
    requires i <= |ps|
    ensures Line(a, b, o) in FrameUpTo(ps, i, width, height, root) <==>
              a < i && a < b < |ps| && Line(a, b, o) in Link(a, b, StepParticle(ps[a], width, height), ps[b], root)
  {
    var blocks := Blocks(ps, i, width, height, root);
    forall j | 0 <= j < i && j != a
      ensures Line(a, b, o) !in blocks[j]
    {
      BlockLines(ps, j, width, height, root, a, b, o);
    }
    FrameUpToFlatten(ps, i, width, height, root);
    FlattenMember(blocks, Line(a, b, o), a);
    if a < i {
      BlockLines(ps, a, width, height, root, a, b, o);
    }
  }

  /** The records of the first i particles hold exactly their circles. */
  lemma FrameUpToCircles(ps: seq<Particle>, i: nat, width: nat, height: nat, root: real -> real,
                         a: nat, x: real, y: real, r: real)
    requires i <= |ps|
    ensures Circle(a, x, y, r) in FrameUpTo(ps, i, width, height, root) <==>
              a < i && Circle(a, x, y, r) == CircleOf(ps, a, width, height)
  {
    var blocks := Blocks(ps, i, width, height, root);
    forall j | 0 <= j < i && j != a
      ensures Circle(a, x, y, r) !in blocks[j]
    {
      BlockCircles(ps, j, width, height, root, a, x, y, r);
    }
    FrameUpToFlatten(ps, i, width, height, root);
    FlattenMember(blocks, Circle(a, x, y, r), a);
    if a < i {
      BlockCircles(ps, a, width, height, root, a, x, y, r);
    }
  }

  /** A frame draws a circle for each particle at its new position, and a
      line for the pair a < b exactly when the moved particle a and the not
      yet moved particle b are closer than 150, with the opacity of that
      distance: a value in (0, 0.2]. */
  lemma FrameDraws(ps: seq<Particle>, width: nat, height: nat, root: real -> real, a: nat, b: nat, o: real)
    requires IsSqrt(root)
    ensures var moved := StepAll(ps, width, height);
      Line(a, b, o) in FrameCalls(ps, width, height, root) <==>
        && a < b < |ps|
        && SquaredDistance(moved[a], ps[b]) < 22500.0
        && o == Opacity(root(SquaredDistance(moved[a], ps[b])))
    ensures Line(a, b, o) in FrameCalls(ps, width, height, root) ==> 0.0 < o <= MaxLinkOpacity
    ensures forall x, y, r :: Circle(a, x, y, r) in FrameCalls(ps, width, height, root) <==>
              a < |ps| && StepAll(ps, width, height)[a] == Particle(x, y, StepAll(ps, width, height)[a].vx, StepAll(ps, width, height)[a].vy, r)
  {
    FrameUpToLines(ps, |ps|, width, height, root, a, b, o);
    if a < b < |ps| {
      LinkIff(a, b, StepParticle(ps[a], width, height), ps[b], root);
    }
    var moved := StepAll(ps, width, height);
    forall x, y, r
      ensures Circle(a, x, y, r) in FrameCalls(ps, width, height, root) <==>
              a < |ps| && moved[a] == Particle(x, y, moved[a].vx, moved[a].vy, r)
    {
      FrameUpToCircles(ps, |ps|, width, height, root, a, x, y, r);
    }
  }
}
