/** Planar poses, the docking pose in front of a tag, and the target of a tag-relative retreat. */
module PlanarGeometry {
  import opened Basics
  import opened Trigonometry
  import opened HolonomicFineAlign

  /** A rigid motion of the plane; `c` and `s` are the cosine and sine of its turn. */
  datatype Pose = Pose(x: real, y: real, c: real, s: real) {
    ghost predicate Rigid() {
      c * c + s * s == 1.0
    }
  }

  const IDENTITY := Pose(0.0, 0.0, 1.0, 0.0)

  function Compose(a: Pose, b: Pose): Pose {
    Pose(a.x + a.c * b.x - a.s * b.y, a.y + a.s * b.x + a.c * b.y, a.c * b.c - a.s * b.s, a.s * b.c + a.c * b.s)
  }

  function Inverse(a: Pose): Pose {
    Pose(-a.c * a.x - a.s * a.y, a.s * a.x - a.c * a.y, a.c, -a.s)
  }

  // ---------- Rigid motions form a group ----------

  lemma TurnTwice(ac: real, as_: real, bc: real, bs: real, u: real, v: real)
    ensures (ac * bc - as_ * bs) * u - (as_ * bc + ac * bs) * v == ac * (bc * u - bs * v) - as_ * (bs * u + bc * v)
    ensures (as_ * bc + ac * bs) * u + (ac * bc - as_ * bs) * v == as_ * (bc * u - bs * v) + ac * (bs * u + bc * v)
  {
  }

  lemma TurnSum(c: real, s: real, x: real, y: real, u: real, v: real)
    ensures c * (x + u) - s * (y + v) == (c * x - s * y) + (c * u - s * v)
    ensures s * (x + u) + c * (y + v) == (s * x + c * y) + (s * u + c * v)
  {
  }

  /** The place of a point after two motions, in either grouping: `(mx, my)`, `mc` and `ms` are those of the two motions
      together, `(qx, qy)` is the point after the second. */
  lemma TwoMotions(ax: real, ay: real, ac: real, as_: real, px: real, py: real, pc: real, ps: real, u: real, v: real,
                   mx: real, my: real, mc: real, ms: real, qx: real, qy: real)
    requires mx == ax + ac * px - as_ * py && my == ay + as_ * px + ac * py
    requires mc == ac * pc - as_ * ps && ms == as_ * pc + ac * ps
    requires qx == px + pc * u - ps * v && qy == py + ps * u + pc * v
    ensures mx + mc * u - ms * v == ax + ac * qx - as_ * qy
    ensures my + ms * u + mc * v == ay + as_ * qx + ac * qy
  {
    TurnTwice(ac, as_, pc, ps, u, v);
    TurnSum(ac, as_, px, py, pc * u - ps * v, ps * u + pc * v);
  }

  lemma SamePlace(a: Pose, b: Pose, d: Pose)
    ensures var l, r := Compose(Compose(a, b), d), Compose(a, Compose(b, d)); l.x == r.x && l.y == r.y
  {
    var ab, bd := Compose(a, b), Compose(b, d);
    TwoMotions(a.x, a.y, a.c, a.s, b.x, b.y, b.c, b.s, d.x, d.y, ab.x, ab.y, ab.c, ab.s, bd.x, bd.y);
  }

  lemma TwoTurns(ac: real, as_: real, pc: real, ps: real, u: real, v: real, mc: real, ms: real, qc: real, qs: real)
    requires mc == ac * pc - as_ * ps && ms == as_ * pc + ac * ps && qc == pc * u - ps * v && qs == ps * u + pc * v
    ensures mc * u - ms * v == ac * qc - as_ * qs && ms * u + mc * v == as_ * qc + ac * qs
  {
    TurnTwice(ac, as_, pc, ps, u, v);
  }

  lemma SameHeading(a: Pose, b: Pose, d: Pose)
    ensures var l, r := Compose(Compose(a, b), d), Compose(a, Compose(b, d)); l.c == r.c && l.s == r.s
  {
    var ab, bd := Compose(a, b), Compose(b, d);
    TwoTurns(a.c, a.s, b.c, b.s, d.c, d.s, ab.c, ab.s, bd.c, bd.s);
  }

  lemma Associative(a: Pose, b: Pose, d: Pose)
    ensures Compose(Compose(a, b), d) == Compose(a, Compose(b, d))
  {
    SamePlace(a, b, d);
    SameHeading(a, b, d);
    hide Compose;
  }

  lemma IdentityNeutral(a: Pose)
    ensures Compose(a, IDENTITY) == a && Compose(IDENTITY, a) == a
  {
  }

  lemma InverseCancels(a: Pose)
    requires a.Rigid()
    ensures Compose(a, Inverse(a)) == IDENTITY && Compose(Inverse(a), a) == IDENTITY
  {
    Unturn(a.c, a.s, a.x, a.y);
  }

  /** Turning back and forth. */
  lemma Unturn(c: real, s: real, x: real, y: real)
    requires c * c + s * s == 1.0
    ensures c * (-c * x - s * y) - s * (s * x - c * y) == -x
    ensures s * (-c * x - s * y) + c * (s * x - c * y) == -y
  {
    assert c * (-c * x - s * y) - s * (s * x - c * y) == -(c * c + s * s) * x;
    assert s * (-c * x - s * y) + c * (s * x - c * y) == -(c * c + s * s) * y;
  }

  lemma RigidClosed(a: Pose, b: Pose)
    requires a.Rigid() && b.Rigid()
    ensures Compose(a, b).Rigid() && Inverse(a).Rigid()
  {
    ProductOfTurns(a.c, a.s, b.c, b.s);
  }

  lemma ProductOfTurns(c: real, s: real, u: real, v: real)
    requires c * c + s * s == 1.0 && u * u + v * v == 1.0
    ensures (c * u - s * v) * (c * u - s * v) + (s * u + c * v) * (s * u + c * v) == 1.0
  {
    TwoSquares(c, s, u, v);
  }

  lemma TwoSquares(c: real, s: real, u: real, v: real)
    ensures (c * u - s * v) * (c * u - s * v) + (s * u + c * v) * (s * u + c * v) == (c * c + s * s) * (u * u + v * v)
  {
  }

  lemma InverseOfProduct(a: Pose, b: Pose)
    requires a.Rigid() && b.Rigid()
    ensures Inverse(Compose(a, b)) == Compose(Inverse(b), Inverse(a))
  {
    var p := Compose(a, b);
    var q := Compose(Inverse(b), Inverse(a));
    RigidClosed(a, b);
    calc {
      q;
      { IdentityNeutral(q); InverseCancels(p); }
      Compose(q, Compose(p, Inverse(p)));
      { Associative(q, p, Inverse(p)); }
      Compose(Compose(q, p), Inverse(p));
      {
        Associative(Inverse(b), Inverse(a), p);
        Associative(Inverse(a), a, b);
        InverseCancels(a);
        IdentityNeutral(b);
        InverseCancels(b);
      }
      Compose(IDENTITY, Inverse(p));
      { IdentityNeutral(Inverse(p)); }
      Inverse(p);
    }
  }

  // ---------- The docking pose ----------

  /** A tag as the docking code sees it: where it is, and the horizontal parts of its normal and of its
      horizontal axis. */
  datatype Tag = Tag(x: real, y: real, outX: real, outY: real, rightX: real, rightY: real)

  /** The tag seen after a planar motion. */
  function Moved(g: Pose, t: Tag): Tag {
    Tag(g.x + g.c * t.x - g.s * t.y, g.y + g.s * t.x + g.c * t.y,
        g.c * t.outX - g.s * t.outY, g.s * t.outX + g.c * t.outY,
        g.c * t.rightX - g.s * t.rightY, g.s * t.rightX + g.c * t.rightY)
  }

  datatype Offsets = Offsets(standoff: real, lateral: real, yaw: real)

  /** `tableDockPose`; absent when the tag does not stand upright enough. */
  function TableDockPose(tr: Trig, t: Tag, o: Offsets): Option<Pose> {
    var out, right := tr.hypot(t.outX, t.outY), tr.hypot(t.rightX, t.rightY);
    if out < 0.5 || right < 0.5 then None
    else
      var ux, uy := t.outX / out, t.outY / out;
      var yaw := tr.atan2(-uy, -ux) + o.yaw;
      Some(Pose(t.x + o.standoff * ux + o.lateral * (t.rightX / right),
                t.y + o.standoff * uy + o.lateral * (t.rightY / right),
                tr.cos(yaw), tr.sin(yaw)))
  }

  lemma UnitVector(tr: Trig, x: real, y: real)
    requires tr.Laws() && tr.hypot(x, y) > 0.0
    ensures var h := tr.hypot(x, y); (x / h) * (x / h) + (y / h) * (y / h) == 1.0
  {
    assert tr.HypotAt(x, y);
    tr.ScaledSquare(x, y, tr.hypot(x, y), 1.0);
  }

  /** The heading faces the tag, turned by the yaw offset. */
  lemma Heading(tr: Trig, ux: real, uy: real, yaw: real)
    requires tr.Laws() && ux * ux + uy * uy == 1.0
    ensures var a := tr.atan2(-uy, -ux);
            && tr.cos(a + yaw) == -ux * tr.cos(yaw) + uy * tr.sin(yaw)
            && tr.sin(a + yaw) == -uy * tr.cos(yaw) - ux * tr.sin(yaw)
  {
    var a := tr.atan2(-uy, -ux);
    assert tr.PolarAt(-ux, -uy) && tr.AdditionAt(a, yaw);
    assert (-ux) * (-ux) + (-uy) * (-uy) == 1.0;
    tr.HypotIs(-ux, -uy, 1.0);
  }

  /** `(u, v)` is `(x, y)` turned by `g`. */
  ghost predicate TurnOf(g: Pose, x: real, y: real, u: real, v: real) {
    u == g.c * x - g.s * y && v == g.s * x + g.c * y
  }

  lemma TurnedLength(tr: Trig, g: Pose, x: real, y: real, u: real, v: real)
    requires tr.Laws() && g.Rigid() && TurnOf(g, x, y, u, v)
    ensures tr.hypot(u, v) == tr.hypot(x, y)
  {
    assert tr.HypotAt(x, y);
    TurnedSquare(g.c, g.s, x, y);
    tr.HypotIs(u, v, tr.hypot(x, y));
  }

  lemma TurnedSquare(c: real, s: real, x: real, y: real)
    requires c * c + s * s == 1.0
    ensures (c * x - s * y) * (c * x - s * y) + (s * x + c * y) * (s * x + c * y) == x * x + y * y
  {
    assert (c * x - s * y) * (c * x - s * y) + (s * x + c * y) * (s * x + c * y) == (c * c + s * s) * (x * x + y * y);
  }

  lemma TurnedQuotient(g: Pose, x: real, y: real, u: real, v: real, h: real)
    requires h > 0.0 && TurnOf(g, x, y, u, v)
    ensures TurnOf(g, x / h, y / h, u / h, v / h)
  {
  }

  lemma OffsetTurned(c: real, s: real, x: real, y: real, m: real, ux: real, uy: real, n: real, vx: real, vy: real)
    ensures (c * x - s * y) + m * (c * ux - s * uy) + n * (c * vx - s * vy)
            == c * (x + m * ux + n * vx) - s * (y + m * uy + n * vy)
    ensures (s * x + c * y) + m * (s * ux + c * uy) + n * (s * vx + c * vy)
            == s * (x + m * ux + n * vx) + c * (y + m * uy + n * vy)
  {
  }

  lemma HeadingTurned(c: real, s: real, ux: real, uy: real, cy: real, sy: real)
    ensures -(c * ux - s * uy) * cy + (s * ux + c * uy) * sy
            == c * (-ux * cy + uy * sy) - s * (-uy * cy - ux * sy)
    ensures -(s * ux + c * uy) * cy - (c * ux - s * uy) * sy
            == s * (-ux * cy + uy * sy) + c * (-uy * cy - ux * sy)
  {
  }

  /** The closed form of a docking pose, given the unit normal `(ux, uy)` and axis `(vx, vy)`. */
  ghost predicate StandsBefore(t: Tag, o: Offsets, ux: real, uy: real, vx: real, vy: real, cy: real, sy: real,
                               p: Pose) {
    && p.x == t.x + o.standoff * ux + o.lateral * vx
    && p.y == t.y + o.standoff * uy + o.lateral * vy
    && p.c == -ux * cy + uy * sy
    && p.s == -uy * cy - ux * sy
  }

  lemma PoseTurned(g: Pose, t: Tag, m: Tag, o: Offsets, ux: real, uy: real, vx: real, vy: real,
                   mux: real, muy: real, mvx: real, mvy: real, cy: real, sy: real, p: Pose, q: Pose)
    requires m == Moved(g, t) && TurnOf(g, ux, uy, mux, muy) && TurnOf(g, vx, vy, mvx, mvy)
    requires StandsBefore(t, o, ux, uy, vx, vy, cy, sy, p) && StandsBefore(m, o, mux, muy, mvx, mvy, cy, sy, q)
    ensures q == Compose(g, p)
  {
    OffsetsTurned(g.c, g.s, t.x, t.y, o.standoff, ux, uy, mux, muy, o.lateral, vx, vy, mvx, mvy, p.x, p.y);
    HeadingsTurned(g.c, g.s, ux, uy, mux, muy, cy, sy, p.c, p.s);
  }

  lemma OffsetsTurned(c: real, s: real, x: real, y: real, m: real, ux: real, uy: real, mux: real, muy: real,
                      n: real, vx: real, vy: real, mvx: real, mvy: real, px: real, py: real)
    requires px == x + m * ux + n * vx && py == y + m * uy + n * vy
    requires mux == c * ux - s * uy && muy == s * ux + c * uy && mvx == c * vx - s * vy && mvy == s * vx + c * vy
    ensures (c * x - s * y) + m * mux + n * mvx == c * px - s * py
    ensures (s * x + c * y) + m * muy + n * mvy == s * px + c * py
  {
    OffsetTurned(c, s, x, y, m, ux, uy, n, vx, vy);
  }

  lemma HeadingsTurned(c: real, s: real, ux: real, uy: real, mux: real, muy: real, cy: real, sy: real, pc: real,
                       ps: real)
    requires mux == c * ux - s * uy && muy == s * ux + c * uy
    requires pc == -ux * cy + uy * sy && ps == -uy * cy - ux * sy
    ensures -mux * cy + muy * sy == c * pc - s * ps
    ensures -muy * cy - mux * sy == s * pc + c * ps
  {
    HeadingTurned(c, s, ux, uy, cy, sy);
  }

  /** The docking pose in closed form. */
  lemma DockPoseIs(tr: Trig, t: Tag, o: Offsets, ux: real, uy: real, vx: real, vy: real)
    requires tr.Laws() && TableDockPose(tr, t, o).Some?
    requires var out, right := tr.hypot(t.outX, t.outY), tr.hypot(t.rightX, t.rightY);
             out > 0.0 && right > 0.0 && ux == t.outX / out && uy == t.outY / out
             && vx == t.rightX / right && vy == t.rightY / right
    ensures var p := TableDockPose(tr, t, o).value;
            p.Rigid() && StandsBefore(t, o, ux, uy, vx, vy, tr.cos(o.yaw), tr.sin(o.yaw), p)
  {
    UnitVector(tr, t.outX, t.outY);
    Heading(tr, ux, uy, o.yaw);
    assert tr.CircleAt(tr.atan2(-uy, -ux) + o.yaw);
  }

  /** A tag has a docking pose exactly when the horizontal parts of its normal and of its horizontal axis are each at
      least half as long as the whole. */
  lemma DockPoseIff(tr: Trig, t: Tag, o: Offsets)
    requires tr.Laws()
    ensures TableDockPose(tr, t, o).Some? <==>
              && t.outX * t.outX + t.outY * t.outY >= 0.25 && t.rightX * t.rightX + t.rightY * t.rightY >= 0.25
  {
    assert tr.HypotAt(t.outX, t.outY) && tr.HypotAt(t.rightX, t.rightY);
    HalfSquared(tr.hypot(t.outX, t.outY));
    HalfSquared(tr.hypot(t.rightX, t.rightY));
  }

  lemma HalfSquared(h: real)
    requires h >= 0.0
    ensures h * h >= 0.25 <==> h >= 0.5
  {
    if h > 0.0 {
      ProductSign(h, h - 0.5);
    }
  }

  /** The docking pose without offsets: seen from there the tag stands straight ahead, the standoff away. */
  lemma DockPoseFacesTag(tr: Trig, t: Tag, o: Offsets)
    requires tr.Laws() && o.lateral == 0.0 && o.yaw == 0.0 && TableDockPose(tr, t, o).Some?
    ensures var p := TableDockPose(tr, t, o).value;
            Moved(Inverse(p), t).x == o.standoff && Moved(Inverse(p), t).y == 0.0
  {
    var p, out, right := TableDockPose(tr, t, o).value, tr.hypot(t.outX, t.outY), tr.hypot(t.rightX, t.rightY);
    var ux, uy := t.outX / out, t.outY / out;
    DockPoseIs(tr, t, o, ux, uy, t.rightX / right, t.rightY / right);
    UnitVector(tr, t.outX, t.outY);
    assert p.c == -ux && p.s == -uy && p.x == t.x + o.standoff * ux && p.y == t.y + o.standoff * uy;
    hide TableDockPose, Trig.Laws;
    SeenAhead(t.x, t.y, ux, uy, o.standoff, p.x, p.y);
  }

  lemma SeenAhead(x: real, y: real, ux: real, uy: real, standoff: real, px: real, py: real)
    requires ux * ux + uy * uy == 1.0 && px == x + standoff * ux && py == y + standoff * uy
    ensures (ux * px + uy * py) + -ux * x - uy * y == standoff
    ensures (-uy * px + ux * py) + uy * x + -ux * y == 0.0
  {
    assert ux * px + uy * py == ux * x + uy * y + standoff * (ux * ux + uy * uy);
    assert -uy * px + ux * py == -uy * x + ux * y;
  }

  lemma MovedLengths(tr: Trig, g: Pose, t: Tag)
    requires tr.Laws() && g.Rigid()
    ensures var m := Moved(g, t);
            && TurnOf(g, t.outX, t.outY, m.outX, m.outY) && TurnOf(g, t.rightX, t.rightY, m.rightX, m.rightY)
            && tr.hypot(m.outX, m.outY) == tr.hypot(t.outX, t.outY)
            && tr.hypot(m.rightX, m.rightY) == tr.hypot(t.rightX, t.rightY)
  {
    var m := Moved(g, t);
    TurnedLength(tr, g, t.outX, t.outY, m.outX, m.outY);
    TurnedLength(tr, g, t.rightX, t.rightY, m.rightX, m.rightY);
  }

  /** The docking pose moves with the tag: computing it commutes with every planar rigid motion. */
  lemma DockPoseCommutes(tr: Trig, g: Pose, t: Tag, o: Offsets)
    requires tr.Laws() && g.Rigid()
    ensures TableDockPose(tr, Moved(g, t), o).Some? <==> TableDockPose(tr, t, o).Some?
    ensures TableDockPose(tr, t, o).Some? ==>
              TableDockPose(tr, Moved(g, t), o).value == Compose(g, TableDockPose(tr, t, o).value)
  {
    var m := Moved(g, t);
    MovedLengths(tr, g, t);
    hide Moved, Compose, TurnOf;
    if TableDockPose(tr, t, o).Some? {
      var out, right := tr.hypot(t.outX, t.outY), tr.hypot(t.rightX, t.rightY);
      TurnedQuotient(g, t.outX, t.outY, m.outX, m.outY, out);
      TurnedQuotient(g, t.rightX, t.rightY, m.rightX, m.rightY, right);
      DockPosesTurned(tr, g, t, o, out, right);
    }
  }

  lemma DockPosesTurned(tr: Trig, g: Pose, t: Tag, o: Offsets, out: real, right: real)
    requires tr.Laws() && out > 0.0 && right > 0.0
    requires out == tr.hypot(t.outX, t.outY) == tr.hypot(Moved(g, t).outX, Moved(g, t).outY)
    requires right == tr.hypot(t.rightX, t.rightY) == tr.hypot(Moved(g, t).rightX, Moved(g, t).rightY)
    requires TurnOf(g, t.outX / out, t.outY / out, Moved(g, t).outX / out, Moved(g, t).outY / out)
    requires TurnOf(g, t.rightX / right, t.rightY / right, Moved(g, t).rightX / right, Moved(g, t).rightY / right)
    requires TableDockPose(tr, t, o).Some? && TableDockPose(tr, Moved(g, t), o).Some?
    ensures TableDockPose(tr, Moved(g, t), o).value == Compose(g, TableDockPose(tr, t, o).value)
  {
    hide TurnOf, Compose, TableDockPose, StandsBefore, Moved;
    var m := Moved(g, t);
    var ux, uy, vx, vy := t.outX / out, t.outY / out, t.rightX / right, t.rightY / right;
    var mux, muy, mvx, mvy := m.outX / out, m.outY / out, m.rightX / right, m.rightY / right;
    DockPoseIs(tr, t, o, ux, uy, vx, vy);
    DockPoseIs(tr, m, o, mux, muy, mvx, mvy);
    PoseTurned(g, t, m, o, ux, uy, vx, vy, mux, muy, mvx, mvy, tr.cos(o.yaw), tr.sin(o.yaw),
               TableDockPose(tr, t, o).value, TableDockPose(tr, m, o).value);
  }

  // ---------- Errors and poses ----------

  /** `planarError`. */
  function ErrorBetween(tr: Trig, base: Pose, target: Pose): PlanarError {
    var d := Compose(Inverse(base), target);
    PlanarError(d.x, d.y, tr.WrapAngle(tr.atan2(d.s, d.c)))
  }

  /** `planarPose`. */
  function PoseOf(tr: Trig, e: PlanarError): Pose {
    Pose(e.x, e.y, tr.cos(e.yaw), tr.sin(e.yaw))
  }

  lemma SeenFromRest(tr: Trig, p: Pose)
    ensures ErrorBetween(tr, IDENTITY, p) == PlanarError(p.x, p.y, tr.WrapAngle(tr.atan2(p.s, p.c)))
  {
    AtRest(p);
    hide Compose, Inverse;
  }

  lemma AtRest(p: Pose)
    ensures Compose(Inverse(IDENTITY), p) == p
  {
    hide Compose, Inverse;
    InverseCancels(IDENTITY);
    IdentityNeutral(Inverse(IDENTITY));
    IdentityNeutral(p);
  }

  /** Turning a pose into an error and back loses nothing. */
  lemma ErrorRoundTrip(tr: Trig, p: Pose)
    requires tr.Laws() && p.Rigid()
    ensures PoseOf(tr, ErrorBetween(tr, IDENTITY, p)) == p
  {
    SeenFromRest(tr, p);
    hide ErrorBetween;
    assert tr.PolarAt(p.c, p.s);
    tr.HypotIs(p.c, p.s, 1.0);
    tr.WrapKeepsDirection(tr.atan2(p.s, p.c));
  }

  /** The error vanishes exactly when the robot stands at the target. */
  lemma NoErrorIffThere(tr: Trig, target: Pose)
    requires tr.Laws() && target.Rigid()
    ensures ErrorBetween(tr, IDENTITY, target) == PlanarError(0.0, 0.0, 0.0) <==> target == IDENTITY
  {
    hide ErrorBetween;
    ErrorRoundTrip(tr, target);
    SeenFromRest(tr, target);
    assert target == IDENTITY ==> tr.PrincipalAt(0.0);
  }

  // ---------- Tag-relative retreat ----------

  function Retreat(distance: real): Pose {
    Pose(-distance, 0.0, 1.0, 0.0)
  }

  /** `tagRelativeUndockTarget`. */
  function UndockTarget(initialToDock: Pose, currentToDock: Pose, distance: real): Pose {
    Compose(Compose(currentToDock, Inverse(initialToDock)), Retreat(distance))
  }

  /** What the tracker hands on of a docking pose seen from the robot: its planar error, turned back into a pose. */
  function Tracked(tr: Trig, dock: Pose): Pose {
    PoseOf(tr, ErrorBetween(tr, IDENTITY, dock))
  }

  /** The docking pose measured by a robot standing at `robot`, for a tag standing at `t`. */
  function Measured(tr: Trig, robot: Pose, t: Tag, o: Offsets): Option<Pose> {
    match TableDockPose(tr, Moved(Inverse(robot), t), o)
    case None => None
    case Some(p) => Some(Tracked(tr, p))
  }

  lemma MeasuredIs(tr: Trig, robot: Pose, t: Tag, o: Offsets)
    requires tr.Laws() && robot.Rigid() && TableDockPose(tr, t, o).Some?
    ensures var dock := TableDockPose(tr, t, o).value;
            dock.Rigid() && Measured(tr, robot, t, o) == Some(Compose(Inverse(robot), dock))
  {
    hide TableDockPose, Compose, Tracked;
    var dock := TableDockPose(tr, t, o).value;
    DockPoseRigid(tr, t, o);
    RigidClosed(robot, dock);
    DockPoseCommutes(tr, Inverse(robot), t, o);
    RigidClosed(Inverse(robot), dock);
    TrackedIs(tr, Compose(Inverse(robot), dock));
  }

  lemma TrackedIs(tr: Trig, p: Pose)
    requires tr.Laws() && p.Rigid()
    ensures Tracked(tr, p) == p
  {
    ErrorRoundTrip(tr, p);
  }

  lemma DockPoseRigid(tr: Trig, t: Tag, o: Offsets)
    requires tr.Laws() && TableDockPose(tr, t, o).Some?
    ensures TableDockPose(tr, t, o).value.Rigid()
  {
    var out, right := tr.hypot(t.outX, t.outY), tr.hypot(t.rightX, t.rightY);
    DockPoseIs(tr, t, o, t.outX / out, t.outY / out, t.rightX / right, t.rightY / right);
  }

  lemma RetreatCancels(robot: Pose, initial: Pose, dock: Pose, distance: real)
    requires robot.Rigid() && initial.Rigid() && dock.Rigid()
    ensures UndockTarget(Compose(Inverse(initial), dock), Compose(Inverse(robot), dock), distance)
            == Compose(Inverse(robot), Compose(initial, Retreat(distance)))
  {
    var seen := Compose(Inverse(initial), dock);
    hide Compose, Inverse;
    RigidClosed(initial, dock);
    InverseOfProduct(Inverse(initial), dock);
    DoubleInverse(initial);
    assert Inverse(seen) == Compose(Inverse(dock), initial);
    Associative(Inverse(robot), dock, Compose(Inverse(dock), initial));
    Associative(dock, Inverse(dock), initial);
    InverseCancels(dock);
    IdentityNeutral(initial);
    assert Compose(Compose(Inverse(robot), dock), Inverse(seen)) == Compose(Inverse(robot), initial);
    Associative(Inverse(robot), initial, Retreat(distance));
  }

  lemma DoubleInverse(a: Pose)
    requires a.Rigid()
    ensures Inverse(Inverse(a)) == a
  {
    assert (a.c * a.c + a.s * a.s) * a.x == a.x;
    assert (a.c * a.c + a.s * a.s) * a.y == a.y;
    assert -a.c * (-a.c * a.x - a.s * a.y) + a.s * (a.s * a.x - a.c * a.y) == (a.c * a.c + a.s * a.s) * a.x;
  }

  /** The retreat does not depend on the tag or on where the docking pose lies before it: with a stationary tag the
      target is the initial robot pose moved back, seen from the robot, whatever the offsets. */
  lemma UndockTargetIndependent(tr: Trig, initial: Pose, robot: Pose, t: Tag, o: Offsets, distance: real)
    requires tr.Laws() && initial.Rigid() && robot.Rigid() && TableDockPose(tr, t, o).Some?
    ensures Measured(tr, initial, t, o).Some? && Measured(tr, robot, t, o).Some?
    ensures UndockTarget(Measured(tr, initial, t, o).value, Measured(tr, robot, t, o).value, distance)
            == Compose(Inverse(robot), Compose(initial, Retreat(distance)))
  {
    MeasuredIs(tr, initial, t, o);
    MeasuredIs(tr, robot, t, o);
    RetreatCancels(robot, initial, TableDockPose(tr, t, o).value, distance);
  }

  /** The error worked down during a retreat vanishes exactly when the robot stands the distance behind its initial
      pose, facing as it did. */
  lemma RetreatErrorVanishesIffArrived(tr: Trig, initial: Pose, robot: Pose, t: Tag, o: Offsets, distance: real)
    requires tr.Laws() && initial.Rigid() && robot.Rigid() && TableDockPose(tr, t, o).Some?
    ensures Measured(tr, initial, t, o).Some? && Measured(tr, robot, t, o).Some?
    ensures ErrorBetween(tr, IDENTITY, UndockTarget(Measured(tr, initial, t, o).value,
                                                    Measured(tr, robot, t, o).value, distance))
            == PlanarError(0.0, 0.0, 0.0)
            <==> robot == Compose(initial, Retreat(distance))
  {
    hide TableDockPose, Compose, Inverse, ErrorBetween, UndockTarget, Measured;
    UndockTargetIndependent(tr, initial, robot, t, o, distance);
    var goal := Compose(initial, Retreat(distance));
    assert Retreat(distance).Rigid();
    RigidClosed(initial, Retreat(distance));
    RigidClosed(robot, goal);
    RigidClosed(Inverse(robot), goal);
    NoErrorIffThere(tr, Compose(Inverse(robot), goal));
    InverseCancels(robot);
    Associative(robot, Inverse(robot), goal);
    IdentityNeutral(goal);
    IdentityNeutral(robot);
  }
}
