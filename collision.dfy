/** Avatar-obstacle contact: the forgiving overlap test and the landing-versus-death rule. */
module Collision {
  import opened Entities

  /** The avatar's hitbox is its box shrunk by this margin on every side. */
  const HitboxInset: real := 8.0
  /** How far below an obstacle's top the avatar's bottom may have been and still land. */
  const LandingBuffer: real := 15.0

  /** The four comparisons of the overlap test. A point inside both boxes always sets it
      off; `OverlapsIffSharedPoint` gives the converse for boxes of positive size. */
  predicate Overlaps(p: Player, o: Obstacle)
    ensures (exists px: real, py: real :: InHitbox(p, px, py) && InObstacle(o, px, py)) ==> Overlaps(p, o)
  {
    var hitX, hitY := p.x + HitboxInset, p.y + HitboxInset;
    var hitW, hitH := p.width - 2.0 * HitboxInset, p.height - 2.0 * HitboxInset;
    && hitX < o.x + o.width
    && hitX + hitW > o.x
    && hitY < o.y + o.height
    && hitY + hitH > o.y
  }

  /** A point strictly inside the avatar's hitbox. */
  predicate InHitbox(p: Player, px: real, py: real) {
    && p.x + HitboxInset < px < p.x + p.width - HitboxInset
    && p.y + HitboxInset < py < p.y + p.height - HitboxInset
  }

  /** A point strictly inside an obstacle's box. */
  predicate InObstacle(o: Obstacle, px: real, py: real) {
    o.x < px < o.x + o.width && o.y < py < o.y + o.height
  }

  /** For boxes of positive size, the overlap test holds exactly when the hitbox and the
      obstacle share a point. */
  lemma OverlapsIffSharedPoint(p: Player, o: Obstacle)
    requires p.width > 2.0 * HitboxInset && p.height > 2.0 * HitboxInset
    requires o.width > 0.0 && o.height > 0.0
    ensures Overlaps(p, o) <==> exists px: real, py: real :: InHitbox(p, px, py) && InObstacle(o, px, py)
  {
    if Overlaps(p, o) {
      var left := Max(p.x + HitboxInset, o.x);
      var right := Min(p.x + p.width - HitboxInset, o.x + o.width);
      var top := Max(p.y + HitboxInset, o.y);
      var bottom := Min(p.y + p.height - HitboxInset, o.y + o.height);
      var px, py := (left + right) / 2.0, (top + bottom) / 2.0;
      assert InHitbox(p, px, py) && InObstacle(o, px, py);
    }
  }

  datatype Contact = Miss | Land | Die

  /** An overlap is a landing only on a block, while falling, with the estimated previous
      bottom (position minus velocity) no lower than the block's top plus the buffer;
      every other overlap is lethal. */
  function Classify(p: Player, o: Obstacle): (c: Contact)
    ensures c == Miss <==> !Overlaps(p, o)
    ensures c == Land <==>
      Overlaps(p, o) && o.kind == Block && p.dy >= 0.0 && (p.y - p.dy) + p.height <= o.y + LandingBuffer
    ensures o.kind != Block && Overlaps(p, o) ==> c == Die
  {
    if !Overlaps(p, o) then Miss
    else
      var prevY := p.y - p.dy;
      var isFalling := p.dy >= 0.0;
      var wasAbove := prevY + p.height <= o.y + LandingBuffer;
      if o.kind == Block && isFalling && wasAbove then Land else Die
  }

  /** Landing puts the avatar's bottom on the block's top, stops it and grounds it. */
  function LandOn(p: Player, o: Obstacle): (q: Player)
    ensures q == p.(y := q.y, dy := q.dy, grounded := q.grounded)
    ensures q.y + q.height == o.y && q.dy == 0.0 && q.grounded
  {
    p.(y := o.y - p.height, dy := 0.0, grounded := true)
  }

  /** After a landing the avatar no longer overlaps the block it landed on. */
  lemma LandingClearsOverlap(p: Player, o: Obstacle)
    ensures !Overlaps(LandOn(p, o), o)
  {
  }
}
