// `checkCollisions` as rules on values: the platform loop with its landing
// and bump tests, the ground safety net, then the pickup, enemy, projectile
// and decoration loops, each a fold over its list in order.
module Contacts {
  import opened Geometry
  import PlayerPhysics
  import Pickups
  import Ledges
  import opened RunRules
  import opened WorldGen

  // ---- The platform loop ----

  /** What the platform loop changes on the player's side: the body, the lives and whether it stands on something. */
  datatype Footing = Footing(body: PlayerPhysics.Body, lives: int, grounded: bool)

  /** The landing test of one platform: it is live, overlaps the current hitbox and is crossed from above. */
  predicate Lands(p: PlatformEntry, prev: Rect, b: PlayerPhysics.Body, w: real, h: real)
    requires w >= 0.0 && h >= 0.0
  {
    var hb := PlayerPhysics.Bounds(b, w, h);
    p.ledge.active && Intersects(hb, PlatformBounds(p)) && FromAbove(prev, hb, PlatformBounds(p))
  }

  /** The landing: the sprite's top goes to the platform's top less the hitbox height, then the platform's type acts. */
  function Landing(p: PlatformEntry, b: PlayerPhysics.Body, w: real, h: real): (r: (PlatformEntry, PlayerPhysics.Body))
    requires w >= 0.0 && h >= 0.0
    ensures r.1.x == b.x && r.1.score == b.score && (b.Valid() ==> r.1.Valid()) && r.0.outline == p.outline
    ensures r.0.ledge == Ledges.TypeEffect(p.ledge, b.(y := PlatformBounds(p).top - PlayerPhysics.Bounds(b, w, h).height)).0
  {
    var snapped := b.(y := PlatformBounds(p).top - PlayerPhysics.Bounds(b, w, h).height);
    var e := Ledges.TypeEffect(p.ledge, snapped);
    (p.(ledge := e.0), e.1)
  }

  /** The bump: the sprite's top goes to the platform's bottom, the player is pushed down, and it costs a life or kills. */
  function Bump(p: PlatformEntry, f: Footing): (r: Footing)
    ensures r.body.x == f.body.x && r.body.score == f.body.score && r.grounded == f.grounded
    ensures f.body.Valid() ==> r.body.Valid()
    ensures r.lives == Hurt(f.lives, Ceiling).lives
    ensures Hurt(f.lives, Ceiling).dies ==> r.body.state == PlayerPhysics.Dead
    ensures !Hurt(f.lives, Ceiling).dies ==> r.body == f.body.(y := PlatformBounds(p).Bottom(), vy := 200.0)
  {
    var b := f.body.(y := PlatformBounds(p).Bottom(), vy := 200.0);
    var harm := Hurt(f.lives, Ceiling);
    Footing(if harm.dies then PlayerPhysics.Die(b) else b, harm.lives, f.grounded)
  }

  /** One turn of the platform loop: a landing if the test holds, then the bump test on the refreshed hitbox. */
  function PlatformContact(p: PlatformEntry, prev: Rect, f: Footing, w: real, h: real): (r: (PlatformEntry, Footing))
    requires w >= 0.0 && h >= 0.0
    ensures !p.ledge.active ==> r == (p, f)
    ensures r.1.body.x == f.body.x && r.1.body.score == f.body.score && (f.body.Valid() ==> r.1.body.Valid())
    ensures r.1.grounded == (f.grounded || Lands(p, prev, f.body, w, h))
    ensures r.1.lives == f.lives || r.1.lives == Hurt(f.lives, Ceiling).lives
    ensures r.0.outline == p.outline
    ensures r.0.ledge == p.ledge || r.0.ledge == Ledges.StartBreaking(p.ledge)
  {
    if !p.ledge.active || !Intersects(PlayerPhysics.Bounds(f.body, w, h), PlatformBounds(p)) then (p, f)
    else
      var landed := Lands(p, prev, f.body, w, h);
      var after := if landed then Landing(p, f.body, w, h) else (p, f.body);
      var f1 := Footing(after.1, f.lives, f.grounded || landed);
      if FromBelow(prev, PlayerPhysics.Bounds(after.1, w, h), PlatformBounds(p)) then (after.0, Bump(p, f1))
      else (after.0, f1)
  }

  /** The platform loop over the list, in order. */
  function PlatformPass(ps: seq<PlatformEntry>, prev: Rect, f: Footing, w: real, h: real): (r: (seq<PlatformEntry>, Footing))
    requires w >= 0.0 && h >= 0.0
    ensures |r.0| == |ps|
    decreases |ps|
  {
    if |ps| == 0 then ([], f)
    else
      var before := PlatformPass(ps[..|ps| - 1], prev, f, w, h);
      var last := PlatformContact(ps[|ps| - 1], prev, before.1, w, h);
      (before.0 + [last.0], last.1)
  }

  /** The loop never moves the player sideways, never adds a life and never takes the lives below zero; platforms only start to crumble. */
  lemma {:induction false} PlatformPassBounds(ps: seq<PlatformEntry>, prev: Rect, f: Footing, w: real, h: real)
    requires w >= 0.0 && h >= 0.0
    ensures var r := PlatformPass(ps, prev, f, w, h);
            r.1.body.x == f.body.x && r.1.body.score == f.body.score &&
            r.1.lives <= f.lives && (f.lives >= 0 ==> r.1.lives >= 0) &&
            (f.grounded ==> r.1.grounded) && (f.body.Valid() ==> r.1.body.Valid()) &&
            (forall i :: 0 <= i < |ps| ==>
               r.0[i].outline == ps[i].outline &&
               (r.0[i].ledge == ps[i].ledge || r.0[i].ledge == Ledges.StartBreaking(ps[i].ledge)))
    decreases |ps|
  {
    if |ps| > 0 {
      var n := |ps| - 1;
      var before := PlatformPass(ps[..n], prev, f, w, h);
      PlatformPassBounds(ps[..n], prev, f, w, h);
      var r := PlatformPass(ps, prev, f, w, h);
      assert forall i :: 0 <= i < n ==> r.0[i] == before.0[i] && ps[i] == ps[..n][i];
    }
  }

  /** A bouncy platform relaunches even a dead player: `bounce` does not check for death. */
  lemma BounceRevives(b: PlayerPhysics.Body)
    requires b.state == PlayerPhysics.Dead
    ensures PlayerPhysics.Bounce(b, Ledges.BouncyStrength).state == PlayerPhysics.Jumping
  {
  }

  /** The ground safety net: without a landing, a hitbox bottom in [596, 620] is snapped as a landing would be. */
  function SafetyNet(f: Footing, w: real, h: real): (r: Footing)
    requires w >= 0.0 && h >= 0.0
    ensures f.grounded ==> r == f
    ensures !f.grounded && NearGround(PlayerPhysics.Bounds(f.body, w, h)) ==>
              r == Footing(f.body.(y := GroundTop - PlayerPhysics.Bounds(f.body, w, h).height), f.lives, true)
    ensures !f.grounded && !NearGround(PlayerPhysics.Bounds(f.body, w, h)) ==> r == f
  {
    if f.grounded then f
    else
      var hb := PlayerPhysics.Bounds(f.body, w, h);
      if NearGround(hb) then Footing(f.body.(y := GroundTop - hb.height), f.lives, true) else f
  }

  // ---- The loops after the landing ----

  /** What the pickup, enemy, projectile and decoration loops change. */
  datatype Tally = Tally(body: PlayerPhysics.Body, lives: int, powers: Powers, combo: Combo,
                         shake: Shake, popups: seq<Popup>)

  /** Lives, streak and score are never negative, the jump counter is in range and a power is up only with time left. */
  predicate Sane(t: Tally)
  {
    t.lives >= 0 && t.combo.count >= 0 && t.body.score >= 0 && t.body.Valid() && Settled(t.powers)
  }

  /** `addScorePopup`: a popup only when a font is loaded. */
  function WithPopup(popups: seq<Popup>, hasFont: bool, x: real, y: real, points: int): (r: seq<Popup>)
    ensures !hasFont ==> r == popups
    ensures hasFont ==> r == popups + [NewPopup(x, y, points)]
  {
    if hasFont then popups + [NewPopup(x, y, points)] else popups
  }

  /** One pickup: a live one under the hitbox is collected and its reward applied. */
  function PickupContact(c: PickupEntry, hb: Rect, t: Tally, hasFont: bool): (r: (PickupEntry, Tally))
    requires t.combo.count >= 0
    ensures !(Pickups.Live(c.item) && Intersects(hb, PickupBounds(c))) ==> r == (c, t)
    ensures Pickups.Live(c.item) && Intersects(hb, PickupBounds(c)) ==>
              r.0 == c.(item := Pickups.Collect(c.item)) && !Pickups.Live(r.0.item)
    ensures r.1.lives == t.lives && r.1.shake == t.shake && r.1.combo.count >= t.combo.count
    ensures r.1.body.score >= t.body.score && r.1.body.x == t.body.x
    ensures Sane(t) ==> Sane(r.1)
  {
    if Pickups.Live(c.item) && Intersects(hb, PickupBounds(c)) then
      var g := Pick(t.powers, t.body, t.combo, c.item.kind);
      var popups := if Pickups.IsPowerUp(c.item.kind) then t.popups
                    else WithPopup(t.popups, hasFont, c.item.x, c.item.y, g.gained);
      (c.(item := Pickups.Collect(c.item)), Tally(g.body, t.lives, g.powers, g.combo, t.shake, popups))
    else (c, t)
  }

  function PickupPass(cs: seq<PickupEntry>, hb: Rect, t: Tally, hasFont: bool): (r: (seq<PickupEntry>, Tally))
    requires t.combo.count >= 0
    ensures |r.0| == |cs| && r.1.combo.count >= t.combo.count
    decreases |cs|
  {
    if |cs| == 0 then ([], t)
    else
      var before := PickupPass(cs[..|cs| - 1], hb, t, hasFont);
      var last := PickupContact(cs[|cs| - 1], hb, before.1, hasFont);
      (before.0 + [last.0], last.1)
  }

  /** The pickup loop keeps the tally sane and the lives and shake as they were, only raises the score, and leaves no touched pickup live. */
  lemma {:induction false} PickupPassBounds(cs: seq<PickupEntry>, hb: Rect, t: Tally, hasFont: bool)
    requires Sane(t)
    ensures var r := PickupPass(cs, hb, t, hasFont);
            Sane(r.1) && r.1.lives == t.lives && r.1.shake == t.shake &&
            r.1.body.score >= t.body.score && r.1.body.x == t.body.x &&
            (forall i :: 0 <= i < |cs| && Intersects(hb, PickupBounds(cs[i])) ==> !Pickups.Live(r.0[i].item))
    decreases |cs|
  {
    if |cs| > 0 {
      var n := |cs| - 1;
      var before := PickupPass(cs[..n], hb, t, hasFont);
      PickupPassBounds(cs[..n], hb, t, hasFont);
      var r := PickupPass(cs, hb, t, hasFont);
      forall i | 0 <= i < |cs| && Intersects(hb, PickupBounds(cs[i]))
        ensures !Pickups.Live(r.0[i].item)
      {
        if i < n {
          assert r.0[i] == before.0[i] && cs[i] == cs[..n][i];
        }
      }
    }
  }

  /** One enemy: a live one under the hitbox is stomped when the player is Sliding or shielded, and costs a life otherwise. */
  function EnemyContact(e: EnemyEntry, hb: Rect, t: Tally, hasFont: bool): (r: (EnemyEntry, Tally))
    ensures !(e.foe.active && Intersects(hb, EnemyBounds(e))) ==> r == (e, t)
    ensures e.foe.active && Intersects(hb, EnemyBounds(e)) && Stomps(t.body, t.powers) ==>
              r.0 == e.(foe := e.foe.(active := false)) && r.1.lives == t.lives &&
              r.1.body == t.body.(score := t.body.score + StompBonus) && r.1.combo == ComboBump(t.combo) &&
              r.1.shake == Trigger(t.shake, 6.0, 0.2) && !r.1.powers.shield
    ensures e.foe.active && Intersects(hb, EnemyBounds(e)) && !Stomps(t.body, t.powers) ==>
              r.0 == e && r.1.lives == Hurt(t.lives, EnemyTouch).lives && r.1.combo == t.combo &&
              (r.1.body.state == PlayerPhysics.Dead <==> Hurt(t.lives, EnemyTouch).dies || t.body.state == PlayerPhysics.Dead) &&
              r.1.body.score == t.body.score
    ensures r.1.body.x == t.body.x
    ensures Sane(t) ==> Sane(r.1)
  {
    if e.foe.active && Intersects(hb, EnemyBounds(e)) then
      if Stomps(t.body, t.powers) then
        var powers := if t.powers.shield then UseShield(t.powers) else t.powers;
        (e.(foe := e.foe.(active := false)),
         Tally(t.body.(score := t.body.score + StompBonus), t.lives, powers, ComboBump(t.combo),
               Trigger(t.shake, 6.0, 0.2), WithPopup(t.popups, hasFont, e.foe.x, e.foe.y, StompBonus)))
      else
        var harm := Hurt(t.lives, EnemyTouch);
        (e, t.(body := if harm.dies then PlayerPhysics.Die(t.body) else t.body, lives := harm.lives))
    else (e, t)
  }

  function EnemyPass(es: seq<EnemyEntry>, hb: Rect, t: Tally, hasFont: bool): (r: (seq<EnemyEntry>, Tally))
    ensures |r.0| == |es|
    decreases |es|
  {
    if |es| == 0 then ([], t)
    else
      var before := EnemyPass(es[..|es| - 1], hb, t, hasFont);
      var last := EnemyContact(es[|es| - 1], hb, before.1, hasFont);
      (before.0 + [last.0], last.1)
  }

  /** The enemy loop keeps the tally sane, never adds a life, only raises the score, and every enemy it touches is either defeated or still there. */
  lemma {:induction false} EnemyPassBounds(es: seq<EnemyEntry>, hb: Rect, t: Tally, hasFont: bool)
    requires Sane(t)
    ensures var r := EnemyPass(es, hb, t, hasFont);
            Sane(r.1) && r.1.lives <= t.lives && r.1.body.score >= t.body.score && r.1.body.x == t.body.x &&
            (forall i :: 0 <= i < |es| ==> r.0[i] == es[i] || r.0[i] == es[i].(foe := es[i].foe.(active := false)))
    decreases |es|
  {
    if |es| > 0 {
      var n := |es| - 1;
      var before := EnemyPass(es[..n], hb, t, hasFont);
      EnemyPassBounds(es[..n], hb, t, hasFont);
      var r := EnemyPass(es, hb, t, hasFont);
      assert forall i :: 0 <= i < n ==> r.0[i] == before.0[i] && es[i] == es[..n][i];
    }
  }

  /** One projectile: a live one under the hitbox is spent, and takes the shield if there is one, a life or the run otherwise. */
  function ShotContact(s: Shot, hb: Rect, t: Tally): (r: (Shot, Tally))
    ensures !(s.active && Intersects(hb, ShotBounds(s))) ==> r == (s, t)
    ensures s.active && Intersects(hb, ShotBounds(s)) ==> r.0 == s.(active := false)
    ensures s.active && Intersects(hb, ShotBounds(s)) && t.powers.shield ==>
              r.1 == t.(powers := UseShield(t.powers))
    ensures s.active && Intersects(hb, ShotBounds(s)) && !t.powers.shield ==>
              r.1.lives == Hurt(t.lives, ProjectileHit).lives && r.1.powers == t.powers &&
              (r.1.body.state == PlayerPhysics.Dead <==> Hurt(t.lives, ProjectileHit).dies || t.body.state == PlayerPhysics.Dead)
    ensures r.1.body.x == t.body.x && r.1.body.score == t.body.score && r.1.combo == t.combo
  {
    if s.active && Intersects(hb, ShotBounds(s)) then
      if t.powers.shield then (s.(active := false), t.(powers := UseShield(t.powers)))
      else
        var harm := Hurt(t.lives, ProjectileHit);
        (s.(active := false), t.(body := if harm.dies then PlayerPhysics.Die(t.body) else t.body, lives := harm.lives))
    else (s, t)
  }

  function ShotPass(ss: seq<Shot>, hb: Rect, t: Tally): (r: (seq<Shot>, Tally))
    ensures |r.0| == |ss|
    decreases |ss|
  {
    if |ss| == 0 then ([], t)
    else
      var before := ShotPass(ss[..|ss| - 1], hb, t);
      var last := ShotContact(ss[|ss| - 1], hb, before.1);
      (before.0 + [last.0], last.1)
  }

  /** The projectile loop keeps the tally sane, never adds a life, leaves the score alone and spends every projectile that touches the player. */
  lemma {:induction false} ShotPassBounds(ss: seq<Shot>, hb: Rect, t: Tally)
    requires Sane(t)
    ensures var r := ShotPass(ss, hb, t);
            Sane(r.1) && r.1.lives <= t.lives && r.1.body.score == t.body.score && r.1.body.x == t.body.x &&
            (forall i :: 0 <= i < |ss| ==> r.0[i] == ss[i] || r.0[i] == ss[i].(active := false)) &&
            (forall i :: 0 <= i < |ss| && Intersects(hb, ShotBounds(ss[i])) ==> !r.0[i].active)
    decreases |ss|
  {
    if |ss| > 0 {
      var n := |ss| - 1;
      var before := ShotPass(ss[..n], hb, t);
      ShotPassBounds(ss[..n], hb, t);
      var r := ShotPass(ss, hb, t);
      assert forall i :: 0 <= i < n ==> r.0[i] == before.0[i] && ss[i] == ss[..n][i];
    }
  }

  /** One decoration under the hitbox: a brown mushroom costs 15 points, a cactus a life; red mushrooms and springs do nothing. */
  function DecorContact(d: Decoration, hb: Rect, t: Tally): (r: Tally)
    ensures !Intersects(hb, d.box) || d.kind in {RedMushroom, Spring} ==> r == t
    ensures Intersects(hb, d.box) && d.kind == BrownMushroom ==>
              r == t.(body := t.body.(score := Penalty(t.body.score)))
    ensures Intersects(hb, d.box) && d.kind == Cactus ==>
              r.lives == Hurt(t.lives, CactusTouch).lives && r.body.score == t.body.score &&
              (r.body.state == PlayerPhysics.Dead <==> Hurt(t.lives, CactusTouch).dies || t.body.state == PlayerPhysics.Dead)
    ensures r.body.x == t.body.x && r.combo == t.combo && r.powers == t.powers
  {
    if !Intersects(hb, d.box) then t
    else
      match d.kind
      case BrownMushroom => t.(body := t.body.(score := Penalty(t.body.score)))
      case Cactus =>
        var harm := Hurt(t.lives, CactusTouch);
        t.(body := if harm.dies then PlayerPhysics.Die(t.body) else t.body, lives := harm.lives)
      case _ => t
  }

  function DecorPass(ds: seq<Decoration>, hb: Rect, t: Tally): Tally
    decreases |ds|
  {
    if |ds| == 0 then t
    else DecorContact(ds[|ds| - 1], hb, DecorPass(ds[..|ds| - 1], hb, t))
  }

  /** The decoration loop keeps the tally sane, never adds a life or a point, and never moves the player. */
  lemma {:induction false} DecorPassBounds(ds: seq<Decoration>, hb: Rect, t: Tally)
    requires Sane(t)
    ensures var r := DecorPass(ds, hb, t);
            Sane(r) && r.lives <= t.lives && r.body.score <= t.body.score && r.body.x == t.body.x
    decreases |ds|
  {
    if |ds| > 0 {
      DecorPassBounds(ds[..|ds| - 1], hb, t);
    }
  }

  // ---- The whole pass ----

  /** Everything `checkCollisions` changes: the player's side and the lists it walks. */
  datatype Scene = Scene(body: PlayerPhysics.Body, lives: int, powers: Powers, combo: Combo, shake: Shake,
                         popups: seq<Popup>, plats: seq<PlatformEntry>, pickups: seq<PickupEntry>,
                         foes: seq<EnemyEntry>, shots: seq<Shot>)

  /**
   * `checkCollisions(prev)`: the platform loop from an ungrounded footing, the
   * ground safety net, `setGrounded`, the combo clock, then the pickup, enemy,
   * projectile and decoration loops against the hitbox left after the snapping.
   */
  function Collide(s: Scene, decos: seq<Decoration>, prev: Rect, w: real, h: real, hasFont: bool): (r: Scene)
    requires w >= 0.0 && h >= 0.0 && s.combo.count >= 0
    ensures |r.plats| == |s.plats| && |r.pickups| == |s.pickups| && |r.foes| == |s.foes| && |r.shots| == |s.shots|
  {
    var land := PlatformPass(s.plats, prev, Footing(s.body, s.lives, false), w, h);
    var foot := SafetyNet(land.1, w, h);
    var hb := PlayerPhysics.Bounds(foot.body, w, h);
    var t0 := Tally(PlayerPhysics.SetGrounded(foot.body, foot.grounded), foot.lives, s.powers,
                    ComboTick(s.combo), s.shake, s.popups);
    var picked := PickupPass(s.pickups, hb, t0, hasFont);
    var fought := EnemyPass(s.foes, hb, picked.1, hasFont);
    var dodged := ShotPass(s.shots, hb, fought.1);
    var t := DecorPass(decos, hb, dodged.1);
    Scene(t.body, t.lives, t.powers, t.combo, t.shake, t.popups, land.0, picked.0, fought.0, dodged.0)
  }

  /** The player's side of a scene as the loops see it. */
  function TallyOf(s: Scene): Tally
  {
    Tally(s.body, s.lives, s.powers, s.combo, s.shake, s.popups)
  }

  /**
   * The pass keeps the player's side sane, never adds a life, never moves the
   * player sideways; platforms only start to crumble, enemies are only
   * defeated, and projectiles are only spent.
   */
  lemma CollideBounds(s: Scene, decos: seq<Decoration>, prev: Rect, w: real, h: real, hasFont: bool)
    requires w >= 0.0 && h >= 0.0 && Sane(TallyOf(s))
    ensures var r := Collide(s, decos, prev, w, h, hasFont);
            Sane(TallyOf(r)) && r.lives <= s.lives && r.body.x == s.body.x &&
            (forall i :: 0 <= i < |s.plats| ==>
               r.plats[i].outline == s.plats[i].outline &&
               (r.plats[i].ledge == s.plats[i].ledge || r.plats[i].ledge == Ledges.StartBreaking(s.plats[i].ledge))) &&
            (forall i :: 0 <= i < |s.foes| ==> r.foes[i] == s.foes[i] || r.foes[i] == s.foes[i].(foe := s.foes[i].foe.(active := false))) &&
            (forall i :: 0 <= i < |s.shots| ==> r.shots[i] == s.shots[i] || r.shots[i] == s.shots[i].(active := false))
  {
    var land := PlatformPass(s.plats, prev, Footing(s.body, s.lives, false), w, h);
    PlatformPassBounds(s.plats, prev, Footing(s.body, s.lives, false), w, h);
    var foot := SafetyNet(land.1, w, h);
    var hb := PlayerPhysics.Bounds(foot.body, w, h);
    var t0 := Tally(PlayerPhysics.SetGrounded(foot.body, foot.grounded), foot.lives, s.powers,
                    ComboTick(s.combo), s.shake, s.popups);
    assert Sane(t0);
    PickupPassBounds(s.pickups, hb, t0, hasFont);
    var picked := PickupPass(s.pickups, hb, t0, hasFont);
    EnemyPassBounds(s.foes, hb, picked.1, hasFont);
    var fought := EnemyPass(s.foes, hb, picked.1, hasFont);
    ShotPassBounds(s.shots, hb, fought.1);
    var dodged := ShotPass(s.shots, hb, fought.1);
    DecorPassBounds(decos, hb, dodged.1);
  }
}
