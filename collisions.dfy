// The loops of `checkCollisions`, written as the loops they are and each
// proved to compute the matching fold of Contacts.
module Collisions {
  import opened Geometry
  import PlayerPhysics
  import opened RunRules
  import opened WorldGen
  import opened Contacts

  /** The platform loop. */
  method LandAll(ps: seq<PlatformEntry>, prev: Rect, f: Footing, w: real, h: real)
    returns (out: seq<PlatformEntry>, g: Footing)
    requires w >= 0.0 && h >= 0.0
    ensures (out, g) == PlatformPass(ps, prev, f, w, h)
  {
    out, g := [], f;
    for i := 0 to |ps|
      invariant (out, g) == PlatformPass(ps[..i], prev, f, w, h)
    {
      assert ps[..i + 1][..i] == ps[..i];
      var r := PlatformContact(ps[i], prev, g, w, h);
      out, g := out + [r.0], r.1;
    }
    assert ps[..|ps|] == ps;
  }

  /** The pickup loop. */
  method CollectAll(cs: seq<PickupEntry>, hb: Rect, t: Tally, hasFont: bool) returns (out: seq<PickupEntry>, u: Tally)
    requires t.combo.count >= 0
    ensures (out, u) == PickupPass(cs, hb, t, hasFont)
  {
    out, u := [], t;
    for i := 0 to |cs|
      invariant (out, u) == PickupPass(cs[..i], hb, t, hasFont)
    {
      assert cs[..i + 1][..i] == cs[..i];
      var r := PickupContact(cs[i], hb, u, hasFont);
      out, u := out + [r.0], r.1;
    }
    assert cs[..|cs|] == cs;
  }

  /** The enemy loop. */
  method FightAll(es: seq<EnemyEntry>, hb: Rect, t: Tally, hasFont: bool) returns (out: seq<EnemyEntry>, u: Tally)
    ensures (out, u) == EnemyPass(es, hb, t, hasFont)
  {
    out, u := [], t;
    for i := 0 to |es|
      invariant (out, u) == EnemyPass(es[..i], hb, t, hasFont)
    {
      assert es[..i + 1][..i] == es[..i];
      var r := EnemyContact(es[i], hb, u, hasFont);
      out, u := out + [r.0], r.1;
    }
    assert es[..|es|] == es;
  }

  /** The projectile loop. */
  method DodgeAll(ss: seq<Shot>, hb: Rect, t: Tally) returns (out: seq<Shot>, u: Tally)
    ensures (out, u) == ShotPass(ss, hb, t)
  {
    out, u := [], t;
    for i := 0 to |ss|
      invariant (out, u) == ShotPass(ss[..i], hb, t)
    {
      assert ss[..i + 1][..i] == ss[..i];
      var r := ShotContact(ss[i], hb, u);
      out, u := out + [r.0], r.1;
    }
    assert ss[..|ss|] == ss;
  }

  /** The decoration loop. */
  method TouchAll(ds: seq<Decoration>, hb: Rect, t: Tally) returns (u: Tally)
    ensures u == DecorPass(ds, hb, t)
  {
    u := t;
    for i := 0 to |ds|
      invariant u == DecorPass(ds[..i], hb, t)
    {
      assert ds[..i + 1][..i] == ds[..i];
      u := DecorContact(ds[i], hb, u);
    }
    assert ds[..|ds|] == ds;
  }

  /** `checkCollisions(prev)`, loop by loop. */
  method Resolve(s: Scene, decos: seq<Decoration>, prev: Rect, w: real, h: real, hasFont: bool) returns (r: Scene)
    requires w >= 0.0 && h >= 0.0 && s.combo.count >= 0
    ensures r == Collide(s, decos, prev, w, h, hasFont)
  {
    var plats, foot := LandAll(s.plats, prev, Footing(s.body, s.lives, false), w, h);
    if !foot.grounded {
      var hb := PlayerPhysics.Bounds(foot.body, w, h);
      if NearGround(hb) {
        foot := Footing(foot.body.(y := GroundTop - hb.height), foot.lives, true);
      }
    }
    var hb := PlayerPhysics.Bounds(foot.body, w, h);
    var t := Tally(PlayerPhysics.SetGrounded(foot.body, foot.grounded), foot.lives, s.powers,
                   ComboTick(s.combo), s.shake, s.popups);
    var pickups, foes, shots;
    pickups, t := CollectAll(s.pickups, hb, t, hasFont);
    foes, t := FightAll(s.foes, hb, t, hasFont);
    shots, t := DodgeAll(s.shots, hb, t);
    t := TouchAll(decos, hb, t);
    r := Scene(t.body, t.lives, t.powers, t.combo, t.shake, t.popups, plats, pickups, foes, shots);
  }
}
