// The per-frame rules and loops of `PlayingState::update` that act on the
// run's lists: clouds, enemies and their shots, pickups under the magnet,
// projectiles, score popups, and the filters that erase finished entities.
module Frame {
  import opened Geometry
  import opened Assets
  import opened Sequences
  import Pickups
  import EnemyRules
  import Ledges
  import opened RunRules
  import opened WorldGen

  // ---- Clouds ----

  /** A cloud sprite with its entry of `cloudSpeeds_`. */
  datatype Cloud = Cloud(x: real, y: real, scale: real, speed: real)

  const CloudCount: nat := 5

  /** A cloud of the constructor: scale, x, y and speed, drawn in that order. */
  function NewCloud(draws: Draws, cursor: nat): (c: Cloud)
    ensures 0.6 <= c.scale <= 1.0 && 0.0 <= c.x <= 1600.0 && 60.0 <= c.y <= 220.0 && 20.0 <= c.speed <= 40.0
  {
    Cloud(Scale(0.0, 1600.0, draws(cursor + 1)), Scale(60.0, 220.0, draws(cursor + 2)),
          Scale(0.6, 1.0, draws(cursor)), Scale(20.0, 40.0, draws(cursor + 3)))
  }

  /** One cloud in `update`: it drifts left, and once 300 px behind the camera it reappears 1500 px ahead at a new height. */
  function Drift(c: Cloud, dt: real, cameraX: real, draws: Draws, cursor: nat): (r: (Cloud, nat))
    ensures r.0.x >= cameraX - 300.0 && r.0.speed == c.speed && r.0.scale == c.scale
    ensures r.1 == cursor ==> r.0 == c.(x := c.x - c.speed * dt)
    ensures r.1 != cursor ==> r.1 == cursor + 1 && r.0.x == cameraX + 1500.0 && 60.0 <= r.0.y <= 220.0 &&
                              c.x - c.speed * dt < cameraX - 300.0
  {
    var moved := c.(x := c.x - c.speed * dt);
    if moved.x < cameraX - 300.0 then (moved.(x := cameraX + 1500.0, y := Scale(60.0, 220.0, draws(cursor))), cursor + 1)
    else (moved, cursor)
  }

  /** The cloud loop of `update`, in list order. */
  function DriftAll(cs: seq<Cloud>, dt: real, cameraX: real, draws: Draws, cursor: nat): (r: (seq<Cloud>, nat))
    ensures |r.0| == |cs|
    decreases |cs|
  {
    if |cs| == 0 then ([], cursor)
    else
      var before := DriftAll(cs[..|cs| - 1], dt, cameraX, draws, cursor);
      var last := Drift(cs[|cs| - 1], dt, cameraX, draws, before.1);
      (before.0 + [last.0], last.1)
  }

  /** After the loop no cloud is more than 300 px behind the camera, and each recycled cloud used one draw. */
  lemma {:induction false} CloudsStayInView(cs: seq<Cloud>, dt: real, cameraX: real, draws: Draws, cursor: nat)
    ensures var r := DriftAll(cs, dt, cameraX, draws, cursor);
            cursor <= r.1 <= cursor + |cs| &&
            forall i :: 0 <= i < |cs| ==> r.0[i].x >= cameraX - 300.0 && r.0[i].speed == cs[i].speed
    decreases |cs|
  {
    if |cs| > 0 {
      var n := |cs| - 1;
      CloudsStayInView(cs[..n], dt, cameraX, draws, cursor);
      var before := DriftAll(cs[..n], dt, cameraX, draws, cursor);
      var r := DriftAll(cs, dt, cameraX, draws, cursor);
      assert forall i :: 0 <= i < n ==> r.0[i] == before.0[i] && cs[i] == cs[..n][i];
    }
  }

  // ---- Enemies and pickups in `update` ----

  /** One enemy in `update`: aimed at the player, then updated. */
  function Chase(e: EnemyEntry, px: real, py: real, dt: real, sine: real -> Wave): (r: EnemyEntry)
    ensures r.frameCount == e.frameCount && r.w == e.w && r.h == e.h
    ensures !e.foe.active ==> r.foe == e.foe.(targetX := px, targetY := py)
  {
    e.(foe := EnemyRules.Step(e.foe.(targetX := px, targetY := py), dt, sine, e.frameCount))
  }

  /** The projectiles fired by the enemies that want to shoot, one each, in list order. */
  function Volley(es: seq<EnemyEntry>): (r: seq<Shot>)
    ensures |r| <= |es|
    decreases |es|
  {
    if |es| == 0 then []
    else
      var e := es[|es| - 1];
      Volley(es[..|es| - 1]) + (if e.foe.wantsToShoot then [Fired(EnemyRules.ShootOrigin(e.foe))] else [])
  }

  /** Every projectile in a volley is live and flies left at 420 px/s from 20 px left of its enemy; no shooter, no volley. */
  lemma {:induction false} VolleyFliesLeft(es: seq<EnemyEntry>)
    ensures forall i :: 0 <= i < |Volley(es)| ==>
              Volley(es)[i].active && Volley(es)[i].vx == -ProjectileSpeed && Volley(es)[i].vy == 0.0 &&
              exists j :: 0 <= j < |es| && es[j].foe.wantsToShoot && Volley(es)[i].x == es[j].foe.x - 20.0
    ensures (forall j :: 0 <= j < |es| ==> !es[j].foe.wantsToShoot) ==> Volley(es) == []
    decreases |es|
  {
    if |es| > 0 {
      var n := |es| - 1;
      VolleyFliesLeft(es[..n]);
      var v := Volley(es);
      var front := Volley(es[..n]);
      forall i | 0 <= i < |v|
        ensures v[i].active && v[i].vx == -ProjectileSpeed && v[i].vy == 0.0 &&
                exists j :: 0 <= j < |es| && es[j].foe.wantsToShoot && v[i].x == es[j].foe.x - 20.0
      {
        if i < |front| {
          assert v[i] == front[i];
          var j :| 0 <= j < n && es[..n][j].foe.wantsToShoot && front[i].x == es[..n][j].foe.x - 20.0;
          assert es[j] == es[..n][j];
        } else {
          assert es[n].foe.wantsToShoot && v[i] == Fired(EnemyRules.ShootOrigin(es[n].foe));
        }
      }
      if forall j :: 0 <= j < |es| ==> !es[j].foe.wantsToShoot {
        assert forall j :: 0 <= j < n ==> es[..n][j] == es[j];
      }
    }
  }

  /** `std::sqrt` on the values it is used on: a non-negative square root. */
  ghost predicate Roots(root: real -> real)
  {
    forall v :: v >= 0.0 ==> root(v) >= 0.0 && root(v) * root(v) == v
  }

  /** One pickup in `update`: under the magnet, pulled toward the player when less than 220 px away horizontally; then updated. */
  function Pull(c: PickupEntry, px: real, py: real, magnet: bool, dt: real, sine: real -> Wave, root: real -> real): (r: PickupEntry)
    requires Roots(root)
    ensures r.w == c.w && r.h == c.h && r.item.kind == c.item.kind
    ensures Pickups.Live(r.item) == Pickups.Live(c.item)
  {
    var dx := px - c.item.x;
    var dy := py - c.item.y;
    assert dx * dx >= 0.0 && dy * dy >= 0.0;
    var pulled := if magnet && Abs(c.item.x - px) < MagnetRadius
                  then Pickups.Attract(c.item, px, py, MagnetStrength, dt, root(dx * dx + dy * dy))
                  else c.item;
    Pickups.FloatEffect(pulled, dt, sine);
    c.(item := Pickups.Float(pulled, dt, sine))
  }

  // ---- Filters ----

  predicate ShotLive(s: Shot)
  {
    s.active
  }

  predicate PopupAlive(p: Popup)
  {
    p.lifetime > 0.0
  }

  predicate EnemyLive(e: EnemyEntry)
  {
    e.foe.active
  }

  predicate PickupLive(c: PickupEntry)
  {
    Pickups.Live(c.item)
  }

  /** After pruning, only live enemies and pickups remain, and every live one of them is still there. */
  lemma PruneKeepsTheLive(es: seq<EnemyEntry>, cs: seq<PickupEntry>)
    ensures forall e :: e in Select(es, Flags(es, EnemyLive)) <==> e in es && e.foe.active
    ensures forall c :: c in Select(cs, Flags(cs, PickupLive)) <==> c in cs && Pickups.Live(c.item)
  {
    FilterExact(es, EnemyLive);
    FilterExact(cs, PickupLive);
  }

  /** The five clouds of the constructor, when the cloud texture exists, each from four draws. */
  method SetUpClouds(tex: Textures, draws: Draws, cursor: nat) returns (clouds: seq<Cloud>, next: nat)
    ensures !Has(tex, "cloud") ==> clouds == [] && next == cursor
    ensures Has(tex, "cloud") ==>
              next == cursor + 4 * CloudCount &&
              clouds == seq(CloudCount, i requires 0 <= i < CloudCount => NewCloud(draws, cursor + 4 * i))
  {
    clouds, next := [], cursor;
    if !Has(tex, "cloud") {
      return;
    }
    for i := 0 to CloudCount
      invariant next == cursor + 4 * i
      invariant clouds == seq(i, j requires 0 <= j < i => NewCloud(draws, cursor + 4 * j))
    {
      var scale := Scale(0.6, 1.0, draws(next));
      var x := Scale(0.0, 1600.0, draws(next + 1));
      var y := Scale(60.0, 220.0, draws(next + 2));
      var speed := Scale(20.0, 40.0, draws(next + 3));
      clouds := clouds + [Cloud(x, y, scale, speed)];
      next := next + 4;
    }
  }
  // ---- The loops of `update` ----

  /** The platform loop: every platform is updated. */
  method TickPlatforms(ps: seq<PlatformEntry>, dt: real) returns (out: seq<PlatformEntry>)
    ensures |out| == |ps|
    ensures forall i :: 0 <= i < |ps| ==> out[i] == ps[i].(ledge := Ledges.Tick(ps[i].ledge, dt))
  {
    out := [];
    for i := 0 to |ps|
      invariant |out| == i
      invariant forall j :: 0 <= j < i ==> out[j] == ps[j].(ledge := Ledges.Tick(ps[j].ledge, dt))
    {
      out := out + [ps[i].(ledge := Ledges.Tick(ps[i].ledge, dt))];
    }
  }

  /** The enemy loop: each enemy is aimed at the player and updated, and one that wants to shoot fires. */
  method ChaseAll(es: seq<EnemyEntry>, px: real, py: real, dt: real, sine: real -> Wave)
    returns (out: seq<EnemyEntry>, fired: seq<Shot>)
    ensures |out| == |es|
    ensures forall i :: 0 <= i < |es| ==> out[i] == Chase(es[i], px, py, dt, sine)
    ensures fired == Volley(out)
  {
    out, fired := [], [];
    for i := 0 to |es|
      invariant |out| == i
      invariant forall j :: 0 <= j < i ==> out[j] == Chase(es[j], px, py, dt, sine)
      invariant fired == Volley(out)
    {
      var e := Chase(es[i], px, py, dt, sine);
      if e.foe.wantsToShoot {
        fired := fired + [Fired(EnemyRules.ShootOrigin(e.foe))];
      }
      assert (out + [e])[..i] == out;
      out := out + [e];
    }
  }

  /** The cloud loop. */
  method DriftClouds(cs: seq<Cloud>, dt: real, cameraX: real, draws: Draws, cursor: nat)
    returns (out: seq<Cloud>, next: nat)
    ensures (out, next) == DriftAll(cs, dt, cameraX, draws, cursor)
  {
    out, next := [], cursor;
    for i := 0 to |cs|
      invariant (out, next) == DriftAll(cs[..i], dt, cameraX, draws, cursor)
    {
      assert cs[..i + 1][..i] == cs[..i];
      ghost var d := Drift(cs[i], dt, cameraX, draws, next);
      var c := cs[i].(x := cs[i].x - cs[i].speed * dt);
      if c.x < cameraX - 300.0 {
        c := c.(x := cameraX + 1500.0, y := Scale(60.0, 220.0, draws(next)));
        next := next + 1;
      }
      assert c == d.0 && next == d.1;
      out := out + [c];
    }
    assert cs[..|cs|] == cs;
  }

  /** The pickup loop: the magnet's pull, then each pickup's own update. */
  method PullAll(cs: seq<PickupEntry>, px: real, py: real, magnet: bool, dt: real,
                 sine: real -> Wave, root: real -> real) returns (out: seq<PickupEntry>)
    requires Roots(root)
    ensures |out| == |cs|
    ensures forall i :: 0 <= i < |cs| ==> out[i] == Pull(cs[i], px, py, magnet, dt, sine, root)
  {
    out := [];
    for i := 0 to |cs|
      invariant |out| == i
      invariant forall j :: 0 <= j < i ==> out[j] == Pull(cs[j], px, py, magnet, dt, sine, root)
    {
      out := out + [Pull(cs[i], px, py, magnet, dt, sine, root)];
    }
  }

  /** `handleProjectiles(dt)`: live projectiles move, and go out 200 px behind the camera. */
  method FlyAll(ss: seq<Shot>, dt: real, cameraX: real) returns (out: seq<Shot>)
    ensures |out| == |ss|
    ensures forall i :: 0 <= i < |ss| ==> out[i] == Fly(ss[i], dt, cameraX)
  {
    out := [];
    for i := 0 to |ss|
      invariant |out| == i
      invariant forall j :: 0 <= j < i ==> out[j] == Fly(ss[j], dt, cameraX)
    {
      var s := ss[i];
      if s.active {
        s := s.(x := s.x + s.vx * dt, y := s.y + s.vy * dt);
        if s.x < cameraX - 200.0 {
          s := s.(active := false);
        }
      }
      out := out + [s];
    }
  }

  /** Every popup a frame older. */
  function Aged(ps: seq<Popup>, dt: real): (r: seq<Popup>)
    ensures |r| == |ps| && forall i :: 0 <= i < |ps| ==> r[i] == Age(ps[i], dt)
  {
    seq(|ps|, i requires 0 <= i < |ps| => Age(ps[i], dt))
  }

  /** `updateScorePopups(dt)`: every popup ages, then the expired ones are erased. */
  method AgePopups(ps: seq<Popup>, dt: real) returns (out: seq<Popup>)
    ensures out == Select(Aged(ps, dt), Flags(Aged(ps, dt), PopupAlive))
  {
    var aged := [];
    for i := 0 to |ps|
      invariant |aged| == i
      invariant forall j :: 0 <= j < i ==> aged[j] == Age(ps[j], dt)
    {
      aged := aged + [Age(ps[i], dt)];
    }
    assert aged == Aged(ps, dt);
    out := Retain(aged, PopupAlive);
  }

  /** After ageing, exactly the popups with time left remain, each one second's worth older. */
  lemma PopupsExpire(ps: seq<Popup>, dt: real)
    ensures forall p :: p in Select(Aged(ps, dt), Flags(Aged(ps, dt), PopupAlive)) <==>
              p.lifetime > 0.0 && exists i :: 0 <= i < |ps| && p == Age(ps[i], dt)
  {
    var aged := Aged(ps, dt);
    FilterExact(aged, PopupAlive);
    forall p ensures p in aged <==> exists i :: 0 <= i < |ps| && p == Age(ps[i], dt) {
      if p in aged {
        var i :| 0 <= i < |aged| && aged[i] == p;
      }
    }
  }
}
