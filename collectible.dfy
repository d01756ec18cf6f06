// Pickups: the point table, the power-up classification, the floating bob,
// the magnet pull and its velocity decay, and the collected/active flags.
module Pickups {
  import opened Geometry
  import opened Assets
  import opened Animations

  datatype Kind = Coin | Gem | Candy | Heart | Magnet | Shield | SpeedBoost | DoublePoints | ExtraLife

  /** `isPowerUp()`. */
  predicate IsPowerUp(k: Kind)
  {
    k == Magnet || k == Shield || k == SpeedBoost || k == DoublePoints || k == ExtraLife
  }

  /** `getPoints()`: only the four plain pickups are worth points. */
  function Points(k: Kind): (p: nat)
    ensures k == Coin ==> p == 10
    ensures k == Gem ==> p == 25
    ensures k == Candy ==> p == 5
    ensures k == Heart ==> p == 10
    ensures p > 0 <==> !IsPowerUp(k)
  {
    match k
    case Coin => 10
    case Gem => 25
    case Candy => 5
    case Heart => 10
    case _ => 0
  }

  /** `getTextureName()`: one texture per kind (the source's `default` branch is unreachable for this closed enum). */
  function TextureName(k: Kind): (name: string)
    ensures |name| > 0
  {
    match k
    case Coin => "carrot"
    case Gem => "carrot_gold"
    case Candy => "mushroom_red"
    case Heart => "coin_gold"
    case Magnet => "powerup_bunny"
    case Shield => "powerup_bubble"
    case SpeedBoost => "powerup_jetpack"
    case DoublePoints => "powerup_wings"
    case ExtraLife => "lifes"
  }

  /** No two kinds share a texture, so the drawn sprite identifies the kind. */
  lemma TextureNamesDistinct(a: Kind, b: Kind)
    requires a != b
    ensures TextureName(a) != TextureName(b)
  {
  }

  /** The sprite scale chosen in the constructor. */
  function ScaleOf(k: Kind): (s: real)
    ensures !IsPowerUp(k) ==> s == 0.6
    ensures IsPowerUp(k) && k != ExtraLife ==> s == 0.85
    ensures k == ExtraLife ==> s == 0.7
  {
    if IsPowerUp(k) then (if k == ExtraLife then 0.7 else 0.85) else 0.6
  }

  const BobSpeed: real := 2.0
  const BobHeight: real := 10.0
  const Damping: real := 0.9
  const PickupFrameTime: real := 0.15

  /** The whole state of a `Collectible`; (spriteX, spriteY) is where the sprite is drawn. */
  datatype Item = Item(
    x: real, y: real,
    kind: Kind,
    collected: bool, active: bool,
    anim: Clock,
    floatOffset: real, floatTime: real,
    vx: real, vy: real,
    spriteX: real, spriteY: real)

  /** `isActive()`: active and not yet collected. */
  predicate Live(c: Item)
  {
    c.active && !c.collected
  }

  /** The animation the constructor loads: one full-texture frame at 0.15 s, or none without the texture. */
  function PickupClip(tex: Textures, k: Kind): (r: Clock)
    ensures r.Valid() && r.frame == 0 && !r.finished && r.looping
    ensures Has(tex, TextureName(k)) ==> |r.frames| == 1 && r.frameTime == PickupFrameTime
    ensures !Has(tex, TextureName(k)) ==> r == Initial
  {
    var t := tex(TextureName(k));
    if t.Exists() then Initial.(frames := [IntRect(0, 0, t.w, t.h)], frameTime := PickupFrameTime)
    else Initial
  }

  /** A new pickup at (px, py): live, at rest, drawn where it stands. */
  function Spawned(tex: Textures, px: real, py: real, k: Kind): (r: Item)
    ensures Live(r) && r.kind == k && r.x == px && r.y == py
    ensures r.vx == 0.0 && r.vy == 0.0 && r.spriteX == px && r.spriteY == py
  {
    Item(px, py, k, false, true, PickupClip(tex, k), 0.0, 0.0, 0.0, 0.0, px, py)
  }

  /** The bob: the phase runs at twice real time and the sprite sways 10 px up and down. */
  function Bob(c: Item, dt: real, sine: real -> Wave): (r: Item)
    ensures r.floatTime == c.floatTime + dt * BobSpeed
    ensures -BobHeight <= r.floatOffset <= BobHeight
    ensures r == c.(floatTime := r.floatTime, floatOffset := r.floatOffset)
  {
    var t := c.floatTime + dt * BobSpeed;
    c.(floatTime := t, floatOffset := sine(t) * BobHeight)
  }

  /** The magnet drift: move by the velocity, then damp it to 90%. */
  function Drift(c: Item, dt: real): (r: Item)
    ensures r.x == c.x + c.vx * dt && r.y == c.y + c.vy * dt
    ensures r.vx == Damping * c.vx && r.vy == Damping * c.vy
    ensures Abs(r.vx) <= Abs(c.vx) && Abs(r.vy) <= Abs(c.vy)
    ensures r == c.(x := r.x, y := r.y, vx := r.vx, vy := r.vy)
  {
    c.(x := c.x + c.vx * dt, y := c.y + c.vy * dt, vx := c.vx * Damping, vy := c.vy * Damping)
  }

  /** The sprite is drawn at the position, lifted or lowered by the bob. */
  function PlaceSprite(c: Item): (r: Item)
    ensures r == c.(spriteX := c.x, spriteY := c.y + c.floatOffset)
  {
    c.(spriteX := c.x, spriteY := c.y + c.floatOffset)
  }

  /** `update(dt)`. */
  function Float(c: Item, dt: real, sine: real -> Wave): (r: Item)
  {
    if !Live(c) then c
    else PlaceSprite(Drift(Bob(c, dt, sine).(anim := Advance(c.anim, dt)), dt))
  }

  /** An inactive or collected pickup is frozen; a live one moves by its velocity, which decays. */
  lemma FloatEffect(c: Item, dt: real, sine: real -> Wave)
    ensures !Live(c) ==> Float(c, dt, sine) == c
    ensures Live(c) ==> Float(c, dt, sine).x == c.x + c.vx * dt && Float(c, dt, sine).y == c.y + c.vy * dt
    ensures Live(c) ==> Float(c, dt, sine).vx == Damping * c.vx && Float(c, dt, sine).vy == Damping * c.vy
    ensures Live(c) ==> Float(c, dt, sine).spriteY - Float(c, dt, sine).y == sine(c.floatTime + dt * BobSpeed) * BobHeight
    ensures Live(c) ==> Live(Float(c, dt, sine)) && Float(c, dt, sine).kind == c.kind
  {
  }

  /** A velocity component damped n times. */
  function Damped(v: real, n: nat): (r: real)
    ensures Abs(r) <= Abs(v)
    ensures v == 0.0 ==> r == 0.0
    decreases n
  {
    if n == 0 then v else Damped(Damping * v, n - 1)
  }

  /** n successive updates with the same time step. */
  function FloatN(c: Item, dt: real, sine: real -> Wave, n: nat): (r: Item)
    decreases n
  {
    if n == 0 then c else FloatN(Float(c, dt, sine), dt, sine, n - 1)
  }

  /** With the magnet off, the pull fades: n updates damp the velocity n times, and the pickup stays live. */
  lemma {:induction false} VelocityFades(c: Item, dt: real, sine: real -> Wave, n: nat)
    requires Live(c)
    ensures FloatN(c, dt, sine, n).vx == Damped(c.vx, n)
    ensures FloatN(c, dt, sine, n).vy == Damped(c.vy, n)
    ensures Live(FloatN(c, dt, sine, n)) && FloatN(c, dt, sine, n).kind == c.kind
    decreases n
  {
    if n > 0 {
      FloatDamps(c, dt, sine);
      VelocityFades(Float(c, dt, sine), dt, sine, n - 1);
    }
  }

  lemma FloatDamps(c: Item, dt: real, sine: real -> Wave)
    requires Live(c)
    ensures var r := Float(c, dt, sine); Live(r) && r.kind == c.kind && r.vx == Damping * c.vx && r.vy == Damping * c.vy
  {
  }

  /** 0.9^n. */
  function DampingPower(n: nat): real
    decreases n
  {
    if n == 0 then 1.0 else Damping * DampingPower(n - 1)
  }

  /** Damping n times scales by 0.9^n. */
  lemma {:induction false} DampedIsGeometric(v: real, n: nat)
    ensures Damped(v, n) == DampingPower(n) * v
    decreases n
  {
    if n > 0 {
      DampedIsGeometric(Damping * v, n - 1);
      assert DampingPower(n - 1) * (Damping * v) == (Damping * DampingPower(n - 1)) * v;
    }
  }

  /** `collect()`. */
  function Collect(c: Item): (r: Item)
    ensures r.collected && !r.active && !Live(r)
    ensures r == c.(collected := true, active := false)
  {
    c.(collected := true, active := false)
  }

  /** A collected pickup cannot be brought back: `setActive(true)` does not make it live. */
  lemma CollectedStaysDead(c: Item)
    ensures !Live(Collect(c).(active := true))
  {
  }

  /**
   * `attractTowards(target, strength, dt)`. `len` is the value of `std::sqrt` at the
   * squared distance to the target, characterised by its two defining properties.
   */
  function Attract(c: Item, tx: real, ty: real, strength: real, dt: real, len: real): (r: Item)
    requires len >= 0.0 && len * len == (tx - c.x) * (tx - c.x) + (ty - c.y) * (ty - c.y)
    ensures len <= 1.0 ==> r == c
    ensures len > 1.0 ==> r == c.(vx := c.vx + (tx - c.x) / len * strength * dt,
                                  vy := c.vy + (ty - c.y) / len * strength * dt)
  {
    if len > 1.0 then
      var ux := (tx - c.x) / len;
      var uy := (ty - c.y) / len;
      c.(vx := c.vx + ux * strength * dt, vy := c.vy + uy * strength * dt)
    else c
  }

  /** The pull points at the target with magnitude strength·dt: the direction is a unit vector. */
  lemma AttractPullHasUnitDirection(c: Item, tx: real, ty: real, strength: real, dt: real, len: real)
    requires len >= 0.0 && len * len == (tx - c.x) * (tx - c.x) + (ty - c.y) * (ty - c.y)
    requires len > 1.0
    ensures var r := Attract(c, tx, ty, strength, dt, len);
            (r.vx - c.vx) * (r.vx - c.vx) + (r.vy - c.vy) * (r.vy - c.vy) == (strength * dt) * (strength * dt)
  {
    var dx, dy := tx - c.x, ty - c.y;
    var ux, uy := dx / len, dy / len;
    var k := strength * dt;
    assert ux * len == dx && uy * len == dy;
    assert (ux * ux + uy * uy) * (len * len) == dx * dx + dy * dy by {
      assert (ux * ux) * (len * len) == (ux * len) * (ux * len);
      assert (uy * uy) * (len * len) == (uy * len) * (uy * len);
    }
    assert ux * ux + uy * uy == 1.0;
    assert (ux * k) * (ux * k) + (uy * k) * (uy * k) == (ux * ux + uy * uy) * (k * k);
  }

}

// `class Collectible`: the source's fields, each method proved to act on them
// as the matching function of Pickups acts on the snapshot.
module Collectibles {
  import opened Geometry
  import opened Assets
  import opened Animations
  import opened Pickups

  /** `class Collectible` with the source's fields; the animation member is held as its value. */
  class Collectible {
    var x: real
    var y: real
    const kind: Kind
    var collected: bool
    var active: bool
    var anim: Clock
    var floatOffset: real
    var floatTime: real
    var vx: real
    var vy: real
    var spriteX: real
    var spriteY: real
    /** The sprite's drawn size: the texture's size (0 when missing) times the kind's scale. */
    const spriteW: real
    const spriteH: real

    function Data(): Item
      reads this
    {
      Item(x, y, kind, collected, active, anim, floatOffset, floatTime, vx, vy, spriteX, spriteY)
    }

    constructor (tex: Textures, px: real, py: real, k: Kind)
      ensures Data() == Spawned(tex, px, py, k)
      ensures spriteW == tex(TextureName(k)).Width() as real * ScaleOf(k)
      ensures spriteH == tex(TextureName(k)).Height() as real * ScaleOf(k)
    {
      x, y := px, py;
      kind := k;
      collected, active := false, true;
      anim := PickupClip(tex, k);
      floatOffset, floatTime := 0.0, 0.0;
      vx, vy := 0.0, 0.0;
      spriteX, spriteY := px, py;
      spriteW := tex(TextureName(k)).Width() as real * ScaleOf(k);
      spriteH := tex(TextureName(k)).Height() as real * ScaleOf(k);
    }

    method Update(deltaTime: real, sine: real -> Wave)
      modifies this
      ensures Data() == Float(old(Data()), deltaTime, sine)
    {
      if !active || collected {
        return;
      }
      floatTime := floatTime + deltaTime * BobSpeed;
      floatOffset := sine(floatTime) * BobHeight;
      anim := Advance(anim, deltaTime);
      Drift(deltaTime);
      spriteX, spriteY := x, y + floatOffset;
    }

    method Drift(deltaTime: real)
      modifies this
      ensures Data() == Pickups.Drift(old(Data()), deltaTime)
    {
      x, y := x + vx * deltaTime, y + vy * deltaTime;
      vx, vy := vx * Damping, vy * Damping;
    }

    function GetBounds(): (r: Rect)
      reads this
      ensures r == Rect(spriteX, spriteY, spriteW, spriteH)
    {
      Rect(spriteX, spriteY, spriteW, spriteH)
    }

    function IsCollected(): (r: bool)
      reads this
      ensures r == Data().collected
    {
      collected
    }

    method Collect()
      modifies this
      ensures Data() == Pickups.Collect(old(Data()))
    {
      collected := true;
      active := false;
    }

    function GetPoints(): (r: nat)
      ensures r == Points(kind)
    {
      Points(kind)
    }

    function IsActive(): (r: bool)
      reads this
      ensures r <==> Live(Data())
    {
      active && !collected
    }

    method SetActive(a: bool)
      modifies this
      ensures Data() == old(Data()).(active := a)
    {
      active := a;
    }

    function IsPowerUpItem(): (r: bool)
      ensures r <==> IsPowerUp(kind)
    {
      IsPowerUp(kind)
    }

    method AttractTowards(tx: real, ty: real, strength: real, deltaTime: real, len: real)
      requires len >= 0.0 && len * len == (tx - x) * (tx - x) + (ty - y) * (ty - y)
      modifies this
      ensures Data() == Attract(old(Data()), tx, ty, strength, deltaTime, len)
    {
      if len > 1.0 {
        var ux := (tx - x) / len;
        var uy := (ty - y) / len;
        vx := vx + ux * strength * deltaTime;
        vy := vy + uy * strength * deltaTime;
      }
    }

    method SetPosition(px: real, py: real)
      modifies this
      ensures Data() == old(Data()).(x := px, y := py, spriteX := px, spriteY := py)
    {
      x, y := px, py;
      spriteX, spriteY := px, py;
    }
  }
}
