// Level generation in `PlayingState`: ground segments with their
// decorations, floating platforms with their pickup patterns, and the
// filters that drop what has been left behind.
module WorldGen {
  import opened Geometry
  import opened Assets
  import opened Sequences
  import Pickups
  import Ledges
  import RunRules

  // ---- What the run holds ----

  /** A pickup held by the run, with its sprite size. */
  datatype PickupEntry = PickupEntry(item: Pickups.Item, w: real, h: real)

  /** `std::make_unique<Collectible>(position, type)`. */
  function PickupEntryFor(tex: Textures, x: real, y: real, k: Pickups.Kind): (r: PickupEntry)
    ensures r.item == Pickups.Spawned(tex, x, y, k)
    ensures r.w >= 0.0 && r.h >= 0.0
  {
    PickupEntry(Pickups.Spawned(tex, x, y, k),
                tex(Pickups.TextureName(k)).Width() as real * Pickups.ScaleOf(k),
                tex(Pickups.TextureName(k)).Height() as real * Pickups.ScaleOf(k))
  }

  /** `collectible->getBounds()`: the sprite where it is drawn. */
  function PickupBounds(c: PickupEntry): Rect
  {
    Rect(c.item.spriteX, c.item.spriteY, c.w, c.h)
  }

  /** A platform held by the run, with the outline its constructor chose. */
  datatype PlatformEntry = PlatformEntry(ledge: Ledges.Ledge, outline: real)

  /** `std::make_unique<Platform>(position, size, type, range, speed)`. */
  function PlatformEntryFor(tex: Textures, x: real, y: real, w: real, h: real,
                            t: Ledges.PlatformType, range: real, speed: real): (r: PlatformEntry)
    ensures r.ledge == Ledges.Built(x, y, w, h, t, range, speed)
    ensures r.outline == Ledges.Outline(tex, t)
  {
    PlatformEntry(Ledges.Built(x, y, w, h, t, range, speed), Ledges.Outline(tex, t))
  }

  function PlatformBounds(p: PlatformEntry): Rect
  {
    Ledges.Bounds(p.ledge, p.outline)
  }

  /** The four decoration sprites, told apart by their texture. */
  datatype DecorKind = Cactus | RedMushroom | BrownMushroom | Spring

  /** A decoration: its sprite's global bounds and the `harmful` flag it was given. */
  datatype Decoration = Decoration(kind: DecorKind, box: Rect, harmful: bool)

  function DecorTexture(k: DecorKind): string
  {
    match k
    case Cactus => "cactus"
    case RedMushroom => "mushroom_red"
    case BrownMushroom => "decor_mushroom"
    case Spring => "spring"
  }

  /** A sprite of the kind's texture at (x, y) drawn at `scale`; cacti and brown mushrooms are marked harmful. */
  function DecorationAt(tex: Textures, k: DecorKind, x: real, y: real, scale: real): (d: Decoration)
    ensures d.kind == k && d.box.left == x && d.box.top == y
    ensures d.harmful <==> k in {Cactus, BrownMushroom}
  {
    var t := tex(DecorTexture(k));
    Decoration(k, Rect(x, y, t.Width() as real * scale, t.Height() as real * scale), k == Cactus || k == BrownMushroom)
  }

  predicate IsMushroom(d: Decoration)
  {
    d.kind == RedMushroom || d.kind == BrownMushroom
  }

  /** The overlap rule: every mushroom overlaps nothing that was placed before it. */
  predicate MushroomsClear(decos: seq<Decoration>)
  {
    forall i, j :: 0 <= i < j < |decos| && IsMushroom(decos[j]) ==> !Intersects(decos[i].box, decos[j].box)
  }

  /** No existing decoration overlaps the candidate. */
  predicate ClearOf(decos: seq<Decoration>, d: Decoration)
  {
    forall i :: 0 <= i < |decos| ==> !Intersects(decos[i].box, d.box)
  }

  /** A mushroom goes in only if it is clear; anything else goes in unchecked, as cacti and springs do. */
  lemma AppendKeepsMushroomsClear(decos: seq<Decoration>, d: Decoration)
    requires MushroomsClear(decos)
    requires IsMushroom(d) ==> ClearOf(decos, d)
    ensures MushroomsClear(decos + [d])
  {
    var e := decos + [d];
    forall i, j | 0 <= i < j < |e| && IsMushroom(e[j])
      ensures !Intersects(e[i].box, e[j].box)
    {
      if j < |decos| {
        assert e[i] == decos[i] && e[j] == decos[j];
      } else {
        assert e[j] == d && e[i] == decos[i];
      }
    }
  }

  /** Cacti are never checked against other decorations: one on top of a mushroom is still added. */
  lemma CactusIgnoresMushrooms(m: Decoration, c: Decoration)
    requires IsMushroom(m) && c.kind == Cactus && Intersects(m.box, c.box)
    ensures MushroomsClear([m, c]) && !ClearOf([m], c)
  {
    assert [m][0] == m;
  }

  // ---- Ground ----

  const GroundLookahead: real := 2400.0
  const GroundY: real := 600.0
  const GroundDepth: real := 140.0
  const GroundMinWidth: real := 420.0
  const GroundMaxWidth: real := 800.0
  const DecorScale: real := 0.5

  /** A ground segment starting at x. */
  function GroundPiece(tex: Textures, x: real, width: real): (p: PlatformEntry)
    ensures p.ledge.x == x && p.ledge.y == GroundY && p.ledge.w == width && p.ledge.h == GroundDepth
    ensures p.ledge.kind == Ledges.Normal && p.ledge.active && p.ledge.range == 0.0
  {
    PlatformEntryFor(tex, x, GroundY, width, GroundDepth, Ledges.Normal, 0.0, 0.0)
  }

  /** What a ground segment is: Normal, 140 deep at y = 600, between 420 and 800 wide. */
  predicate IsGround(p: PlatformEntry)
  {
    p.ledge.y == GroundY && p.ledge.h == GroundDepth && p.ledge.kind == Ledges.Normal &&
    GroundMinWidth <= p.ledge.w <= GroundMaxWidth
  }

  /** Ground segments laid end to end from `start` to `end`, built from the back. */
  predicate GroundChain(segs: seq<PlatformEntry>, start: real, end: real)
    decreases |segs|
  {
    if |segs| == 0 then start == end
    else
      var last := segs[|segs| - 1];
      IsGround(last) && last.ledge.x + last.ledge.w == end &&
      GroundChain(segs[..|segs| - 1], start, last.ledge.x)
  }

  /** One more segment at the end of a chain. */
  lemma GroundChainSnoc(segs: seq<PlatformEntry>, start: real, end: real, p: PlatformEntry)
    requires GroundChain(segs, start, end) && IsGround(p) && p.ledge.x == end
    ensures GroundChain(segs + [p], start, end + p.ledge.w)
  {
    assert (segs + [p])[..|segs|] == segs;
  }

  /** A chain is gap-free: it starts at `start`, each segment begins where the previous one ends, and it spans 420 px per segment at least. */
  lemma {:induction false} GroundChainContiguous(segs: seq<PlatformEntry>, start: real, end: real)
    requires GroundChain(segs, start, end)
    ensures |segs| > 0 ==> segs[0].ledge.x == start
    ensures forall i :: 0 <= i < |segs| - 1 ==> segs[i].ledge.x + segs[i].ledge.w == segs[i + 1].ledge.x
    ensures forall i :: 0 <= i < |segs| ==> IsGround(segs[i])
    ensures end - start >= GroundMinWidth * |segs| as real
    decreases |segs|
  {
    if |segs| > 0 {
      var n := |segs| - 1;
      var front := segs[..n];
      GroundChainContiguous(front, start, segs[n].ledge.x);
      assert forall i :: 0 <= i < n ==> segs[i] == front[i];
      if n > 0 {
        assert segs[0] == front[0];
        if n >= 1 {
          assert front[n - 1].ledge.x + front[n - 1].ledge.w == segs[n].ledge.x by {
            GroundChainEnds(front, start, segs[n].ledge.x);
          }
        }
      }
    }
  }

  /** The last segment of a chain ends at its end. */
  lemma GroundChainEnds(segs: seq<PlatformEntry>, start: real, end: real)
    requires GroundChain(segs, start, end) && |segs| > 0
    ensures segs[|segs| - 1].ledge.x + segs[|segs| - 1].ledge.w == end
  {
  }

  /** A ground decoration's spot: 40 px in from either end of the segment, standing on the ground. */
  function GroundDecoration(tex: Textures, k: DecorKind, frontier: real, width: real, u: Unit): (d: Decoration)
    ensures d.kind == k
    ensures width >= 80.0 ==> frontier + 40.0 <= d.box.left <= frontier + width - 40.0
    ensures d.box.top == GroundY - tex(DecorTexture(k)).Height() as real * DecorScale
  {
    DecorationAt(tex, k, frontier + Scale(40.0, width - 40.0, u),
                 GroundY - tex(DecorTexture(k)).Height() as real * DecorScale, DecorScale)
  }

  /** A decoration standing at the ground line ends exactly on it. */
  lemma GroundDecorationStands(tex: Textures, k: DecorKind, frontier: real, width: real, u: Unit)
    ensures GroundDecoration(tex, k, frontier, width, u).box.Bottom() == GroundY
  {
  }

  /** A cactus spot saved for after the ground loop. */
  datatype CactusRequest = CactusRequest(x: real, y: real, scale: real)

  /** The "under a platform" test for a cactus at (cx, cy) of width cw, as written. */
  predicate Shelters(pb: Rect, cx: real, cy: real, cw: real)
  {
    pb.left < cx + cw && pb.left + pb.width > cx && pb.Bottom() < GroundY && pb.Bottom() > cy
  }

  predicate UnderPlatform(plats: seq<PlatformEntry>, cx: real, cy: real, cw: real)
  {
    exists i :: 0 <= i < |plats| && Shelters(PlatformBounds(plats[i]), cx, cy, cw)
  }

  /** Only floating platforms can veto a cactus: a ground segment's bottom is below the ground line. */
  lemma GroundNeverShelters(tex: Textures, x: real, width: real, cx: real, cy: real, cw: real)
    ensures !Shelters(PlatformBounds(GroundPiece(tex, x, width)), cx, cy, cw)
  {
    var p := GroundPiece(tex, x, width);
    assert p.outline >= 0.0;
  }

  // ---- Floating platforms ----

  const PlatformLookahead: real := 1200.0
  const PlatformThickness: real := 32.0
  const SpringScale: real := 0.7

  /** The type roll as written: three overriding thresholds, so Breaking and MovingVertical never come up. */
  function TypeFromRoll(roll: real): (t: Ledges.PlatformType)
    ensures roll <= 0.8 ==> t == Ledges.Normal
    ensures 0.8 < roll <= 0.9 ==> t == Ledges.MovingHorizontal
    ensures 0.9 < roll <= 0.95 ==> t == Ledges.Bouncy
    ensures 0.95 < roll ==> t == Ledges.Ice
  {
    var t0 := Ledges.Normal;
    var t1 := if roll > 0.8 then Ledges.MovingHorizontal else t0;
    var t2 := if roll > 0.9 then Ledges.Bouncy else t1;
    if roll > 0.95 then Ledges.Ice else t2
  }

  /** Generated platforms are never Breaking and never MovingVertical. */
  lemma NeverCrumblesNorRises(roll: real)
    ensures TypeFromRoll(roll) != Ledges.Breaking && TypeFromRoll(roll) != Ledges.MovingVertical
  {
  }

  /** The draws of one `ensurePlatforms` turn: where the platform goes and what it is. */
  datatype Plan = Plan(x: real, width: real, height: real, kind: Ledges.PlatformType,
                       range: real, speed: real, next: nat)

  function PlanPlatform(genX: real, minGap: real, maxGap: real, draws: RunRules.Draws, cursor: nat): (p: Plan)
  {
    var gap := Scale(minGap, maxGap, draws(cursor));
    var width := Scale(160.0, 360.0, draws(cursor + 1));
    var height := Scale(300.0, 520.0, draws(cursor + 2));
    var kind := TypeFromRoll(draws(cursor + 3));
    var moving := kind == Ledges.MovingHorizontal || kind == Ledges.MovingVertical;
    var range := if moving then Scale(60.0, 140.0, draws(cursor + 4)) else 0.0;
    var c := if moving then cursor + 5 else cursor + 4;
    var speed := if range > 0.0 then Scale(50.0, 90.0, draws(c)) else 0.0;
    Plan(genX + gap, width, height, kind, range, speed, if range > 0.0 then c + 1 else c)
  }

  /** Every planned platform lies within the gap range past the frontier, with sizes and motion in their ranges. */
  lemma PlanInRange(genX: real, minGap: real, maxGap: real, draws: RunRules.Draws, cursor: nat)
    requires minGap <= maxGap
    ensures var p := PlanPlatform(genX, minGap, maxGap, draws, cursor);
            genX + minGap <= p.x <= genX + maxGap &&
            160.0 <= p.width <= 360.0 && 300.0 <= p.height <= 520.0 &&
            p.kind in {Ledges.Normal, Ledges.MovingHorizontal, Ledges.Bouncy, Ledges.Ice} &&
            (p.kind == Ledges.MovingHorizontal <==> p.range > 0.0) &&
            (p.kind == Ledges.MovingHorizontal ==> 60.0 <= p.range <= 140.0 && 50.0 <= p.speed <= 90.0 && p.next == cursor + 6) &&
            (p.kind != Ledges.MovingHorizontal ==> p.range == 0.0 && p.speed == 0.0 && p.next == cursor + 4)
  {
    NeverCrumblesNorRises(draws(cursor + 3));
  }

  /** The platform a plan builds. */
  function PlannedPlatform(tex: Textures, p: Plan): (r: PlatformEntry)
    ensures r.ledge == Ledges.Built(p.x, p.height, p.width, PlatformThickness, p.kind, p.range, p.speed)
  {
    PlatformEntryFor(tex, p.x, p.height, p.width, PlatformThickness, p.kind, p.range, p.speed)
  }

  /** The spring shown on a Bouncy platform, centred on it and standing on its top. */
  function SpringFor(tex: Textures, p: Plan): (d: Decoration)
    ensures d.kind == Spring && !d.harmful
    ensures d.box.Bottom() == p.height
    ensures d.box.left + d.box.width / 2.0 == p.x + p.width * 0.5
  {
    var t := tex(DecorTexture(Spring));
    DecorationAt(tex, Spring, p.x + p.width * 0.5 - t.Width() as real * SpringScale / 2.0,
                 p.height - t.Height() as real * SpringScale, SpringScale)
  }

  // ---- Pickup patterns ----

  /** Where a pickup is placed and what it is. */
  datatype Place = Place(x: real, y: real, kind: Pickups.Kind)

  /** How many pickups a pattern lays out on a platform of width w. */
  function PatternCount(w: real): (n: int)
    ensures 2 <= n <= 7
    ensures 2 <= (w / 60.0).Floor <= 7 ==> n == (w / 60.0).Floor
  {
    ClampInt((w / 60.0).Floor, 2, 7)
  }

  /** The spacing that spreads n pickups from 20 px in on the left to 20 px in on the right. */
  function PatternStep(w: real, n: int): real
  {
    (w - 40.0) / MaxInt(1, n - 1) as real
  }

  lemma StepFits(w: real, n: int, i: int)
    requires w >= 40.0 && n >= 2 && 0 <= i <= n - 1
    ensures 0.0 <= PatternStep(w, n) * i as real <= w - 40.0
  {
    var step := PatternStep(w, n);
    assert MaxInt(1, n - 1) == n - 1;
    assert step * (n - 1) as real == w - 40.0;
    assert step >= 0.0;
    assert step * ((n - 1) - i) as real >= 0.0;
    assert step * i as real == step * (n - 1) as real - step * ((n - 1) - i) as real;
  }

  function Line(startX: real, step: real, topY: real, n: nat): (r: seq<Place>)
    ensures |r| == n
    ensures forall i :: 0 <= i < n ==> r[i] == Place(startX + step * i as real, topY, Pickups.Coin)
  {
    seq(n, i requires 0 <= i < n => Place(startX + step * i as real, topY, Pickups.Coin))
  }

  function Zigzag(startX: real, step: real, topY: real, n: nat): (r: seq<Place>)
    ensures |r| == n
    ensures forall i :: 0 <= i < n ==>
              r[i] == Place(startX + step * i as real, topY + (if i % 2 == 0 then -18.0 else 12.0), Pickups.Coin)
  {
    seq(n, i requires 0 <= i < n => Place(startX + step * i as real, topY + (if i % 2 == 0 then -18.0 else 12.0), Pickups.Coin))
  }

  /** The Gem cluster: each Gem takes two draws, an x offset in [-10, 20] then a lift in [0, 16]. */
  function Cluster(baseX: real, topY: real, draws: RunRules.Draws, cursor: nat, n: nat): (r: seq<Place>)
    ensures |r| == n
    ensures forall i :: 0 <= i < n ==>
              r[i] == Place(baseX + Scale(-10.0, 20.0, draws(cursor + 2 * i)),
                            topY + -Scale(0.0, 16.0, draws(cursor + 2 * i + 1)), Pickups.Gem)
  {
    seq(n, i requires 0 <= i < n =>
      Place(baseX + Scale(-10.0, 20.0, draws(cursor + 2 * i)), topY + -Scale(0.0, 16.0, draws(cursor + 2 * i + 1)), Pickups.Gem))
  }

  /** The bonus power-up: quarters of the roll give Magnet, Shield, Speed Boost and Double Points. */
  function BonusKind(roll: real): (k: Pickups.Kind)
    ensures k in {Pickups.Magnet, Pickups.Shield, Pickups.SpeedBoost, Pickups.DoublePoints}
    ensures Pickups.IsPowerUp(k) && k != Pickups.ExtraLife
  {
    if roll < 0.25 then Pickups.Magnet
    else if roll < 0.5 then Pickups.Shield
    else if roll < 0.75 then Pickups.SpeedBoost
    else Pickups.DoublePoints
  }

  /** What a pattern lays out and where the draws stand after it. */
  datatype Layout = Layout(places: seq<Place>, next: nat)

  /** The main row of `spawnCollectiblePattern`: a Coin line, a Coin zigzag or a Gem cluster. */
  function MainRow(px: real, py: real, w: real, draws: RunRules.Draws, cursor: nat): (r: Layout)
    requires w >= 120.0
  {
    var topY := py - 18.0;
    var n := PatternCount(w);
    var startX := px + 20.0;
    var step := PatternStep(w, n);
    var roll := draws(cursor);
    if roll < 0.5 then Layout(Line(startX, step, topY, n), cursor + 1)
    else if roll < 0.85 then Layout(Zigzag(startX, step, topY, n), cursor + 1)
    else
      var gems := MinInt(3, n);
      Layout(Cluster(startX + step * (n - 1) as real - 30.0, topY, draws, cursor + 1, gems), cursor + 1 + 2 * gems)
  }

  /** `spawnCollectiblePattern(platform)` for a platform at (px, py) of width w. */
  function Pattern(px: real, py: real, w: real, draws: RunRules.Draws, cursor: nat): (r: Layout)
    ensures w < 120.0 ==> r == Layout([], cursor)
    ensures w >= 120.0 ==> r.next >= cursor + 2
  {
    if w < 120.0 then Layout([], cursor)
    else
      var row := MainRow(px, py, w, draws, cursor);
      if draws(row.next) < 0.18 then
        Layout(row.places + [Place(px + w / 2.0, py - 18.0 - 24.0, BonusKind(draws(row.next + 1)))], row.next + 2)
      else Layout(row.places, row.next + 1)
  }

  /** Every pickup of a pattern lies 20 px or more inside the platform's ends and above its top. */
  lemma {:induction false} PatternOverPlatform(px: real, py: real, w: real, draws: RunRules.Draws, cursor: nat)
    requires w >= 120.0
    ensures var ps := Pattern(px, py, w, draws, cursor).places;
            forall i :: 0 <= i < |ps| ==>
              px + 20.0 <= ps[i].x <= px + w - 20.0 && py - 42.0 <= ps[i].y <= py - 6.0
  {
    var n := PatternCount(w);
    var step := PatternStep(w, n);
    var row := MainRow(px, py, w, draws, cursor);
    forall i | 0 <= i < |row.places|
      ensures px + 20.0 <= row.places[i].x <= px + w - 20.0 && py - 42.0 <= row.places[i].y <= py - 6.0
    {
      var roll := draws(cursor);
      if roll < 0.85 {
        StepFits(w, n, i);
      } else {
        StepFits(w, n, n - 1);
      }
    }
  }

  /** The row is all Coins or all Gems, n or at most 3 of them, and only the bonus is a power-up, never an Extra Life. */
  lemma PatternContents(px: real, py: real, w: real, draws: RunRules.Draws, cursor: nat)
    requires w >= 120.0
    ensures var ps := Pattern(px, py, w, draws, cursor).places;
            var row := MainRow(px, py, w, draws, cursor).places;
            var n := PatternCount(w);
            (|row| == n || |row| == MinInt(3, n)) &&
            ((forall i :: 0 <= i < |row| ==> row[i].kind == Pickups.Coin) ||
             (forall i :: 0 <= i < |row| ==> row[i].kind == Pickups.Gem)) &&
            ps[..|row|] == row && |row| <= |ps| <= |row| + 1 &&
            (forall i :: 0 <= i < |ps| ==> ps[i].kind != Pickups.ExtraLife) &&
            (forall i :: |row| <= i < |ps| ==> Pickups.IsPowerUp(ps[i].kind))
  {
  }

  /** The pickups a layout creates. */
  function Spawn(tex: Textures, ps: seq<Place>): (r: seq<PickupEntry>)
    ensures |r| == |ps|
    ensures forall i :: 0 <= i < |ps| ==> r[i] == PickupEntryFor(tex, ps[i].x, ps[i].y, ps[i].kind)
  {
    seq(|ps|, i requires 0 <= i < |ps| => PickupEntryFor(tex, ps[i].x, ps[i].y, ps[i].kind))
  }

  // ---- The generation loops ----

  /** What `ensureGround` works on: the platform and decoration lists, the ground frontier, the draws used so far and the cactus spots it saves for after the loop. */
  datatype Front = Front(plats: seq<PlatformEntry>, decos: seq<Decoration>, frontier: real, cursor: nat,
                         cacti: seq<CactusRequest>)

  /** A mushroom roll on a new ground segment: rolled only when the texture exists, kept only when clear of every decoration so far. */
  function MaybeMushroom(tex: Textures, draws: RunRules.Draws, k: DecorKind, threshold: real,
                         frontier: real, width: real, decos: seq<Decoration>, cursor: nat): (r: (seq<Decoration>, nat))
    ensures r.0 == decos || (|r.0| == |decos| + 1 && r.0[..|decos|] == decos && r.0[|decos|].kind == k &&
                             ClearOf(decos, r.0[|decos|]))
    ensures !Has(tex, DecorTexture(k)) ==> r == (decos, cursor)
    ensures k in {RedMushroom, BrownMushroom} && MushroomsClear(decos) ==> MushroomsClear(r.0)
  {
    if !Has(tex, DecorTexture(k)) then (decos, cursor)
    else if !(draws(cursor) > threshold) then (decos, cursor + 1)
    else
      var d := GroundDecoration(tex, k, frontier, width, draws(cursor + 1));
      if ClearOf(decos, d) then
        assert (decos + [d])[..|decos|] == decos;
        assert MushroomsClear(decos) ==> MushroomsClear(decos + [d]) by {
          if MushroomsClear(decos) {
            AppendKeepsMushroomsClear(decos, d);
          }
        }
        (decos + [d], cursor + 2)
      else (decos, cursor + 2)
  }

  /** The cactus roll on a new ground segment: rolled only when the texture exists; one time in 0.4 it saves a spot 40 px or more in from either end, standing on the ground line. */
  function CactusRoll(tex: Textures, draws: RunRules.Draws, frontier: real, width: real, cursor: nat): (r: (seq<CactusRequest>, nat))
    ensures !Has(tex, DecorTexture(Cactus)) ==> r == ([], cursor)
    ensures Has(tex, DecorTexture(Cactus)) && !(draws(cursor) > 0.6) ==> r == ([], cursor + 1)
    ensures |r.0| <= 1
    ensures |r.0| == 1 ==> r.1 == cursor + 2 && r.0[0].scale == DecorScale &&
                           r.0[0].y == GroundY - tex(DecorTexture(Cactus)).Height() as real * DecorScale &&
                           (width >= 80.0 ==> frontier + 40.0 <= r.0[0].x <= frontier + width - 40.0)
  {
    if !Has(tex, DecorTexture(Cactus)) then ([], cursor)
    else if !(draws(cursor) > 0.6) then ([], cursor + 1)
    else
      ([CactusRequest(frontier + Scale(40.0, width - 40.0, draws(cursor + 1)),
                      GroundY - tex(DecorTexture(Cactus)).Height() as real * DecorScale, DecorScale)], cursor + 2)
  }

  /** One turn of the `ensureGround` loop: a segment of width in [420, 800], a possible cactus spot, then the red and the brown mushroom rolls. */
  function GroundTurn(tex: Textures, draws: RunRules.Draws, f: Front): (r: Front)
    ensures f.frontier + GroundMinWidth <= r.frontier <= f.frontier + GroundMaxWidth
    ensures r.plats == f.plats + [GroundPiece(tex, f.frontier, r.frontier - f.frontier)]
  {
    var width := Scale(GroundMinWidth, GroundMaxWidth, draws(f.cursor));
    var spot := CactusRoll(tex, draws, f.frontier, width, f.cursor + 1);
    var red := MaybeMushroom(tex, draws, RedMushroom, 0.6, f.frontier, width, f.decos, spot.1);
    var brown := MaybeMushroom(tex, draws, BrownMushroom, 0.5, f.frontier, width, red.0, red.1);
    Front(f.plats + [GroundPiece(tex, f.frontier, width)], brown.0, f.frontier + width, brown.1, f.cacti + spot.0)
  }

  /** A turn appends at most two decorations and one cactus spot, and no mushroom that overlaps an earlier decoration. */
  lemma GroundTurnAppends(tex: Textures, draws: RunRules.Draws, f: Front)
    ensures var r := GroundTurn(tex, draws, f);
            f.decos <= r.decos && |r.decos| <= |f.decos| + 2 && f.cacti <= r.cacti && |r.cacti| <= |f.cacti| + 1 &&
            (MushroomsClear(f.decos) ==> MushroomsClear(r.decos))
  {
  }

  /** The `ensureGround` loop: segments until the frontier reaches `limit`. */
  function GroundUntil(tex: Textures, draws: RunRules.Draws, f: Front, limit: real): Front
    decreases if f.frontier < limit then (limit - f.frontier).Floor + 1 else 0
  {
    if f.frontier < limit then GroundUntil(tex, draws, GroundTurn(tex, draws, f), limit) else f
  }

  /** The segment a turn appends is ground, from the old frontier to the new one. */
  lemma GroundTurnLays(tex: Textures, draws: RunRules.Draws, f: Front) returns (piece: PlatformEntry)
    ensures GroundTurn(tex, draws, f).plats == f.plats + [piece]
    ensures IsGround(piece) && piece.ledge.x == f.frontier && piece.ledge.x + piece.ledge.w == GroundTurn(tex, draws, f).frontier
  {
    var t := GroundTurn(tex, draws, f);
    piece := GroundPiece(tex, f.frontier, t.frontier - f.frontier);
  }

  /** A turn's segment carries the chain on to the turn's frontier. */
  lemma ChainStep(before: seq<PlatformEntry>, after: seq<PlatformEntry>, base: seq<PlatformEntry>, segs: seq<PlatformEntry>,
                  piece: PlatformEntry, start: real, frontier: real)
    requires before == base + segs && GroundChain(segs, start, frontier)
    requires after == before + [piece] && IsGround(piece) && piece.ledge.x == frontier
    ensures after == base + (segs + [piece]) && GroundChain(segs + [piece], start, frontier + piece.ledge.w)
  {
    GroundChainSnoc(segs, start, frontier, piece);
  }

  /** The loop stops at the first frontier at or past `limit`, less than one segment past it. */
  lemma {:induction false} GroundUntilReaches(tex: Textures, draws: RunRules.Draws, f: Front, limit: real)
    ensures var r := GroundUntil(tex, draws, f, limit);
            r.frontier >= limit && r.frontier >= f.frontier &&
            (f.frontier < limit ==> r.frontier < limit + GroundMaxWidth)
    decreases if f.frontier < limit then (limit - f.frontier).Floor + 1 else 0
  {
    if f.frontier < limit {
      GroundUntilReaches(tex, draws, GroundTurn(tex, draws, f), limit);
    }
  }

  /** The segments the loop appends extend a chain of ground that ends at the old frontier to one that ends at the new frontier. */
  lemma {:induction false} GroundUntilLaysChain(tex: Textures, draws: RunRules.Draws, f: Front, limit: real,
                                                base: seq<PlatformEntry>, segs: seq<PlatformEntry>, start: real)
    returns (laid: seq<PlatformEntry>)
    requires f.plats == base + segs && GroundChain(segs, start, f.frontier)
    ensures GroundUntil(tex, draws, f, limit).plats == base + laid
    ensures GroundChain(laid, start, GroundUntil(tex, draws, f, limit).frontier)
    decreases if f.frontier < limit then (limit - f.frontier).Floor + 1 else 0
  {
    if f.frontier < limit {
      var t := GroundTurn(tex, draws, f);
      var piece := GroundTurnLays(tex, draws, f);
      ChainStep(f.plats, t.plats, base, segs, piece, start, f.frontier);
      laid := GroundUntilLaysChain(tex, draws, t, limit, base, segs + [piece], start);
    } else {
      laid := segs;
    }
  }

  /** The loop only appends decorations and cactus spots, and no mushroom it adds overlaps an earlier decoration. */
  lemma {:induction false} GroundUntilKeepsClear(tex: Textures, draws: RunRules.Draws, f: Front, limit: real)
    ensures var r := GroundUntil(tex, draws, f, limit);
            f.decos <= r.decos && f.cacti <= r.cacti && (MushroomsClear(f.decos) ==> MushroomsClear(r.decos))
    decreases if f.frontier < limit then (limit - f.frontier).Floor + 1 else 0
  {
    if f.frontier < limit {
      GroundTurnAppends(tex, draws, f);
      GroundUntilKeepsClear(tex, draws, GroundTurn(tex, draws, f), limit);
    }
  }

  /** The cactus pass after the loop: each saved spot becomes a cactus unless a platform shelters it; other decorations are never checked. */
  function PlaceCacti(tex: Textures, plats: seq<PlatformEntry>, decos: seq<Decoration>, reqs: seq<CactusRequest>): seq<Decoration>
    decreases |reqs|
  {
    if |reqs| == 0 then decos
    else
      var before := PlaceCacti(tex, plats, decos, reqs[..|reqs| - 1]);
      var q := reqs[|reqs| - 1];
      var d := DecorationAt(tex, Cactus, q.x, q.y, q.scale);
      if UnderPlatform(plats, q.x, q.y, d.box.width) then before else before + [d]
  }

  /** The pass only appends, at most one harmful cactus per spot, none sheltered by a platform; mushrooms stay clear because nothing added is a mushroom. */
  lemma {:induction false} CactiOnlyInTheOpen(tex: Textures, plats: seq<PlatformEntry>, decos: seq<Decoration>, reqs: seq<CactusRequest>)
    ensures var r := PlaceCacti(tex, plats, decos, reqs);
            decos <= r && |r| <= |decos| + |reqs| &&
            (forall i :: |decos| <= i < |r| ==>
               r[i].kind == Cactus && r[i].harmful && !UnderPlatform(plats, r[i].box.left, r[i].box.top, r[i].box.width)) &&
            (MushroomsClear(decos) ==> MushroomsClear(r))
    decreases |reqs|
  {
    if |reqs| > 0 {
      var before := PlaceCacti(tex, plats, decos, reqs[..|reqs| - 1]);
      CactiOnlyInTheOpen(tex, plats, decos, reqs[..|reqs| - 1]);
      var q := reqs[|reqs| - 1];
      var d := DecorationAt(tex, Cactus, q.x, q.y, q.scale);
      if !UnderPlatform(plats, q.x, q.y, d.box.width) {
        var r := before + [d];
        assert forall i :: 0 <= i < |before| ==> r[i] == before[i];
        assert r[|before|] == d;
        if MushroomsClear(decos) {
          AppendKeepsMushroomsClear(before, d);
        }
      }
    }
  }

  /** `ensureGround()` as a whole: the loop from an empty list of cactus spots, then the cactus pass over every platform. */
  function Regrounded(tex: Textures, draws: RunRules.Draws, plats: seq<PlatformEntry>, decos: seq<Decoration>,
                      frontier: real, cursor: nat, limit: real): Front
  {
    var g := GroundUntil(tex, draws, Front(plats, decos, frontier, cursor, []), limit);
    g.(decos := PlaceCacti(tex, g.plats, g.decos, g.cacti), cacti := [])
  }

  /** After `ensureGround` the frontier has passed the lookahead, the new ground is contiguous from the old frontier, lists only grow and mushrooms stay clear. */
  lemma EnsureGroundMeetsLookahead(tex: Textures, draws: RunRules.Draws, plats: seq<PlatformEntry>, decos: seq<Decoration>,
                                   frontier: real, cursor: nat, limit: real)
    ensures var r := Regrounded(tex, draws, plats, decos, frontier, cursor, limit);
            r.frontier >= limit && r.frontier >= frontier && plats <= r.plats &&
            GroundChain(r.plats[|plats|..], frontier, r.frontier) && decos <= r.decos &&
            (MushroomsClear(decos) ==> MushroomsClear(r.decos))
  {
    var f := Front(plats, decos, frontier, cursor, []);
    GroundUntilReaches(tex, draws, f, limit);
    var laid := GroundUntilLaysChain(tex, draws, f, limit, plats, [], frontier);
    assert laid == GroundUntil(tex, draws, f, limit).plats[|plats|..];
    GroundUntilKeepsClear(tex, draws, f, limit);
    var g := GroundUntil(tex, draws, f, limit);
    CactiOnlyInTheOpen(tex, g.plats, g.decos, g.cacti);
  }

  /** What `ensurePlatforms` works on. */
  datatype Sky = Sky(plats: seq<PlatformEntry>, decos: seq<Decoration>, pickups: seq<PickupEntry>, frontier: real, cursor: nat)

  /** One turn of the `ensurePlatforms` loop: the platform, its pickup pattern and, on a Bouncy one, a spring. */
  function PlatformTurn(tex: Textures, draws: RunRules.Draws, minGap: real, maxGap: real, s: Sky): (r: Sky)
    requires 0.0 <= minGap <= maxGap
    ensures s.frontier + minGap + 160.0 <= r.frontier <= s.frontier + maxGap + 360.0
    ensures |r.plats| == |s.plats| + 1 && r.plats[..|s.plats|] == s.plats
    ensures var p := r.plats[|s.plats|].ledge;
            s.frontier + minGap <= p.x && p.x + p.w == r.frontier && 300.0 <= p.y <= 520.0 && p.h == PlatformThickness
    ensures s.decos <= r.decos && |r.decos| <= |s.decos| + 1
    ensures forall i :: |s.decos| <= i < |r.decos| ==> r.decos[i].kind == Spring
    ensures s.pickups <= r.pickups
    ensures MushroomsClear(s.decos) ==> MushroomsClear(r.decos)
  {
    var plan := PlanPlatform(s.frontier, minGap, maxGap, draws, s.cursor);
    PlanInRange(s.frontier, minGap, maxGap, draws, s.cursor);
    var layout := Pattern(plan.x, plan.height, plan.width, draws, plan.next);
    var spring := if plan.kind == Ledges.Bouncy && Has(tex, DecorTexture(Spring)) then [SpringFor(tex, plan)] else [];
    assert MushroomsClear(s.decos) ==> MushroomsClear(s.decos + spring) by {
      if |spring| > 0 && MushroomsClear(s.decos) {
        AppendKeepsMushroomsClear(s.decos, spring[0]);
        assert s.decos + spring == s.decos + [spring[0]];
      }
    }
    Sky(s.plats + [PlannedPlatform(tex, plan)], s.decos + spring, s.pickups + Spawn(tex, layout.places),
        plan.x + plan.width, layout.next)
  }

  /** The `ensurePlatforms` loop: platforms until the frontier reaches `limit`. */
  function PlatformsUntil(tex: Textures, draws: RunRules.Draws, minGap: real, maxGap: real, s: Sky, limit: real): Sky
    requires 0.0 <= minGap <= maxGap
    decreases if s.frontier < limit then (limit - s.frontier).Floor + 1 else 0
  {
    if s.frontier < limit then PlatformsUntil(tex, draws, minGap, maxGap, PlatformTurn(tex, draws, minGap, maxGap, s), limit)
    else s
  }

  /** The loop stops at the first frontier at or past `limit`, less than one gap and one platform past it. */
  lemma {:induction false} PlatformsMeetLookahead(tex: Textures, draws: RunRules.Draws, minGap: real, maxGap: real, s: Sky, limit: real)
    requires 0.0 <= minGap <= maxGap
    ensures var r := PlatformsUntil(tex, draws, minGap, maxGap, s, limit);
            r.frontier >= limit && r.frontier >= s.frontier &&
            (s.frontier < limit ==> r.frontier < limit + maxGap + 360.0)
    decreases if s.frontier < limit then (limit - s.frontier).Floor + 1 else 0
  {
    if s.frontier < limit {
      PlatformsMeetLookahead(tex, draws, minGap, maxGap, PlatformTurn(tex, draws, minGap, maxGap, s), limit);
    }
  }

  /** The loop only appends platforms and pickups. */
  lemma {:induction false} PlatformsOnlyAppend(tex: Textures, draws: RunRules.Draws, minGap: real, maxGap: real, s: Sky, limit: real)
    requires 0.0 <= minGap <= maxGap
    ensures var r := PlatformsUntil(tex, draws, minGap, maxGap, s, limit);
            s.plats <= r.plats && s.pickups <= r.pickups
    decreases if s.frontier < limit then (limit - s.frontier).Floor + 1 else 0
  {
    if s.frontier < limit {
      PlatformsOnlyAppend(tex, draws, minGap, maxGap, PlatformTurn(tex, draws, minGap, maxGap, s), limit);
    }
  }

  /** Every decoration the loop adds is a spring, appended after the old ones, so mushrooms stay clear. */
  lemma {:induction false} PlatformsAddOnlySprings(tex: Textures, draws: RunRules.Draws, minGap: real, maxGap: real, s: Sky, limit: real)
    requires 0.0 <= minGap <= maxGap
    ensures var r := PlatformsUntil(tex, draws, minGap, maxGap, s, limit);
            s.decos <= r.decos &&
            (forall i :: |s.decos| <= i < |r.decos| ==> r.decos[i].kind == Spring) &&
            (MushroomsClear(s.decos) ==> MushroomsClear(r.decos))
    decreases if s.frontier < limit then (limit - s.frontier).Floor + 1 else 0
  {
    if s.frontier < limit {
      var t := PlatformTurn(tex, draws, minGap, maxGap, s);
      PlatformsAddOnlySprings(tex, draws, minGap, maxGap, t, limit);
      var r := PlatformsUntil(tex, draws, minGap, maxGap, s, limit);
      assert r.decos == PlatformsUntil(tex, draws, minGap, maxGap, t, limit).decos;
      forall i | |s.decos| <= i < |r.decos|
        ensures r.decos[i].kind == Spring
      {
        if i < |t.decos| {
          assert r.decos[i] == t.decos[i];
        }
      }
    }
  }

  // ---- Cleanup ----

  /** `cleanupOldEntities` keeps a platform that is active and not entirely 900 px or more behind the player. */
  predicate KeepPlatform(cutoff: real, p: PlatformEntry)
  {
    !(!p.ledge.active || p.ledge.x + p.ledge.w < cutoff)
  }

  /** The rule as the predicate `remove_if` is given. */
  function KeptPlatform(cutoff: real): PlatformEntry -> bool
  {
    p => KeepPlatform(cutoff, p)
  }

  /** After cleanup only live platforms reaching the cutoff are left, and none of those was dropped. */
  lemma CleanupKeepsLivePlatforms(plats: seq<PlatformEntry>, cutoff: real)
    ensures var kept := Select(plats, Flags(plats, KeptPlatform(cutoff)));
            (forall p :: p in kept ==> p in plats && p.ledge.active && p.ledge.x + p.ledge.w >= cutoff) &&
            (forall p :: p in plats && p.ledge.active && p.ledge.x + p.ledge.w >= cutoff ==> p in kept)
  {
    FilterExact(plats, KeptPlatform(cutoff));
  }
}
