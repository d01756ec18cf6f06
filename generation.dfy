// The generation loops of `PlayingState` (`ensureGround`, `ensurePlatforms`,
// `spawnCollectiblePattern`), step by step over the lists they append to.
// Each method is proved against the function in `WorldGen` that defines it.
module Generation {
  import opened Geometry
  import opened Assets
  import opened RunRules
  import opened WorldGen
  import Pickups
  import Ledges

  // ---- ensureGround ----

  /** `ensureGround()` on the lists it appends to: the loop, then the cactus pass. */
  method Reground(tex: Textures, draws: Draws, plats: seq<PlatformEntry>, decos: seq<Decoration>,
                  frontier: real, cursor: nat, limit: real) returns (g: Front)
    ensures g == Regrounded(tex, draws, plats, decos, frontier, cursor, limit)
    ensures g.frontier >= limit && plats <= g.plats && decos <= g.decos && g.cacti == []
    ensures MushroomsClear(decos) ==> MushroomsClear(g.decos)
  {
    var f := GroundLoop(tex, draws, Front(plats, decos, frontier, cursor, []), limit);
    var placed := PlaceCactusRequests(tex, f.plats, f.decos, f.cacti);
    EnsureGroundMeetsLookahead(tex, draws, plats, decos, frontier, cursor, limit);
    g := Front(f.plats, placed, f.frontier, f.cursor, []);
  }

  /** The `ensureGround` loop: segments until the frontier reaches `limit`. */
  method GroundLoop(tex: Textures, draws: Draws, f: Front, limit: real) returns (g: Front)
    ensures g == GroundUntil(tex, draws, f, limit)
  {
    g := f;
    while g.frontier < limit
      invariant GroundUntil(tex, draws, g, limit) == GroundUntil(tex, draws, f, limit)
      decreases if g.frontier < limit then (limit - g.frontier).Floor + 1 else 0
    {
      g := LayGround(tex, draws, g);
    }
  }

  /** One turn of the `ensureGround` loop: the width, the cactus roll, the red then the brown mushroom, then the segment. */
  method LayGround(tex: Textures, draws: Draws, f: Front) returns (g: Front)
    ensures g == GroundTurn(tex, draws, f)
  {
    var cursor := f.cursor;
    var width := Scale(GroundMinWidth, GroundMaxWidth, draws(cursor));
    cursor := cursor + 1;
    var spot;
    spot, cursor := RollCactus(tex, draws, f.frontier, width, cursor);
    var decos;
    decos, cursor := AddMushroom(tex, draws, RedMushroom, 0.6, f.frontier, width, f.decos, cursor);
    decos, cursor := AddMushroom(tex, draws, BrownMushroom, 0.5, f.frontier, width, decos, cursor);
    g := Front(f.plats + [GroundPiece(tex, f.frontier, width)], decos, f.frontier + width, cursor, f.cacti + spot);
  }

  /** The cactus roll of the segment being laid; the spot is saved for after the loop. */
  method RollCactus(tex: Textures, draws: Draws, frontier: real, width: real, cursor: nat)
    returns (spot: seq<CactusRequest>, next: nat)
    ensures (spot, next) == CactusRoll(tex, draws, frontier, width, cursor)
  {
    spot, next := [], cursor;
    if Has(tex, DecorTexture(Cactus)) {
      var roll := draws(next);
      next := next + 1;
      if roll > 0.6 {
        var cactusHeight := tex(DecorTexture(Cactus)).Height() as real * DecorScale;
        var cactusX := frontier + Scale(40.0, width - 40.0, draws(next));
        next := next + 1;
        spot := [CactusRequest(cactusX, GroundY - cactusHeight, DecorScale)];
      }
    }
  }

  /** A mushroom roll on the segment being laid: a sprite 40 px in from either end, kept when it overlaps no decoration. */
  method AddMushroom(tex: Textures, draws: Draws, k: DecorKind, threshold: real, frontier: real, width: real,
                     decos: seq<Decoration>, cursor: nat) returns (r: seq<Decoration>, next: nat)
    ensures (r, next) == MaybeMushroom(tex, draws, k, threshold, frontier, width, decos, cursor)
  {
    r, next := decos, cursor;
    if Has(tex, DecorTexture(k)) {
      var roll := draws(next);
      next := next + 1;
      if roll > threshold {
        var deco := GroundDecoration(tex, k, frontier, width, draws(next));
        next := next + 1;
        var overlaps := Overlaps(decos, deco);
        if !overlaps {
          r := decos + [deco];
        }
      }
    }
  }

  /** The overlap scan over the decorations, stopping at the first hit. */
  method Overlaps(decos: seq<Decoration>, d: Decoration) returns (overlaps: bool)
    ensures overlaps <==> !ClearOf(decos, d)
  {
    overlaps := false;
    var i := 0;
    while i < |decos|
      invariant 0 <= i <= |decos|
      invariant forall j :: 0 <= j < i ==> !Intersects(decos[j].box, d.box)
    {
      if Intersects(decos[i].box, d.box) {
        overlaps := true;
        return;
      }
      i := i + 1;
    }
  }

  /** The cactus pass after the loop, over the saved spots in order. */
  method PlaceCactusRequests(tex: Textures, plats: seq<PlatformEntry>, decos: seq<Decoration>, requests: seq<CactusRequest>)
    returns (r: seq<Decoration>)
    ensures r == PlaceCacti(tex, plats, decos, requests)
  {
    r := decos;
    for i := 0 to |requests|
      invariant r == PlaceCacti(tex, plats, decos, requests[..i])
    {
      var q := requests[i];
      var deco := DecorationAt(tex, Cactus, q.x, q.y, q.scale);
      var underPlatform := Sheltered(plats, q.x, q.y, deco.box.width);
      if !underPlatform {
        r := r + [deco];
      }
      assert requests[..i + 1][..i] == requests[..i];
    }
    assert requests[..|requests|] == requests;
  }

  /** The scan for a platform above a cactus spot, stopping at the first one. */
  method Sheltered(plats: seq<PlatformEntry>, cx: real, cy: real, cw: real) returns (underPlatform: bool)
    ensures underPlatform <==> UnderPlatform(plats, cx, cy, cw)
  {
    underPlatform := false;
    var i := 0;
    while i < |plats|
      invariant 0 <= i <= |plats|
      invariant forall j :: 0 <= j < i ==> !Shelters(PlatformBounds(plats[j]), cx, cy, cw)
    {
      if Shelters(PlatformBounds(plats[i]), cx, cy, cw) {
        underPlatform := true;
        return;
      }
      i := i + 1;
    }
  }

  // ---- ensurePlatforms ----

  /** The `ensurePlatforms` loop: floating platforms until the frontier reaches `limit`. */
  method PlatformLoop(tex: Textures, draws: Draws, minGap: real, maxGap: real, s: Sky, limit: real) returns (r: Sky)
    requires 0.0 <= minGap <= maxGap
    ensures r == PlatformsUntil(tex, draws, minGap, maxGap, s, limit)
    ensures r.frontier >= limit && s.plats <= r.plats && s.pickups <= r.pickups && s.decos <= r.decos
    ensures MushroomsClear(s.decos) ==> MushroomsClear(r.decos)
  {
    PlatformsMeetLookahead(tex, draws, minGap, maxGap, s, limit);
    PlatformsOnlyAppend(tex, draws, minGap, maxGap, s, limit);
    PlatformsAddOnlySprings(tex, draws, minGap, maxGap, s, limit);
    r := s;
    while r.frontier < limit
      invariant PlatformsUntil(tex, draws, minGap, maxGap, r, limit) == PlatformsUntil(tex, draws, minGap, maxGap, s, limit)
      decreases if r.frontier < limit then (limit - r.frontier).Floor + 1 else 0
    {
      r := LayPlatform(tex, draws, minGap, maxGap, r);
    }
  }

  /** One turn of the `ensurePlatforms` loop: the draws, the pickups, a spring on a Bouncy platform, then the platform. */
  method LayPlatform(tex: Textures, draws: Draws, minGap: real, maxGap: real, s: Sky) returns (r: Sky)
    requires 0.0 <= minGap <= maxGap
    ensures r == PlatformTurn(tex, draws, minGap, maxGap, s)
  {
    var plan := DrawPlan(s.frontier, minGap, maxGap, draws, s.cursor);
    var added, next := SpawnCollectiblePattern(tex, draws, plan.next, plan.x, plan.height, plan.width);
    var decos := s.decos;
    if plan.kind == Ledges.Bouncy && Has(tex, DecorTexture(Spring)) {
      decos := decos + [SpringFor(tex, plan)];
    }
    r := Sky(s.plats + [PlannedPlatform(tex, plan)], decos, s.pickups + added, plan.x + plan.width, next);
  }

  /** The draws of one platform: gap, width, height, type roll, then range and speed for a mover. */
  method DrawPlan(genX: real, minGap: real, maxGap: real, draws: Draws, cursor: nat) returns (plan: Plan)
    ensures plan == PlanPlatform(genX, minGap, maxGap, draws, cursor)
  {
    var c := cursor;
    var gap := Scale(minGap, maxGap, draws(c));
    var width := Scale(160.0, 360.0, draws(c + 1));
    var height := Scale(300.0, 520.0, draws(c + 2));
    var roll := draws(c + 3);
    c := c + 4;
    var kind := Ledges.Normal;
    if roll > 0.8 { kind := Ledges.MovingHorizontal; }
    if roll > 0.9 { kind := Ledges.Bouncy; }
    if roll > 0.95 { kind := Ledges.Ice; }
    var range := 0.0;
    if kind == Ledges.MovingHorizontal || kind == Ledges.MovingVertical {
      range := Scale(60.0, 140.0, draws(c));
      c := c + 1;
    }
    var speed := 0.0;
    if range > 0.0 {
      speed := Scale(50.0, 90.0, draws(c));
      c := c + 1;
    }
    plan := Plan(genX + gap, width, height, kind, range, speed, c);
  }

  // ---- spawnCollectiblePattern ----

  /** `spawnCollectiblePattern(platform)` for a platform at (px, py) of width w, from draw `cursor` on. */
  method SpawnCollectiblePattern(tex: Textures, draws: Draws, cursor: nat, px: real, py: real, w: real)
    returns (added: seq<PickupEntry>, next: nat)
    ensures var layout := Pattern(px, py, w, draws, cursor);
            added == Spawn(tex, layout.places) && next == layout.next
  {
    if w < 120.0 {
      return [], cursor;
    }
    ghost var row := MainRow(px, py, w, draws, cursor);
    added, next := LayMainRow(tex, draws, cursor, px, py, w);
    if draws(next) < 0.18 {
      var powerRoll := draws(next + 1);
      next := next + 2;
      var powerType := Pickups.Magnet;
      if powerRoll < 0.25 { powerType := Pickups.Magnet; }
      else if powerRoll < 0.5 { powerType := Pickups.Shield; }
      else if powerRoll < 0.75 { powerType := Pickups.SpeedBoost; }
      else { powerType := Pickups.DoublePoints; }
      var bonus := Place(px + w / 2.0, py - 18.0 - 24.0, powerType);
      SpawnSnoc(tex, row.places, bonus);
      added := added + [PickupEntryFor(tex, bonus.x, bonus.y, bonus.kind)];
    } else {
      next := next + 1;
    }
  }

  /** The main row: a roll, then a Coin line, a Coin zigzag or a Gem cluster. */
  method LayMainRow(tex: Textures, draws: Draws, cursor: nat, px: real, py: real, w: real)
    returns (added: seq<PickupEntry>, next: nat)
    requires w >= 120.0
    ensures var row := MainRow(px, py, w, draws, cursor);
            added == Spawn(tex, row.places) && next == row.next
  {
    var topY := py - 18.0;
    var count := PatternCount(w);
    var startX := px + 20.0;
    var step := PatternStep(w, count);
    var roll := draws(cursor);
    next := cursor + 1;
    ghost var row := MainRow(px, py, w, draws, cursor);
    if roll < 0.85 {
      var places := if roll < 0.5 then Line(startX, step, topY, count) else Zigzag(startX, step, topY, count);
      assert row == Layout(places, next);
      added := LayRow(tex, places);
    } else {
      var gems := MinInt(3, count);
      var baseX := startX + step * (count - 1) as real - 30.0;
      assert row == Layout(Cluster(baseX, topY, draws, next, gems), next + 2 * gems);
      added, next := LayCluster(tex, draws, next, baseX, topY, gems);
    }
  }

  /** `placeCollectible` for each place of a line or a zigzag, in order. */
  method LayRow(tex: Textures, places: seq<Place>) returns (added: seq<PickupEntry>)
    ensures added == Spawn(tex, places)
  {
    added := [];
    for i := 0 to |places|
      invariant |added| == i
      invariant forall j :: 0 <= j < i ==> added[j] == PickupEntryFor(tex, places[j].x, places[j].y, places[j].kind)
    {
      added := added + [PickupEntryFor(tex, places[i].x, places[i].y, places[i].kind)];
    }
  }

  /** The Gem cluster: an x offset and a lift drawn for each Gem, from draw `cursor` on. */
  method LayCluster(tex: Textures, draws: Draws, cursor: nat, baseX: real, topY: real, gems: nat)
    returns (added: seq<PickupEntry>, next: nat)
    ensures added == Spawn(tex, Cluster(baseX, topY, draws, cursor, gems))
    ensures next == cursor + 2 * gems
  {
    ghost var all := Cluster(baseX, topY, draws, cursor, gems);
    added, next := [], cursor;
    for i := 0 to gems
      invariant next == cursor + 2 * i
      invariant |added| == i
      invariant forall j :: 0 <= j < i ==> added[j] == PickupEntryFor(tex, all[j].x, all[j].y, all[j].kind)
    {
      var offsetX := Scale(-10.0, 20.0, draws(next));
      var offsetY := -Scale(0.0, 16.0, draws(next + 1));
      assert all[i] == Place(baseX + offsetX, topY + offsetY, Pickups.Gem);
      added := added + [PickupEntryFor(tex, baseX + offsetX, topY + offsetY, Pickups.Gem)];
      next := next + 2;
    }
  }

  /** The pickups of one more place. */
  lemma SpawnSnoc(tex: Textures, ps: seq<Place>, p: Place)
    ensures Spawn(tex, ps + [p]) == Spawn(tex, ps) + [PickupEntryFor(tex, p.x, p.y, p.kind)]
  {
    assert (ps + [p])[|ps|] == p;
    assert forall i :: 0 <= i < |ps| ==> (ps + [p])[i] == ps[i];
  }
}
