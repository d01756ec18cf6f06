// The heads-up display: a score counter that rolls up towards the real
// score, the text lines it shows, and the three life icons.
module HudRules {
  import opened Geometry
  import opened TextFormat

  const StartLives: int := 3
  const IconCount: nat := 3
  const IconX: real := 1200.0
  const IconY: real := 20.0
  const IconSpacing: real := 36.0
  const IconScale: real := 0.32
  const ScoreWidth: nat := 6
  const ScorePrefix: string := "Score: "
  const ComboPrefix: string := "Combo x"
  const BestLabel: string := "Best: "
  const LivesLabel: string := "Lives: "
  const DistancePrefix: string := "Distance: "
  const DistanceUnit: string := " m"
  const LifeIconTexture: string := "lifeline_icon"

  /** One life icon: where it is drawn, its scale, and whether it is faded (a lost life). */
  datatype Icon = Icon(x: real, y: real, scale: real, faded: bool)

  /** The icon in slot i of three, for `lives` remaining lives. */
  function IconAt(i: nat, lives: int): (r: Icon)
    ensures r.faded <==> i >= lives
    ensures r.x == IconX - (i as real) * IconSpacing && r.y == IconY && r.scale == IconScale
  {
    Icon(IconX - (i as real) * IconSpacing, IconY, IconScale, i >= lives)
  }

  /** `updateLifeIcons()` with the icon texture present: always three icons, right to left. */
  function Icons(lives: int): (r: seq<Icon>)
  {
    [IconAt(0, lives), IconAt(1, lives), IconAt(2, lives)]
  }

  /** The number of icons drawn bright. */
  function Bright(icons: seq<Icon>): (n: nat)
    ensures n <= |icons|
  {
    if |icons| == 0 then 0 else Bright(icons[..|icons| - 1]) + (if icons[|icons| - 1].faded then 0 else 1)
  }

  /** The three icons show the lives left, clamped to 0..3, bright ones first. */
  lemma IconsCountLives(lives: int)
    ensures |Icons(lives)| == IconCount
    ensures Bright(Icons(lives)) == ClampInt(lives, 0, 3)
    ensures forall i :: 0 <= i < 3 ==> (!Icons(lives)[i].faded <==> i < lives)
    ensures forall i :: 0 <= i < 2 ==> Icons(lives)[i + 1].x == Icons(lives)[i].x - IconSpacing
  {
    var s := Icons(lives);
    var one := [IconAt(0, lives)];
    var two := [IconAt(0, lives), IconAt(1, lives)];
    assert one[..0] == [];
    assert Bright(one) == (if lives > 0 then 1 else 0);
    assert two[..1] == one;
    assert Bright(two) == Bright(one) + (if lives > 1 then 1 else 0);
    assert s[..2] == two;
    assert Bright(s) == Bright(two) + (if lives > 2 then 1 else 0);
  }

  /** One frame of the score roll-up: a tenth of the gap (at least 1) added, never past the score. */
  function Tally(display: int, score: int): (d: int)
    ensures display < score ==> display < d <= score
    ensures display < score ==> score - d <= (score - display) - (score - display) / 10
    ensures display >= score ==> d == display
  {
    if display < score then MinInt(display + MaxInt(1, (score - display) / 10), score) else display
  }

  function TallyN(display: int, score: int, n: nat): (d: int)
    decreases n
  {
    if n == 0 then display else TallyN(Tally(display, score), score, n - 1)
  }

  /** The counter catches up with a score held still within (score - display) frames, and then stays there. */
  lemma {:induction false} DisplayCatchesUp(display: int, score: int, n: nat)
    requires display <= score && score - display <= n
    ensures TallyN(display, score, n) == score
    decreases n
  {
    if n > 0 {
      DisplayCatchesUp(Tally(display, score), score, n - 1);
    }
  }

  /** The counter never moves away from the score, and never overshoots it. */
  lemma {:induction false} DisplayBetween(display: int, score: int, n: nat)
    requires display <= score
    ensures display <= TallyN(display, score, n) <= score
    decreases n
  {
    if n > 0 {
      DisplayBetween(Tally(display, score), score, n - 1);
    }
  }

  /** A score that falls below the counter (a penalty) leaves the counter where it was, however long. */
  lemma {:induction false} DisplayIgnoresDrop(display: int, score: int, n: nat)
    requires score < display
    ensures TallyN(display, score, n) == display
    decreases n
  {
    if n > 0 {
      DisplayIgnoresDrop(Tally(display, score), score, n - 1);
    }
  }

  /** The score line: the counter zero-padded to six digits. */
  function ScoreLine(display: int): (s: string)
    ensures |s| >= |ScorePrefix| + ScoreWidth && s[..|ScorePrefix|] == ScorePrefix
  {
    ScorePrefix + PadLeft(IntString(display), ScoreWidth, '0')
  }

  /** The score line shows the counter exactly: its digits read back as the counter's value. */
  lemma ScoreLineReadsBack(display: nat)
    ensures forall i :: |ScorePrefix| <= i < |ScoreLine(display)| ==> IsDigit(ScoreLine(display)[i])
    ensures ParseDigits(ScoreLine(display)[|ScorePrefix|..]) == display
  {
    var p := PadLeft(NatString(display), ScoreWidth, '0');
    PaddedRoundTrip(display, ScoreWidth);
    assert ScoreLine(display)[|ScorePrefix|..] == p;
  }

  /** A label and a number as `<<` writes an `int`: the best line and the lives line. */
  function Labelled(prefix: string, n: int): (s: string)
    ensures |prefix| < |s| && s[..|prefix|] == prefix
  {
    prefix + IntString(n)
  }

  /** A labelled non-negative number reads back as the number: all digits after the label. */
  lemma LabelledReadsBack(prefix: string, n: nat)
    ensures forall i :: |prefix| <= i < |Labelled(prefix, n)| ==> IsDigit(Labelled(prefix, n)[i])
    ensures ParseDigits(Labelled(prefix, n)[|prefix|..]) == n
  {
    assert Labelled(prefix, n)[|prefix|..] == NatString(n);
    NatStringRoundTrip(n);
  }

  /**
   * A labelled negative number is the label, a minus sign and then the digits
   * of its size (which read back by `NatStringRoundTrip`).
   */
  lemma LabelledNegativeReadsBack(prefix: string, n: int)
    requires n < 0
    ensures Labelled(prefix, n)[|prefix|] == '-'
    ensures Labelled(prefix, n)[|prefix| + 1..] == NatString(-n)
  {
    AfterSign(prefix, NatString(-n));
  }

  /** A value in tenths, rounded to the nearest with a tie upwards. */
  function Tenths(x: real): (t: nat)
    ensures Abs(x) * 10.0 - 0.5 < t as real <= Abs(x) * 10.0 + 0.5
  {
    RoundHalfUp(Abs(x) * 10.0)
  }

  /** `std::fixed << std::setprecision(1) << x`: a minus sign for a negative value, the whole part, a point and one decimal. */
  function FixedOne(x: real): (s: string)
  {
    var t := Tenths(x);
    (if x < 0.0 then "-" else "") + NatString(t / 10) + "." + [DigitChar(t % 10)]
  }

  /** The distance line: the distance in metres with one decimal. */
  function DistanceLine(distance: real): (s: string)
  {
    DistancePrefix + FixedOne(distance) + DistanceUnit
  }

  /**
   * The distance line reads back as the distance to the nearest tenth of a
   * metre: after the label an optional minus sign, whole digits, a point, one
   * digit, then the unit; the digits without the point are within half a tenth
   * of ten times the distance's size.
   */
  lemma DistanceLineReadsBack(distance: real)
    ensures var s := DistanceLine(distance);
            var k := if distance < 0.0 then |DistancePrefix| + 1 else |DistancePrefix|;
            k + 5 <= |s| && s[..|DistancePrefix|] == DistancePrefix && s[|s| - 2..] == DistanceUnit &&
            (s[|DistancePrefix|] == '-' <==> distance < 0.0) &&
            s[|s| - 4] == '.' && IsDigit(s[|s| - 3]) &&
            (forall i :: k <= i < |s| - 4 ==> IsDigit(s[i])) &&
            Abs(distance) * 10.0 - 0.5 < (ParseDigits(s[k..|s| - 4]) * 10 + DigitValue(s[|s| - 3])) as real <=
              Abs(distance) * 10.0 + 0.5
  {
    var t := Tenths(distance);
    var sign := if distance < 0.0 then "-" else "";
    var whole := NatString(t / 10);
    var d := DigitChar(t % 10);
    assert DistanceLine(distance) == DistancePrefix + sign + whole + "." + [d] + DistanceUnit;
    PointPieces(DistancePrefix, sign, whole, d, DistanceUnit);
    assert DigitValue(d) == t % 10;
    NatStringRoundTrip(t / 10);
  }

  /** The combo line: shown only for a combo above 1. */
  function ComboLine(combo: int): (s: string)
    ensures s != "" <==> combo > 1
  {
    if combo > 1 then ComboPrefix + IntString(combo) else ""
  }

  /** A shown combo line reads back as the combo. */
  lemma ComboLineReadsBack(combo: int)
    requires combo > 1
    ensures ComboLine(combo)[..|ComboPrefix|] == ComboPrefix
    ensures forall i :: |ComboPrefix| <= i < |ComboLine(combo)| ==> IsDigit(ComboLine(combo)[i])
    ensures ParseDigits(ComboLine(combo)[|ComboPrefix|..]) == combo
  {
    assert ComboLine(combo)[|ComboPrefix|..] == NatString(combo);
    NatStringRoundTrip(combo);
  }

  /** The multiplier line: the whole part of a multiplier above 1 (truncation is the floor there). */
  function MultiplierLine(multiplier: real): (s: string)
    ensures s != "" <==> multiplier > 1.0
    ensures multiplier > 1.0 ==> s == "Multiplier x" + NatString(multiplier.Floor)
  {
    if multiplier > 1.0 then "Multiplier x" + IntString(multiplier.Floor) else ""
  }

  /** The power-up line: a tag per active power, shield first, double points last. */
  function PowerLine(shield: bool, magnet: bool, doublePoints: bool): (s: string)
  {
    (if shield then "[Shield] " else "") + (if magnet then "[Magnet] " else "") +
    (if doublePoints then "[Double Points]" else "")
  }

  /** The power-up line is empty exactly when no power is active, and lists the tags in a fixed order. */
  lemma PowerLineTags(shield: bool, magnet: bool, doublePoints: bool)
    ensures PowerLine(shield, magnet, doublePoints) == "" <==> !shield && !magnet && !doublePoints
    ensures shield ==> PowerLine(shield, magnet, doublePoints)[..9] == "[Shield] "
    ensures !shield && magnet ==> PowerLine(shield, magnet, doublePoints)[..9] == "[Magnet] "
    ensures doublePoints ==> PowerLine(shield, magnet, doublePoints)[|PowerLine(shield, magnet, doublePoints)| - 15..] == "[Double Points]"
    ensures |PowerLine(shield, magnet, doublePoints)| ==
              (if shield then 9 else 0) + (if magnet then 9 else 0) + (if doublePoints then 15 else 0)
  {
    var a := if shield then "[Shield] " else "";
    var b := if magnet then "[Magnet] " else "";
    var c := if doublePoints then "[Double Points]" else "";
    assert PowerLine(shield, magnet, doublePoints) == a + b + c;
    if shield {
      assert (a + b + c)[..9] == a;
    } else if magnet {
      assert (a + b + c)[..9] == b;
    }
    if doublePoints {
      assert (a + b + c)[|a + b + c| - 15..] == c;
    }
  }

  /** The whole state of a `HUD`. */
  datatype Board = Board(
    currentScore: int, displayScore: int,
    animationTime: real, animating: bool,
    lives: int, icons: seq<Icon>,
    scoreText: string, livesText: string, bestText: string, distanceText: string,
    comboText: string, multiplierText: string, powerText: string)

  /** The icons `updateLifeIcons()` leaves: three when the icon texture exists, none otherwise. */
  function IconsFor(hasIcon: bool, lives: int): (r: seq<Icon>)
  {
    if hasIcon then Icons(lives) else []
  }

  /** A new HUD: score 0, three lives, empty text, and the icons drawn (whatever the font). */
  function Fresh(hasIcon: bool): (r: Board)
    ensures r.currentScore == 0 && r.displayScore == 0 && r.lives == StartLives && !r.animating
    ensures hasIcon ==> Bright(r.icons) == 3
    ensures !hasIcon ==> r.icons == []
  {
    IconsCountLives(StartLives);
    Board(0, 0, 0.0, false, StartLives, IconsFor(hasIcon, StartLives), "", "", "", "", "", "", "")
  }

  /** The counter part of `update`. */
  function TallyBoard(b: Board, score: int): (r: Board)
    ensures r == b.(currentScore := score, displayScore := Tally(b.displayScore, score),
                    animating := b.displayScore < score)
  {
    b.(currentScore := score, displayScore := Tally(b.displayScore, score), animating := b.displayScore < score)
  }

  /** The text part of `update`. */
  function Relabel(b: Board, highScore: int, distance: real, combo: int, multiplier: real,
                   shield: bool, magnet: bool, doublePoints: bool): (r: Board)
  {
    b.(scoreText := ScoreLine(b.displayScore), bestText := Labelled(BestLabel, highScore),
       distanceText := DistanceLine(distance),
       comboText := ComboLine(combo), multiplierText := MultiplierLine(multiplier),
       powerText := PowerLine(shield, magnet, doublePoints))
  }

  /** `updateLives(lives)`: the count is always stored; its text and icons only with a font. */
  function Relive(b: Board, lives: int, hasFont: bool, hasIcon: bool): (r: Board)
    ensures r.lives == lives
    ensures !hasFont ==> r == b.(lives := lives)
    ensures hasFont ==> r == b.(lives := lives, livesText := Labelled(LivesLabel, lives), icons := IconsFor(hasIcon, lives))
  {
    if hasFont then b.(lives := lives, livesText := Labelled(LivesLabel, lives), icons := IconsFor(hasIcon, lives))
    else b.(lives := lives)
  }

  /** `update(...)`: the counter always rolls; without a font nothing else changes, not even the lives. */
  function Refresh(b: Board, score: int, highScore: int, distance: real, combo: int, multiplier: real,
                   shield: bool, magnet: bool, doublePoints: bool, lives: int,
                   hasFont: bool, hasIcon: bool): (r: Board)
  {
    var t := TallyBoard(b, score);
    if !hasFont then t
    else Relive(Relabel(t, highScore, distance, combo, multiplier, shield, magnet, doublePoints), lives, hasFont, hasIcon)
  }

  /**
   * What a frame's update shows with a font: the rolled counter in the score
   * line, the best score, the distance, the combo and multiplier when above 1,
   * the active powers, and the lives in text and icons.
   */
  lemma RefreshShows(b: Board, score: int, highScore: int, distance: real, combo: int, multiplier: real,
                     shield: bool, magnet: bool, doublePoints: bool, lives: int, hasIcon: bool)
    ensures var r := Refresh(b, score, highScore, distance, combo, multiplier, shield, magnet, doublePoints, lives, true, hasIcon);
            r.currentScore == score && r.displayScore == Tally(b.displayScore, score) &&
            r.scoreText == ScoreLine(r.displayScore) &&
            r.bestText == Labelled(BestLabel, highScore) && r.distanceText == DistanceLine(distance) &&
            r.lives == lives && r.livesText == Labelled(LivesLabel, lives) &&
            (hasIcon ==> Bright(r.icons) == ClampInt(lives, 0, 3)) &&
            (r.comboText != "" <==> combo > 1) && (r.multiplierText != "" <==> multiplier > 1.0) &&
            (r.powerText == "" <==> !shield && !magnet && !doublePoints)
  {
    IconsCountLives(lives);
    PowerLineTags(shield, magnet, doublePoints);
  }

  /** Without a font, an update only moves the counter: the stored lives stay stale. */
  lemma RefreshWithoutFont(b: Board, score: int, highScore: int, distance: real, combo: int, multiplier: real,
                           shield: bool, magnet: bool, doublePoints: bool, lives: int, hasIcon: bool)
    ensures Refresh(b, score, highScore, distance, combo, multiplier, shield, magnet, doublePoints, lives, false, hasIcon) ==
            b.(currentScore := score, displayScore := Tally(b.displayScore, score), animating := b.displayScore < score)
  {
  }

  /** `setScore(s)`: the counter jumps straight to the score, so the next update does not animate. */
  function JumpTo(b: Board, s: int): (r: Board)
    ensures r.currentScore == r.displayScore == s
    ensures !TallyBoard(r, s).animating && TallyBoard(r, s).displayScore == s
  {
    b.(currentScore := s, displayScore := s)
  }
}

// `class HUD`: the source's fields (the text objects as the strings they
// hold), each method proved to act on them as HudRules says.
module Hud {
  import opened Geometry
  import opened Assets
  import opened HudRules

  class HUD {
    var currentScore: int
    var displayScore: int
    var scoreAnimationTime: real
    var animatingScore: bool
    var currentLives: int
    var lifeIcons: seq<Icon>
    var scoreText: string
    var livesText: string
    var highScoreText: string
    var distanceText: string
    var comboText: string
    var multiplierText: string
    var powerUpText: string
    /** Whether the "default" font was found; without it no text is set or drawn. */
    const hasFont: bool
    /** Whether the life icon texture exists. */
    const hasIcon: bool

    function Data(): Board
      reads this
    {
      Board(currentScore, displayScore, scoreAnimationTime, animatingScore, currentLives, lifeIcons,
            scoreText, livesText, highScoreText, distanceText, comboText, multiplierText, powerUpText)
    }

    constructor (fontLoaded: bool, tex: Textures)
      ensures hasFont == fontLoaded && hasIcon == Has(tex, LifeIconTexture)
      ensures Data() == Fresh(hasIcon)
    {
      currentScore, displayScore := 0, 0;
      currentLives := StartLives;
      scoreAnimationTime, animatingScore := 0.0, false;
      hasFont := fontLoaded;
      hasIcon := Has(tex, LifeIconTexture);
      scoreText, livesText, highScoreText, distanceText := "", "", "", "";
      comboText, multiplierText, powerUpText := "", "", "";
      lifeIcons := [];
      new;
      UpdateLifeIcons();
    }

    method Update(score: int, highScore: int, distance: real, combo: int, multiplier: real,
                  shieldActive: bool, magnetActive: bool, doublePointsActive: bool, lives: int)
      modifies this
      ensures Data() == Refresh(old(Data()), score, highScore, distance, combo, multiplier,
                                shieldActive, magnetActive, doublePointsActive, lives, hasFont, hasIcon)
    {
      TallyScore(score);
      if !hasFont {
        return;
      }
      SetTexts(highScore, distance, combo, multiplier, shieldActive, magnetActive, doublePointsActive);
      UpdateLives(lives);
    }

    method TallyScore(score: int)
      modifies this
      ensures Data() == TallyBoard(old(Data()), score)
    {
      currentScore := score;
      if displayScore < currentScore {
        animatingScore := true;
        var diff := currentScore - displayScore;
        var increment := MaxInt(1, diff / 10);
        displayScore := MinInt(displayScore + increment, currentScore);
      } else {
        animatingScore := false;
      }
    }

    method SetTexts(highScore: int, distance: real, combo: int, multiplier: real,
                    shieldActive: bool, magnetActive: bool, doublePointsActive: bool)
      modifies this
      ensures Data() == Relabel(old(Data()), highScore, distance, combo, multiplier, shieldActive, magnetActive, doublePointsActive)
    {
      SetScoreTexts(highScore);
      SetDistanceText(distance);
      SetBonusTexts(combo, multiplier, shieldActive, magnetActive, doublePointsActive);
    }

    method SetScoreTexts(highScore: int)
      modifies this
      ensures Data() == old(Data()).(scoreText := ScoreLine(displayScore), bestText := Labelled(BestLabel, highScore))
    {
      scoreText := ScoreLine(displayScore);
      highScoreText := Labelled(BestLabel, highScore);
    }

    method SetDistanceText(distance: real)
      modifies this
      ensures Data() == old(Data()).(distanceText := DistanceLine(distance))
    {
      distanceText := DistanceLine(distance);
    }

    method SetBonusTexts(combo: int, multiplier: real, shieldActive: bool, magnetActive: bool, doublePointsActive: bool)
      modifies this
      ensures Data() == old(Data()).(comboText := ComboLine(combo), multiplierText := MultiplierLine(multiplier),
                                     powerText := PowerLine(shieldActive, magnetActive, doublePointsActive))
    {
      comboText := ComboLine(combo);
      multiplierText := MultiplierLine(multiplier);
      powerUpText := PowerText(shieldActive, magnetActive, doublePointsActive);
    }

    /** The power-up tags, appended one by one. */
    static method PowerText(shieldActive: bool, magnetActive: bool, doublePointsActive: bool) returns (powerText: string)
      ensures powerText == PowerLine(shieldActive, magnetActive, doublePointsActive)
    {
      powerText := "";
      if shieldActive { powerText := powerText + "[Shield] "; }
      if magnetActive { powerText := powerText + "[Magnet] "; }
      if doublePointsActive { powerText := powerText + "[Double Points]"; }
    }

    method SetScore(score: int)
      modifies this
      ensures Data() == JumpTo(old(Data()), score)
    {
      currentScore := score;
      displayScore := score;
    }

    method AnimateScoreUpdate()
      modifies this
      ensures Data() == old(Data()).(animating := true, animationTime := 0.0)
    {
      animatingScore := true;
      scoreAnimationTime := 0.0;
    }

    method UpdateLives(lives: int)
      modifies this
      ensures Data() == Relive(old(Data()), lives, hasFont, hasIcon)
    {
      currentLives := lives;
      if hasFont {
        livesText := Labelled(LivesLabel, currentLives);
        UpdateLifeIcons();
      }
    }

    /** Rebuilds the icon row from scratch, one slot at a time. */
    method UpdateLifeIcons()
      modifies this
      ensures Data() == old(Data()).(icons := IconsFor(hasIcon, currentLives))
    {
      lifeIcons := [];
      if !hasIcon {
        return;
      }
      for i := 0 to IconCount
        invariant lifeIcons == Icons(currentLives)[..i]
        invariant Data() == old(Data()).(icons := lifeIcons)
      {
        lifeIcons := lifeIcons + [IconAt(i, currentLives)];
      }
    }
  }
}
