/** Screen geometry: the mapping of touch coordinates to menu entries and
    battle buttons, and the projectile's collision test. Coordinates are
    pixels; every rectangle is closed (both edges belong to it), as the
    program's `>=`/`<=` tests make it. */
module Touch {
  import opened Arith

  const SCREEN_W := 320
  const SCREEN_H := 240

  // Main-menu button column.
  const BTN_X := 20
  const BTN_W := 280
  const BTN_H := 45
  const BTN_START_Y := 40
  const BTN_GAP := 10
  const NUM_MENU_BUTTONS := 4

  // The 2x2 grid of battle buttons.
  const BBTN_W := 152
  const BBTN_H := 48
  const BBTN_GAP := 6
  const BBTN_LEFT_X := 6
  const BBTN_RIGHT_X := BBTN_LEFT_X + BBTN_W + BBTN_GAP
  const BBTN_START_Y := 142

  // Projectile: an 8x8 square stepped 6 pixels per frame.
  const PROJECTILE_SIZE := 8
  const PROJECTILE_STEP_PX := 6

  datatype Rect = Rect(x: int, y: int, w: int, h: int)

  predicate Contains(r: Rect, px: int, py: int)
  {
    r.x <= px <= r.x + r.w && r.y <= py <= r.y + r.h
  }

  /** Rectangle of main-menu button `k` (1-based, drawn top to bottom). */
  function MenuRect(k: int): Rect
  {
    Rect(BTN_X, BTN_START_Y + (k - 1) * (BTN_H + BTN_GAP), BTN_W, BTN_H)
  }

  /** The arithmetic of `GetMenuButtonPressed` once the touch is known:
      0 for a touch outside every button, otherwise the button's number. */
  function MenuButtonAt(touchX: int, touchY: int): (r: int)
    ensures 0 <= r <= NUM_MENU_BUTTONS
    ensures forall k :: 1 <= k <= NUM_MENU_BUTTONS ==>
              (r == k <==> Contains(MenuRect(k), touchX, touchY))
  {
    if touchX < BTN_X || touchX > BTN_X + BTN_W then 0
    else
      var rel := touchY - BTN_START_Y;
      if rel < 0 then 0
      else
        var rowH := BTN_H + BTN_GAP;
        var index := rel / rowH;
        if 0 <= index < NUM_MENU_BUTTONS then
          var top := BTN_START_Y + index * rowH;
          var bottom := top + BTN_H;
          if top <= touchY <= bottom then index + 1 else 0
        else 0
  }

  /** Height of one band of a simple menu of `numRegions` bands. */
  function BandHeight(numRegions: int): (h: int)
    requires 1 <= numRegions <= SCREEN_H
    ensures 1 <= h <= SCREEN_H
  {
    SCREEN_H / numRegions
  }

  /** The arithmetic of `GetSimpleMenuChoice`: the screen height is cut into
      `numRegions` horizontal bands of `SCREEN_H / numRegions` pixels and the
      band holding `ty` is returned (1-based); touches above the first band
      count as the first, those below the last as the last. The program
      divides by the band height, so it needs 1 <= numRegions <= SCREEN_H. */
  function SimpleMenuChoice(numRegions: int, ty: int): (r: int)
    requires 1 <= numRegions <= SCREEN_H
    ensures 1 <= r <= numRegions
    ensures ty < BandHeight(numRegions) ==> r == 1
    ensures ty >= 0 ==> (r - 1) * BandHeight(numRegions) <= ty
    ensures ty >= 0 && r < numRegions ==> ty < r * BandHeight(numRegions)
  {
    var regionH := BandHeight(numRegions);
    var idx0 := TruncDiv(ty, regionH);
    var idx1 := if idx0 < 0 then 0 else idx0;
    var idx := if idx1 >= numRegions then numRegions - 1 else idx1;
    BandIndex(ty, regionH, numRegions, idx0, idx);
    idx + 1
  }

  /** The facts about the clamped quotient that `SimpleMenuChoice` promises. */
  lemma BandIndex(ty: int, h: int, n: int, q: int, idx: int)
    requires h >= 1 && n >= 1
    requires ty >= 0 ==> 0 <= ty - q * h < h
    requires ty < 0 ==> -h < ty - q * h <= 0
    requires idx == (if q < 0 then 0 else if q >= n then n - 1 else q)
    ensures ty < h ==> idx == 0
    ensures ty >= 0 ==> idx * h <= ty
    ensures ty >= 0 && idx + 1 < n ==> ty < (idx + 1) * h
  {
    if ty >= 0 {
      if q < 0 {
        MulMonotone(q, -1, h);
      }
      assert q >= 0;
      MulMonotone(idx, q, h);
      if ty < h {
        if q >= 1 { MulMonotone(1, q, h); }
      }
      if idx + 1 < n {
        assert idx == q;
        assert (idx + 1) * h == q * h + h;
      }
    } else {
      if q >= 1 { MulMonotone(1, q, h); }
    }
  }

  /** Row `row` of the battle grid starts at this height. */
  function BattleRowY(row: int): int
  {
    BBTN_START_Y + row * (BBTN_H + BBTN_GAP)
  }

  /** The four battle buttons in the order the program builds them; the
      button's position in the list is its id: moves 0, 1, 2, then RUN (3). */
  function BattleButtons(): seq<Rect>
  {
    [ Rect(BBTN_LEFT_X, BattleRowY(0), BBTN_W, BBTN_H),
      Rect(BBTN_RIGHT_X, BattleRowY(0), BBTN_W, BBTN_H),
      Rect(BBTN_LEFT_X, BattleRowY(1), BBTN_W, BBTN_H),
      Rect(BBTN_RIGHT_X, BattleRowY(1), BBTN_W, BBTN_H) ]
  }

  /** The scan of the battle-button list: the first button holding the
      touch, or -1 when none does. */
  function FirstContaining(btns: seq<Rect>, px: int, py: int): (r: int)
    ensures -1 <= r < |btns|
    ensures r >= 0 ==> Contains(btns[r], px, py)
    ensures r >= 0 ==> forall j :: 0 <= j < r ==> !Contains(btns[j], px, py)
    ensures r == -1 <==> forall j :: 0 <= j < |btns| ==> !Contains(btns[j], px, py)
  {
    if btns == [] then -1
    else if Contains(btns[0], px, py) then 0
    else
      var rest := FirstContaining(btns[1..], px, py);
      assert forall j :: 1 <= j < |btns| ==> btns[j] == btns[1..][j - 1];
      if rest == -1 then -1 else rest + 1
  }

  /** The battle-button hit test: the id of the pressed button, or -1. */
  function BattleButtonAt(tx: int, ty: int): (r: int)
    ensures -1 <= r <= 3
  {
    FirstContaining(BattleButtons(), tx, ty)
  }

  /** The touch lies outside every battle button. */
  predicate OffButtons(tx: int, ty: int)
  {
    forall k :: 0 <= k < 4 ==> !Contains(BattleButtons()[k], tx, ty)
  }

  /** The four battle buttons do not overlap, so the scan's answer is the
      one button holding the touch, whatever the order of the scan. */
  lemma BattleButtonExact(tx: int, ty: int)
    ensures forall k :: 0 <= k < 4 ==>
              (BattleButtonAt(tx, ty) == k <==> Contains(BattleButtons()[k], tx, ty))
    ensures BattleButtonAt(tx, ty) == -1 <==> OffButtons(tx, ty)
  {
    var btns := BattleButtons();
    var r := BattleButtonAt(tx, ty);
    forall k | 0 <= k < 4 && Contains(btns[k], tx, ty)
      ensures r == k
    {
      forall j | 0 <= j < 4 && j != k
        ensures !Contains(btns[j], tx, ty)
      {
      }
    }
  }

  /** The three boxes of the Play submenu. */
  const EASY_BOX := Rect(30, 50, 120, 40)
  const HARD_BOX := Rect(170, 50, 120, 40)
  const START_BOX := Rect(30, 110, 260, 40)

  /** The difficulty after the Play submenu, given the press and the
      difficulty before it: EASY or HARD for their boxes, unchanged for
      "Start Match", and back to EASY for a press outside every box. The
      boxes are disjoint, so the order of the tests does not matter. */
  function SubmenuDifficulty(sx: int, sy: int, current: int): (r: int)
    ensures Contains(EASY_BOX, sx, sy) ==> r == 0
    ensures Contains(HARD_BOX, sx, sy) ==> r == 1
    ensures Contains(START_BOX, sx, sy) ==> r == current
    ensures !Contains(EASY_BOX, sx, sy) && !Contains(HARD_BOX, sx, sy) && !Contains(START_BOX, sx, sy) ==> r == 0
    ensures 0 <= current <= 1 ==> 0 <= r <= 1
  {
    if Contains(EASY_BOX, sx, sy) then 0
    else if Contains(HARD_BOX, sx, sy) then 1
    else if Contains(START_BOX, sx, sy) then current
    else 0
  }

  /** The projectile/target overlap test of the animation loop. */
  predicate Overlap(px1: int, py1: int, pw: int, ph: int, tx1: int, ty1: int, tw: int, th: int)
  {
    !(px1 + pw < tx1 || px1 > tx1 + tw || py1 + ph < ty1 || py1 > ty1 + th)
  }

  /** Two closed boxes of non-negative size pass the test exactly when they
      share a point. */
  lemma OverlapMeansSharedPoint(px1: int, py1: int, pw: int, ph: int, tx1: int, ty1: int, tw: int, th: int)
    requires pw >= 0 && ph >= 0 && tw >= 0 && th >= 0
    ensures Overlap(px1, py1, pw, ph, tx1, ty1, tw, th) <==>
              (Max(px1, tx1) <= Min(px1 + pw, tx1 + tw) && Max(py1, ty1) <= Min(py1 + ph, ty1 + th))
    ensures Overlap(px1, py1, pw, ph, tx1, ty1, tw, th) ==>
              Contains(Rect(px1, py1, pw, ph), Max(px1, tx1), Max(py1, ty1)) &&
              Contains(Rect(tx1, ty1, tw, th), Max(px1, tx1), Max(py1, ty1))
  {
  }

  /** Does the projectile, launched from `projX` and moving `dir` (+1 right,
      -1 left), touch `target` before it leaves the screen? Each frame first
      tests the overlap at the current position and then steps. */
  predicate ProjectileHit(projX: int, projY: int, dir: int, target: Rect)
    requires dir == 1 || dir == -1
    decreases if dir == 1 then SCREEN_W - projX else projX
  {
    if !(0 < projX < SCREEN_W) then false
    else if Overlap(projX, projY - 4, PROJECTILE_SIZE, PROJECTILE_SIZE, target.x, target.y, target.w, target.h) then true
    else ProjectileHit(projX + dir * PROJECTILE_STEP_PX, projY, dir, target)
  }

  /** The projectile-stepping loop of the attack animation (the redraws and
      the pause between frames are left out). */
  method FlyProjectile(projX0: int, projY: int, dir: int, target: Rect) returns (hit: bool)
    requires dir == 1 || dir == -1
    ensures hit == ProjectileHit(projX0, projY, dir, target)
  {
    var projX := projX0;
    hit := false;
    while 0 < projX < SCREEN_W
      invariant ProjectileHit(projX, projY, dir, target) == ProjectileHit(projX0, projY, dir, target)
      decreases if dir == 1 then SCREEN_W - projX else projX
    {
      if Overlap(projX, projY - 4, PROJECTILE_SIZE, PROJECTILE_SIZE, target.x, target.y, target.w, target.h) {
        hit := true;
        break;
      }
      projX := projX + dir * PROJECTILE_STEP_PX;
    }
  }

  /** A projectile moving right from a point left of the target's right edge,
      at a height where it meets the target, hits it: its overlap window
      (9 + target width pixels wide) is wider than one step, so it cannot be
      jumped over, and the window lies on the screen. */
  lemma {:induction false} RightwardShotHits(projX: int, projY: int, target: Rect)
    requires 0 < projX <= target.x + target.w < SCREEN_W
    requires target.w >= 0
    requires projY - 4 + PROJECTILE_SIZE >= target.y && projY - 4 <= target.y + target.h
    ensures ProjectileHit(projX, projY, 1, target)
    decreases SCREEN_W - projX
  {
    if !Overlap(projX, projY - 4, PROJECTILE_SIZE, PROJECTILE_SIZE, target.x, target.y, target.w, target.h) {
      RightwardShotHits(projX + PROJECTILE_STEP_PX, projY, target);
    }
  }

  /** The mirror image: moving left from a point right of the target's left
      edge (less the projectile's width). */
  lemma {:induction false} LeftwardShotHits(projX: int, projY: int, target: Rect)
    requires 0 < target.x - PROJECTILE_SIZE <= projX < SCREEN_W
    requires target.w >= 0
    requires projY - 4 + PROJECTILE_SIZE >= target.y && projY - 4 <= target.y + target.h
    ensures ProjectileHit(projX, projY, -1, target)
    decreases projX
  {
    if !Overlap(projX, projY - 4, PROJECTILE_SIZE, PROJECTILE_SIZE, target.x, target.y, target.w, target.h) {
      LeftwardShotHits(projX - PROJECTILE_STEP_PX, projY, target);
    }
  }
}
