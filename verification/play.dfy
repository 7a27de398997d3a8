/**
  The per-frame game rules of the `Play` scene in main.js: the obstacle pass
  and scoring loop of `update`, the fall check, the distance score, and the
  `_gameOver`, `_jump` and `onClap` gates.

  The physics engine is outside the model: each frame supplies the pony's
  position, whether its body is blocked below (standing on ground or a cloud),
  whether space was just pressed, and the frame time. A jump is reported as a
  request: `_jump` sets the upward velocity, but a frame that also ends the
  game cancels it, since `_gameOver` zeroes the velocity afterwards.
*/
module Play {
  import opened Level

  const MaxCombo: int := 999
  /** `world.fallKillY`: below this the pony has fallen into a pit or river. */
  const FallKillY: real := 560.0
  /** `world.runSpeed`, in px per second. */
  const RunSpeed: real := 220.0

  function Min(a: int, b: int): int
  {
    if a < b then a else b
  }

  /** `clamp(n, a, b) = Math.max(a, Math.min(b, n))`. */
  function Clamp(n: int, a: int, b: int): (r: int)
    ensures a <= b ==> a <= r <= b
    ensures a <= n <= b ==> r == n
    ensures a <= b && n < a ==> r == a
    ensures a <= b && n > b ==> r == b
    ensures a > b ==> r == a
  {
    var m := Min(b, n);
    if a < m then m else a
  }

  /** The scene's state: `score`, `combo`, the indices of `passed` sensors
      and `gameEnded`. */
  datatype Game = Game(score: real, combo: int, passed: set<nat>, ended: bool)

  /** What `create` sets before the level is built. */
  const Initial: Game := Game(0.0, 0, {}, false)

  /** The combo stays in [0, 999] and only existing sensors are passed. */
  ghost predicate WellFormed(g: Game, sensors: seq<Sensor>)
  {
    0 <= g.combo <= MaxCombo && forall i :: i in g.passed ==> i < |sensors|
  }

  /** A fresh game is well formed whatever the level. */
  lemma InitialWellFormed(sensors: seq<Sensor>)
    ensures WellFormed(Initial, sensors)
    ensures Initial.score == 0.0 && Initial.combo == 0 && Initial.passed == {} && !Initial.ended
  {
  }

  /** `_gameOver`: the game ends and the combo is lost; score and passed
      sensors stay. */
  function GameOver(g: Game): (g': Game)
    ensures g'.ended && g'.combo == 0
    ensures g'.score == g.score && g'.passed == g.passed
  {
    g.(ended := true, combo := 0)
  }

  /** The points for clearing a sensor with the combo already incremented:
      `10 + Math.min(30, combo * 2)`. */
  function Award(combo: int): (points: int)
    ensures points <= 40
    ensures combo >= 1 ==> 12 <= points
    ensures combo >= 15 ==> points == 40
  {
    10 + Min(30, combo * 2)
  }

  /** The pony's x is inside the sensor interval (both ends included). */
  predicate Inside(px: real, s: Sensor)
  {
    s.x1 as real <= px <= s.x2 as real
  }

  /** One sensor cleared in the air: it joins `passed`, the combo grows and
      the award is added. */
  function Clear(g: Game, i: nat): (g': Game)
    ensures g'.passed == g.passed + {i} && g'.ended == g.ended
    ensures 0 <= g.combo < MaxCombo ==> g'.combo == g.combo + 1
    ensures g.combo == MaxCombo ==> g'.combo == MaxCombo
    ensures 0 <= g.combo ==> g.score + 12.0 <= g'.score <= g.score + 40.0
  {
    var combo := Clamp(g.combo + 1, 0, MaxCombo);
    g.(passed := g.passed + {i}, combo := combo, score := g.score + Award(combo) as real)
  }

  /** The obstacle loop of `update` from sensor `i` on: passed sensors are
      skipped; a sensor containing the pony ends the game if the pony is on
      the ground (and stops the loop), and otherwise is passed and scored. */
  function PassSensors(g: Game, sensors: seq<Sensor>, i: nat, px: real, onGround: bool): Game
    requires i <= |sensors|
    decreases |sensors| - i
  {
    if i == |sensors| then g
    else if i in g.passed || !Inside(px, sensors[i]) then PassSensors(g, sensors, i + 1, px, onGround)
    else if onGround then GameOver(g)
    else PassSensors(Clear(g, i), sensors, i + 1, px, onGround)
  }

  /** The sensors from `i` on that are not yet passed and contain `px`, in
      order: the ones this frame reaches. */
  function Hits(passed: set<nat>, sensors: seq<Sensor>, i: nat, px: real): seq<nat>
    requires i <= |sensors|
    decreases |sensors| - i
  {
    if i == |sensors| then []
    else if i !in passed && Inside(px, sensors[i]) then [i] + Hits(passed, sensors, i + 1, px)
    else Hits(passed, sensors, i + 1, px)
  }

  /** `Hits` lists exactly the unpassed sensors from `i` on that contain the
      pony. */
  lemma {:induction false} HitsExact(passed: set<nat>, sensors: seq<Sensor>, i: nat, px: real)
    requires i <= |sensors|
    ensures var h := Hits(passed, sensors, i, px);
      forall j :: j in h <==> i <= j < |sensors| && j !in passed && Inside(px, sensors[j])
    decreases |sensors| - i
  {
    if i < |sensors| {
      HitsExact(passed, sensors, i + 1, px);
      var rest := Hits(passed, sensors, i + 1, px);
      if i !in passed && Inside(px, sensors[i]) {
        assert Hits(passed, sensors, i, px) == [i] + rest;
        assert forall j :: j in [i] + rest <==> j == i || j in rest;
      }
    }
  }

  lemma {:induction false} HitsIgnoresBelow(passed: set<nat>, sensors: seq<Sensor>, i: nat, j: nat, px: real)
    requires j < i <= |sensors|
    ensures Hits(passed + {j}, sensors, i, px) == Hits(passed, sensors, i, px)
    decreases |sensors| - i
  {
    if i < |sensors| {
      HitsIgnoresBelow(passed, sensors, i + 1, j, px);
    }
  }

  /** The obstacle loop with the pony on the ground: reaching any unpassed
      sensor ends the game and changes nothing else; reaching none changes
      nothing at all. */
  lemma {:induction false} PassOnGround(g: Game, sensors: seq<Sensor>, i: nat, px: real)
    requires i <= |sensors|
    ensures PassSensors(g, sensors, i, px, true) ==
      if |Hits(g.passed, sensors, i, px)| > 0 then GameOver(g) else g
    decreases |sensors| - i
  {
    if i < |sensors| && (i in g.passed || !Inside(px, sensors[i])) {
      PassOnGround(g, sensors, i + 1, px);
    }
  }

  /** In the air, the loop from sensor `i` is `Clear` applied to each reached
      sensor in turn. */
  lemma {:induction false} PassInAirUnfold(g: Game, sensors: seq<Sensor>, i: nat, px: real)
    requires i < |sensors| && i !in g.passed && Inside(px, sensors[i])
    ensures PassSensors(g, sensors, i, px, false) == PassSensors(Clear(g, i), sensors, i + 1, px, false)
    ensures Hits(g.passed, sensors, i, px) == [i] + Hits(Clear(g, i).passed, sensors, i + 1, px)
  {
    HitsIgnoresBelow(g.passed, sensors, i + 1, i, px);
  }

  /** The obstacle loop with the pony in the air: exactly the reached sensors
      join `passed`, each once; the combo grows by their number (capped at
      999), each adds between 12 and 40 points, and the game goes on. */
  lemma {:induction false} PassInAir(g: Game, sensors: seq<Sensor>, i: nat, px: real)
    requires i <= |sensors| && 0 <= g.combo <= MaxCombo
    ensures var r := PassSensors(g, sensors, i, px, false);
      var h := Hits(g.passed, sensors, i, px);
      && r.passed == g.passed + (set k | k in h)
      && r.ended == g.ended
      && r.combo == Min(MaxCombo, g.combo + |h|)
      && g.score + (12 * |h|) as real <= r.score <= g.score + (40 * |h|) as real
    decreases |sensors| - i
  {
    if i < |sensors| {
      if i in g.passed || !Inside(px, sensors[i]) {
        PassInAir(g, sensors, i + 1, px);
      } else {
        var g' := Clear(g, i);
        PassInAirUnfold(g, sensors, i, px);
        PassInAir(g', sensors, i + 1, px);
        var rest := Hits(g'.passed, sensors, i + 1, px);
        assert (set k | k in [i] + rest) == {i} + (set k | k in rest);
      }
    }
  }

  /** One frame's input from the engine. */
  datatype Frame = Frame(ponyX: real, ponyY: real, onGround: bool, spaceJustDown: bool, deltaMs: real)

  datatype Updated = Updated(game: Game, jumpRequested: bool)

  /** `_jump`: only a running game and a pony standing on something jump. */
  function Jump(g: Game, onGround: bool): (jumps: bool)
    ensures jumps <==> !g.ended && onGround
  {
    if g.ended then false else onGround
  }

  /** The `onClap` handler: ignored once the game has ended, else `_jump`. */
  function OnClap(g: Game, onGround: bool): (jumps: bool)
    ensures jumps <==> !g.ended && onGround
  {
    if g.ended then false else Jump(g, onGround)
  }

  /** `update(time, delta)`: the space-key jump, the obstacle loop, the fall
      check, then the distance score. `jumpRequested` says that `_jump` set
      the upward velocity this frame; when the same frame ends the game,
      `_gameOver` zeroes that velocity again, so the pony does not leave. */
  function Update(g: Game, sensors: seq<Sensor>, f: Frame): (u: Updated)
    ensures g.ended ==> u == Updated(g, false)
    ensures u.jumpRequested <==> f.spaceJustDown && f.onGround && !g.ended
  {
    if g.ended then Updated(g, false)
    else
      var jumped := f.spaceJustDown && Jump(g, f.onGround);
      var g1 := PassSensors(g, sensors, 0, f.ponyX, f.onGround);
      if g1.ended then Updated(g1, jumped)
      else if f.ponyY > FallKillY then Updated(GameOver(g1), jumped)
      else Updated(g1.(score := g1.score + RunSpeed * (f.deltaMs / 1000.0) * 0.06), jumped)
  }

  /** One frame of a running game: it ends exactly when the pony stands on
      the ground inside an unpassed sensor or has fallen below 560; otherwise
      the newly passed sensors are exactly the unpassed ones containing the
      pony, they were not passed before, the combo grows by their number
      (capped at 999), and the score does not decrease for a non-negative
      frame time. Every frame keeps the game well formed. */
  lemma UpdateOutcome(g: Game, sensors: seq<Sensor>, f: Frame)
    requires WellFormed(g, sensors) && !g.ended
    ensures var u := Update(g, sensors, f);
      var h := Hits(g.passed, sensors, 0, f.ponyX);
      && WellFormed(u.game, sensors)
      && g.passed <= u.game.passed
      && (f.onGround && |h| > 0 ==> u.game.ended && u.game.combo == 0 && u.game.passed == g.passed)
      && (f.ponyY > FallKillY ==> u.game.ended)
      && (u.game.ended <==> (f.onGround && |h| > 0) || f.ponyY > FallKillY)
      && (!u.game.ended ==> u.game.passed == g.passed + (set k | k in h))
      && (!u.game.ended ==> u.game.combo == Min(MaxCombo, g.combo + |h|))
      && (forall k :: k in h ==> k !in g.passed)
      && (f.deltaMs >= 0.0 ==> u.game.score >= g.score)
  {
    HitsExact(g.passed, sensors, 0, f.ponyX);
    if f.onGround {
      PassOnGround(g, sensors, 0, f.ponyX);
    } else {
      PassInAir(g, sensors, 0, f.ponyX);
    }
    var d := f.deltaMs;
    if d >= 0.0 {
      assert RunSpeed * (d / 1000.0) * 0.06 >= 0.0;
    }
  }
}
