/** The Rat Catcher game (`RatCatcher.tsx`): the cat follows the mouse or
    finger, a rat enters from off-screen and settles at a random spot, and
    touching it scores exactly one point before the next rat appears.
    `Math.random()` draws and `Math.sqrt` are parameters; the game area's
    bounding rectangle is passed in, absent while the area is not mounted. */
module RatCatcher {
  import opened Numerics
  import opened Wrappers

  datatype Position = Position(x: real, y: real)

  /** The game area's `getBoundingClientRect()`. */
  datatype Rect = Rect(left: real, top: real, width: real, height: real)

  /** Where a rat enters (off-screen) and where it settles (on-screen). */
  datatype RatState = RatState(initial: Position, final: Position)

  /** The four `Math.random()` draws behind one rat, in the order the source
      makes them: edge, position along the edge, then final x and y. */
  datatype RatDraws = RatDraws(edge: real, along: real, x: real, y: real)

  /** Distance the rat keeps from the edges of the area. */
  const Padding: real := 60.0
  /** How far off-screen a rat starts. */
  const EntryOffset: real := 100.0
  /** Cat and rat touch below this distance. */
  const CatchRadius: real := 45.0

  /** `generateRandomPosition`: with a mounted area at least 120 wide and
      high, the rat settles at least 60 from every edge. */
  function GenerateRandomPosition(area: Option<Rect>, drawX: real, drawY: real): (p: Position)
    ensures area.None? ==> p == Position(0.0, 0.0)
    ensures area.Some? && 0.0 <= drawX < 1.0 && area.value.width >= 2.0 * Padding ==>
      Padding <= p.x <= area.value.width - Padding &&
      (area.value.width > 2.0 * Padding ==> p.x < area.value.width - Padding)
    ensures area.Some? && 0.0 <= drawY < 1.0 && area.value.height >= 2.0 * Padding ==>
      Padding <= p.y <= area.value.height - Padding &&
      (area.value.height > 2.0 * Padding ==> p.y < area.value.height - Padding)
  {
    match area
    case None => Position(0.0, 0.0)
    case Some(rect) =>
      Position(PaddedCoordinate(drawX, rect.width), PaddedCoordinate(drawY, rect.height))
  }

  /** `Math.random() * (extent - PADDING * 2) + PADDING` for one axis. */
  function PaddedCoordinate(draw: real, extent: real): (c: real)
    ensures 0.0 <= draw < 1.0 && extent >= 2.0 * Padding ==>
      Padding <= c <= extent - Padding && (extent > 2.0 * Padding ==> c < extent - Padding)
  {
    var span := extent - Padding * 2.0;
    var offset := draw * span;
    if 0.0 <= draw < 1.0 && span >= 0.0 then
      UnitDrawScaled(draw, span);
      offset + Padding
    else
      offset + Padding
  }

  /** `Math.floor(Math.random() * 4)`: one of 0 to 3 for a draw in [0, 1). */
  function EdgeIndex(draw: real): (edge: int)
    ensures 0.0 <= draw < 1.0 ==> 0 <= edge <= 3
  {
    (draw * 4.0).Floor
  }

  /** A point strictly outside the rectangle [0, width] × [0, height]. */
  predicate OffScreen(p: Position, rect: Rect)
  {
    p.x < 0.0 || p.x > rect.width || p.y < 0.0 || p.y > rect.height
  }

  /** `generateEdgePosition`: 0 is the top edge, 1 the right, 2 the bottom,
      and 3 or anything else the left; the rat always starts off-screen. */
  function GenerateEdgePosition(area: Option<Rect>, edgeDraw: real, alongDraw: real): (p: Position)
    ensures area.None? ==> p == Position(-EntryOffset, 0.0)
    ensures area.Some? ==> OffScreen(p, area.value)
    ensures area.Some? ==> var edge := EdgeIndex(edgeDraw);
      && (edge == 0 ==> p.y == -EntryOffset)
      && (edge == 1 ==> p.x == area.value.width + EntryOffset)
      && (edge == 2 ==> p.y == area.value.height + EntryOffset)
      && (edge != 0 && edge != 1 && edge != 2 ==> p.x == -EntryOffset)
    ensures area.Some? && 0.0 <= alongDraw < 1.0 && area.value.width >= 0.0 && area.value.height >= 0.0 ==>
      (0.0 <= p.x <= area.value.width || 0.0 <= p.y <= area.value.height)
  {
    match area
    case None => Position(-EntryOffset, 0.0)
    case Some(rect) =>
      if 0.0 <= alongDraw < 1.0 && rect.width >= 0.0 && rect.height >= 0.0 then
        EdgePointOnEdge(rect, EdgeIndex(edgeDraw), alongDraw);
        EdgePoint(rect, EdgeIndex(edgeDraw), alongDraw)
      else
        EdgePoint(rect, EdgeIndex(edgeDraw), alongDraw)
  }

  /** The `switch` on the edge index: one coordinate 100 beyond an edge, the
      other the draw's share of that edge's length. */
  function EdgePoint(rect: Rect, edge: int, alongDraw: real): (p: Position)
    ensures OffScreen(p, rect)
    ensures edge == 0 ==> p.y == -EntryOffset
    ensures edge == 1 ==> p.x == rect.width + EntryOffset
    ensures edge == 2 ==> p.y == rect.height + EntryOffset
    ensures edge != 0 && edge != 1 && edge != 2 ==> p.x == -EntryOffset
  {
    if edge == 0 || edge == 2 then
      Position(alongDraw * rect.width, if edge == 0 then -EntryOffset else rect.height + EntryOffset)
    else
      Position(if edge == 1 then rect.width + EntryOffset else -EntryOffset, alongDraw * rect.height)
  }

  /** The coordinate along the edge stays within that edge's span. */
  lemma EdgePointOnEdge(rect: Rect, edge: int, alongDraw: real)
    requires 0.0 <= alongDraw < 1.0 && rect.width >= 0.0 && rect.height >= 0.0
    ensures edge == 0 || edge == 2 ==> 0.0 <= EdgePoint(rect, edge, alongDraw).x <= rect.width
    ensures edge != 0 && edge != 2 ==> 0.0 <= EdgePoint(rect, edge, alongDraw).y <= rect.height
  {
    if edge == 0 || edge == 2 {
      DrawWithin(alongDraw, rect.width, EdgePoint(rect, edge, alongDraw).x);
    } else {
      DrawWithin(alongDraw, rect.height, EdgePoint(rect, edge, alongDraw).y);
    }
  }

  /** UnitDrawScaled for a value already known to be the scaled draw. */
  lemma DrawWithin(r: real, span: real, v: real)
    requires 0.0 <= r < 1.0 && span >= 0.0 && v == r * span
    ensures 0.0 <= v <= span
  {
    UnitDrawScaled(r, span);
  }

  /** `generateRatState`: an entry point and a resting point. */
  function GenerateRatState(area: Option<Rect>, draws: RatDraws): (r: RatState)
    ensures area.Some? ==> OffScreen(r.initial, area.value)
    ensures area.Some? && 0.0 <= draws.x < 1.0 && 0.0 <= draws.y < 1.0 ==>
      (area.value.width >= 2.0 * Padding && area.value.height >= 2.0 * Padding ==> !OffScreen(r.final, area.value))
  {
    RatState(GenerateEdgePosition(area, draws.edge, draws.along), GenerateRandomPosition(area, draws.x, draws.y))
  }

  /** `checkCollision`: the cat is closer than 45 to the rat's resting point;
      with a correct square root, exactly when their squared distance is
      below 45². */
  function CheckCollision(cat: Position, rat: Position, m: Math): (r: bool)
    ensures SqrtSpec(m) ==> (r <==> Square(cat.x - rat.x) + Square(cat.y - rat.y) < CatchRadius * CatchRadius)
  {
    var v := Square(cat.x - rat.x) + Square(cat.y - rat.y);
    RootBelow(v, CatchRadius, m);
    m.sqrt(v) < CatchRadius
  }

  /** A correct square root of a non-negative value is below a non-negative
      bound exactly when the value is below the bound's square. */
  lemma RootBelow(v: real, bound: real, m: Math)
    requires v >= 0.0 && bound >= 0.0
    ensures SqrtSpec(m) ==> (m.sqrt(v) < bound <==> v < bound * bound)
  {
    if SqrtSpec(m) {
      var s := m.sqrt(v);
      assert s >= 0.0 && s * s == v;
      SquareMonotone(s, bound);
    }
  }

  /** Cat and rat touch symmetrically: swapping them changes nothing. */
  lemma {:induction false} CollisionSymmetric(cat: Position, rat: Position, m: Math)
    ensures CheckCollision(cat, rat, m) == CheckCollision(rat, cat, m)
  {
    assert Square(cat.x - rat.x) == Square(rat.x - cat.x);
    assert Square(cat.y - rat.y) == Square(rat.y - cat.y);
  }

  /** The game's state: the React state variables and the two refs. */
  datatype Game = Game(
    score: nat,
    highScore: nat,
    cat: Position,
    rat: RatState,
    catchAnimation: bool,
    gameStarted: bool,
    hasBeenCaught: bool,
    isTouching: bool)

  /** The state of a freshly mounted game, before its first rat is placed. */
  function InitialGame(): (g: Game)
    ensures g.score == 0 && g.highScore == 0 && !g.gameStarted && !g.hasBeenCaught && !g.isTouching && !g.catchAnimation
  {
    Game(0, 0, Position(0.0, 0.0), RatState(Position(0.0, 0.0), Position(0.0, 0.0)), false, false, false, false)
  }

  /** The cat's position inside the area for a pointer at (clientX, clientY). */
  function CatAt(rect: Rect, clientX: real, clientY: real): Position
  {
    Position(clientX - rect.left, clientY - rect.top)
  }

  /** `handleMouseMove`: over a mounted area the cat goes to the pointer,
      relative to the area's corner, and the game starts; nothing else
      changes, and without an area nothing changes at all. */
  function MouseMoved(g: Game, area: Option<Rect>, clientX: real, clientY: real): (r: Game)
    ensures area.Some? ==> r.cat.x + area.value.left == clientX && r.cat.y + area.value.top == clientY && r.gameStarted
    ensures area.None? ==> r == g
    ensures r == g.(cat := r.cat, gameStarted := r.gameStarted)
  {
    match area
    case None => g
    case Some(rect) => g.(cat := CatAt(rect, clientX, clientY), gameStarted := true)
  }

  /** `handleTouchStart`: the finger is down even when the area is missing;
      over a mounted area the cat also goes to the finger and the game
      starts. */
  function TouchStarted(g: Game, area: Option<Rect>, clientX: real, clientY: real): (r: Game)
    ensures r.isTouching
    ensures area.Some? ==> r.cat.x + area.value.left == clientX && r.cat.y + area.value.top == clientY && r.gameStarted
    ensures area.None? ==> r.cat == g.cat && r.gameStarted == g.gameStarted
    ensures r == g.(cat := r.cat, gameStarted := r.gameStarted, isTouching := true)
  {
    match area
    case None => g.(isTouching := true)
    case Some(rect) => g.(isTouching := true, cat := CatAt(rect, clientX, clientY), gameStarted := true)
  }

  /** `handleTouchMove`: ignored unless a finger is down over a mounted
      area; then the cat follows the finger and the game starts. */
  function TouchMoved(g: Game, area: Option<Rect>, clientX: real, clientY: real): (r: Game)
    ensures area.Some? && g.isTouching ==>
      r.cat.x + area.value.left == clientX && r.cat.y + area.value.top == clientY && r.gameStarted
    ensures area.None? || !g.isTouching ==> r == g
    ensures r == g.(cat := r.cat, gameStarted := r.gameStarted)
  {
    if area.None? || !g.isTouching then g
    else g.(cat := CatAt(area.value, clientX, clientY), gameStarted := true)
  }

  /** `handleTouchEnd`: the finger is up; nothing else changes. */
  function TouchEnded(g: Game): (r: Game)
    ensures !r.isTouching
    ensures r.(isTouching := g.isTouching) == g
  {
    g.(isTouching := false)
  }

  /** Whether the collision effect scores: the game is on, the cat touches
      the rat, and this rat has not been caught yet. */
  predicate CatchFires(g: Game, m: Math)
  {
    g.gameStarted && CheckCollision(g.cat, g.rat.final, m) && !g.hasBeenCaught
  }

  /** The collision effect: a catch marks the rat, starts the animation and
      adds exactly one point; otherwise nothing changes. */
  function CatchChecked(g: Game, m: Math): (r: Game)
    ensures r.score == if CatchFires(g, m) then g.score + 1 else g.score
    ensures r.hasBeenCaught <==> g.hasBeenCaught || CatchFires(g, m)
    ensures CatchFires(g, m) ==> r.catchAnimation
    ensures !CatchFires(g, m) ==> r == g
    ensures r.highScore == g.highScore && r.cat == g.cat && r.rat == g.rat && r.gameStarted == g.gameStarted && r.isTouching == g.isTouching
  {
    if !g.gameStarted then g
    else if CheckCollision(g.cat, g.rat.final, m) && !g.hasBeenCaught then
      g.(hasBeenCaught := true, catchAnimation := true, score := g.score + 1)
    else g
  }

  /** The respawn timeout: a new rat, animation over, ready to be caught. */
  function Respawned(g: Game, rat: RatState): (r: Game)
    ensures r.rat == rat && !r.catchAnimation && !r.hasBeenCaught
    ensures r.score == g.score && r.highScore == g.highScore && r.gameStarted == g.gameStarted
    ensures r.cat == g.cat && r.isTouching == g.isTouching
  {
    g.(rat := rat, catchAnimation := false, hasBeenCaught := false)
  }

  /** The high-score effect (the `localStorage` write aside): the high score
      becomes the larger of itself and the score. */
  function HighScoreUpdated(g: Game): (r: Game)
    ensures r.highScore >= g.highScore && r.highScore >= g.score
    ensures r.highScore == g.highScore || r.highScore == g.score
    ensures r == g.(highScore := r.highScore)
  {
    if g.score > g.highScore then g.(highScore := g.score) else g
  }

  /** `resetGame`: score 0, game stopped, new rat, ready to be caught; the
      high score, the catch animation and the touch flag stay as they were. */
  function GameReset(g: Game, rat: RatState): (r: Game)
    ensures r.score == 0 && !r.gameStarted && !r.hasBeenCaught && r.rat == rat
    ensures r.highScore == g.highScore && r.catchAnimation == g.catchAnimation && r.isTouching == g.isTouching && r.cat == g.cat
  {
    g.(score := 0, gameStarted := false, rat := rat, hasBeenCaught := false)
  }

  /** A user input delivered to the game area. */
  datatype Input =
    | MouseMove(clientX: real, clientY: real)
    | TouchStart(clientX: real, clientY: real)
    | TouchMove(clientX: real, clientY: real)
    | TouchEnd

  function Handled(g: Game, area: Option<Rect>, input: Input): Game
  {
    match input
    case MouseMove(x, y) => MouseMoved(g, area, x, y)
    case TouchStart(x, y) => TouchStarted(g, area, x, y)
    case TouchMove(x, y) => TouchMoved(g, area, x, y)
    case TouchEnd => TouchEnded(g)
  }

  /** One input followed by the effects it triggers: the collision check,
      then the high-score update. The score rises by one exactly when the
      catch fires after the input, the high score never falls and keeps up
      with the score, and the rat stays where it is. */
  function Stepped(g: Game, area: Option<Rect>, input: Input, m: Math): (r: Game)
    ensures r.score == if CatchFires(Handled(g, area, input), m) then g.score + 1 else g.score
    ensures r.highScore >= r.score && r.highScore >= g.highScore
    ensures r.rat == g.rat
  {
    InputEffects(g, area, input);
    HighScoreUpdated(CatchChecked(Handled(g, area, input), m))
  }

  /** The game after a run of inputs with no respawn in between: the rat
      stays, the high score never falls, and each input adds at most one
      point. */
  function Played(g: Game, area: Option<Rect>, inputs: seq<Input>, m: Math): (r: Game)
    ensures r.rat == g.rat && r.highScore >= g.highScore
    ensures g.score <= r.score <= g.score + |inputs|
    ensures inputs != [] ==> r.highScore >= r.score
    decreases |inputs|
  {
    if inputs == [] then g
    else Stepped(Played(g, area, inputs[..|inputs| - 1], m), area, inputs[|inputs| - 1], m)
  }

  /** Whether an input moves the cat: a mouse move or a touch start over a
      mounted area, or a touch move while a finger is down. */
  predicate MovesCat(g: Game, area: Option<Rect>, input: Input)
  {
    area.Some? && (input.MouseMove? || input.TouchStart? || (input.TouchMove? && g.isTouching))
  }

  /** What an input does: a moving input puts the cat at the pointer's
      position relative to the area's corner and starts the game; any other
      leaves cat and game as they were. Touches set and clear the finger
      flag. No input changes the scores, the rat, the caught flag or the
      animation, and none stops a started game. */
  lemma InputEffects(g: Game, area: Option<Rect>, input: Input)
    ensures var r := Handled(g, area, input);
      && (MovesCat(g, area, input) ==>
            r.cat.x + area.value.left == input.clientX && r.cat.y + area.value.top == input.clientY && r.gameStarted)
      && (!MovesCat(g, area, input) ==> r.cat == g.cat && r.gameStarted == g.gameStarted)
      && (g.gameStarted ==> r.gameStarted)
      && r.isTouching == (input.TouchStart? || (g.isTouching && !input.TouchEnd?))
      && r.score == g.score && r.highScore == g.highScore && r.rat == g.rat
      && r.hasBeenCaught == g.hasBeenCaught && r.catchAnimation == g.catchAnimation
  {
  }

  /** Between two respawns a rat is worth at most one point: however the cat
      moves, the score rises by at most one, not at all once the rat is
      caught, and a rise leaves the rat marked caught. The high score keeps
      up with the score and never falls. */
  lemma {:induction false} OnePointPerRat(g: Game, area: Option<Rect>, inputs: seq<Input>, m: Math)
    requires g.highScore >= g.score
    ensures var r := Played(g, area, inputs, m);
      && (r.score == g.score || r.score == g.score + 1)
      && (g.hasBeenCaught ==> r.score == g.score)
      && (r.score == g.score + 1 ==> r.hasBeenCaught)
      && (g.hasBeenCaught ==> r.hasBeenCaught)
      && r.highScore >= r.score && r.highScore >= g.highScore
      && r.rat == g.rat
    decreases |inputs|
  {
    if inputs != [] {
      var before := Played(g, area, inputs[..|inputs| - 1], m);
      OnePointPerRat(g, area, inputs[..|inputs| - 1], m);
      InputEffects(before, area, inputs[|inputs| - 1]);
    }
  }

  /** The game as the component holds it. */
  class RatCatcherGame {
    var score: nat
    var highScore: nat
    var cat: Position
    var rat: RatState
    var catchAnimation: bool
    var gameStarted: bool
    var hasBeenCaught: bool
    var isTouching: bool

    function State(): Game
      reads this
    {
      Game(score, highScore, cat, rat, catchAnimation, gameStarted, hasBeenCaught, isTouching)
    }

    constructor ()
      ensures State() == InitialGame()
    {
      score, highScore := 0, 0;
      cat := Position(0.0, 0.0);
      rat := RatState(Position(0.0, 0.0), Position(0.0, 0.0));
      catchAnimation, gameStarted, hasBeenCaught, isTouching := false, false, false, false;
    }

    /** The mount effect that places the first rat. */
    method PlaceRat(area: Option<Rect>, draws: RatDraws)
      modifies this
      ensures State() == old(State()).(rat := GenerateRatState(area, draws))
    {
      rat := GenerateRatState(area, draws);
    }

    method MouseMove(area: Option<Rect>, clientX: real, clientY: real)
      modifies this
      ensures State() == MouseMoved(old(State()), area, clientX, clientY)
    {
      if area.None? { return; }
      cat := CatAt(area.value, clientX, clientY);
      if !gameStarted { gameStarted := true; }
    }

    method TouchStart(area: Option<Rect>, clientX: real, clientY: real)
      modifies this
      ensures State() == TouchStarted(old(State()), area, clientX, clientY)
    {
      isTouching := true;
      if area.None? { return; }
      cat := CatAt(area.value, clientX, clientY);
      if !gameStarted { gameStarted := true; }
    }

    method TouchMove(area: Option<Rect>, clientX: real, clientY: real)
      modifies this
      ensures State() == TouchMoved(old(State()), area, clientX, clientY)
    {
      if area.None? || !isTouching { return; }
      cat := CatAt(area.value, clientX, clientY);
      if !gameStarted { gameStarted := true; }
    }

    method TouchEnd()
      modifies this
      ensures State() == TouchEnded(old(State()))
    {
      isTouching := false;
    }

    /** The collision effect; `respawn` says whether it scheduled the
        respawn timeout. */
    method CheckCatch(m: Math) returns (respawn: bool)
      modifies this
      ensures State() == CatchChecked(old(State()), m)
      ensures respawn <==> CatchFires(old(State()), m)
    {
      respawn := false;
      if !gameStarted { return; }
      if CheckCollision(cat, rat.final, m) && !hasBeenCaught {
        hasBeenCaught := true;
        catchAnimation := true;
        score := score + 1;
        respawn := true;
      }
    }

    /** The respawn timeout firing. */
    method Respawn(area: Option<Rect>, draws: RatDraws)
      modifies this
      ensures State() == Respawned(old(State()), GenerateRatState(area, draws))
    {
      rat := GenerateRatState(area, draws);
      catchAnimation := false;
      hasBeenCaught := false;
    }

    method UpdateHighScore()
      modifies this
      ensures State() == HighScoreUpdated(old(State()))
    {
      if score > highScore {
        highScore := score;
      }
    }

    method ResetGame(area: Option<Rect>, draws: RatDraws)
      modifies this
      ensures State() == GameReset(old(State()), GenerateRatState(area, draws))
    {
      score := 0;
      gameStarted := false;
      rat := GenerateRatState(area, draws);
      hasBeenCaught := false;
    }
  }
}
