/** Ball and paddle simulation of one iteration of the game loop in main.c.
    World coordinates have their origin at the top left, y grows downwards;
    the ball and the paddles are boxes given by their top-left corner.
    C's float is modelled as real. */
module Physics {

  /** The tuning constants main() fixes at start-up. */
  datatype Config = Config(
    W: int, H: int,                 // size of the playing field
    ballS: real,                    // side of the square ball
    paddleH: real, paddleW: real,   // size of both paddles
    paddleX: real, paddle2X: real,  // fixed left edges of the left and right paddle
    paddleV: real,                  // paddle speed
    sx: int, sy: int)               // world units per character cell, across and down
  {
    /** What the loop relies on: a non-negative field, positive cell sizes
        (render_frame divides by them) and paddles no taller than the field. */
    predicate Valid() {
      W >= 0 && H >= 0 && sx > 0 && sy > 0 && paddleH <= H as real
    }
  }

  /** The constants main() starts with (main.c:134-171). */
  const Default: Config := Config(160, 128, 3.0, 20.0, 4.0, 6.0, 140.0, 60.0, 4, 8)

  datatype Ball = Ball(x: real, y: real, vx: real, vy: real)

  /** The simulated state the loop carries from frame to frame. */
  datatype World = World(ball: Ball, paddleY: real, paddle2Y: real, scoreL: nat, scoreR: nat)

  /** Explicit Euler step of the ball. */
  function Integrate(b: Ball, dt: real): Ball {
    b.(x := b.x + b.vx * dt, y := b.y + b.vy * dt)
  }

  /** The two independent wall tests; y is left where it is. */
  function WallBounce(cfg: Config, b: Ball): Ball {
    var vy1 := if b.y <= 0.0 then -b.vy else b.vy;
    b.(vy := if b.y >= cfg.H as real then -vy1 else vy1)
  }

  /** Closed-box overlap of the ball with the left paddle. */
  predicate LeftOverlap(cfg: Config, b: Ball, paddleY: real) {
    b.x + cfg.ballS >= cfg.paddleX && b.x <= cfg.paddleX + cfg.paddleW &&
    b.y + cfg.ballS >= paddleY && b.y <= paddleY + cfg.paddleH
  }

  /** Closed-box overlap of the ball with the right paddle (which has the left one's size). */
  predicate RightOverlap(cfg: Config, b: Ball, paddle2Y: real) {
    b.x + cfg.ballS >= cfg.paddle2X && b.x <= cfg.paddle2X + cfg.paddleW &&
    b.y + cfg.ballS >= paddle2Y && b.y <= paddle2Y + cfg.paddleH
  }

  /** The vertical speed after a paddle hit: twice the offset of the ball's
      centre from the paddle's centre. */
  function HitSpeed(cfg: Config, b: Ball, paddleTop: real): real {
    2.0 * ((b.y + cfg.ballS / 2.0) - (paddleTop + cfg.paddleH / 2.0))
  }

  /** Left paddle collision; not gated on the direction of the ball. */
  function LeftPaddle(cfg: Config, b: Ball, paddleY: real): Ball {
    if LeftOverlap(cfg, b, paddleY) then
      b.(x := cfg.paddleX + cfg.paddleW, vx := -b.vx, vy := HitSpeed(cfg, b, paddleY))
    else b
  }

  /** Right paddle collision; only while the ball moves right. */
  function RightPaddle(cfg: Config, b: Ball, paddle2Y: real): Ball {
    if b.vx > 0.0 && RightOverlap(cfg, b, paddle2Y) then
      b.(x := cfg.paddle2X - cfg.ballS, vx := -b.vx, vy := HitSpeed(cfg, b, paddle2Y))
    else b
  }

  /** C's integer division by a positive divisor, which truncates toward zero
      (Dafny's / rounds down, which differs for a negative dividend). */
  function CDiv(a: int, b: int): (r: int)
    requires b > 0
    ensures 0 <= a ==> 0 <= r && r * b <= a < r * b + b
    ensures a < 0 ==> r <= 0 && r * b - b < a <= r * b
  {
    if a >= 0 then a / b else -((-a) / b)
  }

  /** The ball put back at the centre after a point; W/2 and H/2 are C's
      integer divisions. */
  function Serve(cfg: Config, vx: real): Ball {
    Ball(CDiv(cfg.W, 2) as real, CDiv(cfg.H, 2) as real, vx, 0.0)
  }

  /** The two scoring tests, in the order main.c makes them. */
  function Score(cfg: Config, w: World): World {
    var w1 := if w.ball.x < 0.0 then w.(scoreR := w.scoreR + 1, ball := Serve(cfg, -1.0)) else w;
    if w1.ball.x > cfg.W as real then w1.(scoreL := w1.scoreL + 1, ball := Serve(cfg, 1.0)) else w1
  }

  /** Everything the loop does to the ball and the scores before reading keys. */
  function BallPhase(cfg: Config, w: World, dt: real): World {
    var b := WallBounce(cfg, Integrate(w.ball, dt));
    var b' := RightPaddle(cfg, LeftPaddle(cfg, b, w.paddleY), w.paddle2Y);
    Score(cfg, w.(ball := b'))
  }

  /** One paddle's move: up, then down, applied one after the other. */
  function Move(y: real, up: bool, down: bool, v: real, dt: real): real {
    var y1 := if up then y - v * dt else y;
    if down then y1 + v * dt else y1
  }

  /** The two sequential clamp tests of main.c; when hi < 0 the second one wins. */
  function Clamp(y: real, hi: real): (r: real)
    ensures 0.0 <= hi ==> 0.0 <= r <= hi
    ensures 0.0 <= y <= hi ==> r == y
    ensures y < 0.0 && 0.0 <= hi ==> r == 0.0
    ensures y > hi && 0.0 <= hi ==> r == hi
  {
    var y1 := if y < 0.0 then 0.0 else y;
    if y1 > hi then hi else y1
  }

  /** The highest top edge a paddle may have. */
  function PaddleTop(cfg: Config): real {
    cfg.H as real - cfg.paddleH
  }

  /** Moving and clamping both paddles. */
  function PaddlePhase(cfg: Config, w: World, up: bool, down: bool, up2: bool, down2: bool, dt: real): World {
    w.(paddleY := Clamp(Move(w.paddleY, up, down, cfg.paddleV, dt), PaddleTop(cfg)),
       paddle2Y := Clamp(Move(w.paddle2Y, up2, down2, cfg.paddleV, dt), PaddleTop(cfg)))
  }

  // ---------------------------------------------------------------------------
  // Properties

  /** Without wall contact, paddle hit or exit the ball moves by exactly
      (vx*dt, vy*dt) and keeps its velocity. */
  lemma FreeFlight(cfg: Config, w: World, dt: real)
    requires var b := Integrate(w.ball, dt);
      0.0 < b.y < cfg.H as real && 0.0 <= b.x <= cfg.W as real &&
      !LeftOverlap(cfg, b, w.paddleY) && !(b.vx > 0.0 && RightOverlap(cfg, b, w.paddle2Y))
    ensures BallPhase(cfg, w, dt) ==
      w.(ball := Ball(w.ball.x + w.ball.vx * dt, w.ball.y + w.ball.vy * dt, w.ball.vx, w.ball.vy))
  {
  }

  /** With H > 0 the two wall tests flip vy at most once: exactly when the ball
      is on or beyond a wall. Position and vx are untouched. */
  lemma WallBounceFlipsOnce(cfg: Config, b: Ball)
    requires cfg.H > 0
    ensures var r := WallBounce(cfg, b);
      r.x == b.x && r.y == b.y && r.vx == b.vx &&
      r.vy == (if b.y <= 0.0 || b.y >= cfg.H as real then -b.vy else b.vy)
  {
  }

  /** With H <= 0 a ball on both "walls" at once has vy flipped twice, i.e. unchanged. */
  lemma WallBounceTwiceOnDegenerateField(cfg: Config, b: Ball)
    requires cfg.H <= 0 && cfg.H as real <= b.y <= 0.0
    ensures WallBounce(cfg, b) == b
  {
  }

  /** The left paddle test, whatever the sign of vx: the ball is reversed,
      put flush against the paddle's right edge and given the hit speed. */
  lemma LeftPaddleHit(cfg: Config, b: Ball, paddleY: real)
    ensures var r := LeftPaddle(cfg, b, paddleY);
      if LeftOverlap(cfg, b, paddleY) then
        r.vx == -b.vx && r.x == cfg.paddleX + cfg.paddleW && r.y == b.y &&
        r.vy == 2.0 * ((b.y + cfg.ballS / 2.0) - (paddleY + cfg.paddleH / 2.0))
      else r == b
  {
  }

  /** The right paddle reverses only a ball moving right, so afterwards it moves left;
      it is put flush against the paddle's left edge. */
  lemma RightPaddleHit(cfg: Config, b: Ball, paddle2Y: real)
    ensures var r := RightPaddle(cfg, b, paddle2Y);
      if b.vx > 0.0 && RightOverlap(cfg, b, paddle2Y) then
        r.vx < 0.0 && r.vx == -b.vx && r.x == cfg.paddle2X - cfg.ballS && r.y == b.y &&
        r.vy == 2.0 * ((b.y + cfg.ballS / 2.0) - (paddle2Y + cfg.paddleH / 2.0))
      else r == b
  {
  }

  /** A ball moving right that touches the left paddle is sent back left:
      the left test does not look at the direction. */
  lemma LeftPaddleIgnoresDirection()
    ensures var b := Ball(10.0, 60.0, 80.0, 0.0);
      LeftOverlap(Default, b, 54.0) && LeftPaddle(Default, b, 54.0).vx == -80.0
  {
  }

  /** When the paddles are far enough apart, a ball sent back by the left paddle
      cannot also be hit by the right one in the same frame. */
  lemma AtMostOnePaddleHit(cfg: Config, b: Ball, paddleY: real, paddle2Y: real)
    requires cfg.paddleX + cfg.paddleW + cfg.ballS < cfg.paddle2X
    requires LeftOverlap(cfg, b, paddleY)
    ensures RightPaddle(cfg, LeftPaddle(cfg, b, paddleY), paddle2Y) == LeftPaddle(cfg, b, paddleY)
  {
  }

  /** Scoring: past the left edge the right player scores exactly one point and
      the ball is served left from (W/2, H/2); past the right edge the left player
      scores and it is served right; otherwise nothing changes. After a serve
      the right-edge test cannot fire, so at most one point is given. */
  lemma ScoreOnce(cfg: Config, w: World)
    requires cfg.W >= 0
    ensures var r := Score(cfg, w);
      r.paddleY == w.paddleY && r.paddle2Y == w.paddle2Y &&
      if w.ball.x < 0.0 then
        r.scoreR == w.scoreR + 1 && r.scoreL == w.scoreL && r.ball == Serve(cfg, -1.0)
      else if w.ball.x > cfg.W as real then
        r.scoreL == w.scoreL + 1 && r.scoreR == w.scoreR && r.ball == Serve(cfg, 1.0)
      else r == w
  {
    assert 0 <= CDiv(cfg.W, 2) <= cfg.W;
    assert (CDiv(cfg.W, 2) as real) <= cfg.W as real;
  }

  /** Over a whole ball phase the scores never decrease, at most one point is
      given, and the paddles do not move. */
  lemma BallPhaseScores(cfg: Config, w: World, dt: real)
    requires cfg.W >= 0
    ensures var r := BallPhase(cfg, w, dt);
      r.scoreL >= w.scoreL && r.scoreR >= w.scoreR &&
      r.scoreL + r.scoreR <= w.scoreL + w.scoreR + 1 &&
      r.paddleY == w.paddleY && r.paddle2Y == w.paddle2Y
  {
    var b := WallBounce(cfg, Integrate(w.ball, dt));
    var b' := RightPaddle(cfg, LeftPaddle(cfg, b, w.paddleY), w.paddle2Y);
    ScoreOnce(cfg, w.(ball := b'));
  }

  /** Up and down are applied additively: the displacement is
      (down - up) * v * dt, so both at once cancel out. */
  lemma MoveAdditive(y: real, up: bool, down: bool, v: real, dt: real)
    ensures Move(y, up, down, v, dt) ==
      y + ((if down then 1.0 else 0.0) - (if up then 1.0 else 0.0)) * v * dt
    ensures up && down ==> Move(y, up, down, v, dt) == y
  {
  }

  /** The paddle phase keeps both paddles inside the field, leaves the ball and
      the scores alone, and never moves a paddle that had neither intent. */
  lemma PaddlePhaseInField(cfg: Config, w: World, up: bool, down: bool, up2: bool, down2: bool, dt: real)
    requires cfg.Valid()
    requires 0.0 <= w.paddleY <= PaddleTop(cfg) && 0.0 <= w.paddle2Y <= PaddleTop(cfg)
    ensures var r := PaddlePhase(cfg, w, up, down, up2, down2, dt);
      0.0 <= r.paddleY <= PaddleTop(cfg) && 0.0 <= r.paddle2Y <= PaddleTop(cfg) &&
      r.ball == w.ball && r.scoreL == w.scoreL && r.scoreR == w.scoreR &&
      (!up && !down ==> r.paddleY == w.paddleY) &&
      (!up2 && !down2 ==> r.paddle2Y == w.paddle2Y) &&
      (up && down ==> r.paddleY == w.paddleY) &&
      (up2 && down2 ==> r.paddle2Y == w.paddle2Y)
  {
    MoveAdditive(w.paddleY, up, down, cfg.paddleV, dt);
    MoveAdditive(w.paddle2Y, up2, down2, cfg.paddleV, dt);
  }

  /** A ball overlapping the left paddle at the start of a zero-length frame
      leaves with vx = 80, x = paddleX + paddleW = 10 and vy = 2 * (61.5 - 64) = -5. */
  lemma PaddleHitScenario()
    ensures var w := World(Ball(10.0, 60.0, -80.0, 0.0), 54.0, 54.0, 0, 0);
      BallPhase(Default, w, 0.0).ball == Ball(10.0, 60.0, 80.0, -5.0)
  {
  }

  /** On a field of negative width the serve position truncates toward zero
      as C does: -3/2 is -1, not -2. */
  lemma ServeTruncates()
    ensures Serve(Default.(W := -3, H := -5), -1.0) == Ball(-1.0, -2.0, -1.0, 0.0)
  {
  }

  /** A ball leaving past the left edge gives the right player a point and is
      served from (80, 64) with velocity (-1, 0). */
  lemma LeftExitScenario()
    ensures var w := World(Ball(0.0, 64.0, -50.0, 0.0), 54.0, 54.0, 0, 0);
      BallPhase(Default, w, 0.01) == w.(ball := Ball(80.0, 64.0, -1.0, 0.0), scoreR := 1)
  {
  }
}
