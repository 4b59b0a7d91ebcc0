/** The game loop of main.c: the locals main() updates every iteration are
    the fields of a Game object; one call of Step is one pass of the loop up
    to the render decision, Tick adds the rendering, Run drives a finite
    trace of iterations. */
module Pong {
  import opened Physics
  import Keys
  import Raster

  /** A frame is drawn once this much time has been accumulated. */
  const RenderPeriod: real := 0.01

  /** The outcome of the render accumulator for one iteration. */
  datatype Gate = Gate(draw: bool, acc: real)

  /** Add dt to the accumulator; draw and reset once it reaches RenderPeriod. */
  function RenderGate(acc: real, dt: real): (g: Gate)
    ensures g.draw <==> acc + dt >= RenderPeriod
    ensures g.acc == if g.draw then 0.0 else acc + dt
    ensures 0.0 <= acc && 0.0 <= dt ==> 0.0 <= g.acc < RenderPeriod
  {
    var a := acc + dt;
    if a >= RenderPeriod then Gate(true, 0.0) else Gate(false, a)
  }

  /** The simulated state after one iteration: the ball phase always happens;
      the paddles move only when the keys did not ask to quit. */
  function StepWorld(cfg: Config, w: World, dt: real, keys: seq<int>): World {
    var w1 := BallPhase(cfg, w, dt);
    var d := Keys.Decode(keys);
    if d.quit then w1
    else PaddlePhase(cfg, w1, d.intents.up, d.intents.down, d.intents.up2, d.intents.down2, dt)
  }

  /** The paddles stay in the field, the scores never decrease and grow by at
      most one point, and the paddles' x never change (they are constants). */
  lemma StepKeepsInvariant(cfg: Config, w: World, dt: real, keys: seq<int>)
    requires cfg.Valid()
    requires 0.0 <= w.paddleY <= PaddleTop(cfg) && 0.0 <= w.paddle2Y <= PaddleTop(cfg)
    ensures var r := StepWorld(cfg, w, dt, keys);
      0.0 <= r.paddleY <= PaddleTop(cfg) && 0.0 <= r.paddle2Y <= PaddleTop(cfg) &&
      r.scoreL >= w.scoreL && r.scoreR >= w.scoreR &&
      r.scoreL + r.scoreR <= w.scoreL + w.scoreR + 1
  {
    BallPhaseScores(cfg, w, dt);
    var w1 := BallPhase(cfg, w, dt);
    var d := Keys.Decode(keys);
    PaddlePhaseInField(cfg, w1, d.intents.up, d.intents.down, d.intents.up2, d.intents.down2, dt);
  }

  /** A frame whose keys contain a top-level 'q' moves no paddle. */
  lemma QuitFreezesPaddles(cfg: Config, w: World, dt: real, p: seq<int>, s: seq<int>)
    requires Keys.Plain(p)
    ensures var r := StepWorld(cfg, w, dt, p + [Keys.KeyQ] + s);
      r.paddleY == w.paddleY && r.paddle2Y == w.paddle2Y && r == BallPhase(cfg, w, dt)
  {
    Keys.QuitEndsDecoding(p, s);
  }

  /** The arguments main() passes to render_frame: the right paddle is drawn
      with the left one's size. */
  function SceneOf(cfg: Config, w: World): (sc: Raster.Scene)
    ensures cfg.Valid() ==> sc.Valid() && sc.Cols() == cfg.W / cfg.sx && sc.Rows() == cfg.H / cfg.sy
  {
    Raster.Scene(cfg.W, cfg.H, w.ball.x, w.ball.y, cfg.ballS,
                 cfg.paddleX, w.paddleY, cfg.paddleW, cfg.paddleH,
                 cfg.paddle2X, w.paddle2Y, cfg.paddleW, cfg.paddleH,
                 cfg.sx, cfg.sy)
  }

  /** What one iteration leaves in render_acc: on a quit the loop ends after
      adding dt; otherwise the gate decides. */
  function NextAcc(acc: real, dt: real, keys: seq<int>): real {
    if Keys.Decode(keys).quit then acc + dt else RenderGate(acc, dt).acc
  }

  /** Whether an iteration draws a frame. */
  predicate Draws(acc: real, dt: real, keys: seq<int>) {
    !Keys.Decode(keys).quit && RenderGate(acc, dt).draw
  }

  /** The bytes a drawn frame writes: the score line, then the picture. */
  function FrameText(cfg: Config, w: World, scoreLine: (nat, nat) -> seq<char>): seq<char>
    requires cfg.Valid()
  {
    scoreLine(w.scoreL, w.scoreR) + Raster.Picture(SceneOf(cfg, w))
  }

  /** The inputs of one iteration: the elapsed time and the queued key codes. */
  datatype FrameInput = FrameInput(dt: real, keys: seq<int>)

  /** The world and render_acc the loop carries. */
  datatype LoopState = LoopState(world: World, acc: real)

  /** The loop state after the iterations of frames, from (w, acc). */
  function RunState(cfg: Config, w: World, acc: real, frames: seq<FrameInput>): LoopState
    decreases |frames|
  {
    if frames == [] then LoopState(w, acc)
    else
      var s := RunState(cfg, w, acc, frames[..|frames| - 1]);
      var f := frames[|frames| - 1];
      LoopState(StepWorld(cfg, s.world, f.dt, f.keys), NextAcc(s.acc, f.dt, f.keys))
  }

  /** The frames written during the iterations of frames, in order. */
  function RunShown(cfg: Config, w: World, acc: real, frames: seq<FrameInput>, scoreLine: (nat, nat) -> seq<char>): seq<seq<char>>
    requires cfg.Valid()
    decreases |frames|
  {
    if frames == [] then []
    else
      var prefix := frames[..|frames| - 1];
      var s := RunState(cfg, w, acc, prefix);
      var f := frames[|frames| - 1];
      var shown := RunShown(cfg, w, acc, prefix, scoreLine);
      if Draws(s.acc, f.dt, f.keys) then shown + [FrameText(cfg, StepWorld(cfg, s.world, f.dt, f.keys), scoreLine)]
      else shown
  }

  /** The run up to iteration n + 1 extends the run up to iteration n by one step. */
  lemma RunStep(cfg: Config, w: World, acc: real, frames: seq<FrameInput>, n: nat, scoreLine: (nat, nat) -> seq<char>)
    requires cfg.Valid() && n < |frames|
    ensures var s := RunState(cfg, w, acc, frames[..n]);
      var f := frames[n];
      var w1 := StepWorld(cfg, s.world, f.dt, f.keys);
      RunState(cfg, w, acc, frames[..n + 1]) == LoopState(w1, NextAcc(s.acc, f.dt, f.keys)) &&
      RunShown(cfg, w, acc, frames[..n + 1], scoreLine) ==
        RunShown(cfg, w, acc, frames[..n], scoreLine) +
        (if Draws(s.acc, f.dt, f.keys) then [FrameText(cfg, w1, scoreLine)] else [])
  {
    assert frames[..n + 1][..n] == frames[..n];
  }

  /** Over any number of iterations the paddles stay in the field, the scores
      never decrease and gain at most one point per iteration, and at most
      one frame is written per iteration. */
  lemma {:induction false} RunKeepsInvariant(cfg: Config, w: World, acc: real, frames: seq<FrameInput>, scoreLine: (nat, nat) -> seq<char>)
    requires cfg.Valid()
    requires 0.0 <= w.paddleY <= PaddleTop(cfg) && 0.0 <= w.paddle2Y <= PaddleTop(cfg)
    ensures var r := RunState(cfg, w, acc, frames).world;
      0.0 <= r.paddleY <= PaddleTop(cfg) && 0.0 <= r.paddle2Y <= PaddleTop(cfg) &&
      r.scoreL >= w.scoreL && r.scoreR >= w.scoreR &&
      r.scoreL + r.scoreR <= w.scoreL + w.scoreR + |frames|
    ensures |RunShown(cfg, w, acc, frames, scoreLine)| <= |frames|
    decreases |frames|
  {
    if frames != [] {
      var prefix := frames[..|frames| - 1];
      RunKeepsInvariant(cfg, w, acc, prefix, scoreLine);
      var s := RunState(cfg, w, acc, prefix);
      var f := frames[|frames| - 1];
      StepKeepsInvariant(cfg, s.world, f.dt, f.keys);
    }
  }

  /** With non-negative elapsed times, render_acc stays in [0, 0.01) from
      iteration to iteration until a quit. */
  lemma {:induction false} RunAccBounded(cfg: Config, w: World, acc: real, frames: seq<FrameInput>)
    requires 0.0 <= acc < RenderPeriod
    requires forall i :: 0 <= i < |frames| ==> 0.0 <= frames[i].dt
    requires forall i :: 0 <= i < |frames| ==> !Keys.Decode(frames[i].keys).quit
    ensures 0.0 <= RunState(cfg, w, acc, frames).acc < RenderPeriod
    decreases |frames|
  {
    if frames != [] {
      var prefix := frames[..|frames| - 1];
      assert forall i :: 0 <= i < |prefix| ==> prefix[i] == frames[i];
      RunAccBounded(cfg, w, acc, prefix);
    }
  }

  /** The state main() keeps across iterations. */
  class Game {
    const cfg: Config
    var x: real
    var y: real
    var vx: real
    var vy: real
    var paddleY: real
    var paddle2Y: real
    var scoreL: nat   // puntosL
    var scoreR: nat   // puntosR
    var renderAcc: real

    ghost predicate Valid()
      reads this
    {
      cfg.Valid() &&
      0.0 <= paddleY <= PaddleTop(cfg) && 0.0 <= paddle2Y <= PaddleTop(cfg)
    }

    /** The simulated part of the state, as a value. */
    function State(): World
      reads this
    {
      Physics.World(Ball(x, y, vx, vy), paddleY, paddle2Y, scoreL, scoreR)
    }

    /** What render_frame is given. */
    function View(): Raster.Scene
      reads this
    {
      SceneOf(cfg, State())
    }

    /** The start of main(): ball at ((W - ballS)/2, (H - ballS)/2) with velocity
        (1, 0.5), both paddles centred, no points, nothing accumulated. */
    constructor (cfg: Config)
      requires cfg.Valid()
      ensures Valid() && this.cfg == cfg
      ensures State() == Physics.World(
        Ball((cfg.W as real - cfg.ballS) / 2.0, (cfg.H as real - cfg.ballS) / 2.0, 1.0, 0.5),
        (cfg.H as real - cfg.paddleH) / 2.0, (cfg.H as real - cfg.paddleH) / 2.0, 0, 0)
      ensures renderAcc == 0.0
    {
      this.cfg := cfg;
      x := (cfg.W as real - cfg.ballS) / 2.0;
      y := (cfg.H as real - cfg.ballS) / 2.0;
      vx := 1.0;
      vy := 0.5;
      paddleY := (cfg.H as real - cfg.paddleH) / 2.0;
      paddle2Y := (cfg.H as real - cfg.paddleH) / 2.0;
      scoreL := 0;
      scoreR := 0;
      renderAcc := 0.0;
    }

    /** One iteration of the loop of main(), without the drawing itself: moves
        the ball, bounces, scores, drains the keys and moves the paddles.
        Returns whether 'q' was read (the loop then ends before moving the
        paddles) and whether a frame is due. */
    method Step(dt: real, keys: seq<int>) returns (quit: bool, draw: bool)
      requires Valid()
      modifies this
      ensures Valid()
      ensures State() == StepWorld(cfg, old(State()), dt, keys)
      ensures quit == Keys.Decode(keys).quit
      ensures quit ==> paddleY == old(paddleY) && paddle2Y == old(paddle2Y)
      ensures quit ==> !draw && renderAcc == old(renderAcc) + dt
      ensures !quit ==> Gate(draw, renderAcc) == RenderGate(old(renderAcc), dt)
      ensures scoreL >= old(scoreL) && scoreR >= old(scoreR)
      ensures scoreL + scoreR <= old(scoreL) + old(scoreR) + 1
    {
      ghost var w0 := State();
      StepKeepsInvariant(cfg, w0, dt, keys);
      renderAcc := renderAcc + dt;
      MoveBall(dt);
      AwardPoints();
      assert State() == BallPhase(cfg, w0, dt);

      var intents;
      intents, quit := Keys.DrainKeys(keys);
      if quit {
        draw := false;
        return;
      }
      ghost var w1 := State();
      MovePaddles(intents, dt);
      assert State() == PaddlePhase(cfg, w1, intents.up, intents.down, intents.up2, intents.down2, dt);

      draw := renderAcc >= RenderPeriod;
      if draw {
        renderAcc := 0.0;
      }
    }

    /** Integration, the two wall tests and the two paddle tests. */
    method MoveBall(dt: real)
      modifies this`x, this`y, this`vx, this`vy
      ensures Ball(x, y, vx, vy) ==
        RightPaddle(cfg, LeftPaddle(cfg, WallBounce(cfg, Integrate(old(Ball(x, y, vx, vy)), dt)), paddleY), paddle2Y)
    {
      ghost var start := Ball(x, y, vx, vy);
      x := x + vx * dt;
      y := y + vy * dt;
      assert Ball(x, y, vx, vy) == Integrate(start, dt);

      // walls
      if y <= 0.0 { vy := -vy; }
      if y >= cfg.H as real { vy := -vy; }
      ghost var bounced := Ball(x, y, vx, vy);
      assert bounced == WallBounce(cfg, Integrate(start, dt));

      // paddles
      if LeftOverlap(cfg, Ball(x, y, vx, vy), paddleY) {
        vx := -vx;
        x := cfg.paddleX + cfg.paddleW;
        var hit := (y + cfg.ballS / 2.0) - (paddleY + cfg.paddleH / 2.0);
        vy := hit * 2.0;
      }
      assert Ball(x, y, vx, vy) == LeftPaddle(cfg, bounced, paddleY);
      if vx > 0.0 && RightOverlap(cfg, Ball(x, y, vx, vy), paddle2Y) {
        vx := -vx;
        x := cfg.paddle2X - cfg.ballS;
        var hit := (y + cfg.ballS / 2.0) - (paddle2Y + cfg.paddleH / 2.0);
        vy := hit * 2.0;
      }
    }

    /** The two scoring tests. */
    method AwardPoints()
      modifies this`x, this`y, this`vx, this`vy, this`scoreL, this`scoreR
      ensures State() == Score(cfg, old(State()))
    {
      if x < 0.0 {
        scoreR := scoreR + 1;
        x := CDiv(cfg.W, 2) as real;
        y := CDiv(cfg.H, 2) as real;
        vx := -1.0;
        vy := 0.0;
      }
      if x > cfg.W as real {
        scoreL := scoreL + 1;
        x := CDiv(cfg.W, 2) as real;
        y := CDiv(cfg.H, 2) as real;
        vx := 1.0;
        vy := 0.0;
      }
    }

    /** Applying the intents, then clamping both paddles to the field. */
    method MovePaddles(intents: Keys.Intents, dt: real)
      modifies this`paddleY, this`paddle2Y
      ensures paddleY == Clamp(Move(old(paddleY), intents.up, intents.down, cfg.paddleV, dt), PaddleTop(cfg))
      ensures paddle2Y == Clamp(Move(old(paddle2Y), intents.up2, intents.down2, cfg.paddleV, dt), PaddleTop(cfg))
    {
      if intents.up { paddleY := paddleY - cfg.paddleV * dt; }
      if intents.down { paddleY := paddleY + cfg.paddleV * dt; }
      assert paddleY == Move(old(paddleY), intents.up, intents.down, cfg.paddleV, dt);
      ghost var moved := paddleY;
      if intents.up2 { paddle2Y := paddle2Y - cfg.paddleV * dt; }
      if intents.down2 { paddle2Y := paddle2Y + cfg.paddleV * dt; }
      assert paddle2Y == Move(old(paddle2Y), intents.up2, intents.down2, cfg.paddleV, dt);
      ghost var moved2 := paddle2Y;

      if paddleY < 0.0 { paddleY := 0.0; }
      if paddleY > cfg.H as real - cfg.paddleH { paddleY := cfg.H as real - cfg.paddleH; }
      assert paddleY == Clamp(moved, PaddleTop(cfg));
      if paddle2Y < 0.0 { paddle2Y := 0.0; }
      if paddle2Y > cfg.H as real - cfg.paddleH { paddle2Y := cfg.H as real - cfg.paddleH; }
      assert paddle2Y == Clamp(moved2, PaddleTop(cfg));
    }
  }

  /** One whole iteration: Step, then, when a frame is due, render_frame into
      the renderer's buffer. Returns the quit request and the bytes written to
      the terminal (none when no frame was drawn). The score line is formatted
      by scoreLine. */
  method Tick(g: Game, r: Raster.Renderer, dt: real, keys: seq<int>, scoreLine: (nat, nat) -> seq<char>)
    returns (quit: bool, out: seq<char>)
    requires g.Valid() && r.Valid()
    requires forall sl: nat, sr: nat :: |scoreLine(sl, sr)| <= Raster.HeadRoom
    modifies g, r, r.frame
    ensures g.Valid() && r.Valid()
    ensures g.State() == StepWorld(g.cfg, old(g.State()), dt, keys)
    ensures g.renderAcc == NextAcc(old(g.renderAcc), dt, keys)
    ensures quit == Keys.Decode(keys).quit
    ensures r.frame == old(r.frame) || fresh(r.frame)
    ensures !Draws(old(g.renderAcc), dt, keys) ==>
      out == [] && r.frameCap == old(r.frameCap) && r.frame == old(r.frame)
    ensures Draws(old(g.renderAcc), dt, keys) ==>
      out == FrameText(g.cfg, g.State(), scoreLine) &&
      r.frameCap == (if Raster.Needed(g.View()) > old(r.frameCap) then Raster.Needed(g.View()) else old(r.frameCap))
    ensures Draws(old(g.renderAcc), dt, keys) && Raster.Needed(g.View()) <= old(r.frameCap) ==> r.frame == old(r.frame)
    ensures Draws(old(g.renderAcc), dt, keys) && Raster.Needed(g.View()) > old(r.frameCap) ==> fresh(r.frame)
  {
    var draw;
    quit, draw := g.Step(dt, keys);
    out := [];
    if !quit && draw {
      var len := r.Render(g.View(), scoreLine(g.scoreL, g.scoreR));
      out := r.frame[..len];
    }
  }

  /** The loop of main() over a finite trace of iterations; it ends early when
      'q' is read. Returns the quit flag, the number of iterations run and the
      frames written, in order. */
  method Run(g: Game, r: Raster.Renderer, frames: seq<FrameInput>, scoreLine: (nat, nat) -> seq<char>)
    returns (quit: bool, ran: nat, shown: seq<seq<char>>)
    requires g.Valid() && r.Valid()
    requires forall sl: nat, sr: nat :: |scoreLine(sl, sr)| <= Raster.HeadRoom
    modifies g, r, r.frame
    ensures g.Valid() && r.Valid()
    ensures ran <= |frames|
    ensures quit <==> ran > 0 && Keys.Decode(frames[ran - 1].keys).quit
    ensures !quit ==> ran == |frames|
    ensures forall i :: 0 <= i < ran - 1 ==> !Keys.Decode(frames[i].keys).quit
    ensures LoopState(g.State(), g.renderAcc) == RunState(g.cfg, old(g.State()), old(g.renderAcc), frames[..ran])
    ensures shown == RunShown(g.cfg, old(g.State()), old(g.renderAcc), frames[..ran], scoreLine)
    ensures g.scoreL >= old(g.scoreL) && g.scoreR >= old(g.scoreR)
    ensures g.scoreL + g.scoreR <= old(g.scoreL) + old(g.scoreR) + ran && |shown| <= ran
    ensures r.frameCap >= old(r.frameCap)
  {
    ghost var w0, acc0 := g.State(), g.renderAcc;
    quit, ran, shown := false, 0, [];
    while ran < |frames| && !quit
      invariant g.Valid() && r.Valid()
      invariant ran <= |frames|
      invariant quit ==> ran > 0 && Keys.Decode(frames[ran - 1].keys).quit
      invariant forall i :: 0 <= i < ran && (i < ran - 1 || !quit) ==> !Keys.Decode(frames[i].keys).quit
      invariant LoopState(g.State(), g.renderAcc) == RunState(g.cfg, w0, acc0, frames[..ran])
      invariant shown == RunShown(g.cfg, w0, acc0, frames[..ran], scoreLine)
      invariant r.frameCap >= old(r.frameCap)
      invariant r.frame == old(r.frame) || fresh(r.frame)
    {
      quit, shown := Advance(g, r, frames, ran, scoreLine, w0, acc0, shown);
      ran := ran + 1;
    }
    RunKeepsInvariant(g.cfg, w0, acc0, frames[..ran], scoreLine);
  }

  /** Iteration n of Run: Tick on frames[n], appending the frame it writes, if
      any, to the frames written so far. */
  method Advance(g: Game, r: Raster.Renderer, frames: seq<FrameInput>, n: nat, scoreLine: (nat, nat) -> seq<char>,
                 ghost w0: World, ghost acc0: real, shown: seq<seq<char>>)
    returns (quit: bool, shown': seq<seq<char>>)
    requires g.Valid() && r.Valid() && n < |frames|
    requires forall sl: nat, sr: nat :: |scoreLine(sl, sr)| <= Raster.HeadRoom
    requires LoopState(g.State(), g.renderAcc) == RunState(g.cfg, w0, acc0, frames[..n])
    requires shown == RunShown(g.cfg, w0, acc0, frames[..n], scoreLine)
    modifies g, r, r.frame
    ensures g.Valid() && r.Valid()
    ensures quit == Keys.Decode(frames[n].keys).quit
    ensures LoopState(g.State(), g.renderAcc) == RunState(g.cfg, w0, acc0, frames[..n + 1])
    ensures shown' == RunShown(g.cfg, w0, acc0, frames[..n + 1], scoreLine)
    ensures r.frameCap >= old(r.frameCap)
    ensures r.frame == old(r.frame) || fresh(r.frame)
  {
    var acc := g.renderAcc;
    RunStep(g.cfg, w0, acc0, frames, n, scoreLine);
    var out;
    quit, out := Tick(g, r, frames[n].dt, frames[n].keys, scoreLine);
    shown' := shown;
    if Draws(acc, frames[n].dt, frames[n].keys) {
      shown' := shown + [out];
    }
  }
}
