# Terminal Pong in Dafny

This project models the core of a two-player Pong game that runs in a
terminal and draws the field as ASCII art (`main.c`). It covers:

- **Physics** (`physics.dfy`): one pass of the game loop over the ball and the
  paddles. The ball is integrated, bounced off the walls, tested against both
  paddles, and the scoring tests run. The paddles are moved by the player
  intents and clamped to the field. Everything is pure functions over a
  `World` value, with one `Config` for main()'s constants.
- **Keys** (`keys.dfy`): the inner loop that drains the queued key codes into
  four move flags and a quit request. `Decode` specifies what the loop
  computes token by token. `DrainKeys` is the loop itself, proved against
  `Decode`.
- **Raster** (`raster.dfy`): `render_frame`. Its static buffer is a `Renderer`
  object holding a grow-only `array<char>` and its capacity. `Render` fills
  that buffer with the score line followed by the grid. The grid is specified
  by `Glyph`, `Cells`, `Grid` and `Picture`.
- **Pong** (`game.dfy`): main()'s locals as the fields of a `Game` object.
  `Game.Step` is one iteration up to the render decision and is proved against
  the pure `StepWorld`. `Tick` adds the drawing, and `Run` loops over a finite
  trace of iterations.

Time, keys and the score line are parameters:

- The elapsed time of an iteration is a parameter `dt`.
- The codes `read_key` returns during one iteration are a sequence `keys`.
  Its i-th element is the i-th call's result, and every call after the end
  gives -1.
- The score line `snprintf` writes is a parameter, `header` (or `scoreLine`
  in `Tick` and `Run`), of at most 64 characters.

C's `float` is modelled as `real`.

The model follows `main.c` as written; in particular:

- The wall tests are `y <= 0` and `y >= H`, and they only negate `vy`. `y` is
  not clamped.
- After a point the ball is served from `(W/2, H/2)`, using integer division,
  with speed `-1` after a left exit and `+1` after a right exit. The serve
  speed is not ±120.
- The left-paddle test does not look at the sign of `vx`. Only the right one
  is gated on `vx > 0`.
- The order of the tests is walls, left paddle, right paddle, left exit, right
  exit. The exits are `x < 0` and `x > W`.
- The initial ball is at `((W - ballS)/2, (H - ballS)/2)` with velocity
  `(1, 0.5)`.
- A `q` leaves the loop before the paddles are moved and before anything is
  drawn. The ball phase of that iteration has already happened.

## Model

| member | source | states |
|---|---|---|
| Physics.Integrate | main.c:181-182 | reference definition of the Euler step (x, y) += (vx, vy) * dt with the velocity kept; used by FreeFlight and Game.MoveBall |
| Physics.WallBounce | main.c:185-186 | reference definition of the two independent wall tests, which negate vy and leave y alone; properties in WallBounceFlipsOnce and WallBounceTwiceOnDegenerateField |
| Physics.LeftPaddle | main.c:189-197 | reference definition of the left paddle test, not gated on vx; properties in LeftPaddleHit, LeftPaddleIgnoresDirection and AtMostOnePaddleHit |
| Physics.RightPaddle | main.c:199-207 | reference definition of the right paddle test, gated on vx > 0; properties in RightPaddleHit and AtMostOnePaddleHit |
| Physics.Serve | main.c:212-223 | reference definition of the ball after a point: at (W/2, H/2) with C's division, the given vx and vy = 0; properties in ScoreOnce and ServeTruncates |
| Physics.Score | main.c:210-224 | reference definition of the two scoring tests in main.c's order; properties in ScoreOnce, BallPhaseScores and LeftExitScenario |
| Physics.BallPhase | main.c:181-224 | reference definition of everything an iteration does to the ball and the scores before the keys are read; properties in FreeFlight, BallPhaseScores, PaddleHitScenario and LeftExitScenario; Game.MoveBall and Game.AwardPoints are proved against it |
| Physics.Move | main.c:250-253 | reference definition of one paddle's move, up then down; property in MoveAdditive |
| Physics.PaddlePhase | main.c:250-259 | reference definition of moving and clamping both paddles; property in PaddlePhaseInField; Game.MovePaddles is proved against it |
| Physics.Clamp | main.c:255-259 | with a non-negative upper bound the result lies in [0, hi]; a value already in range is kept; below 0 gives 0, above hi gives hi |
| Physics.FreeFlight | main.c:181-224 | with no wall contact, paddle hit or exit, the ball moves by exactly (vx*dt, vy*dt) and keeps its velocity |
| Physics.WallBounceFlipsOnce | main.c:185-186 | for H > 0, vy is negated exactly when y <= 0 or y >= H, and position and vx are untouched (no clamping) |
| Physics.WallBounceTwiceOnDegenerateField | main.c:185-186 | for H <= 0, a ball on both walls has vy negated twice, so the ball is unchanged |
| Physics.LeftPaddleHit | main.c:189-197 | on overlap with the left paddle, vx is negated, x = paddleX + paddleW, y is kept and vy = 2*(ball centre - paddle centre); otherwise nothing changes |
| Physics.RightPaddleHit | main.c:199-207 | only a right-moving ball overlapping the right paddle is hit: it then moves left, x = paddle2X - ballS and vy is twice the centre offset; otherwise nothing changes |
| Physics.LeftPaddleIgnoresDirection | main.c:189-193 | a ball moving right that overlaps the left paddle is still reversed (vx 80 becomes -80) |
| Physics.AtMostOnePaddleHit | main.c:189-207 | when the paddles are further apart than the ball, a ball sent back by the left paddle is not also hit by the right one |
| Physics.CDiv | main.c:212-213 | C's integer division: for a non-negative dividend the quotient is the floor, for a negative one it is truncated toward zero |
| Physics.ServeTruncates | main.c:212-213 | on a field of width -3 and height -5 the serve is at (-1, -2), as C's truncating division gives |
| Physics.ScoreOnce | main.c:210-224 | x < 0 gives the right player exactly one point and a serve at speed -1 from (W/2, H/2); x > W gives the left player one point and a serve at +1; otherwise the world is unchanged; the paddles never move |
| Physics.BallPhaseScores | main.c:181-224 | over the ball phase the scores never decrease, rise by at most one point in total, and the paddles do not move |
| Physics.MoveAdditive | main.c:250-253 | the paddle displacement is (down - up) * v * dt, so up and down together cancel out |
| Physics.PaddlePhaseInField | main.c:250-259 | from paddles inside [0, H - paddleH], moving and clamping keeps both inside; ball and scores are untouched; a paddle with no intent, or with both, stays put |
| Physics.PaddleHitScenario | main.c:181-207 | with the default constants, a ball at (10, 60) with vx -80 touching the left paddle at 54 leaves at (10, 60) with velocity (80, -5) |
| Physics.LeftExitScenario | main.c:181-216 | with the default constants, a ball at (0, 64) with vx -50 after 0.01 s gives the right player a point and is served from (80, 64) with velocity (-1, 0) |
| Keys.Decode | main.c:230-248 | reference definition of what draining the queue yields, token by token: stop at -1 or the end, quit at a top-level 'q', an escape takes two operands; DrainKeys is proved equal to it; properties in DecodeStop, DecodeToken, DecodeConcat, EscapeTakesTwo, QuitEndsDecoding, StopEndsDecoding and RepeatedPressIdempotent |
| Keys.DrainKeys | main.c:226-248 | the loop's four flags and its quit result are exactly those of Decode on the queued codes |
| Keys.DecodeStop | main.c:230-247 | decoding from a -1 yields no flags and no quit; decoding from a 'q' yields no flags and the quit request |
| Keys.DecodeToken | main.c:230-240 | decoding from any other code gives that token's flags (an escape takes the next two codes) combined with the decoding after the token |
| Keys.DecodeConcat | main.c:230-248 | a prefix of whole tokens without -1 or 'q' contributes its flags and lets decoding continue with the rest, and never quits |
| Keys.EscapeTakesTwo | main.c:235-240 | an escape consumes the next two codes whatever they are: "[A" and "[B" set the right paddle's flags, and a 'q' or 'w' among them neither quits nor moves the left paddle |
| Keys.QuitEndsDecoding | main.c:242-247 | the first top-level 'q' ends decoding with the quit request; codes after it are ignored |
| Keys.StopEndsDecoding | main.c:230 | a -1 ends decoding without quitting; codes after it are ignored |
| Keys.RepeatedPressIdempotent | main.c:232-239 | a move key pressed again later in the same frame has no further effect |
| Raster.Glyph | main.c:89-121 | reference definition of a cell's glyph by priority: ball over paddle over net over background; CellGlyph is proved equal to it; properties in PictureLayout and BallAlwaysDrawn |
| Raster.Grid | main.c:86-126 | reference definition of the first n rows, each CW glyphs and a newline; properties in GridLength and GridAt |
| Raster.Picture | main.c:86-126 | reference definition of the whole grid of CH rows; WriteGrid and Render are proved to write it; properties in PictureLayout, GlyphInPicture and BallAlwaysDrawn |
| Raster.Cells | main.c:87-124 | the first n glyphs of a row: length n, and element cx is that cell's glyph |
| Raster.GridLength | main.c:86-126 | n rows take n * (CW + 1) characters |
| Raster.GridAt | main.c:86-126 | the character at cy * (CW + 1) + cx is the cell's glyph for cx < CW, and the newline for cx = CW |
| Raster.PictureLayout | main.c:86-126 | every character of the picture is the newline exactly at the end of each row and otherwise the glyph of its cell; all of them are '.', ':', '\|', 'O' or newline |
| Raster.GlyphInPicture | main.c:86-126 | every cell of the grid shows up in the picture |
| Raster.BallAlwaysDrawn | main.c:108-121 | a ball with positive size whose corner lies inside the gridded area always shows at least one 'O' |
| Raster.Renderer.constructor | main.c:70-71 | the buffer starts with no storage and capacity 0 |
| Raster.Renderer.Render | main.c:58-130 | the buffer is grown to 64 + CH*(CW+1) + 128 only when it is too small, so its capacity never decreases; the first len characters are the score line followed by the picture, and len = header length + CH*(CW+1) |
| Raster.Renderer.Reserve | main.c:73-79 | a buffer that is too small is replaced by a fresh one of the needed capacity; otherwise the buffer is kept |
| Raster.WriteHeader | main.c:83-84 | the score line is written at the start of the buffer |
| Raster.WriteGrid | main.c:86-126 | from position start on, the buffer holds the picture; what comes before is left alone; the length grows by CH*(CW+1) |
| Raster.WriteRow | main.c:87-125 | from position start on, the buffer holds row cy's CW glyphs and a newline |
| Raster.CellGlyph | main.c:89-121 | the sequence of overriding tests yields the priority glyph: ball over paddle over net over background |
| Raster.RenderTwice | main.c:70-79 | two frames drawn from the same scene and score line are identical; the buffer left by the first call is the one the second call uses, it is the old buffer unless the first frame needed more room (then a fresh one), and the capacity ends as the larger of the old one and the frame's need |
| Pong.RenderGate | main.c:265-272 | a frame is drawn exactly when the accumulated time reaches 0.01; the accumulator is then reset to 0, else it keeps the sum; from non-negative inputs it stays in [0, 0.01) |
| Pong.StepWorld | main.c:181-259 | reference definition of one iteration's effect on the world: the ball phase, then the paddle phase unless a 'q' was read; Game.Step is proved against it; properties in StepKeepsInvariant and QuitFreezesPaddles |
| Pong.NextAcc | main.c:265-272 | reference definition of render_acc after an iteration: plus dt on a quit, otherwise as RenderGate leaves it; Tick is proved against it; property in RunAccBounded |
| Pong.Draws | main.c:265-272 | reference definition of whether an iteration draws: no quit, and the gate draws; Tick and RunShown are stated with it |
| Pong.FrameText | main.c:83-126 | reference definition of the bytes of a drawn frame: the score line, then the picture of the world; Tick is proved to write it |
| Pong.RunState | main.c:173-275 | reference definition of the world and render_acc after a trace of iterations, one StepWorld and NextAcc step each; Run is proved against it; properties in RunStep, RunKeepsInvariant and RunAccBounded |
| Pong.RunShown | main.c:173-275 | reference definition of the frames written over a trace, in order, one per drawing iteration; Run is proved against it; properties in RunStep and RunKeepsInvariant |
| Pong.StepKeepsInvariant | main.c:181-259 | an iteration keeps both paddles in [0, H - paddleH]; the scores never decrease and grow by at most one point |
| Pong.QuitFreezesPaddles | main.c:242-253 | an iteration whose keys contain a top-level 'q' moves no paddle: the world is just the ball phase |
| Pong.Game.constructor | main.c:134-170 | the initial state of main(): ball at ((W - ballS)/2, (H - ballS)/2) with velocity (1, 0.5), both paddles centred, no points, and an empty render accumulator |
| Pong.Game.Step | main.c:175-272 | the new world is StepWorld of the old one; quit is the decoded quit request; on quit the paddles keep their place and nothing is drawn; otherwise draw and the accumulator follow RenderGate; the paddles stay in the field and the scores grow by at most one |
| Pong.Game.MoveBall | main.c:181-207 | the ball's new state is the integration, then the wall tests, then the left and right paddle tests |
| Pong.Game.AwardPoints | main.c:210-224 | the world after the two scoring tests is Score of the world before |
| Pong.Game.MovePaddles | main.c:250-259 | each paddle's new position is its old one moved by its intents and then clamped to [0, H - paddleH] |
| Pong.SceneOf | main.c:266-270 | the scene passed to render_frame has the game's field and cell sizes, so it has CW = W/sx columns and CH = H/sy rows; the right paddle is drawn with the left one's size |
| Pong.Tick | main.c:173-275 | one iteration: the world follows StepWorld and render_acc follows the gate (plus dt on a quit); when a frame is due and no quit was read, the bytes written are the score line followed by the picture of the new world, the capacity becomes the larger of the old one and the frame's need, and the buffer is kept when it had room (a fresh one otherwise); otherwise nothing is written and the buffer is kept |
| Pong.RunStep | main.c:173-275 | one more iteration extends the run state by one StepWorld and gate step, and the frames written by the frame of that iteration when it draws |
| Pong.RunKeepsInvariant | main.c:181-259 | over any trace the paddles stay in the field, the scores never decrease and gain at most one point per iteration, and at most one frame is written per iteration |
| Pong.RunAccBounded | main.c:179-272 | with non-negative elapsed times and no quit, render_acc stays in [0, 0.01) after any number of iterations |
| Pong.Advance | main.c:173-275 | one iteration of Run takes the world, render_acc and the frames written so far from the run over frames[..n] to the run over frames[..n+1] |
| Pong.Run | main.c:173-275 | over a trace of iterations the loop stops at the first frame with a 'q' (or at the end of the trace); the world and render_acc are then RunState over the iterations run, and the frames written are exactly RunShown over them, in order; scores never decrease and gain at most one point per iteration; the buffer's capacity never shrinks |

## Left out

- Terminal setup and teardown are not modelled, because they are calls into the operating system. This covers `enable_raw_mode`, `disable_raw_mode`, the escape sequences printed at start and on quit, and the cursor handling.
- `read_key` is replaced by the `keys` sequence, because it is a system call. Its results are modelled as any `int`, while the real function only returns -1 or 0..255.
- Timing is not modelled, because it depends on the clock and the scheduler. `now_seconds`, the `dt` computed from it and `usleep` are left out, and `dt` is a parameter.
- The final `write` of the frame is not modelled, because it is output. `Render` returns the length, and `Tick` returns the bytes that would be written.
- The score line that `snprintf` formats (`"\x1b[H"` plus `L=%d  R=%d` and two newlines) is not modelled, because string formatting is outside the model. The model takes it as a parameter of at most 64 characters, so it always fits in the buffer's head room.
- `float` arithmetic is modelled as exact `real` arithmetic, so rounding is not modelled. This includes the IEEE rounding of `float`, the `double` to `float` conversion of `dt`, and the value of the literal `0.01f`.
- Raster.Renderer.Render: does not model a failing `malloc`, because an allocation cannot fail in the model. In the C code `frame_cap` is updated before the null check, so after a failed allocation a later call that needs no more room would write through a null pointer.
- The `acc` accumulator is not modelled, because it is updated and reset but never read. This is main.c:163 and main.c:261-263.
- `int` and `size_t` overflow are not modelled. This covers `CH * (CW + 1)` and the score counters, which are unbounded `nat`.
- The game state and the renderer require a non-negative field and positive cell sizes (`Config.Valid`, `Scene.Valid`), because render_frame divides by the cell sizes. `Config.Valid` also requires paddles no taller than the field (`paddleH <= H`), and `Game.Valid` requires both paddles to lie in [0, H - paddleH]; main()'s constants and its centred paddles meet both. The serve position uses `CDiv`, C's truncating division, for any field size.
- The characters the buffer holds past `len`, left over from earlier frames, are not described.
