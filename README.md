# rotateglfw: animation, viewport and fixed-timestep loop

`rotateglfw.py` is a small PyOpenGL/GLFW demo. It opens a window and draws one textured quad. The quad's rotation angle advances by one degree per frame. This project models the sequential state logic of that program in Dafny and proves properties of it. The GPU and windowing calls have no counterpart.

- `animation.dfy`, module `Animation`, models the `Scene` class.
  - `Scene` keeps the angle `t` (degrees) and the `showCircle` toggle.
  - `Scene.Step` advances `t` by one, modulo 360.
  - `Scene.Render` returns a `DrawCall` value. It records what `Scene.render` uploads and draws: the projection and view parameters, the angle, the toggle, texture unit 0, and a 4-vertex triangle strip.
  - `AngleAfter(t0, k)` is the angle after `k` steps. The lemmas give its closed form `(t0 + k) % 360`, its period of 360, and how step counts compose.
- `timing.dfy`, module `Timing`, holds the arithmetic of the fixed-timestep loop.
  - `FrameTime` is `1 / target_fps`.
  - `WholeSlices(delta, frameTime)` is the number of whole frame slices in an elapsed time. It is the floor of `delta / frameTime`, and 0 when less than one slice has elapsed.
  - `SlicesDuration(n, frameTime)` is the time that `n` slices take up.
- `render_window.dfy`, module `Window`, models the `RenderWindow` class.
  - It caches the width, the height and the aspect ratio. Its invariant is that the stored height is never zero and `aspect == width / height`.
  - It keeps the GLFW window's "should close" flag.
  - It models the resize handler, the key handler, the per-frame `render` (draw, then step) and the catch-up loop of `run`.
  - `RunIteration` is one pass of the outer loop: it checks the close flag, then catches up.

Times are exact `real` numbers. Python's `%` with the positive modulus 360 agrees with Dafny's `%`, so `step` is written with the same expression.

## Model

| member | source | states |
|---|---|---|
| `Animation.NextAngle` | rotateglfw.py:108-110 | one step always gives an angle in [0, 360); from 0..358 it adds one, and from 359 it wraps to 0 |
| `Animation.AngleAfterIsOffset` | rotateglfw.py:108-110 | from an angle in [0, 360), `k` successive steps end at `(t0 + k) % 360` |
| `Animation.StepsReturnIff` | rotateglfw.py:110 | from an angle in [0, 360), `k` steps return to the start exactly when `k` is a multiple of 360; so 360 steps from 0 give 0 and 361 do not (with `AngleAfterIsOffset`, they give 1) |
| `Animation.AngleAfterPeriodic` | rotateglfw.py:110 | 360 extra steps never change the final angle |
| `Animation.AngleAfterCompose` | rotateglfw.py:108-110 | `j` steps followed by `k` steps equal `j + k` steps, so successive catch-up bursts compose |
| `Animation.Scene.constructor` | rotateglfw.py:38-42 | a new scene has `t == 0` and `showCircle == false` |
| `Animation.Scene.Render` | rotateglfw.py:88-106 | render uploads the given matrices, the current angle and the toggle, binds texture unit 0 and draws 4 vertices as a triangle strip from vertex 0; it changes no animation state |
| `Animation.Scene.Step` | rotateglfw.py:108-110 | the new angle is one step on from the old one, so `0 <= t < 360` afterwards, whatever `t` was before |
| `Timing.FrameTime` | rotateglfw.py:204 | the frame time is positive, and `targetFps` frames of it last exactly one second |
| `Timing.WholeSlices` | rotateglfw.py:207-213 | the number of slices is 0 when less than one slice has elapsed; otherwise `k` slices fit in the elapsed time and `k + 1` do not |
| `Timing.WholeSlicesUnique` | rotateglfw.py:211-213 | any `n` with `n * frameTime <= delta < (n + 1) * frameTime` is the slice count |
| `Timing.SlicesDurationIsProduct` | rotateglfw.py:212 | adding `frameTime` `n` times gives `n * frameTime` |
| `Timing.SliceOwed` | rotateglfw.py:211-213 | while at least one slice remains after `n` slices, fewer than the owed number have been consumed |
| `Timing.SliceSettled` | rotateglfw.py:211-213 | once less than one slice remains, the slices consumed are exactly those owed |
| `Window.ResizedHeight` | rotateglfw.py:172-173 | the stored height is never zero; a nonzero height is kept and a zero height becomes 1 |
| `Window.RenderWindow.constructor` | rotateglfw.py:116-121 | the window caches the requested size and `aspect == width / height`; its close flag is clear and its new scene starts at angle 0 with the toggle off |
| `Window.RenderWindow.FramebufferSizeCallback` | rotateglfw.py:170-176 | stores the given width and the height with 0 replaced by 1; `aspect` equals the stored width over the stored height; the close flag and the scene are unchanged |
| `Window.RenderWindow.OnKeyboard` | rotateglfw.py:178-185 | a press of Escape sets the close flag; any other key or action leaves it unchanged |
| `Window.RenderWindow.Render` | rotateglfw.py:188-199 | caches the framebuffer size and its aspect; draws the scene with a 45 degree perspective at that aspect and the fixed camera, using the angle from before the step; then steps the scene once |
| `Window.RenderWindow.CatchUp` | rotateglfw.py:207-219 | the framebuffer size is needed only when a frame is due; `previous_time + delta_time` stays equal to `current_time`; on exit `delta_time < frame_time`, and it is `>= 0` if the elapsed time was; exactly `WholeSlices(elapsed, frame_time)` frames are drawn; frame `i` shows the angle after `i` steps; the angle ends at `(t0 + k) % 360` |
| `Window.RenderWindow.RunIteration` | rotateglfw.py:201-213 | with the close flag set, nothing is drawn and nothing changes; otherwise the pass draws one frame per whole `1 / target_fps` slice elapsed, advances the previous time by exactly those slices, leaves a pending time below one slice (and not negative when the elapsed time was not), caches the framebuffer size when it drew, and frame `i` shows the angle after `i` steps |

## Left out

- OpenGL calls are not modelled: `glViewport`, `glEnable`, `glClearColor`, `glClear`, VAO/VBO setup, and the uniform and texture calls. `Scene.Render` only records the uniform values and the draw call as a `DrawCall`.
- GLFW calls are not modelled: init, window hints, window creation and its failure paths, the context and VSync, `swap_buffers`, `poll_events` and callback registration. The window is reduced to its "should close" flag.
- `glfw.get_time` and `glfw.get_framebuffer_size` become parameters (`currentTime`, and the framebuffer width and height).
- Window.RenderWindow.CatchUp: uses one framebuffer size for the whole burst. Resize and key events that `poll_events` would deliver between catch-up frames are not interleaved.
- `Scene.init_shaders`, `Scene.init_buffers`, `Scene.init_textures` and `utils.loadTexture` are not modelled. They do file I/O, shader compilation and texture upload. The `vertex_data` argument of `Scene.__init__` is dropped with them.
- `utils.perspective`, `utils.lookAt` and `utils.loadShaders` are not part of this model. The projection and the view are represented by their parameters (`Perspective(45, aspect, 0.1, 100)` and `LookAt(eye, center, up)`), not as matrices.
- Animation.Scene.Render: keeps the angle in degrees. It does not model the `math.radians` conversion that the source uploads.
- Floating point is not modelled: times and the aspect ratio are exact reals.
- The outer `while not glfw.window_should_close` loop is not modelled as a loop, because it is driven by the wall clock and need not terminate. `RunIteration` models one pass of it.
- `cleanup` and its `atexit` registration are not modelled. This is resource teardown. As written it is not idempotent, because `self.window` is never cleared.
- Logging calls are not modelled. The unused parameters of the callbacks are dropped: `window`, `scancode`, `mods`, and `delta_time` of `render`.
- The constructor's default arguments (800 x 600, title `rotateglfw`) and `run`'s default of 60 fps are not modelled as defaults.
- The constructor and `render` divide by the height without a guard. The model requires a nonzero height there instead of adding a guard. `CatchUp` and `RunIteration` require a nonzero framebuffer height only for a pass that renders at least one frame.
- `RunIteration` requires `target_fps > 0`. With 0 the source raises a division error. With a negative value the frame time is negative, and the catch-up loop would never end for a non-negative elapsed time.
