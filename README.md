# Ray tracer core: a Dafny model

This project models the sequential logic at the core of a small real-time
software ray tracer written in C++ with SDL (`src/Main.cpp`). The renderer
draws six bouncing mirror spheres over a checkerboard floor, one pixel at a
time. The model covers:

- **Color**: the `RGB32` colour type. `CreateRGB` unpacks a 32-bit pixel into
  three 8-bit channels and `ReturnRGB` packs them back, red in bits 16..23,
  green in 8..15 and blue in 0..7. `Palette` holds the four packed colours `cl`.
- **Config**: the line loop of `readConfig`. Empty lines and `#` lines are
  skipped, each other line is split at its first `=`, and a later line
  overwrites an earlier one with the same key. The file is given as the
  sequence of lines that `std::getline` returns.
- **Fps**: `CalculateAverageFps`. Its function-static 8-slot array is a field
  of class `FpsHistory`. Each call shifts the array right in place, stores
  `1000000 / t` in slot 0 and returns the truncated mean.
- **Scene**: the per-frame update from `main`, as methods of `SceneState`.
  The class holds the sphere rows `c`, the radii `r` and `q = r*r`, the camera
  `me = (x, y, z, yaw)`, the scan offset `h` and the gathered mouse motion.
  The update does the sphere bounce step, the yaw wrap, the scan-offset clamp,
  the mouse reset, the movement gate with exactly one key held, and the
  ceiling clamp. `sinf` and `cosf` are passed in as functions.
- **Raycast**: the discrete decisions of the pixel loop:
  - the nearest-hit selection and its sentinel `n` (-1 no hit, 0 floor, k+1 sphere k);
  - the floor's shadow flag `ba` and the checkerboard palette index;
  - the 2000-iteration cap of the per-pixel do-while;
  - the row-major pixel write `iCanvas * scrw + j`.

  The square-root hit distances come in as inputs (`Probe`). The per-pixel
  trace comes in as a step function.

Floats are modelled as Dafny `real`. C++ float-to-int conversion truncates
toward zero, and `Scene.Truncate` writes that out. `roundf` rounds halves away
from zero, and `Raycast.RoundF` writes that out. C++ `%` and Dafny's `%` give
the same answer for the parity test `k % 2 == 0`. All divisions in the model
have non-negative operands, so truncating and Euclidean division agree there.

Two details of the code shape what the model proves:
- Yaw is shifted by at most one 2*PI per frame, and a yaw of exactly -PI is
  kept. So it stays in [-PI, PI] only when that frame's turn is at most 2*PI
  (`Scene.YawStaysInRange`).
- The checkerboard compares the parities of `roundf(x2)` and `roundf(z2)`.
  It picks `cl[ba-1]` when they are equal and `cl[ba]` when they differ. The
  QBasic comment at src/Main.cpp:597 instead tests whether the fractional
  parts exceed 0.5.

## Model

| member | source | states |
|---|---|---|
| `Color.Pack` | src/Main.cpp:69-78 | The packed value is below 2^24 (top byte zero), and red, green and blue read back from bits 16..23, 8..15 and 0..7. |
| `Color.PackUnpack` | src/Main.cpp:62-78 | Unpacking any 32-bit value and packing it again gives the value's low 24 bits, `rgb & 0xFFFFFF`. |
| `Color.PackInjective` | src/Main.cpp:69-78 | Two channel triples pack to the same pixel only if they are equal. |
| `Color.RGB32.Black` | src/Main.cpp:59 | The default colour is black. |
| `Color.RGB32.constructor` | src/Main.cpp:60 | The three channels are the values given. |
| `Color.RGB32.CreateRGB` | src/Main.cpp:62-67 | Each channel takes its byte of the argument. Packing afterwards yields the argument with its top byte cleared. |
| `Color.RGB32.ReturnRGB` | src/Main.cpp:69-78 | The result is below 2^24, and each channel sits in its own byte. |
| `Color.ReloadKeepsChannels` | src/Main.cpp:62-78 | Calling `CreateRGB(ReturnRGB())` leaves r, g and b unchanged. |
| `Config.FirstEquals` | src/Main.cpp:123 | Gives the position of the first `=`, with no `=` before it. Gives nothing exactly when the line has no `=`. |
| `Config.ParseLineMeaning` | src/Main.cpp:117-126 | A line records a pair iff it is non-empty, does not start with `#`, and has an `=` before its last character. Then the key has no `=`, the value is non-empty, and key + "=" + value is the whole line. |
| `Config.CommentsRecordNothing` | src/Main.cpp:117-118 | Empty lines and lines starting with `#` record nothing. |
| `Config.SplitAt` | src/Main.cpp:123-125 | A key without `=` and not starting with `#`, followed by `=` and a non-empty value, records exactly that key and that value, even when the value holds further `=`. |
| `Config.ReadConfig` | src/Main.cpp:115-127 | The loop builds exactly the map `ParseLines` gives for the lines read. |
| `Config.KeyPresent` | src/Main.cpp:115-127 | A key is in the map iff some line records it. |
| `Config.LastLineKeepsKey` | src/Main.cpp:123-126 | A last line that does not record a key leaves that key's presence and value as the earlier lines set them. |
| `Config.LastLineWins` | src/Main.cpp:123-126 | A key's value is the one stored by the last line that records that key. |
| `Config.SkippedLineIgnored` | src/Main.cpp:117-123 | Removing a line that records nothing, from anywhere in the file, leaves the map unchanged. |
| `Fps.SumBounds` | src/Main.cpp:156-160 | A sum of n slots, each in [lo, hi], lies in [n*lo, n*hi]. With slots in [0, 1000000], the 32-bit `sumFps` cannot overflow. |
| `Fps.SteadyAverage` | src/Main.cpp:156-162 | When all eight slots hold the same rate, the average is that rate. |
| `Fps.FpsHistory.constructor` | src/Main.cpp:144 | The static history starts with eight zero slots. |
| `Fps.FpsHistory.CalculateAverageFps` | src/Main.cpp:140-163 | Requires t > 0. The new slot 0 is 1000000/t, new slot i+1 is old slot i for i in 0..6, and old slot 7 is discarded. The result is the slot sum divided by 8, lies in [0, 1000000], and every slot stays in that range. |
| `Scene.Bounce` | src/Main.cpp:366-376 | Afterwards the sphere is never below the floor (-y >= r). Only the height and the velocity change. A sphere that would sink gets velocity exactly -0.2 and height exactly -r. Otherwise the velocity grows by 0.01*dt/5 and the height moves by v*dt/5. |
| `Scene.SceneState.BounceSpheres` | src/Main.cpp:366-376 | Every sphere takes one `Bounce` step with its own radius, and all end on or above the floor. |
| `Scene.WrapYaw` | src/Main.cpp:381-388 | A yaw inside [-PI, PI] is kept. One below -PI gains 2*PI, and one above PI loses 2*PI. Any yaw in [-3*PI, 3*PI] lands in [-PI, PI]. |
| `Scene.YawStaysInRange` | src/Main.cpp:379-388 | A yaw in [-PI, PI], turned by 0.01*mouseX with that turn at most 2*PI, ends in [-PI, PI]. |
| `Scene.SceneState.UpdateYaw` | src/Main.cpp:379-388 | The new yaw is the wrapped sum of the old yaw and 0.01*mouseX. It stays in [-PI, PI] under the bound above. The camera position is untouched. |
| `Scene.Truncate` | src/Main.cpp:391 | Float-to-int conversion truncates toward zero: the result lies within one of x, on zero's side. |
| `Scene.ClampScan` | src/Main.cpp:393-402 | The result lies in [-600, 1000]. It equals the input when the input is in range, and otherwise the nearer bound. |
| `Scene.SceneState.UpdateScanOffset` | src/Main.cpp:391-402 | `h` becomes the clamped truncation of h + 6*mouseY, always in [-600, 1000]. |
| `Scene.SceneState.ResetMouse` | src/Main.cpp:404-405 | The gathered mouse motion is zero afterwards. |
| `Scene.SceneState.AccumulateMouse` | src/Main.cpp:331-337 | Each relative motion event adds to the gathered mouse motion, and nothing else changes. |
| `Scene.HeadingDegrees` | src/Main.cpp:413-415 | The heading before the yaw: W alone gives 0 degrees, S 180, A 90 and D 270. |
| `Scene.Speed` | src/Main.cpp:417-423 | The step length is 0.05*dt when exactly one of W, A, S, D is held, and 0 otherwise. |
| `Scene.StepLength` | src/Main.cpp:415-428 | With exactly one movement key held, the horizontal displacement has length exactly 0.05*dt, given sin^2 + cos^2 = 1. |
| `Scene.SceneState.Move` | src/Main.cpp:408-428 | x moves by sin(heading)*go and z by -cos(heading)*go. With zero or two or more movement keys held, x and z are unchanged. Height and yaw are untouched. |
| `Scene.Ceiling` | src/Main.cpp:432-435 | The result is at most -0.1. A height already at or below -0.1 is kept, and a higher one becomes -0.1. |
| `Scene.SceneState.Climb` | src/Main.cpp:430-435 | The height moves by (ctrl - space)*0.03*dt and is then capped at -0.1. x, z and yaw are untouched. |
| `Scene.SceneState.UpdateFrame` | src/Main.cpp:366-435 | One frame's update, in the program's order: the bounce for every sphere, the yaw wrap, the scan-offset clamp, the mouse reset, the gated move along the new yaw, and the ceiling clamp. |
| `Scene.SceneState.constructor` | src/Main.cpp:288-306 | Each sphere row is filled from the literal table: start height -(y + 0.3 + 2*rnd), velocity 0.1, anchor (x, z), q = r*r. The camera starts at (x of sphere 0, -0.2, -3, PI), h = scrh/4, and the mouse motion is zero. |
| `Raycast.SelectNearest` | src/Main.cpp:487-531 | n ends in [-1, spheres]. n = -1 iff the floor is not ahead and no sphere passes both tests, and then s keeps its previous value. n = 0 means the floor at -y/dy, no farther than any sphere. n = k+1 means sphere k passes both tests, is strictly nearer than the floor and all lower-indexed hits, and no farther than any hit. |
| `Raycast.ShadowFlag` | src/Main.cpp:574-588 | `ba` is 1 iff some sphere's (x, z) footprint circle u^2 + v^2 <= q[k] holds the floor point, and 3 otherwise. |
| `Raycast.RoundF` | src/Main.cpp:599 | The result is within 0.5 of x, and ties round away from zero. |
| `Raycast.PaletteIndex` | src/Main.cpp:597-608 | The index is ba-1 iff the rounded x and z have equal parity, and ba iff they differ. For ba in {1, 3} it is always a valid index into the four palette entries. |
| `Raycast.RoundShift` | src/Main.cpp:599 | Except at x = -0.5, rounding x+1 gives one more than rounding x. |
| `Raycast.Checkerboard` | src/Main.cpp:590-608 | Tiles that are neighbours along x get different palette entries, except at the seam x = -0.5. |
| `Raycast.TraceStable` | src/Main.cpp:478-485 | A ray that settles within some number of iterations settles on the same colour under any larger cap. The cap only cuts off rays that take longer. |
| `Raycast.TraceRay` | src/Main.cpp:477-612 | Between 1 and 2000 steps run. Its colour is what the ray settles on within 2000 steps. When it settles on nothing (the pixel is left unwritten), exactly 2000 steps ran. |
| `Raycast.PixelIndexInBounds` | src/Main.cpp:538 | For 0 <= iCanvas < scrh and 0 <= j < scrw, iCanvas*scrw + j is below scrw*scrh, and dividing it by scrw gives back iCanvas (quotient) and j (remainder). |
| `Raycast.PixelIndexInjective` | src/Main.cpp:602 | Distinct (iCanvas, j) pairs write distinct buffer positions. |
| `Raycast.RenderRow` | src/Main.cpp:461-613 | One row's inner loop runs each pixel's capped trace (`TraceRay`), writes each settled colour at the pixel's own position, and leaves every later position untouched. |
| `Raycast.Render` | src/Main.cpp:458-614 | After the nested loops, every position p holds what `Trace` of the ray through pixel (p / scrw, p % scrw) settles on within 2000 steps, or its old value when that trace hit the cap. |

## Left out

- SDL (window, renderer, texture, locking, presenting, event polling) and the keyboard snapshot are left out. Key states and relative mouse motions are inputs.
- Creating and opening config.txt are left out. The lines `std::getline` returns are the input, so line splitting and a trailing `\r` are not modelled.
- `std::stoi`, the `catch (int)` handler and the resolution scaling are left out. `stoi` is a library call, the handler can never run, and the scaling is float arithmetic.
- `GetMicroTime`, the frame pacing sleep, the window title and the computation of `deltaTime` are left out, because they depend on the clock. `dt` and the frame time are inputs.
- `rotate2d` and the per-frame rotation of sphere positions about the camera are left out. So are the ray direction, the square-root hit distance, the reflection formula, the sky colour channels and `RGB32::Multiply`. These are float and trigonometric arithmetic, so the distances enter `SelectNearest` as inputs. Each pixel's starting ray and one iteration of its do-while enter `TraceRay` and `Render` as functions.
- `RGB32::Display` is left out, because it is console output.
- The random draw of each sphere's starting height is a parameter of the constructor.
- Single-precision rounding, infinities and NaN are not modelled. All float values are exact reals, so a comparison with NaN is not captured.
- Scene.Truncate: does not model the undefined behaviour of converting an out-of-range float to int.
- Fps.FpsHistory.CalculateAverageFps: does not model a non-positive frame time. The time is a difference of a monotonic clock, and a zero time would divide by zero.
- Raycast.Render: assumes the texture pitch equals the row width, so the buffer has exactly scrw*scrh pixels.
- The main loop's `running` flag and the escape and quit handling are left out. They are control flow around the frame, not state the model covers.
