# Portfolio page effects in Dafny

This project models the scripted behaviour of a personal portfolio page (`main.js`):

- **The particle background.** A full-window canvas holds up to 150 particles.
  - Each particle has a position, a depth in [0, 2], a velocity, a size and a colour.
  - Every frame each particle moves with its velocity, scaled by its depth. It wraps at the canvas edges and is pushed away from the pointer inside a depth-scaled capture radius. Its velocity is then damped and capped at speed 1.5.
  - Each particle is then drawn with an alpha and a radius that depend on its depth.
  - Every pair of particles closer than 120 pixels is joined by a line. The line fades with distance.
  - The number of particles follows the canvas area, and the whole set is rebuilt on every resize.
- **The typing effect.** Five phrases are typed one character at a time into the hero heading, held, deleted, and the next phrase follows.
- **The two stored preferences.** One is the motion flag. It gates the particle background at page load. The other is the colour theme. Each has a button that flips it and stores the new value in the browser's local storage.

The modules:

- `particle.dfy`, module `Particles`: a particle as a class whose fields the update changes in place. The class sits beside pure functions that state the update rule step by step (`Advance`), and the lemmas about them: force locality and direction, the speed cap, the depth clamp and the bounds.
- `field.dfy`, module `Field`: the particle count, the connecting-line scan and the frame loop.
  - `ParticleField` is a class holding the particle list, the pointer and the canvas size.
  - Its loops are proved against the specification functions `ParticleCount`, `Connections` and `Advance`.
- `typing.dfy`, module `Typing`: the typing state machine. `Tick` is one call of the tick function over a list of phrases; the page's list is `Phrases`. The `Typewriter` class holds the variables the tick function updates.
- `preferences.dfy`, module `Preferences`: local storage as a string map, the motion flag and theme readers, and a `Page` class whose toggles keep the storage and the shown state in agreement.

The model makes four modelling choices:

- Numbers are mathematical reals. Canvas sizes are natural numbers.
- `Math.sqrt` is a parameter `sqrt` that returns the exact non-negative square root (`IsSqrt`).
- The nine `Math.random()` draws of a particle are a `Draws` value, each draw in [0, 1).
- The pointer position, the window size and the stored strings are inputs.

## Model

| member | source | states |
|---|---|---|
| Particles.Particle.constructor | main.js:81-90 | The fields are the source's formulas applied to the nine draws (`SpawnedFrom`), and the new particle satisfies the per-particle invariant `Valid`. |
| Particles.SpawnedRanges | main.js:81-90 | A new particle lies on the canvas (strictly inside the far edges when the canvas has area). Its depth is in [0, 2), size in [1, 3), each speed component in [-0.5, 0.5), drift in [-0.01, 0.01) and base alpha in [0.30, 0.80]. |
| Particles.ScaledBelow | main.js:82-83 | A draw in [0, 1) times an extent n lies in [0, n], and below n when n > 0. |
| Particles.SlowStart | main.js:86-87 | Speed components in [-0.5, 0.5] give a speed within the cap 1.5. |
| Particles.AlphaRange | main.js:89 | The base alpha `(u * 0.5 + 0.3).toFixed(2)` of a draw u in [0, 1) is between 0.30 and 0.80. |
| Particles.Hundredths | main.js:89 | `toFixed(2)` gives the whole number of hundredths nearest to the value, within half a hundredth. |
| Particles.Particle.Update | main.js:92-126 | The new motion state is `Advance` of the old one, which is the six steps in source order. The particle is on the canvas, in depth and under the speed cap afterwards. Size, drift and colour are unchanged. |
| Particles.Particle.Move | main.js:93-103 | The position is displaced by velocity × (old depth + 1) and wrapped (`Landing`). The depth is drifted and clamped. The velocity is untouched. |
| Particles.Particle.Push | main.js:105-125 | Position and depth are untouched. The velocity becomes the pointer force, then damping, then the speed limit (`Velocity`), taken at the new position and depth. |
| Particles.PointerForce | main.js:105-116 | The source's force block computes `Repel`: the velocity after the push away from the pointer. |
| Particles.LimitSpeed | main.js:120-125 | The source's speed-limit block computes `Limit`. |
| Particles.ClampDepth | main.js:95-98 | The depth after clamping lies in [0, 2]. Above 2 becomes 2, below 0 becomes 0, and in range it stays. |
| Particles.Wrap | main.js:100-103 | A coordinate past the far edge re-enters at 0, one below 0 re-enters at the far edge, and one in between stays. The result lies in [0, extent]. |
| Particles.Landing | main.js:93-103 | The position after displacement and wrapping lies on the canvas. |
| Particles.Steer | main.js:110-116 | At or beyond the capture radius the velocity is unchanged. |
| Particles.SteerImpulse | main.js:110-116 | Inside the capture radius the velocity change is the offset to the pointer scaled by −(reach − d) / (reach · d): the impulse (−dx · f / d, −dy · f / d) with f the force. |
| Particles.RepelSteers | main.js:105-108 | For a non-zero offset, the distance taken by `sqrt` is positive and squares to the squared offset. The capture radius 150 · (z + 1) is positive, and `Repel` is `Steer` at that distance and radius. |
| Particles.RepelPushesAway | main.js:105-116 | Force locality: beyond 150 · (z + 1) the velocity is unchanged. Force direction: inside that radius, the velocity change points away from the pointer (negative dot product with the offset), is parallel to the offset, and has length (reach − d) / reach, which lies in (0, 1). |
| Particles.SteerPushesAway | main.js:110-116 | The same locality and direction facts, for a given distance and radius. |
| Particles.StrengthBetween | main.js:111 | The force (reach − d) / reach lies strictly between 0 and 1 when 0 < d < reach. |
| Particles.Damp | main.js:118-119 | Damping by 0.99 never increases the speed. |
| Particles.Cap | main.js:120-125 | A velocity within the cap is kept as it is. |
| Particles.CapLimits | main.js:122-125 | After the cap the speed is at most 1.5. A faster velocity becomes exactly 1.5 long, in the same direction. |
| Particles.LimitCapsSpeed | main.js:120-125 | The speed-limit block with `sqrt`: the speed is at most 1.5 afterwards, a slow velocity is kept, and a fast one is rescaled to exactly 1.5 in the same direction. |
| Particles.VelocityCapped | main.js:105-125 | Whatever the pointer does, the velocity leaves the update under the speed cap. |
| Particles.Advance | main.js:92-126 | The position of the updated state is the wrapped displaced position. |
| Particles.AdvanceInBounds | main.js:92-126 | The invariant of every frame: the update keeps the particle on the canvas, its depth in [0, 2] and its speed at most 1.5, whatever the state before. |
| Particles.CornerReachesPointer | main.js:71-72 | The update's domain is not always met. A valid particle in the far corner moving outwards wraps to (0, 0), which is where the pointer sits before the first pointer move. |
| Particles.Opacity | main.js:129 | The draw alpha (z + 1) / 3 lies in [1/3, 1] for a depth in [0, 2]. |
| Particles.Radius | main.js:130 | The draw radius size · (z + 1) lies between size and 3 · size for a depth in [0, 2]. |
| Particles.Particle.Draw | main.js:128-135 | The disc is centred on the particle, with alpha in [1/3, 1] and radius between size and 3 · size. |
| Field.ParticleCount | main.js:140-143 | The creation loop makes at most 150 particles. |
| Field.CountIsCeiling | main.js:140-143 | The number of turns of `for (i = 0; i < min(150, w·h/8000); i++)` is the least whole number not below that possibly fractional bound. |
| Field.CountOfSmallCanvas | main.js:140 | An 800 × 600 canvas gets 60 particles. |
| Field.CountOfLargeCanvas | main.js:140 | A 1600 × 1200 canvas reaches the cap of 150. |
| Field.CountOfEmptyCanvas | main.js:140 | A canvas of zero area (zero width or zero height) gets no particles. |
| Field.CountOfFractionalBound | main.js:140-141 | A bound of 125.125 (1000 × 1001) gives 126 particles. |
| Field.ParticleField.InitParticles | main.js:138-144 | The list is replaced by `ParticleCount` fresh, distinct particles. Particle k is made from draw k, and every particle is valid. Canvas size and pointer are unchanged. |
| Field.ParticleField.constructor | main.js:70-78 | The pointer starts at (0, 0), the canvas takes the window size, and the particle list is initialised as `InitParticles` states. |
| Field.ParticleField.ResizeCanvas | main.js:74-78 | The canvas takes the new size, and all particles are rebuilt for it. The pointer is kept. |
| Field.ParticleField.MouseMove | main.js:176-179 | The pointer becomes the event's client coordinates. Nothing else changes. |
| Field.LineOpacity | main.js:154 | The line alpha (1 − d/120) · 0.3 lies in (0, 0.3] for d in [0, 120), and is 0.3 at distance 0. |
| Field.LineOpacityDecreasing | main.js:154 | The line alpha strictly decreases with distance. |
| Field.RootBelowLink | main.js:151-153 | `sqrt(v) < 120` holds exactly when v < 120². |
| Field.NearIsClose | main.js:151-153 | The source's test on the root distance is the comparison of the squared distance with 120². |
| Field.LinkSound | main.js:149-155 | The inner-loop body emits at most one line, for the pair (i, j), exactly when the pair passes the test, with the alpha of its distance. |
| Field.RowSound | main.js:148-161 | The inner loop's lines are for pairs (i, k) with i < k that pass the test, with the right alpha. |
| Field.RowOrdered | main.js:148 | The inner loop emits its lines in increasing second index. |
| Field.RowComplete | main.js:148-161 | Every pair (i, k) after i that passes the test has its line in the inner loop's output. |
| Field.RowsSound | main.js:147-163 | Every line of the outer loop's first i rows is for a pair that passes the test, with first index below i. |
| Field.RowsOrdered | main.js:147-148 | The outer loop emits lines in increasing (i, j) order. |
| Field.RowsComplete | main.js:147-163 | Every passing pair whose first index is below i has its line in the first i rows. |
| Field.ConnectionsExact | main.js:146-164 | A line is drawn between particles i < j exactly when they are closer than 120. Its alpha is (1 − d/120) · 0.3, in (0, 0.3]. Lines come in strictly increasing (i, j) order. |
| Field.ConnectionsUnique | main.js:147-148 | No pair of particles is joined twice in a frame. |
| Field.PairLine | main.js:149-155 | The inner-loop body for particles i and j yields exactly the pair's `Link`. That is a line with alpha (1 − d/120) · 0.3 when the root distance is below 120, and nothing otherwise. |
| Field.ParticleField.RowFrom | main.js:148-162 | The inner loop over j > i yields `Row` for particle i. |
| Field.ParticleField.DrawConnections | main.js:146-164 | The nested scan yields exactly `Connections` of the particle positions. |
| Field.UpdateAndDraw | main.js:168-171 | The forEach callback advances one particle by `Advance` (with its own drift), keeps its size, drift and colour, keeps it valid, and draws its new state. |
| Field.ParticleField.UpdateParticles | main.js:168-171 | Every particle, in list order, is advanced by `Advance` with its own drift and drawn after its update. Its size, drift and colour are kept, and the field stays valid. |
| Field.ParticleField.Animate | main.js:166-174 | One frame: every particle is advanced by `Advance` and drawn, keeping its size, drift and colour. The field stays valid, and the lines drawn are `Connections` of the new positions. |
| Typing.PhraseLengths | main.js:255-261 | The page has five phrases, of 31, 32, 28, 44 and 36 characters, none empty. |
| Typing.JsPrefix | main.js:272-276 | `substring(0, end)` is a prefix of the phrase. Its length is `end` clamped into [0, length]. |
| Typing.Tick | main.js:268-291 | One tick keeps the phrase index in range. |
| Typing.Run | main.js:290 | Repeated ticks keep the phrase index in range. |
| Typing.TickKeepsInv | main.js:268-291 | For a list of non-empty phrases, a tick keeps the invariant: the heading shows the first charIndex characters, at least one is missing while typing, and at least one is shown while deleting. The delay tells what happened: 2000 exactly when the whole phrase was just typed, 500 when the heading was just emptied, 100 while typing and 50 while deleting. |
| Typing.InitialTick | main.js:263-266 | The first tick from the initial variables, whatever the heading held, shows the first character of the first phrase and meets the invariant. Its delay is the 100 ms typing delay, or the hold when the phrase is a single character. |
| Typing.RunKeepsInv | main.js:268-291 | The invariant holds after any number of ticks. |
| Typing.RunAdd | main.js:290 | a + b ticks are a ticks followed by b ticks. |
| Typing.TypingPhase | main.js:275-279 | While typing, n ticks add n characters at 100 ms each. |
| Typing.TypedOut | main.js:275-283 | Typing runs to the whole phrase, then switches to deleting with the 2000 ms hold. |
| Typing.DeletingPhase | main.js:271-274 | While deleting, n ticks remove n characters at 50 ms each. |
| Typing.DeletedOut | main.js:271-287 | Deleting runs to the empty heading, then moves to the next phrase (wrapping after the fifth) with the 500 ms pause. |
| Typing.CycleOfPhrase | main.js:268-291 | From the start of phrase p, 2 · length ticks later the heading is empty at the start of the next phrase, or of the first after the last. |
| Typing.CycleStep | main.js:268-291 | If phrase p starts after t ticks, the next phrase (the first after the last) starts 2 · length(p) ticks later. |
| Typing.PassOfPhrases | main.js:268-291 | Typing and deleting the first k phrases takes twice their total length in ticks, and ends at the start of phrase k. |
| Typing.Rotation | main.js:268-291 | The effect is periodic: one pass over all phrases returns to the start of the first phrase with an empty heading. |
| Typing.FullRotation | main.js:255-291 | On the page one pass takes 342 ticks and returns to the same state. |
| Typing.Typewriter.constructor | main.js:255-266 | The effect uses the page's five phrases, and the variables start at phrase 0, character 0, typing, 100 ms. |
| Typing.Typewriter.Type | main.js:268-291 | The method's new state is `Tick` of the old one, and it keeps the invariant. |
| Preferences.GetItem | main.js:25 | `getItem` returns the stored value for a present key and null for a missing one. |
| Preferences.MotionEnabled | main.js:25 | Motion is off exactly when the stored value is the string "false". A missing key or any other value leaves it on. |
| Preferences.BoolString | main.js:316 | `setItem` stores a boolean as "true" or "false", and "false" exactly for false. |
| Preferences.MotionRoundTrip | main.js:25 | Storing the flag and reading it back at the next load gives the same flag. |
| Preferences.ParticlesStart | main.js:67-68 | The particle background starts exactly when the page has a canvas and the stored flag is not "false". |
| Preferences.InitialTheme | main.js:298 | The stored theme, or "dark" when the key is missing or empty. Never empty. |
| Preferences.FlipTheme | main.js:303 | A click gives "light" exactly from "dark", and "dark" from anything else. |
| Preferences.FlipInvolution | main.js:303 | On dark and light, two clicks restore the theme. |
| Preferences.FlipSettles | main.js:303 | Any other stored theme becomes dark on the first click. From then on clicks alternate between dark and light. |
| Preferences.ThemeRoundTrip | main.js:298-305 | A theme stored by a click is the theme shown at the next load. |
| Preferences.ThemeIcon | main.js:308 | The theme icon is the moon exactly for dark, and the sun otherwise. |
| Preferences.MotionIcon | main.js:329 | The motion icon is the eye exactly when motion is on, and the struck-through eye otherwise. |
| Preferences.Page.constructor | main.js:25 | At load, the motion flag and the theme are those read from storage (`Persisted` holds), and the particle background starts as `ParticlesStart` says. |
| Preferences.Page.ToggleMotion | main.js:314-330 | The flag flips and is stored as its string, and the icon follows. The theme and the particle background are untouched. Storage keeps matching the state shown. |
| Preferences.Page.ToggleTheme | main.js:301-309 | The theme flips and is stored, and the icon follows. The motion flag is untouched. Storage keeps matching the state shown. |

## Left out

- **Canvas drawing.** `clearRect`, `arc`, `fill`, `moveTo`, `lineTo`, `stroke`, the stroke style and line width are not modelled. A frame returns the discs and line segments it would draw.
- **The fill colour.** The regular-expression rewrite of the colour string is not modelled. The model gives the alpha it writes: `Opacity`, not the string.
- **Scheduling and event listeners.** `requestAnimationFrame`, `setTimeout` and the listener registrations are not modelled. A frame is one `Animate` call, a timer callback is one `Tick`/`Type` call, and the pointer and resize events are `MouseMove` and `ResizeCanvas`.
- **Floating point.** IEEE rounding, NaN and infinities are not modelled; numbers are reals. `toFixed(2)` is taken as round-half-up to hundredths, and the colour is kept as its hue and those hundredths.
- **Math.sqrt and Math.random.** `sqrt` is a parameter that returns the exact root, and the random draws are a parameter, so uniformity is not modelled.
- Particles.Particle.Update: requires the particle's wrapped position to differ from the pointer. The source divides by the distance to the pointer without a guard. At distance 0 it produces NaN velocities, which the model does not represent. `CornerReachesPointer` shows that such a state can be reached. `Advance`, `Field.UpdateAndDraw`, `Field.ParticleField.UpdateParticles` and `Field.ParticleField.Animate` carry the same precondition.
- **Wrapping is closed.** A coordinate below 0 is set to the canvas width itself, so positions lie in the closed range [0, width] × [0, height], not the half-open one. The model follows the code (`Wrap`).
- **The particle system's outer gate.** The code creates the particle system only if there is a canvas and motion is enabled at load. Toggling motion afterwards neither starts nor stops it (`ParticlesStart`, `Page.ToggleMotion`). `Field` models the system once started.
- **Missing page elements.** The checks for the heading, theme button and motion button are not modelled. The model assumes those elements exist.
- **The animation library.** `AOS.init` and the removal of `aos-animate` on a motion toggle are not modelled. They are foreign library calls.
- **Other page features.** The theme button's icon before the first click comes from the markup; it is a constructor input. The loader, navigation, scroll effects, the show-more panels, active-nav highlighting, the contact form (`fetch`), `IntersectionObserver` and GSAP effects are outside this model.
- **The heading element.** The typing effect writes to the heading's `textContent`; the model keeps that text as the `text` field.
