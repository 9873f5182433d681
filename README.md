# Particle field and audio toggle: a Dafny model

`script.js` drives a personal landing page. It does four things:

- It draws a starfield on a canvas. Seventy particles drift, wobble, shift with the pointer by a parallax offset, and wrap around a 50-unit margin outside the viewport.
- Every pair of particles closer than 160 units gets a line whose opacity fades with distance.
- A toggle button plays or pauses background music. Two flags (`audioInitialized`, `audioPlaying`) and the button's `playing`/`paused` classes track the state.
- A configuration step sets the music source and shows or hides each social link.

The project models this logic with reals in place of floating point:

| file | module | models |
|---|---|---|
| `pointer.dfy` | `Pointer` | the pointer record, its event handlers and the per-frame smoothing toward the target |
| `particles.dfy` | `Particles` | the particle record, the per-frame step and `updateParticles` over the particle array in place |
| `connections.dfy` | `Connections` | the opacity formula, the pair enumeration and the nested loops of `renderBackground` |
| `animation.dfy` | `Animation` | the frame delta and clamp, `lastTimestamp`, and one frame of `animate` |
| `audio.dfy` | `Audio` | the media element, the playback flags, the toggle classes and every audio handler |
| `profile.dfy` | `Profile` | the music source and volume, and the social-link loop of `applyConfig` |

Some inputs are parameters rather than built-ins:

- `Math.cos` and `Math.sin` are the parameters `cos` and `sin`.
- `Math.hypot` is the parameter `hypot`.
- The settled promise of `audio.play()` is a `PlayOutcome` parameter, `Resolved` or `Rejected`.

State that the script updates in place is a Dafny class: the pointer record, the frame clock, the media element, the toggle state and the link elements. The particle list is an `array` of `Particle` records, and each record is replaced in its slot.

## Model

| member | source | states |
|---|---|---|
| Pointer.Smooth | script.js:180-181 | one smoothing tick leaves exactly 0.92 of the gap between target and position |
| Pointer.SmoothStaysBetween | script.js:180-181 | a tick lands between the position and the target, and the gap's magnitude never grows (strictly shrinks unless zero) |
| Pointer.SmoothNGap | script.js:180-181 | after n ticks with a fixed target the gap is 0.92^n times the first gap |
| Pointer.SmoothNMonotone | script.js:180-181 | with a fixed target the position moves monotonically toward it and never passes it |
| Pointer.RetainedPowBound | script.js:180-181 | 0.92^n lies in (0, 1] and 0.92^n (1 + 0.08 n) <= 1 |
| Pointer.SmoothNConverges | script.js:180-181 | after n ticks the gap times (1 + 0.08 n) is at most the first gap, so it tends to 0 |
| Pointer.PointerState.constructor | script.js:130-135 | position and target both start at the viewport centre |
| Pointer.PointerState.MoveTo | script.js:165-168 | `pointermove` sets the target to the event coordinates and leaves the smoothed position alone |
| Pointer.PointerState.Leave | script.js:171-174 | `pointerleave` sets the target back to the centre and leaves the smoothed position alone |
| Pointer.PointerState.Follow | script.js:180-181 | each axis moves to `Smooth` of its old value, which keeps 0.92 of its gap; the target is unchanged |
| Particles.Step | script.js:184-200 | the update of one particle, reference for `UpdateParticles`: move, wobble, advance the drift phase, take the render position before the wrap, then wrap |
| Particles.WrapAxis | script.js:197-200 | below -50 becomes extent + 50, above extent + 50 becomes -50, otherwise unchanged; the result lies in [-50, extent + 50] |
| Particles.StepKeepsConstants | script.js:183-195 | a step keeps velocity, radius and parallax (so the creation ranges hold on), and grows the drift phase by exactly 0.0015 delta |
| Particles.StepInView | script.js:197-200 | after a step the stored position lies within 50 units of a viewport of non-negative size |
| Particles.StepWrapsX | script.js:184-198 | the three wrap cases on x, stated against the moved pre-wrap position |
| Particles.PointerOnlyMovesRender | script.js:191-195 | the pointer does not affect the stored position or drift; moving it shifts the render position by the displacement times the parallax factor |
| Particles.RenderIsPositionPlusOffset | script.js:191-200 | the render position equals the stored position plus the offset exactly when that axis did not wrap |
| Particles.StepDisplacementBounded | script.js:184-189 | with cos and sin in [-1, 1], an unwrapped axis moves by velocity times delta plus at most 0.12 |
| Particles.UpdateParticles | script.js:176-202 | the pointer is smoothed once, the array keeps its length, every slot holds the step of its old record under the smoothed pointer, and every particle ends within the margin |
| Connections.Alpha | script.js:237-238 | the opacity is 0.35 at distance 0, 0 at 160, and in (0, 0.35] for every distance in [0, 160) |
| Connections.AlphaDecreasing | script.js:238 | a shorter distance never gets a fainter line |
| Connections.CloseIffSquaredClose | script.js:233-237 | the distance test `dist < 160` agrees with comparing dx² + dy² against 160² |
| Connections.Pairs | script.js:221-231 | the pairs the nested loops examine, row by row, as a reference for `RenderBackground` |
| Connections.PairsExactlyOnce | script.js:221-231 | the nested loops list a pair iff i < j < n, in strictly increasing loop order, with no pair twice and n(n - 1)/2 pairs in all |
| Connections.SeventyParticlePairs | script.js:221-231 | with `PARTICLE_COUNT` = 70 the nested loops examine 2415 pairs per frame |
| Connections.Lines | script.js:221-247 | the lines the pass draws, row by row, as a reference for `RenderBackground` |
| Connections.LinesDrawn | script.js:221-247 | a line is drawn for a pair iff i < j < n and its distance is below 160, with opacity `Alpha` of that distance in (0, 0.35]; lines come in loop order and no pair gets two |
| Connections.LinesBySquaredDistance | script.js:233-238 | with `hypot` the non-negative root of dx² + dy², every line's pair has squared distance below 160², and every pair i < j below 160² gets a line with the opacity for its distance |
| Connections.ConnectRow | script.js:222-246 | the inner loop for row i yields exactly that row's lines and examines exactly the pairs (i, j) for i < j < n, in order |
| Connections.RenderBackground | script.js:221-247 | the two loops yield exactly the lines `LinesDrawn` describes and examine exactly the pairs `PairsExactlyOnce` describes |
| Animation.FrameDelta | script.js:207 | the delta is the elapsed time in 60 fps frames when below 3, and 3 otherwise; it never exceeds 3 |
| Animation.StallIsClamped | script.js:207 | a gap of 50 ms or more advances by exactly 3 frames |
| Animation.SteadyFrameIsExact | script.js:207 | a gap under 50 ms advances by the gap times 60/1000 frames, in [0, 3) |
| Animation.EarlierTimestampGoesBack | script.js:207 | an earlier timestamp gives a negative delta: there is no lower clamp |
| Animation.FrameClock.constructor | script.js:204 | `lastTimestamp` starts at the time the script loads |
| Animation.FrameClock.Tick | script.js:207-208 | the delta is `FrameDelta` of the new and previous timestamps, and the new timestamp is remembered |
| Animation.Animate | script.js:206-215 | one frame: the clock ticks, every particle is stepped with that delta under the smoothed pointer, and the lines are exactly those of the stepped particles |
| Audio.ShowState | script.js:54-60 | after adding one toggle class and removing the other, exactly the class matching the state is present and other classes are untouched |
| Audio.ShowStateLastWins | script.js:55-60 | showing two states in a row is the same as showing the second |
| Audio.MediaElement.constructor | script.js:24 | the `<audio>` element before configuration: no source, paused, at position 0, volume 1 |
| Audio.MediaElement.Play | script.js:53 | a resolved `play()` unpauses the element; a rejected one leaves it as it was |
| Audio.MediaElement.Pause | script.js:65 | `pause()` leaves the element paused |
| Audio.AudioToggle.constructor | script.js:47-48 | both flags start false |
| Audio.AudioToggle.StartAudio | script.js:50-62 | without a source nothing changes; otherwise a resolved play shows playing and a rejected one shows paused, the rejection does not escape, and the classes match the flag |
| Audio.AudioToggle.PauseAudio | script.js:64-69 | the element is paused, the flag is false and the button shows paused |
| Audio.AudioToggle.EnsureInitialized | script.js:71-75 | afterwards the audio is initialised; only the first call starts the audio, later calls change nothing |
| Audio.AudioToggle.Click | script.js:77-85 | a click while playing pauses; otherwise, with a source, it starts the audio with the click's outcome, and without one changes nothing; the classes match the flag unless nothing was playing and there is no source; source, position and volume are kept |
| Audio.AudioToggle.PointerDown | script.js:87-93 | `pointerdown` initialises the audio; only a first call with a source starts it (the classes then match the flag), otherwise flag, classes and element stay; source, position and volume are kept |
| Audio.AudioToggle.KeyDown | script.js:95-103 | a key without Meta or Ctrl before initialisation initialises the audio and, with a source, starts it; otherwise flag, classes and the element's paused state stay; source, position and volume are always kept |
| Audio.AudioToggle.OnEnded | script.js:105-108 | at the end of the track the element rewinds to 0 and, with a source, the audio starts again with the playback outcome; `initialized`, source and volume are kept |
| Audio.AudioToggle.OnPause | script.js:110-114 | the `pause` event clears the flag and shows paused |
| Audio.AudioToggle.OnPlay | script.js:116-120 | the `play` event sets the flag and shows playing |
| Audio.RejectedClickScenario | script.js:77-85 | a click whose `play()` is refused ends paused, with `paused` shown and `playing` not |
| Audio.ToggleTwiceScenario | script.js:77-85 | two clicks with playback allowed start and then pause, leaving only `paused` |
| Audio.InitializeOnceScenario | script.js:71-103 | after a refused first start, later pointer and key events start nothing |
| Audio.NoSourceScenario | script.js:77-85 | with no music source a click changes neither the flag nor the button's classes |
| Profile.SocialLink.constructor | script.js:17-22 | a link element starts with no `href` and no inline `display` |
| Profile.ApplySocials | script.js:34-42 | every link is shown (`flex`) with its configured URL iff its entry is truthy, and is hidden with its `href` untouched otherwise |
| Profile.ApplyConfig | script.js:31-42 | the music source is set, the volume is 0.55, playback state is untouched, and every link follows `ApplySocials` |
| Profile.SocialsScenario | script.js:34-42 | a configured link is shown with its URL and an absent one is hidden |
| Profile.EmptyUrlScenario | script.js:36-40 | an empty URL counts as unconfigured: the link is hidden |

## Left out

- Canvas drawing is not modelled: the dots, the strokes, shadows, colours, `toFixed` and `save`/`restore`. `renderBackground` is reduced to the list of lines it would stroke, each with its pair and opacity.
- `resizeCanvas` and the device-pixel-ratio transform are canvas plumbing, so they are not modelled. The viewport size is a parameter.
- `createParticle` draws from `Math.random`. Its ranges for radius and parallax are stated as the predicate `Shaped`, which a step preserves.
- `Math.cos`, `Math.sin` and `Math.hypot` are parameters. A lemma that needs a bound assumes it in its `requires`: cos and sin in [-1, 1], or a non-negative hypot.
- `requestAnimationFrame`, `clearRect`, `addEventListener` wiring and `{ once: true }` are platform plumbing. Each handler is a method. The one-shot removal of the `pointerdown` and `keydown` listeners is not modelled.
- `CONFIG`'s literal values and the `getElementById` lookups are not modelled.
- Profile.SocialLink.constructor: the link starts with no `href` and no inline `display`. This is an assumption about the page's markup, which `script.js` does not state. `SocialsScenario`'s empty `href` for the hidden link rests on it.
- Audio.MediaElement.constructor: the element starts with no source, paused, at position 0 and volume 1. These are the defaults of an `<audio>` element without attributes, which `script.js` does not state.
- The avatar, name and subtitle assignments in `applyConfig` do not affect any other logic, so they are left out.
- The media element's truthy `src` is reduced to a non-empty string. URL resolution is not modelled.
- A falsy config value is an absent key or the empty string. `null` and `undefined` count as absent keys.
- Floating-point rounding is not modelled, because the arithmetic is over `real`.
- `renderX`/`renderY` are `undefined` until the first update, but the model gives every particle a render position from the start.
- Audio.AudioToggle.Click: each `play()` takes effect at its call instead of after an `await`.
  - So when the first click comes while nothing plays, the start launched by the initialisation and the click's own start both settle with the same outcome, and the second repeats the first (`ShowStateLastWins`).
  - The branch reads the flag as it was before the click, as in the script.
  - Another interleaving is not captured. If the flag is already set by a `play` event before the audio is initialised, the script's delayed start could make the button show playing again after the click's pause. The model ends paused.
- Audio.AudioToggle.StartAudio: the rejection's error value is not modelled, only the fact that it is caught.
- Pointer.PointerState.Leave: the window size at the time of the event is a parameter.
- Connections.RenderBackground: the inner loop is its own method, `ConnectRow`, so the proof of each loop stays small. The loops themselves are as in the script.
