# star-orbit-simulation: the bookkeeping core

The project models the stateful logic of the browser n-body visualiser. The model has five modules:

- **Trail.** A bounded orbit trail, `Line`. Its points are kept twice: as a list, and as a flat coordinate buffer holding three entries per point.
- **Stars.** A simulated body, `Star`, with its generated name `Star<n>`. The decimal rendering behind that name lives in the **Decimal** module.
- **Modes.** The four simulation modes and the `setup` dispatch on their names.
- **App.** The shared `World`:
  - the star list;
  - the `mainOptions` settings;
  - the Start and Stop buttons and the handles that remember them;
  - the mode-specific control panel.

  The operations on it are the ones the page runs:
  - `reset`;
  - `setup` and its four per-mode setups;
  - the Start, Stop and Reset buttons;
  - the mode drop-down;
  - the galaxy star-count slider;
  - the three-body Random action;
  - the custom panel's Add Star and Add Sun actions;
  - one animation frame, gated by `stoped`.

Coordinates and masses are exact reals. The trail buffer's single-precision rounding is not modelled. `Math.sqrt(3)` is the shortest decimal that rounds to the double it returns, and products with it are exact. `mainOptions.starCount` is a real number, because the star-count slider has no step.

Every `Math.random` draw arrives as a parameter. This covers the random stars' place, radius and colour, which arrive as a `Draw` stream. The physics step is also a parameter: a frame receives the new positions.

The World's invariant `Valid` states three things:
- the i-th star is named `Star<i+1>`;
- every star owns a trail and a buffer that no other star shares;
- every trail keeps its own invariant.

Its own invariant, `Line.Valid`, says that the buffer mirrors the list, and that `currentIndex` and the draw count equal the number of points. It also says there are at most `maxPoints` points.

## Model

| member | source | states |
|---|---|---|
| Decimal.NatToString | src/star.js:76 | the `${n}` rendering is a non-empty digit string with no leading zero |
| Decimal.ParseNatToString | src/star.js:76 | reading the rendering back gives n: the rendering loses nothing |
| Decimal.NatToStringInjective | src/star.js:76 | distinct numbers render differently |
| Stars.StarNameInjective | src/star.js:76 | `Star<a>` and `Star<b>` coincide only when a = b |
| Stars.NamesUnique | src/star.js:76 | a list named by position never holds the same generated name twice |
| Stars.Star.constructor | src/star.js:69-85 | the name is `Star<existing+1>` and displayName equals it; velocity is zero; the star emits light and is not an anchor; position and trail start at startPosition, the trail holding that one point |
| Stars.Star.SetName | src/star.js:104-107 | only displayName changes; the generated name is a constant |
| Stars.Star.SetEmitLight | src/star.js:129-133 | only emitLight changes |
| Stars.Star.Reposition | src/star.js:125-127 | position becomes startPosition; nothing else changes |
| Trail.NextTrail | src/star.js:31-65 | Galaxy mode or a point closer than 0.1 to the last one leaves the trail as it was. An accepted point becomes the last element. Below capacity the length grows by one, keeping the earlier points. At capacity the oldest point is dropped, the rest keep their order, and the length stays maxPoints |
| Trail.NextTrailWindow | src/star.js:37-61 | an accepted point leaves the last maxPoints points of trail + [p] |
| Trail.FeedKeepsLastPoints | src/star.js:31-65 | outside Galaxy, offering well-spaced points one by one leaves exactly the last maxPoints points of the whole history |
| Trail.FeedGalaxyFrozen | src/star.js:32 | in Galaxy mode no sequence of offered points changes a trail |
| Trail.Line.constructor | src/star.js:11-29 | a new trail holds exactly its initial point, with currentIndex and the draw count 1 and the buffer mirroring it |
| Trail.Line.AddPoint | src/star.js:31-65 | the invariant holds; the point list becomes NextTrail of the old one; a rejected point leaves the object and its buffer untouched |
| Trail.Line.Append | src/star.js:37-46 | below capacity, the point is stored in the next free triple and the list grows by it |
| Trail.Line.ShiftIn | src/star.js:47-62 | at capacity, the buffer shifts left by one triple in place and the new point fills the last triple |
| App.World.constructor | src/main.js:131-143 | the initial settings (dt 10, stopped, not started, Solar System, 500 stars); no stars; no mode panel; the Start button that initGUI adds (src/guiManager.js:169) is the only Start/Stop button in the Controller folder, remembered by its handle, with no Stop handle |
| App.World.NewStar | src/star.js:137-154 | exactly one star is appended, with name `Star<old length+1>`, its start position at (x/scale, 0, y/scale), zero velocity, lit, not an anchor; the world invariant is kept |
| App.World.NewRandStar | src/star.js:156-169 | one star of mass 1 × 10^30 is appended at the drawn place, scaled by one AU |
| App.World.ClearStars | src/star.js:171-184 | the list is empty |
| App.World.Reset | src/main.js:156-168 | dt becomes 0; the list is empty; grid, axes and background are on; the other settings are kept |
| Modes.Dispatch | src/main.js:170-189 | each known name selects its own mode, and any other name selects Solar System |
| App.World.Setup | src/main.js:170-189 | the dispatched setup appends exactly its bodies, keeps the existing ones and leaves the settings that mode fixes; the mode panel is rebuilt |
| App.SetupOptions | src/main.js:191-270 | div becomes 3 for three bodies and 1 otherwise; only Galaxy turns grid, axes and background off; nothing else changes |
| App.World.SetupSolarSystem | src/main.js:191-226 | nine bodies, the Sun first and the only anchor, with their names, radii, colours, masses and distances; div 1 |
| App.World.AddBody | src/main.js:196-223 | body k is appended as the table says, keeping the bodies before it |
| App.World.ApplyBody | src/main.js:197-222 | a fresh body gets its solar-system title; the Sun becomes the anchor and keeps its light, a planet stops emitting light |
| App.World.SetupThreeBodyProblem | src/main.js:228-242 | three stars of mass 1 × 10^30 and radius 6 at the corners of a triangle of side 2 AU; div 3 |
| App.World.AddThreeBody | src/main.js:236-238 | three-body star k is appended at its corner, keeping the stars before it |
| App.World.SetupGalaxy | src/main.js:244-264 | as many random stars as the loop `i < starCount` runs (Iterations, ⌈starCount⌉ for a positive count) are appended; div 1; grid, axes and background off |
| App.Iterations | src/main.js:248 | a loop `for (i = 0; i < c; i++)` runs the least natural number of times that is not below c |
| App.IterationsOfWhole | src/main.js:248 | for a whole, non-negative c the loop runs exactly c times |
| App.ShrinkCount | src/guiManager.js:223-224 | popping while `i < len - c` from len stars leaves ⌊c⌋ of them, for 0 ≤ c < len |
| App.GrowCount | src/guiManager.js:230-231 | adding while `i < c - len` to len stars leaves as many as a fresh loop up to c makes, ⌈c⌉ |
| App.World.AddRandomStars | src/main.js:248-252 | n random stars are appended, the k-th at draw k, and earlier stars are kept |
| App.World.SetupCustom | src/main.js:266-270 | no star is added; div 1 |
| App.PanelFor | src/guiManager.js:187-202 | "3-body Problem", "Galaxy (n-body)" and "Custom" get the three-body, galaxy and custom panels, the last with no sun yet; the Solar System and any other name get no panel |
| App.World.InitModeGui | src/guiManager.js:187-202 | the panel is the one the current mode calls for |
| App.World.StartButton | src/guiManager.js:48-58 | started, not stopped, dt 10; a fresh Stop button is added and remembered, and the remembered Start button is removed and its handle cleared (App.Started); the run-control invariant is kept |
| App.World.StopButton | src/guiManager.js:59-67 | stoped becomes true and started and dt are kept; a fresh Start button is added and remembered, and the remembered Stop button is removed and its handle cleared (App.Stopped) |
| App.Started | src/guiManager.js:52-57 | after Start, the Stop handle is the new button and is shown, the Start handle is null and the old Start button is gone |
| App.Stopped | src/guiManager.js:61-66 | after Stop, the Start handle is the new button and is shown, the Stop handle is null and the old Stop button is gone |
| App.Without | src/guiManager.js:54-57 | removing a widget from the folder leaves every other widget with its multiplicity and none of the removed one |
| App.WithoutAppend | src/guiManager.js:54-57 | removal works piecewise over a concatenation, so the remaining widgets keep their order |
| App.World.ResetButton | src/guiManager.js:69-75 | the run ends stopped, not started, dt 0, and the other settings are those reset and the current mode's setup leave. Stop is pressed only if the simulation was running, with the widgets Stop leaves. The world holds exactly the bodies of the current mode's setup |
| App.World.Boot | src/main.js:272-274 | the page sets up the current mode, keeping any earlier stars, and starts the run: the settings are the setup's with the run flags and dt of Start, and the widgets are the ones Start leaves |
| App.World.Frame | src/main.js:146-154 | a frame moves the stars and extends their trails only when not stopped, and then each trail becomes NextTrail of its old points |
| App.World.Advance | src/star.js:230-235 | star i moves and its trail takes the point; no other star or trail changes |
| App.World.Move | src/star.js:233 | star i's position becomes the new one; no trail and no other star's position changes |
| App.World.Offer | src/star.js:234 | star i's trail becomes NextTrail of its points; no position and no other trail changes |
| App.World.SelectMode | src/guiManager.js:132-137 | after a mode change the run is stopped and not started, and every setting is the one reset and the new mode's setup leave; the widgets change only when a running simulation is stopped; the world holds exactly the new mode's bodies and panel |
| App.World.StarCountChanged | src/guiManager.js:221-241 | starCount is stored. Shrinking leaves the first ⌊starCount⌋ stars unchanged. Growing keeps the old stars and appends random ones until ⌈starCount⌉ stars are in the list. A whole starCount leaves exactly that many stars |
| App.World.DropStars | src/guiManager.js:223-229 | n stars are popped from the end; the prefix is unchanged |
| App.World.Random | src/guiManager.js:206-212 | exactly three random stars, named Star1 to Star3, remain. When the run was never started only reset's settings change, and the panel and widgets stay. Otherwise the run is also stopped, the current mode's divisor is installed and its panel rebuilt, and the widgets change only if the run was going |
| App.World.AddStar | src/guiManager.js:246-249 | one random star is appended |
| App.World.AddCenter | src/guiManager.js:250-257 | the first call appends one anchor of mass 1 × 10^33 at the origin; every later call changes nothing |

## Left out

- Physics: `simulate`'s forces and integration and `setInitialVelocities` are floating-point numerics. A frame receives the new positions as input, and velocities after a setup or a frame are not modelled.
- `getmass`, `getBrightness`, `setStarColor`, the labels (`createLabel`, `createTextSprite`) and every three.js object (meshes, materials, scene membership, bloom, camera, skybox) are left out. This includes disposing of the meshes of popped or cleared stars.
- Float32 rounding of the trail buffer is left out. Coordinates are exact reals.
- The `console.error` for an unknown mode in `setup` (src/main.js:186) and the `console.log` of a mode change (src/guiManager.js:133) are console output only, and are left out.
- `textScale` and `cameraSpeed` in `mainOptions` are left out: only label drawing (src/star.js:305) and the camera (src/main.js:14, 83) use them.
- The dat.GUI folders per star (`addFolderStar`, `clearAllStarFolders`), the welcome overlay, the keyboard, the raycast drag and the `requestAnimationFrame` loop are rendering and input glue. They are left out.
- `newRandstar`'s ranges are not modelled: x in [−rx, rx) and y in [−ry, ry) (a 2rx × 2ry box), the rejection loop that redraws until the point lies outside `mindistance`, the radius in [2, 7) and the HSL colour. Each drawn star is a `Draw` value. The coin that `setupGalaxy` and the star-count slider throw to pick `newRandstar(30, 5, 2)` or `newRandstar(5, 30, 2)` is part of that value.
- App.World.StarCountChanged: the slider clamps its value to [100, 1000], and the model asks only for a non-negative count. For a negative count the source pops more stars than the list holds and fails on the missing star.
- App.World.Frame: the contract does not state that the other fields of a star (its name, mass, flags) stay unchanged during a frame.
- App.World.SetupSolarSystem and App.World.SetupThreeBodyProblem: the source makes nine and three explicit `newStar` calls, which the model walks from a table in the same order. The effect is the same, but the individual statements are not mirrored.
- App.World.Random: the three explicit `newRandstar` calls are the shared three-iteration loop `AddRandomStars(3, …)`.
