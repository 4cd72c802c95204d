# Balloon to-do field: a Dafny model of its bookkeeping and geometry

The page shows each task as a balloon. Each balloon is a circular physics
body with a tail of 15 small linked bodies. The balloons float in a field
closed by four static walls. `script.js` wires this together in one
`DOMContentLoaded` closure. That closure holds:

- a registry (`balloons`) of live balloons;
- one focus slot (`focusedBalloon`);
- the physics world;
- the four `walls` bodies;
- the current `controlOffset`.

The event handlers change that state. This project models the state and
the handlers, together with the pure geometry they use.

- `Geometry` (geometry.dfy), pure: the wall centres and extents, the
  offset below the controls, and the band that a balloon's target height is
  drawn from and clamped to. It also holds `PlacePanel`, the step-by-step
  placement of the inspection panel.
- `Physics` (physics.dfy): the small part of the physics library's object
  model that the script uses. A `Body` class has a position, an angle, a
  static flag and a force vector. It also has the setters the script calls
  (`setPosition`, `setStatic`, `setAngle`, `applyForce`). There is a
  `Constraint` record, a `Composite` class that groups bodies and
  constraints, and the library's collision-filter rule.
- `Text` (text.dfy): the ECMAScript `trim` applied to the typed task.
- `Registry` (registry.dfy): the identity search (`findIndex`) and the
  splice that completion uses. The splice is proved equal to a filter that
  keeps every other entry in order.
- `Sky` (sky.dfy): the `Balloon` class, the tail builder and the `Field`
  class. `Field` holds the closure state and the handlers: add, toggle
  focus, background click, complete, `animationend`, resize and the
  `beforeUpdate` drift pass.

`Field.Valid()` is the invariant that every handler keeps:

- exactly four distinct static walls of thickness 50 are in the world;
- every balloon owns its body, body force and tail, and no other balloon
  shares them;
- every tail has 15 segments and 15 constraints;
- the registry has no duplicates;
- for every balloon ever created, its body is in the world exactly when its
  tail is, and exactly when the balloon is in the registry;
- the focused balloon, if there is one, is static with angle 0;
- every other registered balloon is dynamic.

Only one focus slot exists, so at most one balloon is focused.

Random draws are parameters: radius, spawn x, colour index, target draw and
drift phase. So are the DOM measurements: the field size, the controls'
`offsetTop`/`offsetHeight` and the panel's bounding box. Per-step forces and
the edit prompt's reply are parameters too. Pixel quantities are `real`;
JavaScript's double rounding is not modelled.

`createBalloon` is modelled in two steps. `Sky.NewBalloon` builds the
body, the tail and the record. `Sky.Field.Register` then appends the
balloon to the registry and adds its body and tail to the world.
`Sky.Field.CreateBalloon` runs the two in that order, as the source does.

Some facts about script.js that the model keeps:

- it stores nothing between page loads and has no task categories;
- the target height is clamped to a closed band (script.js:190);
- completion clears focus only on `animationend` (script.js:231);
- resize accepts any size, and it moves the walls but keeps their lengths (script.js:94-98).

## Model

| member | source | states |
|---|---|---|
| `Geometry.ControlOffset` | script.js:68 | the top wall's inner face lies strictly below the bottom edge of the controls |
| `Geometry.WallCenters` | script.js:71-80 | four centres, in the order bottom, top, left, right; the floor and ceiling are centred on the field's width, the side walls on its height |
| `Geometry.WallExtents` | script.js:71-80 | floor and ceiling are 50 tall, side walls 50 wide (the wall thickness) |
| `Geometry.WallFaces` | script.js:60-80 | the walls' inner faces are at y = height (floor), y = controlOffset (ceiling), x = 0 (left) and x = width (right) |
| `Geometry.FieldClearOfWalls` | script.js:71-80 | no point of the closed field box lies strictly inside any wall, whatever the walls' lengths; this still holds after a resize keeps the old lengths |
| `Geometry.MinTargetY` | script.js:188 | the highest target keeps the balloon's top edge, one radius above its centre, strictly below the top wall |
| `Geometry.MaxTargetY` | script.js:189 | the lowest target keeps the balloon's bottom edge, one radius below its centre, strictly above the floor |
| `Geometry.TargetY` | script.js:187-190 | the target is at least controlOffset + size + 20; it is at most height - size - 50 when the band is non-empty, where it equals the linear map of the draw; when the band is empty it is the lower bound, whatever the draw |
| `Geometry.PlacePanel` | script.js:306-328 | left is never negative; the panel flips left exactly when the unclamped right candidate x + size + 15 + width passes the field's width, and each side is reset to 10 only when negative; the bottom clamp runs last and overrides the top clamp; the panel never passes the field's bottom, and its top is not negative when the panel fits with the inset |
| `Physics.CanCollide` | script.js:126-130 | a body whose mask is 0 collides with nothing; a collision needs the first body's mask to admit the second body's category |
| `Physics.CollisionMatrix` | script.js:126-165 | balloons collide with walls and with balloons but not with tail segments; tail segments, whose mask is 0, collide with no filter at all |
| `Physics.Body.Circle` | script.js:122-131 | a new dynamic circle at the given centre, angle 0, zero force, with the given restitution, air friction and filter |
| `Physics.Body.StaticRectangle` | script.js:61-79 | a new static box at the given centre, with the library's default restitution and air friction |
| `Physics.Body.SetPosition` | script.js:95-98 | moves the body; angle, static flag and force are kept |
| `Physics.Body.SetStatic` | script.js:279 | sets the static flag; position and angle are kept |
| `Physics.Body.SetAngle` | script.js:293 | sets the angle; position and static flag are kept |
| `Physics.Body.ApplyForce` | script.js:388-391 | adds the vector to the body's accumulated force |
| `Physics.Composite.constructor` | script.js:154 | a new empty composite with the given label |
| `Physics.Composite.AddBody` | script.js:167 | appends one body; constraints are kept |
| `Physics.Composite.AddConstraint` | script.js:183 | appends one constraint; bodies are kept |
| `Text.FirstNonSpace` | script.js:108 | the index of the first non-space at or after the start index, or the length when there is none; everything skipped is white space |
| `Text.EndOfText` | script.js:108 | the index just after the last non-space in a range, or the range's start when there is none; everything skipped is white space |
| `Text.Trim` | script.js:108-109 | the trimmed text is the slice of the input that starts at its first non-space, with only white space before and after it; it is empty exactly when the input is all white space; otherwise it starts and ends with a non-space |
| `Text.TrimIdempotent` | script.js:108 | trimming trimmed text changes nothing |
| `Registry.FindIndex` | script.js:223-224 | returns -1 exactly when the balloon is absent; otherwise returns the first index holding that very balloon |
| `Registry.Without` | script.js:223-227 | reference for removal by identity: the filtered registry is never longer than the original |
| `Registry.WithoutMembers` | script.js:223-227 | every entry the filter keeps was in the registry and is not the removed one; every other entry is kept |
| `Registry.WithoutConcat` | script.js:226 | filtering two joined parts equals joining the two filtered parts |
| `Registry.WithoutAbsent` | script.js:224 | removing an absent balloon leaves the registry unchanged |
| `Registry.RemoveAtIsWithout` | script.js:223-226 | in a registry without duplicates, splicing at the found index equals removal by identity; exactly one entry goes and the others keep their order |
| `Registry.RemoveAtDistinct` | script.js:226 | the splice keeps the registry free of duplicates |
| `Sky.BuildTail` | script.js:152-185 | a fresh composite labelled Tail with 15 fresh segments and 15 constraints; segment i is at (x, y + size + 8i), radius 0.5 and mask 0; constraint i joins segment i-1 (the balloon when i = 0) to segment i, with length 8 and stiffness 0.7; only constraint 0 has the anchor offset (0, size) |
| `Sky.NewBalloon` | script.js:115-202 | radius in [30, 50); colour the palette entry at floor(4 × colour draw); body a dynamic circle at (draw-mapped x, field height) with the balloon filter, restitution 0.6 and air friction 0.08; target height from `TargetY`; the tail as `BuildTail` builds it |
| `Sky.Balloon.constructor` | script.js:192-202 | the record holds the given body, tail, text, target, size, drift phase and colour |
| `Sky.Balloon.Drift` | script.js:379-391 | the drift phase advances by 0.005 and the given force is added to the body's force |
| `Sky.Balloon.Edit` | script.js:234-238 | a non-empty reply replaces the text; a cancelled or empty reply leaves it |
| `Sky.BuildWalls` | script.js:71-80 | four fresh, distinct, static bodies with the wall filter, centred at `WallCenters` and sized by `WallExtents`, in the order bottom, top, left, right |
| `Sky.Field.constructor` | script.js:67-81 | four fresh static walls at the centres for the initial geometry, with the creation extents; the world holds exactly them; the registry is empty and nothing is focused |
| `Sky.Field.Resize` | script.js:84-99 | the control offset is recomputed; the same four walls move to the new centres, only their positions change; the world, the registry and the focus are unchanged |
| `Sky.Field.MoveWalls` | script.js:95-98 | each wall moves to its new centre; the invariant is kept |
| `Sky.Field.CreateBalloon` | script.js:115-205 | the new balloon is as `NewBalloon` describes, its exact palette colour included; the registry grows by exactly that balloon at its end; the world gains exactly its body and tail; the invariant is kept |
| `Sky.Field.Register` | script.js:204-205 | a balloon whose body, force and tail no other balloon owns is appended to the registry, and its body and tail join the world; the invariant is kept |
| `Sky.Field.AddClicked` | script.js:107-113 | text that is empty after trimming leaves the registry, the world and the set of created balloons unchanged; otherwise one fresh balloon, the only addition to the created balloons and spawned from the draws as `NewBalloon` describes (exact colour included), with the trimmed text is appended and its body and tail join the world |
| `Sky.Field.ToggleFocus` | script.js:269-334 | if `b` was focused, nothing is focused afterwards; otherwise exactly `b` is; a previously focused balloon that loses focus is dynamic again; a `b` left unfocused keeps its angle; a newly focused one is static with angle 0 and its panel stays inside the field's left and bottom edges; the body does not move |
| `Sky.Field.ToggleFocusTwice` | script.js:269-293 | two toggles of the same balloon, from any state other than that balloon focused, end with nothing focused and that balloon dynamic |
| `Sky.Field.BackgroundClick` | script.js:336-338 | always ends with nothing focused; the balloon that was focused is dynamic again, and its angle, its panel position, text and drift phase are unchanged |
| `Sky.Field.Complete` | script.js:210-227 | the burst origin is the body's position; the registry becomes the identity filter of its old value, one entry shorter when the balloon was present; when it was not, the registry and the world are unchanged; otherwise the world loses exactly the body and the tail; focus is unchanged |
| `Sky.Field.Unregister` | script.js:225-226 | the registry entry at the index is spliced out, and that balloon's body and tail leave the world; focus is unchanged and the invariant is kept |
| `Sky.Field.AnimationEnd` | script.js:228-232 | a completed balloon loses focus if it still held it; other focus is untouched |
| `Sky.Field.BeforeUpdate` | script.js:372-392 | every registered balloon except the focused one advances its drift phase by 0.005 and receives its force; the focused balloon gets neither; only drift phases and body forces are written, so every text stays as it was |

## Left out

- Every DOM effect: balloon and modal elements, the tooltip, the modal's markup, CSS classes (`focus`, `show`, `dimmed`, `popping`), element styles, `requestAnimationFrame`, clearing the input box, and removing elements on `animationend` (script.js:133-150, 262-267). `beforeUpdate` also copies positions and rotations into element styles (script.js:394-399); that is left out too.
- Background clouds and the confetti burst (script.js:29-53, 219-221, 241-260): cosmetic and random. `Complete` returns only the burst origin.
- The canvas tail drawing and its sine squiggle (script.js:340-370): rendering with trigonometric floats.
- The drift forces themselves (script.js:380-386): the sine offset, the proportional pull, the buoyancy and the random jitter are floating-point physics. `BeforeUpdate` takes the force for each balloon as a parameter and models only the gating by focus.
- The physics library's engine, runner and renderer (script.js:4-26, 89-92): constraint solving, gravity, integration and collision response. Nothing in the model moves a body except `setPosition`. `setStatic` is modelled as its flag alone, without its mass and inertia bookkeeping. Collision groups are not modelled: every body here is in group 0.
- The `if (!balloon.body) return;` guard (script.js:374): every modelled balloon has a body, so the guard never fires.
- The field's size is read from the page on every call in script.js (lines 117-118, 189, 311, 327-328). The model instead stores the size given at page load or at the last `resize`. The two agree only as long as the sky element changes size only with a window resize.
- Randomness: `driftPhase` is taken as a parameter rather than a uniform draw times 2π. The range [0, 1) of `Math.random` is a precondition only for the radius and colour draws, whose results need it.
- Sky.Field.ToggleFocus: its contract gives only the panel's left and bottom bounds; the full placement is stated by `Geometry.PlacePanel`, which it calls. The panel size is a parameter because the source measures it in the DOM. `BackgroundClick` passes zeros, since a toggle that only unfocuses never reads it.
- Sky.Field.AnimationEnd: requires the balloon to be absent from the registry. The handler is installed only by the complete button, after the balloon has been spliced out.
- After `animationend` clears focus from a completed balloon, its body stays static; the source never releases it. That body is no longer in the world, so the invariant speaks only of registered balloons.
- Persistence, categories and category palettes: not present in `script.js`.
