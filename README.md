# bevy-vibes racing demo: a Dafny model of its update rules

This project models the per-frame update rules of a small Bevy racing demo and proves properties about them. It covers the following parts of the game:

- **Car controller** (`src/car.rs`). A per-frame state machine over the car's scalar speed:
  - accelerate, clamped to the top speed;
  - brake or reverse, clamped to minus half the top speed;
  - otherwise coast by a factor of 0.95 per frame and snap to zero below 0.1.

  On top of this come speed-gated steering, a translation along the heading, and the wheels' spin rate.
- **Chase camera** (`src/camera.rs`). A speed factor |speed| / max_speed, clamped to [0, 1], sets three values: the camera distance (8 to 12), its height (5.5 to 4) and a smoothing gain (0.03 to 0.05). The camera takes one lerp step per frame toward a point behind and above the car, then turns to look at a point slightly ahead of it.
- **Post-processing parameters** (`src/post_processing.rs`). These are the six shader parameters of `RacingPostProcessSettings`:
  - the values `setup_post_processing` inserts on each 3D camera;
  - the speed-driven values, or neutral values, that `update_post_process_settings` writes every frame.
- **Time of day** (`src/atmosphere.rs`):
  - the clock in [0, 1), advanced every frame or scrubbed with T and G, then wrapped;
  - the sun's position, light colour and illuminance, and the ambient light, all chosen from the sun's height by threshold bands.
- **Menus** (`src/menu.rs`):
  - the `GameState` machine driven by the main-menu and settings-menu buttons;
  - the three `GameSettings` flags;
  - the colour and label of each toggle button.

Modelling conventions:

- **Numbers.** Rust's `f32` is read as Dafny's exact `real`.
- **Positions.** They are `Vec3` values.
- **Car and wheel transforms.** The car turns about the world's vertical axis (`rotate_y`); each wheel turns about its own axle (`rotate_local_y`). Each orientation is therefore one accumulated angle about a fixed axis: the car's yaw, a wheel's roll.
- **Camera and sun transforms.** Their orientation is the point they were last told to look at (`look_at` / `looking_at`).
- **Functions supplied by the caller.** `Transform::forward` (as a function of the yaw) and `sin`, `cos` and `powf` are function parameters. The requires clauses state the facts the proofs need about them.
- **ECS queries.** A query is a sequence of its items, and `Query::single()` succeeds exactly when that sequence has one element.
- **Button interactions.** The changed `Interaction` of each button a query matches, one per button, form a sequence.
- **Frame time.** `Time::delta_secs` is a parameter `dt`.

Modules, one per file: `Scene` (vectors, colours, transforms), `Input` (keys, interactions, frames), `CarSystem`, `CameraSystem`, `PostProcessing`, `Atmosphere` and `Menu`.

## Model

| member | source | states |
|---|---|---|
| Scene.Transform.RotateY | src/car.rs:62-65 | Turning about the body's fixed axis adds the angle to its accumulated angle and keeps the position |
| Scene.AimedTransform.LookAt | src/camera.rs:46 | Looking at a target keeps the position and faces the target |
| Scene.Lerp | src/camera.rs:41 | Vec3::lerp gives the start at s = 0 and the end at s = 1; LerpContracts gives how far one step moves toward the end |
| Input.CountPressed | src/menu.rs:247-251 | The number of presses among a button's interactions is at most their number, and zero exactly when none is a press |
| Input.CountPressedConcat | src/menu.rs:247-251 | The presses of two runs of interactions add up |
| CarSystem.Car.Default | src/car.rs:11-20 | The default car is at rest, with top speed 20, acceleration 10 and turn speed 2, and its speed is in range |
| CarSystem.ThrottleOf | src/car.rs:45-49 | Accelerate exactly when an accelerate key is held; brake/reverse exactly when a brake key is held and no accelerate key; coast exactly when neither |
| CarSystem.CoastSpeed | src/car.rs:49-55 | Coasting keeps the speed's sign and strictly shrinks a non-zero speed; the result is either exactly 0 or 0.95 times the speed with magnitude at least 0.1 |
| CarSystem.NextSpeed | src/car.rs:45-55 | Accelerating gives min(speed + a·dt, max); braking gives max(speed − a·dt, −max/2); with no throttle key the car coasts |
| CarSystem.NextSpeedInRange | src/car.rs:45-55 | With dt ≥ 0, acceleration ≥ 0 and max > 0, a frame keeps the speed in [−max/2, max] whatever keys are held |
| CarSystem.AccelerateOverridesBrake | src/car.rs:45-48 | While an accelerate key is held, the brake keys make no difference |
| CarSystem.SteerAngle | src/car.rs:58-66 | No steering at abs(speed) ≤ 0.1, and none when left and right are both held or both released; SteerAngleProperties gives the value of a one-sided turn |
| CarSystem.SteerAngleProperties | src/car.rs:58-67 | No steering at abs(speed) ≤ 0.1; left and right together cancel; reversing mirrors the turn; left alone turns by +turn_speed·speed/max·dt and right alone by −turn_speed·speed/max·dt |
| CarSystem.MovementTick | src/car.rs:41-72 | One frame keeps the car's configuration, sets the speed by the throttle rule, turns by the steering angle computed from the new speed, and then translates along the new heading |
| CarSystem.Translate | src/car.rs:70-71 | The car's displacement is its heading scaled by speed·dt |
| CarSystem.TranslateAlong | src/car.rs:70-71 | Moving along a horizontal unit heading covers exactly speed·dt along it, with no vertical motion |
| CarSystem.MovementAlongHeading | src/car.rs:57-71 | Each frame the car moves speed·dt along its heading after steering: the displacement's dot product with the heading is speed·dt and its squared length is (speed·dt)² |
| CarSystem.DriveKeepsSpeedInRange | src/car.rs:41-72 | Over any sequence of frames with dt ≥ 0, the speed stays in [−max/2, max] |
| CarSystem.CoastStops | src/car.rs:49-55 | A coasting car reaches exactly 0 within 200·abs(speed) frames |
| CarSystem.CoastFramesShrink | src/car.rs:49-55 | Any number of coasting frames never increases abs(speed) and never flips its sign |
| CarSystem.WheelSpinRate | src/car.rs:85-87 | The spin rate times the wheel circumference 2π·0.3 is the speed; it is zero exactly at rest and has the speed's sign |
| CarSystem.SpeedFactor | src/camera.rs:22 | The speed factor lies in [0, 1]; it is 0 exactly at rest and 1 exactly at or above top speed; below top speed it is abs(speed)/max |
| CarSystem.SpeedFactorMonotone | src/camera.rs:22 | The speed factor grows with abs(speed) and is the same for forward and reverse speeds |
| CarSystem.ApplyThrottle | src/car.rs:45-55 | The car's speed becomes NextSpeed of the old speed, and its other fields are unchanged |
| CarSystem.ApplySteering | src/car.rs:58-67 | The yaw grows by the steering angle and the position is unchanged |
| CarSystem.MoveCar | src/car.rs:42-71 | The car's state after the loop body is MovementTick of its old state |
| CarSystem.CarMovementSystem | src/car.rs:36-73 | Every car in the query takes exactly one movement frame |
| CarSystem.WheelRotationSystem | src/car.rs:75-95 | With exactly one car, every wheel turns by the same −rate·dt and keeps its position; otherwise no wheel changes |
| CameraSystem.CameraDistance | src/camera.rs:25-27 | The distance lies in [8, 12]; it is 8 exactly at sf = 0 and 12 exactly at sf = 1 |
| CameraSystem.CameraHeight | src/camera.rs:29-32 | The height lies in [4, 5.5]; it is 5.5 exactly at sf = 0 and 4 exactly at sf = 1 |
| CameraSystem.DistanceAndHeightMonotone | src/camera.rs:25-40 | A faster car moves the camera further back and lower, strictly so when sf grows, and never makes it follow more slowly |
| CameraSystem.LerpGain | src/camera.rs:39-40 | The smoothing gain lies in [0.03, 0.05], strictly between 0 and 1; it is 0.03 exactly at rest and 0.05 exactly at top speed |
| CameraSystem.TargetPosition | src/camera.rs:34-36 | For a horizontal heading the target is CameraHeight above the car; TargetBehindAndAbove gives its horizontal offset |
| CameraSystem.TargetBehindAndAbove | src/camera.rs:34-36 | The target sits CameraDistance behind the car along −forward (at least 8) and CameraHeight above it; its horizontal distance is exactly CameraDistance |
| CameraSystem.TargetIgnoresDirectionOfTravel | src/camera.rs:22-36 | Forward and reverse driving at equal pace give the same camera target, so the camera stays behind the car's nose when reversing |
| CameraSystem.LookTarget | src/camera.rs:43-45 | For a horizontal heading the look target is 1 above the car; LookTargetAhead gives the look-ahead |
| CameraSystem.LookTargetAhead | src/camera.rs:43-45 | The camera looks 1 above the car, plus 3·sf ahead along the heading (never behind); at rest there is no look-ahead |
| CameraSystem.LerpContracts | src/camera.rs:40-41 | One smoothing step scales the squared distance to the target by (1 − k)², which is a strict decrease for 0 < k < 1 |
| CameraSystem.SettleConverges | src/camera.rs:40-41 | With the target fixed, the squared distance after n frames is ((1 − k)²)ⁿ times the initial one |
| CameraSystem.CameraFollowSystem | src/camera.rs:12-49 | With one target car and one 3D camera, the camera takes one lerp step toward the target and faces the look target; otherwise it is unchanged |
| PostProcessing.EnabledValues | src/post_processing.rs:225-237 | The enabled fields stay in their ranges; the intensity is the speed factor; the fields equal the setup values exactly at sf = 0 |
| PostProcessing.TargetValues | src/post_processing.rs:222-246 | When enabled, the values are in range, their intensity is the car's speed factor, and they equal the setup values exactly at rest; when disabled, they are the neutral values, which lie outside the enabled ranges |
| PostProcessing.EnabledMonotone | src/post_processing.rs:227-237 | With effects enabled every field is non-decreasing in abs(speed), and reverse looks the same as forward |
| PostProcessing.RacingPostProcessSettings.Initial | src/post_processing.rs:207-214 | The inserted component holds 0, 0.004, 0.4, 0, 1.3, 1.2 |
| PostProcessing.SetupPostProcessing | src/post_processing.rs:201-216 | Every 3D camera without the component gets a fresh one holding the initial values; every other camera is left as it was |
| PostProcessing.UpdatePostProcessSettings | src/post_processing.rs:218-249 | With exactly one car, every camera's component gets the same target values; otherwise nothing changes |
| Atmosphere.Trunc | src/atmosphere.rs:52 | trunc rounds toward zero: it is at most x and within 1 of it for x ≥ 0, at least x and within 1 of it for x ≤ 0 |
| Atmosphere.Fract | src/atmosphere.rs:52 | fract lies in (−1, 1), keeps the sign of its input, and differs from it by the truncated integer part |
| Atmosphere.Wrap | src/atmosphere.rs:51-55 | The wrapped time lies in [0, 1) and is the input minus its floor, a whole number of days |
| Atmosphere.WrapShift | src/atmosphere.rs:51-55 | Wrapping ignores whole days |
| Atmosphere.TimeOfDay.Default | src/atmosphere.rs:19-25 | The default clock reads 0.3 and runs at 1/(24·60) days per second |
| Atmosphere.TimeOfDay.UpdateTimeOfDay | src/atmosphere.rs:36-56 | The clock becomes AdvanceTime of the old clock and its speed is unchanged |
| Atmosphere.Delta | src/atmosphere.rs:42-49 | T moves the clock by +2·dt and wins over G; G alone moves it by −2·dt; otherwise it moves by dt·speed |
| Atmosphere.AdvanceTime | src/atmosphere.rs:41-55 | After a frame the clock is in [0, 1), a whole number of days from the unwrapped value |
| Atmosphere.FastForwardOverridesRewind | src/atmosphere.rs:42-45 | With T held, whether G is held makes no difference |
| Atmosphere.RewindUndoesFastForward | src/atmosphere.rs:42-55 | A rewind frame undoes a fast-forward frame of the same length, across the wrap |
| Atmosphere.RunClockIsWrappedTotal | src/atmosphere.rs:41-55 | Wrapping every frame loses no time: after any run the clock is the start plus the total elapsed, modulo one day |
| Atmosphere.SunAngle | src/atmosphere.rs:67 | The angle is 0 at a quarter day and π/2 at noon, and lies in [−π/2, 3π/2) over a day |
| Atmosphere.SunHeight | src/atmosphere.rs:68 | The sun height is never negative; it is positive exactly when the sine is, and then equals it; it is at most 1 |
| Atmosphere.SunColor | src/atmosphere.rs:94-102 | The light is moonlight blue exactly when the sun is down, white exactly above 0.5, and has full red exactly while the sun is up |
| Atmosphere.SunColorBrightens | src/atmosphere.rs:94-102 | As the sun climbs, the light's red and green channels never decrease |
| Atmosphere.Illuminance | src/atmosphere.rs:80-89 | At night 100 lx; in the twilight band at most a tenth of raw sunlight; in daylight above 0.316 of raw sunlight; never above raw sunlight for heights up to 1 |
| Atmosphere.DawnDimmerThanMoonlight | src/atmosphere.rs:83-88 | For sun heights in (0, 0.008] the light is dimmer than the 100 lx night moonlight |
| Atmosphere.AmbientBrightness | src/atmosphere.rs:106-110 | The ambient brightness is 150 at night, always positive, and at most 300 by day |
| Atmosphere.AmbientColor | src/atmosphere.rs:113-117 | The ambient colour is the daylight tint exactly when the height is above 0.1, blue otherwise |
| Atmosphere.AmbientFollowsSunColor | src/atmosphere.rs:94-117 | The ambient tint is daylight exactly when the sun's light is white or warm |
| Atmosphere.UpdateSunPosition | src/atmosphere.rs:58-118 | A single sun is placed 100·(cos, height, 0.3) and faces the origin; a single light gets the band's illuminance and colour; the ambient light follows the height; anything not single is unchanged |
| Menu.NextState.Set | src/menu.rs:233-236 | Setting the next state replaces any earlier request |
| Menu.ApplyNext | src/menu.rs:233-236 | With no request the state stays; a pending request becomes the new state |
| Menu.ExitWriter.Write | src/menu.rs:247-251 | Writing an exit event appends it to those written |
| Menu.MainMenuRequest | src/menu.rs:232-244 | Settings wins over Play; Play alone requests InGame; with neither, the earlier request stands; the main menu never requests MainMenu |
| Menu.MainMenuSystem | src/menu.rs:210-252 | The next state is MainMenuRequest of the presses, and one AppExit::Success is written per Exit press |
| Menu.GameSettings.Default | src/menu.rs:18-25 | Motion blur, post processing and fog all start enabled |
| Menu.GameSettings.Flip | src/menu.rs:461 | A toggle negates exactly its own flag |
| Menu.ToggleColor | src/menu.rs:302-306 | The button is green exactly when the flag is on and red exactly when it is off |
| Menu.ToggleName | src/menu.rs:475-524 | Each toggle's name is non-empty and contains no ':', so the label's separator is unambiguous |
| Menu.LabelText | src/menu.rs:474-477 | The label format "<NAME>: ON" / "<NAME>: OFF"; its shape and injectivity are stated by LabelTextParts and LabelTextInjective |
| Menu.LabelTextParts | src/menu.rs:312-315 | A label is the toggle's name followed by ": ON" exactly when on, and by ": OFF" exactly when off |
| Menu.LabelTextInjective | src/menu.rs:472-477 | Distinct toggles or flag values never show the same label |
| Menu.SpawnToggle | src/menu.rs:302-315 | A new toggle button shows the current flag in both colour and label |
| Menu.HandleToggle | src/menu.rs:459-480 | The flag ends up negated exactly when the toggle was pressed an odd number of times, and the other flags are unchanged; once pressed, the button and label show the new flag; a consistent button stays consistent |
| Menu.SettingsMenuSystem | src/menu.rs:429-536 | Each flag flips by the parity of its own presses; Back requests MainMenu |
| Menu.HandleBack | src/menu.rs:530-535 | The request after the Back loop is BackRequest: MainMenu once Back was pressed, otherwise the earlier request |
| Menu.ToggledFlag | src/menu.rs:459-461 | A toggle's flag keeps its value exactly when its button was pressed an even number of times |
| Menu.ToggleFramesCompose | src/menu.rs:459-461 | Two frames of presses leave the flag as one frame with all their presses would, so an even total restores it |
| Menu.BackRequest | src/menu.rs:530-535 | MainMenu is requested once Back was pressed; otherwise the earlier request stands |
| Menu.MenuNavigation | src/menu.rs:232-535 | From the initial MainMenu state, Play leads to InGame, Settings leads to Settings, and no press stays in MainMenu; Back from the settings menu returns to MainMenu |

## Left out

- **Bevy plumbing.** Plugin registration, system scheduling, `Commands`, entity spawning and despawning, and the internals of `NextState` (how a request is applied, modelled only by `ApplyNext`) are engine plumbing.
- **Menu layout.** The menu layout and the hover recolouring at src/menu.rs:219-230 and src/menu.rs:445-456 are UI styling and are left out. Only the toggles' colours and labels are modelled.
- **GPU render path.** `PostProcessNode`, `PostProcessPipeline`, bind groups and shaders (src/post_processing.rs:74-189) are foreign graphics calls.
- **Other files.** `src/world.rs` (scene construction), `src/lighting.rs` (light spawning with constants) and `src/main.rs` (input plumbing and the motion-blur sample toggle) are not part of this model.
- **Transcendental functions.** `sin`, `cos`, `powf`, `Transform::forward` and the quaternion maths behind `rotate_y`, `rotate_local_y`, `look_at` and `looking_at` are not computed. They are parameters, and an orientation is an angle about a fixed axis or a look-at point.
- **f32 arithmetic.** Rounding, NaN and infinity are outside the model, so results exactly at a threshold (`fract` near 0 or 1, the 0.1 snap, the band edges) are exact-real results.
- **Division by max_speed.** The source divides by max_speed without checking it:
  - CarSystem.SteerAngle, CarSystem.MovementTick, CarSystem.MoveCar and CarSystem.CarMovementSystem require max_speed > 0.
  - CarSystem.SpeedFactor and CameraSystem.CameraFollowSystem require max_speed > 0.
  - PostProcessing.UpdatePostProcessSettings requires max_speed > 0 for the single car when post-processing is on.
  - In the source, a zero top speed gives NaN or infinity, which is not modelled.
- CarSystem.CarMovementSystem requires the query's cars to be distinct entities, as an ECS query guarantees.
- CarSystem.WheelRotationSystem requires the query's wheels to be distinct entities, as an ECS query guarantees.
- Atmosphere.Illuminance: in the twilight band the lower bound is stated as ≥ 0, not > 0.
- Menu.SettingsMenuSystem: that each button's colour and label match its flag after the frame is proved per toggle in Menu.HandleToggle, not restated in this member's own contract.
- **Modules not compiled.** `src/lib.rs:1-4` declares only the car, camera, lighting and world modules, so menu, post-processing and atmosphere are not compiled into the crate. They are modelled as written.
- **Force model.** The code contains no force or torque model, acceleration curve, lateral grip or reversing-camera debounce. The speed is integrated directly, and the camera always sits at −forward (src/camera.rs:35). The model follows that code.
