# GesturesDemo pinwheel: trigger state machine, gestures and anchor reset

This project models the core of the GesturesDemo augmented-reality view
(`SimpleARView` in `GesturesDemo/ContentView.swift`). The view places a
pinwheel on a horizontal plane. The user can drag to turn the pinwheel. A
microphone level above a threshold starts an audio clip, and the pinwheel
turns while the clip plays. Three parts are modelled:

- **Trigger state machine** (`trigger.dfy`, module `Trigger`). This is the per-frame
  logic of `renderLoop`. Its state is `hasBeenTriggered` and `lastUpdateTime`.
  Each tick reads a decibel level and the clock. It issues `Play` when the level is
  strictly above -6.0 dB and the view is not yet triggered. It issues `Stop` when the
  view is triggered after that branch and more than 19 seconds have passed. The
  elapsed time is read on entry, before a trigger overwrites `lastUpdateTime`.
  `Step` is one tick and `Run` is a sequence of ticks. `TickContract` states
  what one tick does. The other lemmas prove these properties:
  - Play and Stop strictly alternate over any run, so there is at most one Play
    between two Stops.
  - A triggered view stays triggered, silently, through every tick that is at most
    19 s after its trigger time.
  - The first tick after that window stops the clip.
  - A trigger that comes more than 19 s after the last update is stopped in the
    same tick.
- **Orientation** (`rotation.dfy`, module `Rotation`). Every rotation the view
  applies is about the fixed z axis, so the orientation is an accumulated angle.
  The angle is held exactly as `piMultiple * π + radians`. A drag of `dx` points
  adds `-0.01 * dx` radians. A tick on which the controller reports playing adds
  `-π/6`. Drags compose by adding their deltas, and each playing tick adds one
  `-π/6` step.
- **The view object** (`arview.dfy`, module `ARView`). Class `SimpleARView` has
  fields that its methods update in place:
  - the two trigger fields;
  - the pinwheel orientation;
  - the plane anchor, an id plus its set of child entities;
  - the set of anchors in the scene.

  `RenderLoop` is proved against `Trigger.Step` and `Rotation.TickRotation`.
  The class invariant uses a ghost log of every audio command issued. It states
  that the log alternates Play, Stop, Play, … and that `hasBeenTriggered` is set
  exactly when the last command was Play. `ResetPlaneAnchor` installs a new anchor
  with no children and a new id. It leaves the trigger fields and the orientation
  alone. `ProcessUISignal` sends `ResetAnchor` to it and `Spin` to a no-op on the
  modelled state.

Decibel levels and times are `real`. The code only compares and subtracts them.
The microphone level, the clock and the controller's `isPlaying` report are
parameters of `RenderLoop`. `playing` is the report read after the trigger branch,
which is where the code reads it.

Behaviours of the code worth noting:
- The threshold comparison is strict (`>`), not `>=`. So a reading of exactly
  -6.0 dB does not trigger (`TickContract`, `ThresholdIsStrict`).
- The per-tick `-π/6` rotation depends only on the controller reporting playing,
  not also on the triggered flag.
- Resetting the anchor attaches no children and does not reset the pinwheel's
  orientation. It also does not clear the trigger fields.
- The 19 s window is measured from `lastUpdateTime`. That field starts at the view's
  creation time and is also overwritten by a stop. So a trigger after more than
  19 s without an update plays and stops in the same tick (`SameTickStop`).

## Model

The functions that model the code directly are `Trigger.Step` (one frame of
`renderLoop`, lines 287-315), `Trigger.Run` (successive frames),
`Rotation.Gesture` (the drag rotation, lines 219-220) and
`Rotation.TickRotation` (the playing-frame rotation, lines 302-304). They carry
no contract of their own. The lemmas and methods below state what they do.

| member | source | states |
|---|---|---|
| `Trigger.TickContract` | GesturesDemo/ContentView.swift:287-315 | For one tick (`Step`): Play is issued iff the level is strictly above -6.0 and the view was not triggered. Stop is issued iff the view is triggered after the trigger branch and the elapsed time read on entry exceeds 19 s. Each command appears at most once, with Play first. After a Stop the state is idle and stamped with the tick's time. After a Play without a Stop it is triggered at the tick's time. With no command it is unchanged. |
| `Trigger.SameTickStop` | GesturesDemo/ContentView.swift:289-313 | A trigger whose previous update is more than 19 s old issues Play then Stop in the same tick and ends idle at that tick's time. |
| `Trigger.StepAlternates` | GesturesDemo/ContentView.swift:296-313 | One tick's commands continue the Play/Stop alternation from its starting flag, and the new flag is the old one toggled once per command. |
| `Trigger.AppendTickAlternates` | GesturesDemo/ContentView.swift:296-313 | A tick's commands extend a Play/Stop-alternating log that started idle, and the flag after the tick is set exactly when the extended log ends in Play. This is the view's invariant across `RenderLoop`. |
| `Trigger.RunAppend` | GesturesDemo/ContentView.swift:287-315 | Ticks over two batches of readings give the same final state and command stream as running the batches one after the other. |
| `Trigger.RunAlternates` | GesturesDemo/ContentView.swift:296-313 | Over any sequence of readings, Play and Stop strictly alternate, starting with Stop if the view starts triggered. The final flag is the initial one toggled once per command. |
| `Trigger.PlaysSeparatedByStop` | GesturesDemo/ContentView.swift:296-313 | In an alternating command stream (every run's, and the view's log), any two Plays have a Stop between them. |
| `Trigger.StaysTriggered` | GesturesDemo/ContentView.swift:289-313 | Triggered at t0, the view issues nothing and keeps its state through any readings at most 19 s after t0, whatever their levels. |
| `Trigger.ResetsAfterWindow` | GesturesDemo/ContentView.swift:308-313 | After such readings, the first tick more than 19 s after t0 issues exactly Stop and leaves the view idle at that tick's time. |
| `Trigger.ThresholdIsStrict` | GesturesDemo/ContentView.swift:296 | From idle and within the window, a reading of exactly -6.0 dB issues nothing and leaves the state unchanged, while -5.99 dB plays and triggers at that tick's time. |
| `Trigger.ScenarioPlaysOnce` | GesturesDemo/ContentView.swift:296-300 | Readings -10, -7, -5.9, -6.0, -3 dB one second apart, starting idle at time 0, issue exactly one Play, at -5.9 dB. The view ends triggered at time 2; the later -6.0 and -3 dB readings are debounced. |
| `Rotation.ComposeCommutes` | GesturesDemo/ContentView.swift:303 | Two rotations about the z axis compose to the same orientation in either order. |
| `Rotation.GestureDirection` | GesturesDemo/ContentView.swift:219-220 | A drag leaves the π part unchanged. A rightward drag lowers the angle, a leftward drag raises it, and a zero drag changes nothing. |
| `Rotation.TwoGesturesAsOne` | GesturesDemo/ContentView.swift:219-220 | Drags dx1 then dx2 give the orientation of one drag of dx1 + dx2. |
| `Rotation.GesturesAsOne` | GesturesDemo/ContentView.swift:216-221 | Any sequence of drags gives the orientation of a single drag by the sum of the deltas. |
| `Rotation.TickRotationsCount` | GesturesDemo/ContentView.swift:302-304 | Over any run of ticks, the orientation changes by exactly -π/6 per tick that reported playing and by nothing else. |
| `ARView.SimpleARView.constructor` | GesturesDemo/ContentView.swift:93-105 | A new view is untriggered. Its last update time is the creation time. It has no anchor, nothing in the scene, and the identity orientation. |
| `ARView.SimpleARView.NewAnchor` | GesturesDemo/ContentView.swift:273-274 | Creates an anchor whose id is not in the scene yet, with the given children, and adds it to the scene. |
| `ARView.SimpleARView.SetupEntities` | GesturesDemo/ContentView.swift:243-262 | Installs a new anchor in the scene with the stick and the pinwheels as children, and sets the pinwheel orientation to the identity. The trigger fields are unchanged. |
| `ARView.SimpleARView.ResetPlaneAnchor` | GesturesDemo/ContentView.swift:269-274 | Removes the old anchor from the scene. Installs a new anchor with an id different from the old one and no children. Leaves the trigger fields, the orientation and the audio log unchanged. |
| `ARView.SimpleARView.SpinWheels` | GesturesDemo/ContentView.swift:223-227 | Changes none of the modelled state: it has no modifies clause, and its ensures restate that the trigger fields, orientation, anchor, scene and id counter are unchanged. |
| `ARView.SimpleARView.ProcessUISignal` | GesturesDemo/ContentView.swift:195-203 | ResetAnchor removes the old anchor from the scene and installs a new, childless anchor that was not in the scene. Spin leaves the anchor, the scene and the id counter unchanged. Neither signal touches the trigger fields or the orientation. |
| `ARView.SimpleARView.TouchesMoved` | GesturesDemo/ContentView.swift:216-221 | With a touch, turns the orientation by (x - previous x) * -0.01 about z. Without one, changes nothing. |
| `ARView.SimpleARView.RenderLoop` | GesturesDemo/ContentView.swift:287-315 | The new trigger fields and the commands issued are those of `Step` on the old fields. The orientation turns by -π/6 exactly when playing is reported. The command log grows by exactly the commands issued and keeps its Play/Stop alternation with the flag. The anchor is untouched. |

## Left out

- Microphone setup, the recording session and the recorder's metering. The
  averaged power for channel 0 is an input to `RenderLoop`. If the recorder
  could not be created, the code returns early and the first frame would crash
  on the missing recorder. That crash is not modelled.
- Audio playback. What the audio controller's `isPlaying` reports from frame
  to frame is an input to `RenderLoop`. Loading the audio resource, and a nil
  controller after a failed load, are not modelled.
- Quaternions and Float rounding. Orientation is an exact real angle about
  the single z axis. `Float` and `CGFloat` arithmetic is modelled as exact real
  arithmetic.
- Session setup, plane detection, render options and the event subscriptions
  are platform configuration.
- Asset loading, scale and position of the entities, collision shapes and the
  physics body are foreign rendering calls. `SetupEntities` keeps only the anchor,
  its children and the orientation reset.
- The angular impulse of `spinWheels` belongs to the physics engine. `SpinWheels`
  is a no-op on the modelled state.
- Tap hit-testing and the collision log only print.
- The SwiftUI views and the commented-out buttons and `PinWheelBlades` class
  are not live logic.
- The pinwheel entity and the audio controller exist only after
  `SetupEntities` has loaded them. Before that, a drag or a frame would crash on
  the missing entity or controller. The model gives a new view the identity
  orientation from construction and does not model that crash.
- Identity of anchors is modelled by a counter that hands out ids never used
  before. Anchor poses are not modelled.
