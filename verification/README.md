# SkinViewer synchronisation layer, modelled in Dafny

`SkinViewer` is a React component that shows a 3D Minecraft-style character
through the skinview3d library. The component builds one viewer and one set of
orbit controls when it mounts. After that it keeps them in step with its props
through a handful of effects. Each effect watches a slice of props and makes
imperative calls on the viewer:

- the skin and slim flag;
- the cape;
- the width and height;
- the camera flags and the animation speed and paused state;
- the animation.

This project models that layer. The viewer and controls are an abstract state.
Every call the component makes is appended to a call log. A small interpreter
gives each call its effect on that state. Each effect body is one pure function
from the host state and its prop slice to a new host state.

Modules, one file each:

- `JsValues` (`js_values.dfy`): optional props, JavaScript numbers and texture
  sources, with their truthiness and `Boolean(...)` coercion.
- `Animations` (`animations.dfy`): the `Animation` enum, the
  `animationTemplates` registry, and how the `animation` prop resolves to a
  behaviour.
- `Engine` (`engine.dfy`): the abstract viewer, the controls, the animation
  track, the `Call` log entries, and the `Host`. The `Host` holds the
  `viewer`/`controls` state, the phase of the rendering context and the log.
- `Bindings` (`bindings.dfy`): one function per prop effect, plus
  `resetAnimation`.
- `Lifecycle` (`lifecycle.dfy`): the creating effect and its cleanup.
- `Events` (`events.dfy`): a stream of notifications (mount, unmount, one
  prop-slice change per binding) and the invariants every reachable host keeps.
  Also the convergence theorem: each input group ends in the state its latest
  value alone would produce. For the skin and cape, that state is the texture
  last requested; when asynchronous loads complete is not modelled.
- `Scenario` (`scenario.dfy`): a complete session, from mounting through
  prop updates to animation switches, with its exact call trace.

The caller supplies the order in which effects fire. The theorems in `Events`
hold for every order.

## Model

| member | source | states |
|---|---|---|
| `JsValues.ToBoolean` | src/index.tsx:151-158 | `Boolean(flag)` is true exactly when the flag is present and `true`, so an absent flag is off |
| `Animations.RegistryMatchesEnum` | src/index.tsx:16-22 | the registry has exactly five keys, one per enum string, so a lookup by any enum member succeeds. Each name maps to its own template: idle to IdleAnimation, walk to WalkingAnimation, and so on |
| `Animations.Resolve` | src/index.tsx:170-178 | a string reference resolves through the registry to its name's template. A behaviour object is added as it is, without the registry |
| `Bindings.ResolveModel` | src/index.tsx:112-118 | `isSlim` true gives "slim", false gives "default", absent gives "auto-detect", each in both directions |
| `Bindings.SyncSkin` | src/index.tsx:107-125 | without a viewer: no call and no change. With a viewer and a truthy source: exactly one `loadSkin(skin, variant)` and no reset. With a falsy or absent source: exactly one `resetSkin()` and no load. Only the skin changes |
| `Bindings.SyncCape` | src/index.tsx:127-139 | without a viewer: no call. A truthy cape gives exactly one `loadCape(cape)` and no reset. Otherwise exactly one `resetCape()`. Only the cape changes |
| `Bindings.SyncSize` | src/index.tsx:141-147 | a call is made if and only if the viewer exists and both dimensions are truthy, and that call is `setSize(width, height)`. Otherwise nothing changes, so the previous size stays |
| `Bindings.EffectiveSpeed` | src/index.tsx:75 | an absent `animationSpeed` becomes 0.5. A given one, including 0 or NaN, is kept |
| `Bindings.SyncFlags` | src/index.tsx:150-154 | only with controls: rotate, zoom and pan are each set, in that order, to whether their prop is `true`. Without controls, nothing happens. The viewer is untouched |
| `Bindings.SyncPlayback` | src/index.tsx:156-159 | only with a viewer: the track's speed becomes the effective speed and paused becomes whether `paused` is `true`. The active behaviours are untouched |
| `Bindings.SyncSettings` | src/index.tsx:149-160 | the flags follow the controls and playback follows the viewer, each guarded separately. Without either, the host is unchanged |
| `Bindings.ResetAnimation` | src/index.tsx:81-87 | without a viewer: no call. With one: exactly one track reset, which leaves the track empty |
| `Bindings.SyncAnimation` | src/index.tsx:162-184 | without a viewer: no call. A present reference gives a reset strictly before exactly one add of the resolved behaviour. An absent one gives a reset and no add. Afterwards the track holds exactly that one behaviour, or none |
| `Lifecycle.Mount` | src/index.tsx:89-100 | the first run creates the viewer at the mount-time size and then its controls, with a default skin, no cape and an empty track. Any later run changes nothing |
| `Lifecycle.Unmount` | src/index.tsx:102-104 | the context is released by exactly one `forceContextLoss` if the creating effect ran, and by no call otherwise. Either way the handles are gone |
| `Lifecycle.MountIsIdempotent` | src/index.tsx:89-105 | creation happens once per component: running the creating effect again changes nothing |
| `Lifecycle.ReleaseIsIssuedOnce` | src/index.tsx:102-104 | unmounting twice releases once. Unmounting before creation issues no call |
| `Events.DispatchPreservesValid` | src/index.tsx:81-184 | every notification keeps the invariant: handles exist exactly while the context is live, the track holds at most one behaviour, every add directly follows a reset, and the log has its lifecycle shape |
| `Events.ReplayPreservesValid` | src/index.tsx:81-184 | the invariant holds after any sequence of notifications |
| `Events.LifecycleCallsAreUnique` | src/index.tsx:89-105 | in a valid log the viewer is created at most once, as the first call. The context is released at most once, as the last call, and only once the component is gone |
| `Events.DetachPrecedesEveryAttach` | src/index.tsx:162-184 | in every log reachable from mounting, each `add` comes right after a `reset`, and the track never holds two behaviours |
| `Events.NotReadyIsInert` | src/index.tsx:107-165 | while neither viewer nor controls exist, any sequence of prop changes issues no call and changes nothing |
| `Events.ReleasedIsFinal` | src/index.tsx:102-104 | after release, no notification issues a call or changes anything |
| `Events.DispatchKeepsOtherSlices` | src/index.tsx:107-184 | a change to one input group leaves every other group's engine state alone. A partial resize leaves everything alone |
| `Events.DispatchForgetsPast` | src/index.tsx:107-184 | an overwriting change leaves its group in a state independent of what the group held before |
| `Events.ReplayKeepsSlice` | src/index.tsx:107-184 | a run of changes that does not overwrite a group keeps that group's state and keeps both handles present or absent |
| `Events.LatestValueWins` | src/index.tsx:107-184 | after any run of prop changes on a ready viewer, each group's state is what its last overwriting change alone produces, whatever came before. For the skin and cape this is the texture last requested |
| `Scenario.MountRunsEveryBinding` | src/index.tsx:89-184 | mounting creates the viewer and controls, then runs every binding once, in declaration order, on the props as given |
| `Scenario.MountTrace` | src/index.tsx:89-184 | mounting with skin "A.png" at 100x200 issues exactly: creation, controls, `loadSkin(A, auto-detect)`, `resetCape`, `setSize(100, 200)`, three flags off, speed 0.5, unpaused, and a track reset |
| `Scenario.MountState` | src/index.tsx:89-184 | after that mount the viewer wears A with an auto-detected model, has no cape, is 100x200, has an empty track at 0.5 and not paused, and every camera flag is off |
| `Scenario.DefaultSettingsCalls` | src/index.tsx:149-160 | with no flag, speed or paused prop, every flag is switched off and the track runs at 0.5, unpaused |
| `Scenario.UpdateTrace` | src/index.tsx:107-184 | slim plus cape gives `loadSkin(A, slim)` then `loadCape(B)`. Walk, run and no animation give reset+add(walking), reset+add(running) and a lone reset |

## Behaviour worth noting

- `Bindings.SyncAnimation` emits a reset whenever a viewer exists, even when
  the track is idle and even when no animation is given
  (src/index.tsx:167-168, 183).
- When the viewer first appears, every effect that watches it runs. So the
  cape effect calls `resetCape()` even with no cape prop (src/index.tsx:127-138),
  and the resize, flag/playback and animation effects issue their calls too.
  `Scenario.MountTrace` gives the exact trace.
- A resize with a missing, zero or NaN dimension issues no call and keeps the
  previous size (src/index.tsx:142-146). So for the size group, the last
  *complete* resize wins. `Events.LatestValueWins` states this.
- The cleanup exists only if the creating effect ran, and it closes over the
  viewer that effect built (src/index.tsx:89-104). `Lifecycle.Unmount`
  therefore releases exactly when the context is live and issues no call
  otherwise.

## Left out

- React runtime: `useState`/`useRef`, effect scheduling and dependency
  comparison are not modelled. Each effect is a function that runs when its
  prop slice changes, and the caller gives the order. In the model, the state
  change from `setViewer`/`setControls` is visible at once. In React it is
  visible on the next render, when every effect that watches the viewer runs
  again (`Scenario.MountEvents`).
- React StrictMode's development-only remount (effect, cleanup, effect) is not
  modelled. In the model, a component that has unmounted stays gone.
- JSX output (src/index.tsx:186-197): the `div` with its merged `style`, the
  spread `...rest`, and the `canvas`. These are UI only.
- Library internals: texture fetch and decode, WebGL, what `forceContextLoss`
  does, orbit-control pointer math, and animation motion. Each library call is
  an opaque log entry. `StepViewer`/`StepControls` give the assumed effect: a
  track reset clears the attached behaviours and keeps speed and paused, an add
  attaches one more behaviour, and loads and resets replace the skin or cape
  at once, as the texture requested.
- The initial values a new viewer and controls hold (track speed, paused, the
  three camera flags) belong to the library. They are a parameter
  (`EngineDefaults`) of `Lifecycle.Mount`.
- `onReady` (src/index.tsx:72) is declared but never invoked. It is not
  destructured at line 75, so it only reaches the `div` through `...rest`. No
  ready callback is modelled.
- Unknown animation names cannot be represented: the reference holds an
  `AnimationName`, matching the non-null assertion at src/index.tsx:171.
- Texture loads that finish after unmount are the library's concern. They are
  not modelled.
- Events.LatestValueWins: the skin and cape state are the last texture
  *requested*. `loadSkin`/`loadCape` with a URL fetch asynchronously
  (src/index.tsx:120-124, 132-138), and the order in which loads complete is
  not modelled. So a stale load that finishes after a later load or reset is
  outside the model, and whether the library drops it cannot be seen here.
- Infinity and -0 are not represented, and neither are `null` props, which
  the prop types exclude. Infinity is truthy like any non-zero `Finite` value,
  and -0 is falsy like `Finite(0.0)`, so no branch of the component is lost.
