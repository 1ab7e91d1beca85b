/** The rendering engine seen as an abstract state: the viewer and its
    camera controls, the calls the component issues on them, what each call
    does to that state, and the host that owns both handles and records every
    call in order. */
module Engine {
  import opened JsValues
  import opened Animations

  /** Body-model variant passed to `loadSkin`: 'default', 'slim' or 'auto-detect'. */
  datatype ModelType = Default | Slim | AutoDetect

  datatype SkinState = DefaultSkin | LoadedSkin(source: Source, model: ModelType)

  datatype CapeState = NoCape | LoadedCape(source: Source)

  /** `viewer.animations`: the behaviours attached to the track, the playback
      speed multiplier and the paused flag. */
  datatype Track = Track(active: seq<Behaviour>, speed: Number, paused: bool)

  datatype Viewer = Viewer(
    skin: SkinState,
    cape: CapeState,
    width: Option<Number>,
    height: Option<Number>,
    track: Track)

  /** The camera-interaction flags of the orbit controls. */
  datatype Controls = Controls(enableRotate: bool, enableZoom: bool, enablePan: bool)

  /** One imperative call into the engine, as it appears in the call log. */
  datatype Call =
    | Construct(initialWidth: Option<Number>, initialHeight: Option<Number>)
    | CreateControls
    | ForceContextLoss
    | LoadSkin(skin: Source, model: ModelType)
    | ResetSkin
    | LoadCape(cape: Source)
    | ResetCape
    | SetSize(width: Number, height: Number)
    | ResetAnimations
    | AddAnimation(behaviour: Behaviour)
    | SetSpeed(speed: Number)
    | SetPaused(paused: bool)
    | SetRotate(enabled: bool)
    | SetZoom(enabled: bool)
    | SetPan(enabled: bool)
  {
    /** Creation and release of the rendering context, as opposed to updates. */
    predicate IsLifecycle()
    {
      Construct? || CreateControls? || ForceContextLoss?
    }
  }

  /** The effect of an update call on the viewer; other calls leave it alone.
      A load records the texture requested: when an asynchronous fetch
      completes is the library's concern and is not part of this state. */
  function StepViewer(v: Viewer, c: Call): Viewer
  {
    match c
    case LoadSkin(s, m) => v.(skin := LoadedSkin(s, m))
    case ResetSkin => v.(skin := DefaultSkin)
    case LoadCape(s) => v.(cape := LoadedCape(s))
    case ResetCape => v.(cape := NoCape)
    case SetSize(w, h) => v.(width := Some(w), height := Some(h))
    case ResetAnimations => v.(track := v.track.(active := []))
    case AddAnimation(b) => v.(track := v.track.(active := v.track.active + [b]))
    case SetSpeed(x) => v.(track := v.track.(speed := x))
    case SetPaused(p) => v.(track := v.track.(paused := p))
    case _ => v
  }

  /** The effect of a flag assignment on the controls; other calls leave them alone. */
  function StepControls(k: Controls, c: Call): Controls
  {
    match c
    case SetRotate(b) => k.(enableRotate := b)
    case SetZoom(b) => k.(enableZoom := b)
    case SetPan(b) => k.(enablePan := b)
    case _ => k
  }

  /** Where the rendering context is in its life: not yet created, live, or
      gone with the component. */
  datatype Context = Pending | Live | Gone

  /** One mounted component: its `viewer` and `controls` state (absent until
      the creating effect has run), the context phase and the call log. */
  datatype Host = Host(
    viewer: Option<Viewer>,
    controls: Option<Controls>,
    context: Context,
    log: seq<Call>)

  /** Issues one call: it is logged and applied to whichever handles exist. */
  function Perform(h: Host, c: Call): Host
  {
    Host(
      if h.viewer.Some? then Some(StepViewer(h.viewer.value, c)) else None,
      if h.controls.Some? then Some(StepControls(h.controls.value, c)) else None,
      h.context,
      h.log + [c])
  }
}
