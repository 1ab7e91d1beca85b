/** The creating effect and its cleanup: the viewer and its controls are made
    once per mounted component and the rendering context is released once,
    when the component goes away. */
module Lifecycle {
  import opened JsValues
  import opened Engine

  /** What a freshly built viewer and orbit controls hold before any binding
      has run; these are the rendering library's own defaults, not fixed by
      the component. */
  datatype EngineDefaults = EngineDefaults(speed: Number, paused: bool, controls: Controls)

  /** A component before its creating effect has run. */
  const Initial: Host := Host(None, None, Pending, [])

  /** The viewer built for the mount-time `width` and `height`: default skin,
      no cape, nothing on the track. */
  function FreshViewer(width: Option<Number>, height: Option<Number>, d: EngineDefaults): Viewer
  {
    Viewer(DefaultSkin, NoCape, width, height, Track([], d.speed, d.paused))
  }

  /** The creating effect: it runs once per component (its dependency list is
      empty), building the viewer for the current size and then its controls.
      On a component whose effect has already run it changes nothing. */
  function Mount(h: Host, width: Option<Number>, height: Option<Number>, d: EngineDefaults): (h': Host)
    ensures h.context != Pending ==> h' == h
    ensures h.context == Pending ==>
      && h'.context == Live
      && h'.log == h.log + [Construct(width, height), CreateControls]
      && h'.viewer == Some(FreshViewer(width, height, d))
      && h'.controls == Some(d.controls)
  {
    if h.context != Pending then h
    else Host(Some(FreshViewer(width, height, d)), Some(d.controls), Live, h.log + [Construct(width, height), CreateControls])
  }

  /** Unmounting: the cleanup closure exists only if the creating effect ran,
      and then forces the loss of that viewer's rendering context exactly
      once. Either way the component's handles are gone. */
  function Unmount(h: Host): (h': Host)
    ensures h'.viewer.None? && h'.controls.None? && h'.context == Gone
    ensures h.context == Live ==> h'.log == h.log + [ForceContextLoss]
    ensures h.context != Live ==> h'.log == h.log
  {
    var log := if h.context == Live then h.log + [ForceContextLoss] else h.log;
    Host(None, None, Gone, log)
  }

  /** Creation happens once: a second run of the creating effect is inert. */
  lemma MountIsIdempotent(h: Host, width: Option<Number>, height: Option<Number>, d: EngineDefaults,
                          width': Option<Number>, height': Option<Number>, d': EngineDefaults)
    ensures Mount(Mount(h, width, height, d), width', height', d') == Mount(h, width, height, d)
  {
  }

  /** Release happens once: unmounting twice issues no second release, and a
      component unmounted before creation issues no call at all. */
  lemma ReleaseIsIssuedOnce(h: Host)
    ensures Unmount(Unmount(h)) == Unmount(h)
    ensures h.context == Pending ==> Unmount(h).log == h.log
  {
  }
}
