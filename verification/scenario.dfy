/** A full session of the component: the pass in which the viewer first
    exists fires every binding, and later passes fire only the bindings whose
    props changed. The session below mounts with a skin and a size, then
    turns on the slim model and a cape, and then switches the animation from
    walking to running to none. */
module Scenario {
  import opened JsValues
  import opened Animations
  import opened Engine
  import opened Bindings
  import opened Lifecycle
  import opened Events

  /** The props the component receives, as passed. */
  datatype Props = Props(
    skin: Option<Source>,
    isSlim: Option<bool>,
    cape: Option<Source>,
    width: Option<Number>,
    height: Option<Number>,
    settings: Settings,
    animation: Option<AnimationRef>)

  /** The bindings in declaration order, each with its slice of `p`. */
  function BindingEvents(p: Props): seq<Event>
  {
    [ SkinChanged(p.skin, p.isSlim),
      CapeChanged(p.cape),
      SizeChanged(p.width, p.height),
      SettingsChanged(p.settings),
      AnimationChanged(p.animation) ]
  }

  /** The notifications from mounting with props `p`: the creating effect,
      then every binding, since each one watches the viewer (or controls)
      that has just appeared. */
  function MountEvents(p: Props, d: EngineDefaults): seq<Event>
  {
    [Mounted(p.width, p.height, d)] + BindingEvents(p)
  }

  const SkinA: Source := Url("A.png")
  const CapeB: Source := Url("B.png")
  const W: Option<Number> := Some(Finite(100.0))
  const H: Option<Number> := Some(Finite(200.0))
  const NoSettings: Settings := Settings(None, None, None, None, None)

  /** The props of the session's first render. */
  const FirstProps: Props := Props(Some(SkinA), None, None, W, H, NoSettings, None)

  /** Mounting: one creation sized (100, 200), the skin with an
      auto-detected model, a cape reset although no cape is given, a resize,
      the flags and playback, and a detach on the still-empty track. */
  lemma MountTrace(d: EngineDefaults)
    ensures Replay(Initial, MountEvents(FirstProps, d)).log ==
      [ Construct(W, H), CreateControls,
        LoadSkin(SkinA, AutoDetect), ResetCape, SetSize(W.value, H.value),
        SetRotate(false), SetZoom(false), SetPan(false),
        SetSpeed(Finite(0.5)), SetPaused(false),
        ResetAnimations ]
  {
    MountRunsEveryBinding(FirstProps, d);
    var h3 := SyncSize(SyncCape(SyncSkin(Mount(Initial, W, H, d), Some(SkinA), None), None), W, H);
    MountTraceFront(d);
    DefaultSettingsCalls(h3);
  }

  /** With no flag, speed or paused prop, every flag is switched off and the
      track runs at 0.5, unpaused. */
  lemma DefaultSettingsCalls(h: Host)
    requires h.viewer.Some? && h.controls.Some?
    ensures SyncSettings(h, NoSettings).log == h.log + [SetRotate(false), SetZoom(false), SetPan(false),
                                                        SetSpeed(Finite(0.5)), SetPaused(false)]
  {
  }

  /** The first three bindings of the mount pass. */
  lemma MountTraceFront(d: EngineDefaults)
    ensures var h := SyncSize(SyncCape(SyncSkin(Mount(Initial, W, H, d), Some(SkinA), None), None), W, H);
      && h.log == [Construct(W, H), CreateControls, LoadSkin(SkinA, AutoDetect), ResetCape, SetSize(W.value, H.value)]
      && h.viewer.Some? && h.controls.Some?
  {
    var h0 := Mount(Initial, W, H, d);
    assert h0.log == [Construct(W, H), CreateControls];
    var h1 := SyncSkin(h0, Some(SkinA), None);
    assert h1.log == [Construct(W, H), CreateControls, LoadSkin(SkinA, AutoDetect)];
    var h2 := SyncCape(h1, None);
    assert h2.log == [Construct(W, H), CreateControls, LoadSkin(SkinA, AutoDetect), ResetCape];
  }

  /** After mounting, the viewer wears the skin with an auto-detected model,
      has no cape, is sized (100, 200), has an empty track at speed 0.5, not
      paused, and every camera flag is off. */
  lemma MountState(d: EngineDefaults)
    ensures Replay(Initial, MountEvents(FirstProps, d)).viewer ==
      Some(Viewer(LoadedSkin(SkinA, AutoDetect), NoCape, W, H, Track([], Finite(0.5), false)))
    ensures Replay(Initial, MountEvents(FirstProps, d)).controls == Some(Controls(false, false, false))
  {
    MountRunsEveryBinding(FirstProps, d);
    var h0 := Mount(Initial, W, H, d);
    var h1 := SyncSkin(h0, Some(SkinA), None);
    assert h1.viewer.value == Viewer(LoadedSkin(SkinA, AutoDetect), NoCape, W, H, Track([], d.speed, d.paused));
    var h2 := SyncCape(h1, None);
    var h3 := SyncSize(h2, W, H);
    assert h3.viewer == h1.viewer;
    var h4 := SyncSettings(h3, NoSettings);
    assert h4.viewer.value == Viewer(LoadedSkin(SkinA, AutoDetect), NoCape, W, H, Track([], Finite(0.5), false));
  }

  /** Mounting creates the viewer and controls, then runs every binding
      once, in declaration order, on the props as given. */
  lemma MountRunsEveryBinding(p: Props, d: EngineDefaults)
    ensures Replay(Initial, MountEvents(p, d)) ==
      SyncAnimation(SyncSettings(SyncSize(SyncCape(SyncSkin(Mount(Initial, p.width, p.height, d),
        p.skin, p.isSlim), p.cape), p.width, p.height), p.settings), p.animation)
  {
    var es := MountEvents(p, d);
    ReplayFront(Initial, es);
    assert es[1..] == BindingEvents(p);
    BindingPass(Mount(Initial, p.width, p.height, d), p);
  }

  lemma BindingPass(h: Host, p: Props)
    ensures Replay(h, BindingEvents(p)) ==
      SyncAnimation(SyncSettings(SyncSize(SyncCape(SyncSkin(h, p.skin, p.isSlim), p.cape), p.width, p.height), p.settings), p.animation)
  {
    var es := BindingEvents(p);
    var h1 := SyncSkin(h, p.skin, p.isSlim);
    var h2 := SyncCape(h1, p.cape);
    ReplayFront(h, es);
    ReplayFront(h1, es[1..]);
    assert es[1..][1..] == es[2..];
    BindingPassTail(h2, p);
  }

  lemma BindingPassTail(h: Host, p: Props)
    ensures Replay(h, BindingEvents(p)[2..]) ==
      SyncAnimation(SyncSettings(SyncSize(h, p.width, p.height), p.settings), p.animation)
  {
    var es := BindingEvents(p)[2..];
    var h1 := SyncSize(h, p.width, p.height);
    var h2 := SyncSettings(h1, p.settings);
    ReplayFront(h, es);
    ReplayFront(h1, es[1..]);
    ReplayFront(h2, es[1..][1..]);
    assert es[1..][1..][1..] == [];
  }

  /** The later passes: slim model and cape, then walk, run, and no
      animation. Each attach is preceded by exactly one detach, the switch
      from walk to run included, and removing the animation detaches once
      and attaches nothing. */
  lemma UpdateTrace(h: Host)
    requires h.viewer.Some?
    ensures var h1 := Dispatch(Dispatch(h, SkinChanged(Some(SkinA), Some(true))), CapeChanged(Some(CapeB)));
      h1.log == h.log + [LoadSkin(SkinA, Slim), LoadCape(CapeB)]
    ensures var h2 := Dispatch(h, AnimationChanged(Some(Named(Walk))));
      && h2.log == h.log + [ResetAnimations, AddAnimation(Builtin(WalkingAnimation))]
      && h2.viewer.value.track.active == [Builtin(WalkingAnimation)]
    ensures var h3 := Dispatch(h, AnimationChanged(Some(Named(Run))));
      && h3.log == h.log + [ResetAnimations, AddAnimation(Builtin(RunningAnimation))]
      && h3.viewer.value.track.active == [Builtin(RunningAnimation)]
    ensures var h4 := Dispatch(h, AnimationChanged(None));
      && h4.log == h.log + [ResetAnimations]
      && h4.viewer.value.track.active == []
  {
    var h0 := Dispatch(h, SkinChanged(Some(SkinA), Some(true)));
    assert h0.log == h.log + [LoadSkin(SkinA, Slim)];
  }
}
