/** The prop bindings of the SkinViewer component: one function per effect
    body, each taking the host and the slice of props the effect watches.
    Every binding first checks that the handle it needs exists and does
    nothing at all otherwise. */
module Bindings {
  import opened JsValues
  import opened Animations
  import opened Engine

  /** The body-model variant for the tri-state `isSlim` prop. */
  function ResolveModel(isSlim: Option<bool>): (m: ModelType)
    ensures m == Slim <==> isSlim == Some(true)
    ensures m == Default <==> isSlim == Some(false)
    ensures m == AutoDetect <==> isSlim.None?
  {
    match isSlim
    case None => AutoDetect
    case Some(slim) => if slim then Slim else Default
  }

  /** The skin the viewer wears once the skin binding has run. */
  function SkinFor(skin: Option<Source>, isSlim: Option<bool>): SkinState
  {
    if IsTruthySource(skin) then LoadedSkin(skin.value, ResolveModel(isSlim)) else DefaultSkin
  }

  /** Skin binding: load a truthy source with the resolved variant, otherwise
      fall back to the engine's default skin. */
  function SyncSkin(h: Host, skin: Option<Source>, isSlim: Option<bool>): (h': Host)
    ensures h.viewer.None? ==> h' == h
    ensures h.viewer.Some? && IsTruthySource(skin) ==>
      h'.log == h.log + [LoadSkin(skin.value, ResolveModel(isSlim))]
    ensures h.viewer.Some? && !IsTruthySource(skin) ==> h'.log == h.log + [ResetSkin]
    ensures h.viewer.Some? ==> h'.viewer == Some(h.viewer.value.(skin := SkinFor(skin, isSlim)))
    ensures h'.controls == h.controls && h'.context == h.context
  {
    if h.viewer.None? then h
    else
      var model := ResolveModel(isSlim);
      if IsTruthySource(skin) then Perform(h, LoadSkin(skin.value, model))
      else Perform(h, ResetSkin)
  }

  /** The cape the viewer shows once the cape binding has run. */
  function CapeFor(cape: Option<Source>): CapeState
  {
    if IsTruthySource(cape) then LoadedCape(cape.value) else NoCape
  }

  /** Cape binding: load a truthy source and stop there, otherwise remove the cape. */
  function SyncCape(h: Host, cape: Option<Source>): (h': Host)
    ensures h.viewer.None? ==> h' == h
    ensures h.viewer.Some? && IsTruthySource(cape) ==> h'.log == h.log + [LoadCape(cape.value)]
    ensures h.viewer.Some? && !IsTruthySource(cape) ==> h'.log == h.log + [ResetCape]
    ensures h.viewer.Some? ==> h'.viewer == Some(h.viewer.value.(cape := CapeFor(cape)))
    ensures h'.controls == h.controls && h'.context == h.context
  {
    if h.viewer.None? then h
    else if IsTruthySource(cape) then Perform(h, LoadCape(cape.value))
    else Perform(h, ResetCape)
  }

  /** Resize binding: only a viewer with two truthy dimensions is resized;
      anything else is a no-op that keeps the previous size. */
  function SyncSize(h: Host, width: Option<Number>, height: Option<Number>): (h': Host)
    ensures h'.log != h.log <==> h.viewer.Some? && IsTruthyNumber(width) && IsTruthyNumber(height)
    ensures !(h.viewer.Some? && IsTruthyNumber(width) && IsTruthyNumber(height)) ==> h' == h
    ensures h.viewer.Some? && IsTruthyNumber(width) && IsTruthyNumber(height) ==>
      && h'.log == h.log + [SetSize(width.value, height.value)]
      && h'.viewer == Some(h.viewer.value.(width := width, height := height))
    ensures h'.controls == h.controls && h'.context == h.context
  {
    if h.viewer.None? || !IsTruthyNumber(width) || !IsTruthyNumber(height) then h
    else Perform(h, SetSize(width.value, height.value))
  }

  /** The props read by the controls-and-playback effect, as passed (absent
      when the caller left them out). */
  datatype Settings = Settings(
    enableRotate: Option<bool>,
    enableZoom: Option<bool>,
    enablePan: Option<bool>,
    animationSpeed: Option<Number>,
    paused: Option<bool>)

  /** The default of the `animationSpeed` prop. */
  const DefaultAnimationSpeed: Number := Finite(0.5)

  /** The speed in effect: the prop when given (0 and NaN included), 0.5 when absent. */
  function EffectiveSpeed(animationSpeed: Option<Number>): (r: Number)
    ensures animationSpeed.None? ==> r == Finite(0.5)
    ensures animationSpeed.Some? ==> r == animationSpeed.value
  {
    animationSpeed.GetOr(DefaultAnimationSpeed)
  }

  /** The flag assignments, in source order, when the controls exist. */
  function FlagCalls(ready: bool, s: Settings): seq<Call>
  {
    if ready then
      [SetRotate(ToBoolean(s.enableRotate)), SetZoom(ToBoolean(s.enableZoom)), SetPan(ToBoolean(s.enablePan))]
    else []
  }

  /** The playback assignments when the viewer exists. */
  function PlaybackCalls(ready: bool, s: Settings): seq<Call>
  {
    if ready then [SetSpeed(EffectiveSpeed(s.animationSpeed)), SetPaused(ToBoolean(s.paused))] else []
  }

  /** First half of the controls-and-playback effect: each camera flag is on
      exactly when its prop is `true`, and only if the controls exist. */
  function SyncFlags(h: Host, s: Settings): (h': Host)
    ensures h'.log == h.log + FlagCalls(h.controls.Some?, s)
    ensures h.controls.None? ==> h' == h
    ensures h.controls.Some? ==>
      h'.controls == Some(Controls(s.enableRotate == Some(true), s.enableZoom == Some(true), s.enablePan == Some(true)))
    ensures h'.viewer == h.viewer && h'.context == h.context
  {
    if h.controls.None? then h
    else
      var h1 := Perform(h, SetRotate(ToBoolean(s.enableRotate)));
      var h2 := Perform(h1, SetZoom(ToBoolean(s.enableZoom)));
      Perform(h2, SetPan(ToBoolean(s.enablePan)))
  }

  /** Second half: speed (0.5 when absent) and paused (off when absent) are set
      on the track, whichever behaviour it holds, only if the viewer exists. */
  function SyncPlayback(h: Host, s: Settings): (h': Host)
    ensures h'.log == h.log + PlaybackCalls(h.viewer.Some?, s)
    ensures h.viewer.None? ==> h' == h
    ensures h.viewer.Some? ==>
      var v := h.viewer.value;
      h'.viewer == Some(v.(track := v.track.(speed := EffectiveSpeed(s.animationSpeed), paused := s.paused == Some(true))))
    ensures h'.controls == h.controls && h'.context == h.context
  {
    if h.viewer.None? then h
    else Perform(Perform(h, SetSpeed(EffectiveSpeed(s.animationSpeed))), SetPaused(ToBoolean(s.paused)))
  }

  /** The controls-and-playback effect: the two halves are guarded separately,
      so the flags follow the controls and playback follows the viewer. */
  function SyncSettings(h: Host, s: Settings): (h': Host)
    ensures h'.log == h.log + FlagCalls(h.controls.Some?, s) + PlaybackCalls(h.viewer.Some?, s)
    ensures h.controls.None? && h.viewer.None? ==> h' == h
    ensures h.controls.None? ==> h'.controls.None?
    ensures h.controls.Some? ==>
      h'.controls == Some(Controls(s.enableRotate == Some(true), s.enableZoom == Some(true), s.enablePan == Some(true)))
    ensures h.viewer.None? ==> h'.viewer.None?
    ensures h.viewer.Some? ==>
      var v := h.viewer.value;
      h'.viewer == Some(v.(track := v.track.(speed := EffectiveSpeed(s.animationSpeed), paused := s.paused == Some(true))))
    ensures h'.context == h.context
  {
    SyncPlayback(SyncFlags(h, s), s)
  }

  /** `resetAnimation`: detaches whatever the track holds, if there is a viewer. */
  function ResetAnimation(h: Host): (h': Host)
    ensures h.viewer.None? ==> h' == h
    ensures h.viewer.Some? ==>
      && h'.log == h.log + [ResetAnimations]
      && h'.viewer == Some(h.viewer.value.(track := h.viewer.value.track.(active := [])))
    ensures h'.controls == h.controls && h'.context == h.context
  {
    if h.viewer.None? then h else Perform(h, ResetAnimations)
  }

  /** The behaviours on the track once the animation binding has run. */
  function ActiveFor(animation: Option<AnimationRef>): seq<Behaviour>
  {
    match animation
    case None => []
    case Some(r) => [Resolve(r)]
  }

  /** Animation binding: always detach first, then attach the resolved
      behaviour when a reference is present. Whatever the track held before,
      it holds at most one behaviour afterwards. */
  function SyncAnimation(h: Host, animation: Option<AnimationRef>): (h': Host)
    ensures h.viewer.None? ==> h' == h
    ensures h.viewer.Some? && animation.Some? ==>
      h'.log == h.log + [ResetAnimations, AddAnimation(Resolve(animation.value))]
    ensures h.viewer.Some? && animation.None? ==> h'.log == h.log + [ResetAnimations]
    ensures h.viewer.Some? ==>
      var v := h.viewer.value;
      && h'.viewer == Some(v.(track := v.track.(active := ActiveFor(animation))))
      && |h'.viewer.value.track.active| == if animation.Some? then 1 else 0
    ensures h'.controls == h.controls && h'.context == h.context
  {
    if h.viewer.None? then h
    else match animation
      case Some(r) =>
        assert [] + [Resolve(r)] == [Resolve(r)];
        Perform(ResetAnimation(h), AddAnimation(Resolve(r)))
      case None => ResetAnimation(h)
  }
}
