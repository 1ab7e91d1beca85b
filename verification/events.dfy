/** The component driven by a stream of notifications: the creating effect,
    the cleanup, and one prop-slice change per binding. The reactive runtime
    decides when each fires; here the caller supplies that order as a
    sequence, and the properties hold for every such sequence. */
module Events {
  import opened JsValues
  import opened Animations
  import opened Engine
  import opened Bindings
  import opened Lifecycle

  /** One notification: the component mounts or unmounts, or the slice of
      props one binding watches changes to the values carried. */
  datatype Event =
    | Mounted(width: Option<Number>, height: Option<Number>, defaults: EngineDefaults)
    | Unmounted
    | SkinChanged(skin: Option<Source>, isSlim: Option<bool>)
    | CapeChanged(cape: Option<Source>)
    | SizeChanged(width: Option<Number>, height: Option<Number>)
    | SettingsChanged(settings: Settings)
    | AnimationChanged(animation: Option<AnimationRef>)
  {
    predicate IsPropChange()
    {
      !Mounted? && !Unmounted?
    }
  }

  /** Runs the effect body a notification triggers. */
  function Dispatch(h: Host, e: Event): Host
  {
    match e
    case Mounted(w, ht, d) => Mount(h, w, ht, d)
    case Unmounted => Unmount(h)
    case SkinChanged(skin, isSlim) => SyncSkin(h, skin, isSlim)
    case CapeChanged(cape) => SyncCape(h, cape)
    case SizeChanged(w, ht) => SyncSize(h, w, ht)
    case SettingsChanged(s) => SyncSettings(h, s)
    case AnimationChanged(a) => SyncAnimation(h, a)
  }

  /** Delivers notifications in order. */
  function Replay(h: Host, es: seq<Event>): Host
    decreases |es|
  {
    if es == [] then h else Replay(Dispatch(h, es[0]), es[1..])
  }

  /** One notification off the front of the stream. */
  lemma ReplayFront(h: Host, es: seq<Event>)
    requires es != []
    ensures Replay(h, es) == Replay(Dispatch(h, es[0]), es[1..])
  {
  }

  predicate AllPropChanges(es: seq<Event>)
  {
    forall j :: 0 <= j < |es| ==> es[j].IsPropChange()
  }

  // ---------------------------------------------------------------------------
  // The invariant every reachable host keeps

  predicate NoLifecycleCalls(s: seq<Call>)
  {
    forall i :: 0 <= i < |s| ==> !s[i].IsLifecycle()
  }

  /** Every attach in the log comes right after a detach. */
  predicate AddsFollowReset(log: seq<Call>)
  {
    forall i :: 0 <= i < |log| && log[i].AddAnimation? ==> 0 < i && log[i - 1] == ResetAnimations
  }

  /** The shape of the log in each phase: nothing before creation; creation
      first; after release, release last and nothing in between but updates. */
  predicate LifecycleTrace(c: Context, log: seq<Call>)
  {
    match c
    case Pending => log == []
    case Live =>
      && |log| >= 2 && log[0].Construct? && log[1] == CreateControls
      && NoLifecycleCalls(log[2..])
    case Gone =>
      || log == []
      || (&& |log| >= 3 && log[0].Construct? && log[1] == CreateControls
          && log[|log| - 1] == ForceContextLoss
          && NoLifecycleCalls(log[2..|log| - 1]))
  }

  /** Handles exist exactly while the context is live, the track never holds
      more than one behaviour, and the log has the shape above. */
  predicate Valid(h: Host)
  {
    && (h.viewer.Some? <==> h.context == Live)
    && (h.controls.Some? <==> h.context == Live)
    && (h.viewer.Some? ==> |h.viewer.value.track.active| <= 1)
    && AddsFollowReset(h.log)
    && LifecycleTrace(h.context, h.log)
  }

  lemma InitialIsValid()
    ensures Valid(Initial)
  {
  }

  lemma MountPreservesValid(h: Host, width: Option<Number>, height: Option<Number>, d: EngineDefaults)
    requires Valid(h)
    ensures Valid(Mount(h, width, height, d))
  {
    var h' := Mount(h, width, height, d);
    if h.context == Pending {
      assert h'.log == [Construct(width, height), CreateControls];
      assert h'.log[2..] == [];
    }
  }

  lemma UnmountPreservesValid(h: Host)
    requires Valid(h)
    ensures Valid(Unmount(h))
  {
    var h' := Unmount(h);
    if h.context == Live {
      assert h'.log[2..|h'.log| - 1] == h.log[2..];
    }
  }

  lemma SkinPreservesValid(h: Host, skin: Option<Source>, isSlim: Option<bool>)
    requires Valid(h)
    ensures Valid(SyncSkin(h, skin, isSlim))
  {
  }

  lemma CapePreservesValid(h: Host, cape: Option<Source>)
    requires Valid(h)
    ensures Valid(SyncCape(h, cape))
  {
  }

  lemma SizePreservesValid(h: Host, width: Option<Number>, height: Option<Number>)
    requires Valid(h)
    ensures Valid(SyncSize(h, width, height))
  {
  }

  lemma FlagsPreservesValid(h: Host, s: Settings)
    requires Valid(h)
    ensures Valid(SyncFlags(h, s))
  {
  }

  lemma PlaybackPreservesValid(h: Host, s: Settings)
    requires Valid(h)
    ensures Valid(SyncPlayback(h, s))
  {
  }

  lemma SettingsPreservesValid(h: Host, s: Settings)
    requires Valid(h)
    ensures Valid(SyncSettings(h, s))
  {
    FlagsPreservesValid(h, s);
    PlaybackPreservesValid(SyncFlags(h, s), s);
  }

  lemma AnimationPreservesValid(h: Host, a: Option<AnimationRef>)
    requires Valid(h)
    ensures Valid(SyncAnimation(h, a))
  {
  }

  lemma DispatchPreservesValid(h: Host, e: Event)
    requires Valid(h)
    ensures Valid(Dispatch(h, e))
  {
    match e
    case Mounted(w, ht, d) => MountPreservesValid(h, w, ht, d);
    case Unmounted => UnmountPreservesValid(h);
    case SkinChanged(skin, isSlim) => SkinPreservesValid(h, skin, isSlim);
    case CapeChanged(cape) => CapePreservesValid(h, cape);
    case SizeChanged(w, ht) => SizePreservesValid(h, w, ht);
    case SettingsChanged(s) => SettingsPreservesValid(h, s);
    case AnimationChanged(a) => AnimationPreservesValid(h, a);
  }

  /** Every host reachable from a valid one is valid. */
  lemma {:induction false} ReplayPreservesValid(h: Host, es: seq<Event>)
    requires Valid(h)
    ensures Valid(Replay(h, es))
    decreases |es|
  {
    if es != [] {
      DispatchPreservesValid(h, es[0]);
      ReplayPreservesValid(Dispatch(h, es[0]), es[1..]);
    }
  }

  /** In a valid log the viewer is created at most once, as the first call,
      and the context is released at most once, as the last call. */
  lemma LifecycleCallsAreUnique(h: Host)
    requires Valid(h)
    ensures forall i :: 0 <= i < |h.log| && h.log[i].Construct? ==> i == 0
    ensures forall i :: 0 <= i < |h.log| && h.log[i] == ForceContextLoss ==>
      i == |h.log| - 1 && h.context == Gone
  {
    var log := h.log;
    match h.context
    case Pending =>
    case Live =>
      forall i | 2 <= i < |log|
        ensures !log[i].IsLifecycle()
      {
        assert log[2..][i - 2] == log[i];
      }
    case Gone =>
      if log != [] {
        forall i | 2 <= i < |log| - 1
          ensures !log[i].IsLifecycle()
        {
          assert log[2..|log| - 1][i - 2] == log[i];
        }
      }
  }

  /** Every attach in a log reachable from the initial host directly
      follows a detach, and the track never holds two behaviours. */
  lemma {:induction false} DetachPrecedesEveryAttach(es: seq<Event>)
    ensures var h := Replay(Initial, es);
      && AddsFollowReset(h.log)
      && (h.viewer.Some? ==> |h.viewer.value.track.active| <= 1)
  {
    InitialIsValid();
    ReplayPreservesValid(Initial, es);
  }

  // ---------------------------------------------------------------------------
  // Not ready, and released

  /** Without a viewer and controls every binding is inert, however many fire. */
  lemma {:induction false} NotReadyIsInert(h: Host, es: seq<Event>)
    requires h.viewer.None? && h.controls.None?
    requires AllPropChanges(es)
    ensures Replay(h, es) == h
    decreases |es|
  {
    if es != [] {
      assert es[0].IsPropChange();
      NotReadyIsInert(Dispatch(h, es[0]), es[1..]);
    }
  }

  /** Once released, nothing is called and nothing changes, whatever follows. */
  lemma {:induction false} ReleasedIsFinal(h: Host, es: seq<Event>)
    requires Valid(h) && h.context == Gone
    ensures Replay(h, es) == h
    decreases |es|
  {
    if es != [] {
      assert Dispatch(h, es[0]) == h;
      ReleasedIsFinal(h, es[1..]);
    }
  }

  // ---------------------------------------------------------------------------
  // Latest value wins, per input group

  /** The input groups: one per binding. */
  datatype Group = SkinGroup | CapeGroup | SizeGroup | SettingsGroup | AnimationGroup

  function GroupOf(e: Event): Group
    requires e.IsPropChange()
  {
    match e
    case SkinChanged(_, _) => SkinGroup
    case CapeChanged(_) => CapeGroup
    case SizeChanged(_, _) => SizeGroup
    case SettingsChanged(_) => SettingsGroup
    case AnimationChanged(_) => AnimationGroup
  }

  /** The part of the engine state one group controls. */
  datatype Slice =
    | NoSlice
    | SkinSlice(skin: SkinState)
    | CapeSlice(cape: CapeState)
    | SizeSlice(width: Option<Number>, height: Option<Number>)
    | SettingsSlice(controls: Option<Controls>, speed: Number, paused: bool)
    | AnimationSlice(active: seq<Behaviour>)

  function SliceOf(h: Host, g: Group): Slice
  {
    if h.viewer.None? then NoSlice
    else
      var v := h.viewer.value;
      match g
      case SkinGroup => SkinSlice(v.skin)
      case CapeGroup => CapeSlice(v.cape)
      case SizeGroup => SizeSlice(v.width, v.height)
      case SettingsGroup => SettingsSlice(h.controls, v.track.speed, v.track.paused)
      case AnimationGroup => AnimationSlice(v.track.active)
  }

  /** A change that replaces its group's state outright; only a resize with
      a missing or zero dimension does not (it does nothing). */
  predicate Overwrites(e: Event)
  {
    e.IsPropChange() && (e.SizeChanged? ==> IsTruthyNumber(e.width) && IsTruthyNumber(e.height))
  }

  lemma DispatchKeepsHandles(h: Host, e: Event)
    requires e.IsPropChange()
    ensures Dispatch(h, e).viewer.Some? == h.viewer.Some?
    ensures Dispatch(h, e).controls.Some? == h.controls.Some?
  {
  }

  /** A change to one group leaves every other group's state alone, and a
      partial resize leaves everything alone. */
  lemma DispatchKeepsOtherSlices(h: Host, e: Event, g: Group)
    requires e.IsPropChange() && (GroupOf(e) != g || !Overwrites(e))
    ensures SliceOf(Dispatch(h, e), g) == SliceOf(h, g)
  {
  }

  /** An overwriting change leaves its group in a state that does not depend
      on what the group held before. */
  lemma DispatchForgetsPast(h1: Host, h2: Host, e: Event)
    requires Overwrites(e)
    requires h1.viewer.Some? && h2.viewer.Some? && h1.controls.Some? == h2.controls.Some?
    ensures SliceOf(Dispatch(h1, e), GroupOf(e)) == SliceOf(Dispatch(h2, e), GroupOf(e))
  {
  }

  lemma {:induction false} ReplayKeepsSlice(h: Host, es: seq<Event>, g: Group)
    requires AllPropChanges(es)
    requires forall j :: 0 <= j < |es| ==> GroupOf(es[j]) != g || !Overwrites(es[j])
    ensures SliceOf(Replay(h, es), g) == SliceOf(h, g)
    ensures Replay(h, es).viewer.Some? == h.viewer.Some?
    ensures Replay(h, es).controls.Some? == h.controls.Some?
    decreases |es|
  {
    if es != [] {
      DispatchKeepsOtherSlices(h, es[0], g);
      DispatchKeepsHandles(h, es[0]);
      ReplayKeepsSlice(Dispatch(h, es[0]), es[1..], g);
    }
  }

  /** Convergence: after any run of prop changes on a ready viewer, each
      group's state is what its last overwriting change alone would have
      produced, whatever came before it. */
  lemma {:induction false} LatestValueWins(h: Host, es: seq<Event>, i: nat)
    requires h.viewer.Some?
    requires AllPropChanges(es)
    requires i < |es| && Overwrites(es[i])
    requires forall j :: i < j < |es| ==> GroupOf(es[j]) != GroupOf(es[i]) || !Overwrites(es[j])
    ensures SliceOf(Replay(h, es), GroupOf(es[i])) == SliceOf(Dispatch(h, es[i]), GroupOf(es[i]))
    decreases |es|
  {
    var g := GroupOf(es[i]);
    var h1 := Dispatch(h, es[0]);
    DispatchKeepsHandles(h, es[0]);
    if i == 0 {
      ReplayKeepsSlice(h1, es[1..], g);
    } else {
      LatestValueWins(h1, es[1..], i - 1);
      DispatchForgetsPast(h1, h, es[i]);
    }
  }
}
