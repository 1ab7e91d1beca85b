/** The `Animation` enum, the `animationTemplates` registry and the resolution
    of the `animation` prop into the behaviour added to the viewer's track. */
module Animations {

  /** The closed enumeration of symbolic animation names. */
  datatype AnimationName = Idle | Walk | Run | Fly | Rotate

  /** The string value of each enum member; the `AnimationUnion` literal type
      is exactly these five strings. */
  function NameString(n: AnimationName): string
  {
    match n
    case Idle => "idle"
    case Walk => "walk"
    case Run => "run"
    case Fly => "fly"
    case Rotate => "rotate"
  }

  /** The five behaviour templates exported by the rendering library. */
  datatype Template =
    | IdleAnimation
    | WalkingAnimation
    | RunningAnimation
    | FlyingAnimation
    | RotatingAnimation

  /** Anything that can be added to an animation track: a library template, or a
      behaviour object made by the caller (opaque, identified by a number). */
  datatype Behaviour = Builtin(template: Template) | Custom(id: nat)

  /** A present `animation` prop: an enum member (or its string), or a
      behaviour object handed over directly. */
  datatype AnimationRef = Named(name: AnimationName) | Direct(behaviour: Behaviour)

  /** `animationTemplates`, keyed by the enum's string values as the source's
      `Map` is. */
  const AnimationTemplates: map<string, Template> := map[
    "idle" := IdleAnimation,
    "walk" := WalkingAnimation,
    "run" := RunningAnimation,
    "fly" := FlyingAnimation,
    "rotate" := RotatingAnimation
  ]

  /** The intended pairing of names and templates, one case per enum member. */
  function TemplateFor(n: AnimationName): Template
  {
    match n
    case Idle => IdleAnimation
    case Walk => WalkingAnimation
    case Run => RunningAnimation
    case Fly => FlyingAnimation
    case Rotate => RotatingAnimation
  }

  /** The registry is total over the enum, holds nothing else, and maps every
      name to its own template. */
  lemma RegistryMatchesEnum(n: AnimationName)
    ensures NameString(n) in AnimationTemplates
    ensures AnimationTemplates[NameString(n)] == TemplateFor(n)
    ensures |AnimationTemplates| == 5
    ensures forall k :: k in AnimationTemplates ==> exists m :: NameString(m) == k
  {
    assert AnimationTemplates.Keys == {"idle", "walk", "run", "fly", "rotate"};
    assert NameString(Idle) == "idle" && NameString(Walk) == "walk" && NameString(Run) == "run";
    assert NameString(Fly) == "fly" && NameString(Rotate) == "rotate";
  }

  /** Resolution of a present `animation` prop: a string goes through the
      registry, anything else is used as it is. */
  function Resolve(r: AnimationRef): (b: Behaviour)
    ensures r.Named? ==> b == Builtin(TemplateFor(r.name))
    ensures r.Direct? ==> b == r.behaviour
  {
    match r
    case Named(n) =>
      RegistryMatchesEnum(n);
      Builtin(AnimationTemplates[NameString(n)])
    case Direct(b) => b
  }
}
