/** JavaScript values as the SkinViewer component receives them through its
    props: optional values, numbers, texture sources, and the truthiness and
    `Boolean(...)` coercions the component applies to them. */
module JsValues {

  /** `T | undefined`: an optional prop. */
  datatype Option<+T> = None | Some(value: T) {

    /** The destructuring default `x = d`: it replaces `undefined` only. */
    function GetOr(default: T): T
    {
      match this
      case Some(v) => v
      case None => default
    }
  }

  /** A JavaScript number: a finite value or NaN (infinities are not modelled). */
  datatype Number = Finite(value: real) | NaN

  /** Truthiness of `number | undefined`: `undefined`, `0` and `NaN` are falsy. */
  predicate IsTruthyNumber(n: Option<Number>)
  {
    match n
    case None => false
    case Some(NaN) => false
    case Some(Finite(x)) => x != 0.0
  }

  /** A texture source (`RemoteImage | TextureSource`): a URL string or an
      image-like object, the latter identified by an opaque number. */
  datatype Source = Url(url: string) | Image(id: nat)

  /** Truthiness of an optional source: `undefined` and the empty string are
      falsy, an object is always truthy. */
  predicate IsTruthySource(s: Option<Source>)
  {
    match s
    case None => false
    case Some(Url(u)) => u != ""
    case Some(Image(_)) => true
  }

  /** `Boolean(b)` for `b: boolean | undefined`: an absent flag is off. */
  function ToBoolean(b: Option<bool>): (r: bool)
    ensures r <==> b == Some(true)
  {
    match b
    case None => false
    case Some(x) => x
  }
}
