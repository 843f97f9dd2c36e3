/**
 * The easing registry and its two drivers.  The source looks a curve up by
 * its string name in an object literal; here the thirty-one names form a
 * closed datatype, `Lookup` is the registry and an unknown name is an error
 * result (the source would go on to call `undefined` and throw).
 *
 * Both drivers call the chosen curve with the positional arguments
 * (t, b, c, d, a, p, s).  The elastic curves read `a` and `p` from the fifth
 * and sixth places; the back curves read their overshoot from the fifth
 * place, which holds `a`; no curve has a seventh parameter, so `s` is never
 * read.
 */
module Tween {
  import opened Wrappers
  import opened Numerics
  import opened Shapes
  import Curves

  /** One entry per key of the registry, in the registry's order. */
  datatype Easing =
    | Linear
    | InQuad | OutQuad | InOutQuad
    | InCubic | OutCubic | InOutCubic
    | InQuart | OutQuart | InOutQuart
    | InQuint | OutQuint | InOutQuint
    | InSine | OutSine | InOutSine
    | InExpo | OutExpo | InOutExpo
    | InCirc | OutCirc | InOutCirc
    | InElastic | OutElastic | InOutElastic
    | InBack | OutBack | InOutBack
    | InBounce | OutBounce | InOutBounce

  datatype TweenError = UnknownEasing(name: string)

  datatype Result<T> = Success(value: T) | Failure(error: TweenError)

  datatype Outcome = Pass | Fail(error: TweenError)

  /** The registry key of each curve: the registry holds each curve under its own key. */
  function Name(e: Easing): (r: string)
    ensures Lookup(r) == Some(e)
  {
    match e
    case Linear => "linear"
    case InQuad => "easeInQuad"
    case OutQuad => "easeOutQuad"
    case InOutQuad => "easeInOutQuad"
    case InCubic => "easeInCubic"
    case OutCubic => "easeOutCubic"
    case InOutCubic => "easeInOutCubic"
    case InQuart => "easeInQuart"
    case OutQuart => "easeOutQuart"
    case InOutQuart => "easeInOutQuart"
    case InQuint => "easeInQuint"
    case OutQuint => "easeOutQuint"
    case InOutQuint => "easeInOutQuint"
    case InSine => "easeInSine"
    case OutSine => "easeOutSine"
    case InOutSine => "easeInOutSine"
    case InExpo => "easeInExpo"
    case OutExpo => "easeOutExpo"
    case InOutExpo => "easeInOutExpo"
    case InCirc => "easeInCirc"
    case OutCirc => "easeOutCirc"
    case InOutCirc => "easeInOutCirc"
    case InElastic => "easeInElastic"
    case OutElastic => "easeOutElastic"
    case InOutElastic => "easeInOutElastic"
    case InBack => "easeInBack"
    case OutBack => "easeOutBack"
    case InOutBack => "easeInOutBack"
    case InBounce => "easeInBounce"
    case OutBounce => "easeOutBounce"
    case InOutBounce => "easeInOutBounce"
  }

  /** The registry: the curve stored under a key, if any. */
  function Lookup(name: string): (r: Option<Easing>)
    ensures r.Some? ==> name == "linear" || (|name| > 4 && name[..4] == "ease")
  {
    match name
    case "linear" => Some(Linear)
    case "easeInQuad" => Some(InQuad)
    case "easeOutQuad" => Some(OutQuad)
    case "easeInOutQuad" => Some(InOutQuad)
    case "easeInCubic" => Some(InCubic)
    case "easeOutCubic" => Some(OutCubic)
    case "easeInOutCubic" => Some(InOutCubic)
    case "easeInQuart" => Some(InQuart)
    case "easeOutQuart" => Some(OutQuart)
    case "easeInOutQuart" => Some(InOutQuart)
    case "easeInQuint" => Some(InQuint)
    case "easeOutQuint" => Some(OutQuint)
    case "easeInOutQuint" => Some(InOutQuint)
    case "easeInSine" => Some(InSine)
    case "easeOutSine" => Some(OutSine)
    case "easeInOutSine" => Some(InOutSine)
    case "easeInExpo" => Some(InExpo)
    case "easeOutExpo" => Some(OutExpo)
    case "easeInOutExpo" => Some(InOutExpo)
    case "easeInCirc" => Some(InCirc)
    case "easeOutCirc" => Some(OutCirc)
    case "easeInOutCirc" => Some(InOutCirc)
    case "easeInElastic" => Some(InElastic)
    case "easeOutElastic" => Some(OutElastic)
    case "easeInOutElastic" => Some(InOutElastic)
    case "easeInBack" => Some(InBack)
    case "easeOutBack" => Some(OutBack)
    case "easeInOutBack" => Some(InOutBack)
    case "easeInBounce" => Some(InBounce)
    case "easeOutBounce" => Some(OutBounce)
    case "easeInOutBounce" => Some(InOutBounce)
    case _ => None
  }

  /** The registry holds exactly the thirty-one names, each under its own curve. */
  lemma LookupIffName(name: string, e: Easing)
    ensures Lookup(name) == Some(e) <==> Name(e) == name
  {
    if Lookup(name) == Some(e) {
      LookupFindsItsName(name);
    }
  }

  /** A key the registry knows is the name of the curve it holds. */
  lemma LookupFindsItsName(name: string)
    ensures Lookup(name).Some? ==> Name(Lookup(name).value) == name
  {
  }

  /**
   * The curve can be evaluated without dividing by zero: a non-zero duration,
   * and for the elastic curves, past their guards, a defined phase.
   */
  predicate Defined(e: Easing, t: real, c: real, d: real, a: real)
  {
    d != 0.0 &&
    match e
    case InElastic | OutElastic | InOutElastic => t == 0.0 || t == d || Curves.PhaseDefined(c, a)
    case _ => true
  }

  /**
   * The special value of a Math function the curve reaches at its start,
   * t == 0; the curves that reach none there need nothing.
   */
  predicate StartExact(m: MathLib, e: Easing)
  {
    match e
    case InSine | InOutSine => m.cos(0.0) == 1.0
    case OutSine => m.sin(0.0) == 0.0
    case OutExpo => m.exp2(0.0) == 1.0
    case InCirc | InOutCirc => m.sqrt(1.0) == 1.0
    case OutCirc => m.sqrt(0.0) == 0.0
    case _ => true
  }

  /** The special value of a Math function the curve reaches at its end, t == d. */
  predicate EndExact(m: MathLib, e: Easing)
  {
    match e
    case InSine => m.cos(PI / 2.0) == 0.0
    case OutSine => m.sin(PI / 2.0) == 1.0
    case InOutSine => m.cos(PI) == -1.0
    case InExpo => m.exp2(0.0) == 1.0
    case InCirc => m.sqrt(0.0) == 0.0
    case OutCirc | InOutCirc => m.sqrt(1.0) == 1.0
    case _ => true
  }

  /**
   * The special values doubles give exactly are all the curves need, except
   * at the end of `easeInSine`, which reaches cos(PI/2).
   */
  lemma DoubleSpecialValuesSuffice(m: MathLib, e: Easing)
    requires m.DoubleSpecialValues()
    ensures StartExact(m, e)
    ensures e != InSine ==> EndExact(m, e)
  {
  }

  /** The call `tweenFn(t, b, c, d, a, p, s)` for the curve `e`. */
  function Apply(m: MathLib, e: Easing, t: real, b: real, c: real, d: real, a: real, p: real): (r: real)
    requires Defined(e, t, c, d, a)
    ensures d > 0.0 && StartExact(m, e) && t == 0.0 ==> r == b
    ensures d > 0.0 && EndExact(m, e) && t == d ==> r == b + c
  {
    match e
    case Linear => Curves.Linear(t, b, c, d)
    case InQuad => Curves.EaseInQuad(t, b, c, d)
    case OutQuad => Curves.EaseOutQuad(t, b, c, d)
    case InOutQuad => Curves.EaseInOutQuad(t, b, c, d)
    case InCubic => Curves.EaseInCubic(t, b, c, d)
    case OutCubic => Curves.EaseOutCubic(t, b, c, d)
    case InOutCubic => Curves.EaseInOutCubic(t, b, c, d)
    case InQuart => Curves.EaseInQuart(t, b, c, d)
    case OutQuart => Curves.EaseOutQuart(t, b, c, d)
    case InOutQuart => Curves.EaseInOutQuart(t, b, c, d)
    case InQuint => Curves.EaseInQuint(t, b, c, d)
    case OutQuint => Curves.EaseOutQuint(t, b, c, d)
    case InOutQuint => Curves.EaseInOutQuint(t, b, c, d)
    case InSine => Curves.EaseInSine(m, t, b, c, d)
    case OutSine => Curves.EaseOutSine(m, t, b, c, d)
    case InOutSine => Curves.EaseInOutSine(m, t, b, c, d)
    case InExpo => Curves.EaseInExpo(m, t, b, c, d)
    case OutExpo => Curves.EaseOutExpo(m, t, b, c, d)
    case InOutExpo => Curves.EaseInOutExpo(m, t, b, c, d)
    case InCirc => Curves.EaseInCirc(m, t, b, c, d)
    case OutCirc => Curves.EaseOutCirc(m, t, b, c, d)
    case InOutCirc => Curves.EaseInOutCirc(m, t, b, c, d)
    case InElastic => Curves.EaseInElastic(m, t, b, c, d, a, p)
    case OutElastic => Curves.EaseOutElastic(m, t, b, c, d, a, p)
    case InOutElastic => Curves.EaseInOutElastic(m, t, b, c, d, a, p)
    case InBack => Curves.EaseInBack(t, b, c, d, a)
    case OutBack => Curves.EaseOutBack(t, b, c, d, a)
    case InOutBack => Curves.EaseInOutBack(t, b, c, d, a)
    case InBounce => Curves.EaseInBounce(t, b, c, d)
    case OutBounce => Curves.EaseOutBounce(t, b, c, d)
    case InOutBounce => Curves.EaseInOutBounce(t, b, c, d)
  }

  /** An unknown name fails before any arithmetic, whatever the other arguments. */
  predicate NameDefined(name: string, t: real, c: real, d: real, a: real)
  {
    match Lookup(name)
    case None => true
    case Some(e) => Defined(e, t, c, d, a)
  }

  /** One interpolated number, eased by the curve registered under `tweenType`. */
  function TweenProperty(m: MathLib, t: real, b: real, c: real, d: real,
                         tweenType: string := "linear", a: real := 0.0, p: real := 0.0, s: real := 0.0): (r: Result<real>)
    requires NameDefined(tweenType, t, c, d, a)
    ensures r.Failure? <==> Lookup(tweenType).None?
    ensures r.Failure? ==> r.error == UnknownEasing(tweenType)
    ensures r.Success? ==> r.value == Apply(m, Lookup(tweenType).value, t, b, c, d, a, p)
  {
    match Lookup(tweenType)
    case None => Failure(UnknownEasing(tweenType))
    case Some(e) => Success(Apply(m, e, t, b, c, d, a, p))
  }

  /** Without a curve name the tween is linear. */
  lemma TweenPropertyDefaultsToLinear(m: MathLib, t: real, b: real, c: real, d: real)
    requires d != 0.0
    ensures TweenProperty(m, t, b, c, d) == Success(Curves.Linear(t, b, c, d))
  {
  }

  /**
   * Each registered curve starts at `b` and ends at `b + c`, for a positive
   * duration.  A curve that reaches a special value of a Math function at an
   * end needs that value exact there; the others need nothing.
   */
  lemma TweenPropertyBoundaries(m: MathLib, name: string, b: real, c: real, d: real, a: real, p: real, s: real)
    requires d > 0.0 && Lookup(name).Some?
    ensures StartExact(m, Lookup(name).value) ==> TweenProperty(m, 0.0, b, c, d, name, a, p, s) == Success(b)
    ensures EndExact(m, Lookup(name).value) ==> TweenProperty(m, d, b, c, d, name, a, p, s) == Success(b + c)
  {
  }

  /**
   * With the special values doubles give exactly, every registered curve
   * starts at `b`, and every one but `easeInSine` ends at `b + c`.
   */
  lemma TweenPropertyBoundariesWithDoubles(m: MathLib, name: string, b: real, c: real, d: real, a: real, p: real, s: real)
    requires d > 0.0 && Lookup(name).Some? && m.DoubleSpecialValues()
    ensures TweenProperty(m, 0.0, b, c, d, name, a, p, s) == Success(b)
    ensures name != "easeInSine" ==> TweenProperty(m, d, b, c, d, name, a, p, s) == Success(b + c)
  {
    var e := Lookup(name).value;
    DoubleSpecialValuesSuffice(m, e);
    LookupFindsItsName(name);
    TweenPropertyBoundaries(m, name, b, c, d, a, p, s);
  }

  /**
   * The back curves take their overshoot from the `a` argument; the `s`
   * argument reaches no curve.  With the defaults the overshoot is 0, so
   * `easeInBack` eases like `easeInCubic`.
   */
  lemma BackOvershootComesFromA(m: MathLib, t: real, b: real, c: real, d: real, a: real, p: real, s: real)
    requires d != 0.0
    ensures TweenProperty(m, t, b, c, d, "easeInBack", a, p, s) == Success(Curves.EaseInBack(t, b, c, d, a))
    ensures TweenProperty(m, t, b, c, d, "easeOutBack", a, p, s) == Success(Curves.EaseOutBack(t, b, c, d, a))
    ensures TweenProperty(m, t, b, c, d, "easeInOutBack", a, p, s) == Success(Curves.EaseInOutBack(t, b, c, d, a))
    ensures TweenProperty(m, t, b, c, d, "easeInBack") == Success(Curves.EaseInCubic(t, b, c, d))
  {
    assert Lookup(Name(InBack)) == Some(InBack);
    assert Lookup(Name(OutBack)) == Some(OutBack);
    assert Lookup(Name(InOutBack)) == Some(InOutBack);
  }

  lemma OvershootArgumentIgnored(m: MathLib, t: real, b: real, c: real, d: real, name: string, a: real, p: real, s1: real, s2: real)
    requires NameDefined(name, t, c, d, a)
    ensures TweenProperty(m, t, b, c, d, name, a, p, s1) == TweenProperty(m, t, b, c, d, name, a, p, s2)
  {
  }

  /**
   * Writes the eased `x` and `y` into `tweenTarget`, the same curve on each
   * axis.  Each coordinate is computed from the start and change values before
   * the call, so the target may be the start or the change object.  With an
   * unknown name nothing is written.
   */
  method TweenObject(m: MathLib, tweenTarget: Point, tweenStart: Point, t: real, change: Point, d: real,
                     tweenType: string := "linear", a: real := 0.0, p: real := 0.0, s: real := 0.0)
    returns (outcome: Outcome)
    requires NameDefined(tweenType, t, change.x, d, a) && NameDefined(tweenType, t, change.y, d, a)
    modifies tweenTarget
    ensures outcome.Fail? <==> Lookup(tweenType).None?
    ensures outcome.Fail? ==> outcome.error == UnknownEasing(tweenType) && unchanged(tweenTarget)
    ensures outcome.Pass? ==>
      && tweenTarget.x == Apply(m, Lookup(tweenType).value, t, old(tweenStart.x), old(change.x), d, a, p)
      && tweenTarget.y == Apply(m, Lookup(tweenType).value, t, old(tweenStart.y), old(change.y), d, a, p)
    ensures outcome.Pass? && d > 0.0 && StartExact(m, Lookup(tweenType).value) && t == 0.0 ==>
      tweenTarget.x == old(tweenStart.x) && tweenTarget.y == old(tweenStart.y)
    ensures outcome.Pass? && d > 0.0 && EndExact(m, Lookup(tweenType).value) && t == d ==>
      tweenTarget.x == old(tweenStart.x) + old(change.x) && tweenTarget.y == old(tweenStart.y) + old(change.y)
  {
    match Lookup(tweenType)
    case None =>
      outcome := Fail(UnknownEasing(tweenType));
    case Some(e) =>
      tweenTarget.x := Apply(m, e, t, tweenStart.x, change.x, d, a, p);
      tweenTarget.y := Apply(m, e, t, tweenStart.y, change.y, d, a, p);
      outcome := Pass;
  }
}
