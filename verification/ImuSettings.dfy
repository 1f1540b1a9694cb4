/** The settings of the IMU device over every run from power-on: each one is the last usable
    value that was passed for it. */
module ImuSettings {
  import opened Quaternions
  import opened AttitudeFilter
  import opened ImuDevice
  import opened ImuHistory

  /** The real-valued settings a caller can pass. */
  datatype Setting =
    | SampleTime | BlendFactor | AccelLowPass | GyroLowPass | TrustWindow | Kp | Ki
    | ScaleX | ScaleY | ScaleZ | StillRate | StillPull | LearningRate

  datatype Offer = Nothing | Value(value: real)

  ghost function Current(c: Settings, n: Setting): real {
    match n
    case SampleTime => c.gains.dt
    case BlendFactor => c.alpha
    case AccelLowPass => c.accelCutoff
    case GyroLowPass => c.gyroCutoff
    case TrustWindow => c.gains.trustWindow
    case Kp => c.gains.kp
    case Ki => c.gains.ki
    case ScaleX => c.scale.x
    case ScaleY => c.scale.y
    case ScaleZ => c.scale.z
    case StillRate => c.stillGyro
    case StillPull => c.stillAccel
    case LearningRate => c.learningRate
  }

  /** What a call passes for a setting. */
  ghost function Offered(e: Event, n: Setting): Offer {
    match n
    case SampleTime => if e.FilterSet? then Value(e.dt) else Nothing
    case BlendFactor => if e.FilterSet? then Value(e.alpha) else Nothing
    case AccelLowPass => if e.LowPassSet? then Value(e.accelCutoff) else Nothing
    case GyroLowPass => if e.LowPassSet? then Value(e.gyroCutoff) else Nothing
    case TrustWindow => if e.TrustWindowSet? then Value(e.window) else Nothing
    case Kp => if e.MahonyGainsSet? then Value(e.kp) else Nothing
    case Ki => if e.MahonyGainsSet? then Value(e.ki) else Nothing
    case ScaleX => if e.ScaleSet? then Value(e.scale.x) else Nothing
    case ScaleY => if e.ScaleSet? then Value(e.scale.y) else Nothing
    case ScaleZ => if e.ScaleSet? then Value(e.scale.z) else Nothing
    case StillRate => if e.DetectionSet? then Value(e.stillGyro) else Nothing
    case StillPull => if e.DetectionSet? then Value(e.stillAccel) else Nothing
    case LearningRate => if e.AutoBiasSet? then Value(e.rate) else Nothing
  }

  /** The values a setting can have. */
  ghost predicate Usable(n: Setting, v: real) {
    match n
    case SampleTime => v > 0.0
    case ScaleX => v > 0.0
    case ScaleY => v > 0.0
    case ScaleZ => v > 0.0
    case StillRate => v > 0.0
    case BlendFactor => 0.0 <= v <= 1.0
    case LearningRate => 0.0 <= v <= 1.0
    case _ => v >= 0.0
  }

  /** Negative cut-offs and windows switch the function off; other unusable values are
      ignored. */
  ghost predicate SwitchesOff(n: Setting) {
    n == AccelLowPass || n == GyroLowPass || n == TrustWindow
  }

  /** The last usable value passed for a setting before event `k`. */
  ghost function LastSet(es: seq<Event>, n: Setting, k: nat): real
    requires k <= |es|
  {
    if k == 0 || es[k - 1].Initialised? then Current(DEFAULT_SETTINGS, n)
    else
      match Offered(es[k - 1], n)
      case Value(v) => if Usable(n, v) then v else if SwitchesOff(n) then 0.0 else LastSet(es, n, k - 1)
      case Nothing => LastSet(es, n, k - 1)
  }

  lemma CallSets(m: Libm, c: Settings, e: Event, n: Setting)
    ensures Current(Configured(m, c, e), n) ==
              match Offered(e, n)
              case Value(v) => if Usable(n, v) then v else if SwitchesOff(n) then 0.0 else Current(c, n)
              case Nothing => Current(c, n)
  {
    hide RejectionSq;
  }

  lemma LastSetIsUsable(es: seq<Event>, n: Setting, k: nat)
    requires k <= |es|
    ensures Usable(n, LastSet(es, n, k))
  {
  }

  /** Every setting is the last usable value that was passed for it, whatever else was called,
      and so is always usable itself. */
  lemma {:induction false} SettingsAreTheLastSet(m: Libm, es: seq<Event>, hs: seq<Handle>, n: Setting, k: nat)
    requires Run(m, es, hs) && k <= |es|
    ensures Current(hs[k].settings, n) == LastSet(es, n, k)
    ensures Usable(n, Current(hs[k].settings, n))
  {
    hide Configured, Affected, Current, Offered, Usable;
    LastSetIsUsable(es, n, k);
    if k > 0 {
      SettingsAreTheLastSet(m, es, hs, n, k - 1);
      assert Happens(m, es, hs, k - 1);
      CallSets(m, hs[k - 1].settings, es[k - 1], n);
    }
  }

  /** The gain that bias learning uses is the learning rate last set. */
  lemma LearningUsesItsRate(m: Libm, es: seq<Event>, hs: seq<Handle>, k: nat)
    requires Run(m, es, hs) && k <= |es|
    ensures Learn(hs[k].settings) == LastSet(es, LearningRate, k)
  {
    SettingsAreTheLastSet(m, es, hs, LearningRate, k);
    hide LastSet, Applied;
  }

  /** A rejection angle up to a right angle rejects by half its sine, squared. */
  lemma RejectionIsTheLastAngle(m: Libm, es: seq<Event>, hs: seq<Handle>, k: nat)
    requires Run(m, es, hs) && k < |es|
    ensures es[k].RejectionSet? ==>
              var s := m.sin((if es[k].angle > 90.0 then 90.0 else es[k].angle) * DEG_TO_RAD);
              4.0 * hs[k + 1].settings.gains.rejectionSq == if es[k].angle <= 0.0 then 0.0 else s * s
    ensures !es[k].RejectionSet? && !es[k].Initialised? ==>
              hs[k + 1].settings.gains.rejectionSq == hs[k].settings.gains.rejectionSq
  {
    assert Happens(m, es, hs, k);
    hide Affected;
  }
}
