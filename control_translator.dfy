/**
  Translation of one live reconfiguration request into a camera control
  message: the ordered setter calls chosen by the auto/manual rules for focus,
  exposure and white balance. The message goes out on the control queue when
  that queue exists and is dropped otherwise.
 */
module ControlTranslator {

  /** The fields of a reconfiguration request that the translation reads. */
  datatype CameraControlConfig = CameraControlConfig(
    autoFocusMode: int,
    manualFocus: int,
    manualExposureTime: int,
    manualExposureIso: int,
    autoExposureLock: bool,
    autoExposureCompensation: int,
    antiBandingMode: int,
    autoWhiteBalanceMode: int,
    manualWhiteBalance: int)

  /** One setter call on a camera control message, with the argument it was given. */
  datatype Directive =
    | SetAutoFocusMode(focusMode: int)
    | SetManualFocus(lensPosition: int)
    | SetAutoFocusTrigger
    | SetAutoExposureEnable
    | SetAutoExposureLock(exposureLock: bool)
    | SetAutoExposureCompensation(compensation: int)
    | SetAntiBandingMode(antiBandingMode: int)
    | SetManualExposure(exposureTimeUs: int, sensitivityIso: int)
    | SetAutoWhiteBalanceMode(whiteBalanceMode: int)
    | SetAutoWhiteBalanceLock(whiteBalanceLock: int)
    | SetManualWhiteBalance(colorTemperatureK: int)
  {
    /** Which setter the directive calls, whatever its argument. */
    function Setter(): Setter {
      match this
      case SetAutoFocusMode(_) => AutoFocusModeSetter
      case SetManualFocus(_) => ManualFocusSetter
      case SetAutoFocusTrigger => AutoFocusTriggerSetter
      case SetAutoExposureEnable => AutoExposureEnableSetter
      case SetAutoExposureLock(_) => AutoExposureLockSetter
      case SetAutoExposureCompensation(_) => AutoExposureCompensationSetter
      case SetAntiBandingMode(_) => AntiBandingModeSetter
      case SetManualExposure(_, _) => ManualExposureSetter
      case SetAutoWhiteBalanceMode(_) => AutoWhiteBalanceModeSetter
      case SetAutoWhiteBalanceLock(_) => AutoWhiteBalanceLockSetter
      case SetManualWhiteBalance(_) => ManualWhiteBalanceSetter
    }
  }

  datatype Setter =
    | AutoFocusModeSetter | ManualFocusSetter | AutoFocusTriggerSetter
    | AutoExposureEnableSetter | AutoExposureLockSetter | AutoExposureCompensationSetter | AntiBandingModeSetter
    | ManualExposureSetter
    | AutoWhiteBalanceModeSetter | AutoWhiteBalanceLockSetter | ManualWhiteBalanceSetter

  // ---------------------------------------------------------------------------
  // The translation

  /** Focus modes that run one focus pass and need a trigger: below 3, or 5. */
  predicate OneShotFocusMode(mode: int) {
    mode < 3 || mode == 5
  }

  /** The focus mode; then manual focus if auto focus is off, else a trigger for a one-shot mode. */
  function FocusDirectives(c: CameraControlConfig): (ds: seq<Directive>)
    ensures 1 <= |ds| <= 2 && ds[0] == SetAutoFocusMode(c.autoFocusMode)
    ensures |ds| == 2 <==> c.autoFocusMode == 0 || OneShotFocusMode(c.autoFocusMode)
    ensures |ds| == 2 ==> ds[1] == if c.autoFocusMode == 0 then SetManualFocus(c.manualFocus) else SetAutoFocusTrigger
  {
    [SetAutoFocusMode(c.autoFocusMode)] +
    if c.autoFocusMode == 0 then [SetManualFocus(c.manualFocus)]
    else if OneShotFocusMode(c.autoFocusMode) then [SetAutoFocusTrigger]
    else []
  }

  /** Auto exposure with its lock, compensation and anti-banding when no exposure time is given, else manual exposure. */
  function ExposureDirectives(c: CameraControlConfig): (ds: seq<Directive>)
    ensures |ds| == if c.manualExposureTime == 0 then 4 else 1
    ensures ds[0] == if c.manualExposureTime == 0 then SetAutoExposureEnable
                     else SetManualExposure(c.manualExposureTime, c.manualExposureIso)
    ensures forall d :: d in ds ==> (d.SetManualExposure? <==> c.manualExposureTime != 0)
  {
    if c.manualExposureTime == 0 then
      [SetAutoExposureEnable] + [SetAutoExposureLock(c.autoExposureLock)] +
      [SetAutoExposureCompensation(c.autoExposureCompensation)] + [SetAntiBandingMode(c.antiBandingMode)]
    else
      [SetManualExposure(c.manualExposureTime, c.manualExposureIso)]
  }

  /** The white balance mode; then a lock taking the mode as its argument for an auto mode, else the manual temperature. */
  function WhiteBalanceDirectives(c: CameraControlConfig): (ds: seq<Directive>)
    ensures |ds| == 2 && ds[0] == SetAutoWhiteBalanceMode(c.autoWhiteBalanceMode)
    ensures ds[1].SetAutoWhiteBalanceLock? <==> c.autoWhiteBalanceMode > 0
    ensures ds[1].SetAutoWhiteBalanceLock? ==> ds[1].whiteBalanceLock == c.autoWhiteBalanceMode
  {
    [SetAutoWhiteBalanceMode(c.autoWhiteBalanceMode)] +
    if c.autoWhiteBalanceMode > 0 then [SetAutoWhiteBalanceLock(c.autoWhiteBalanceMode)]
    else [SetManualWhiteBalance(c.manualWhiteBalance)]
  }

  /** The whole control message, in the order its setters are called. */
  function Directives(c: CameraControlConfig): (ds: seq<Directive>)
    ensures |ds| == |FocusDirectives(c)| + |ExposureDirectives(c)| + 2
    ensures ds[0] == SetAutoFocusMode(c.autoFocusMode)
    ensures ds[|ds| - 2] == SetAutoWhiteBalanceMode(c.autoWhiteBalanceMode)
  {
    FocusDirectives(c) + ExposureDirectives(c) + WhiteBalanceDirectives(c)
  }

  // ---------------------------------------------------------------------------
  // Counting setter calls

  /** How many directives of `ds` call setter `s`. */
  function Count(ds: seq<Directive>, s: Setter): nat {
    if ds == [] then 0 else (if ds[0].Setter() == s then 1 else 0) + Count(ds[1..], s)
  }

  lemma {:induction false} CountAppend(a: seq<Directive>, b: seq<Directive>, s: Setter)
    ensures Count(a + b, s) == Count(a, s) + Count(b, s)
  {
    if a == [] {
      assert a + b == b;
    } else {
      assert (a + b)[1..] == a[1..] + b;
      CountAppend(a[1..], b, s);
    }
  }

  lemma CountSingle(d: Directive, s: Setter)
    ensures Count([d], s) == if d.Setter() == s then 1 else 0
  {
    assert [d][1..] == [];
  }

  /** How often each setter is called, as the arbitration rules state it. */
  function RuleCount(c: CameraControlConfig, s: Setter): (n: nat)
    ensures n <= 1
    ensures s == AutoFocusModeSetter || s == AutoWhiteBalanceModeSetter ==> n == 1
  {
    match s
    case AutoFocusModeSetter => 1
    case ManualFocusSetter => if c.autoFocusMode == 0 then 1 else 0
    case AutoFocusTriggerSetter => if c.autoFocusMode != 0 && OneShotFocusMode(c.autoFocusMode) then 1 else 0
    case AutoExposureEnableSetter => if c.manualExposureTime == 0 then 1 else 0
    case AutoExposureLockSetter => if c.manualExposureTime == 0 then 1 else 0
    case AutoExposureCompensationSetter => if c.manualExposureTime == 0 then 1 else 0
    case AntiBandingModeSetter => if c.manualExposureTime == 0 then 1 else 0
    case ManualExposureSetter => if c.manualExposureTime != 0 then 1 else 0
    case AutoWhiteBalanceModeSetter => 1
    case AutoWhiteBalanceLockSetter => if c.autoWhiteBalanceMode > 0 then 1 else 0
    case ManualWhiteBalanceSetter => if c.autoWhiteBalanceMode > 0 then 0 else 1
  }

  function Indicator(b: bool): nat {
    if b then 1 else 0
  }

  lemma FocusCount(c: CameraControlConfig, s: Setter)
    ensures Count(FocusDirectives(c), s) ==
      Indicator(s == AutoFocusModeSetter) + Indicator(s == ManualFocusSetter && c.autoFocusMode == 0) +
      Indicator(s == AutoFocusTriggerSetter && c.autoFocusMode != 0 && OneShotFocusMode(c.autoFocusMode))
  {
    var f := FocusDirectives(c);
    CountAppend([f[0]], f[1..], s);
    assert f == [f[0]] + f[1..];
    CountSingle(f[0], s);
    if |f| == 2 {
      assert f[1..] == [f[1]];
      CountSingle(f[1], s);
    }
  }

  lemma ExposureCount(c: CameraControlConfig, s: Setter)
    ensures Count(ExposureDirectives(c), s) ==
      if c.manualExposureTime == 0 then
        Indicator(s in {AutoExposureEnableSetter, AutoExposureLockSetter, AutoExposureCompensationSetter, AntiBandingModeSetter})
      else Indicator(s == ManualExposureSetter)
  {
    var e := ExposureDirectives(c);
    if c.manualExposureTime == 0 {
      var e0, e1, e2, e3 := [e[0]], [e[1]], [e[2]], [e[3]];
      assert e == e0 + e1 + e2 + e3;
      CountAppend(e0 + e1 + e2, e3, s);
      CountAppend(e0 + e1, e2, s);
      CountAppend(e0, e1, s);
      CountSingle(e[0], s);
      CountSingle(e[1], s);
      CountSingle(e[2], s);
      CountSingle(e[3], s);
    } else {
      CountSingle(e[0], s);
    }
  }

  lemma WhiteBalanceCount(c: CameraControlConfig, s: Setter)
    ensures Count(WhiteBalanceDirectives(c), s) ==
      Indicator(s == AutoWhiteBalanceModeSetter) +
      if c.autoWhiteBalanceMode > 0 then Indicator(s == AutoWhiteBalanceLockSetter)
      else Indicator(s == ManualWhiteBalanceSetter)
  {
    var w := WhiteBalanceDirectives(c);
    CountAppend([w[0]], [w[1]], s);
    assert w == [w[0]] + [w[1]];
    CountSingle(w[0], s);
    CountSingle(w[1], s);
  }

  /** The message calls each setter exactly as often as the rules say. */
  lemma SetterCounts(c: CameraControlConfig, s: Setter)
    ensures Count(Directives(c), s) == RuleCount(c, s)
  {
    CountAppend(FocusDirectives(c) + ExposureDirectives(c), WhiteBalanceDirectives(c), s);
    CountAppend(FocusDirectives(c), ExposureDirectives(c), s);
    FocusCount(c, s);
    ExposureCount(c, s);
    WhiteBalanceCount(c, s);
  }

  // ---------------------------------------------------------------------------
  // The arbitration rules

  /**
    The focus mode is set once, first. Manual focus is set exactly when auto
    focus is off; a trigger is sent exactly for the other one-shot modes (so
    never with mode 0). Modes 3 and 4 get neither.
   */
  lemma FocusArbitration(c: CameraControlConfig)
    ensures Directives(c)[0] == SetAutoFocusMode(c.autoFocusMode)
    ensures Count(Directives(c), AutoFocusModeSetter) == 1
    ensures Count(Directives(c), ManualFocusSetter) > 0 <==> c.autoFocusMode == 0
    ensures c.autoFocusMode == 0 ==> SetManualFocus(c.manualFocus) in Directives(c)
    ensures Count(Directives(c), AutoFocusTriggerSetter) > 0 <==> c.autoFocusMode != 0 && OneShotFocusMode(c.autoFocusMode)
    ensures Count(Directives(c), ManualFocusSetter) + Count(Directives(c), AutoFocusTriggerSetter) <= 1
    ensures c.autoFocusMode == 3 || c.autoFocusMode == 4 ==>
      Count(Directives(c), ManualFocusSetter) == 0 && Count(Directives(c), AutoFocusTriggerSetter) == 0
    ensures c.autoFocusMode in {1, 2, 5} ==> SetAutoFocusTrigger in Directives(c)
  {
    SetterCounts(c, AutoFocusModeSetter);
    SetterCounts(c, ManualFocusSetter);
    SetterCounts(c, AutoFocusTriggerSetter);
  }

  /**
    Exactly one of auto and manual exposure is selected, by whether the
    exposure time is zero. Under auto exposure the lock, compensation and
    anti-banding are set from the request and no manual exposure is set; under
    manual exposure only the time and sensitivity are set.
   */
  lemma ExposureArbitration(c: CameraControlConfig)
    ensures Count(Directives(c), AutoExposureEnableSetter) + Count(Directives(c), ManualExposureSetter) == 1
    ensures Count(Directives(c), AutoExposureEnableSetter) == 1 <==> c.manualExposureTime == 0
    ensures c.manualExposureTime == 0 ==>
      SetAutoExposureLock(c.autoExposureLock) in Directives(c) &&
      SetAutoExposureCompensation(c.autoExposureCompensation) in Directives(c) &&
      SetAntiBandingMode(c.antiBandingMode) in Directives(c) &&
      Count(Directives(c), ManualExposureSetter) == 0
    ensures c.manualExposureTime != 0 ==>
      SetManualExposure(c.manualExposureTime, c.manualExposureIso) in Directives(c) &&
      Count(Directives(c), AutoExposureLockSetter) == 0 &&
      Count(Directives(c), AutoExposureCompensationSetter) == 0 &&
      Count(Directives(c), AntiBandingModeSetter) == 0
  {
    SetterCounts(c, AutoExposureEnableSetter);
    SetterCounts(c, ManualExposureSetter);
    SetterCounts(c, AutoExposureLockSetter);
    SetterCounts(c, AutoExposureCompensationSetter);
    SetterCounts(c, AntiBandingModeSetter);
    assert ExposureDirectives(c) <= Directives(c)[|FocusDirectives(c)|..];
  }

  /**
    The white balance mode is always set, and then exactly one of a lock (for a
    positive mode) or a manual colour temperature (otherwise). The lock's
    argument is the mode value itself, so it is never zero.
   */
  lemma WhiteBalanceArbitration(c: CameraControlConfig)
    ensures Count(Directives(c), AutoWhiteBalanceModeSetter) == 1
    ensures SetAutoWhiteBalanceMode(c.autoWhiteBalanceMode) in Directives(c)
    ensures Count(Directives(c), AutoWhiteBalanceLockSetter) + Count(Directives(c), ManualWhiteBalanceSetter) == 1
    ensures c.autoWhiteBalanceMode > 0 ==>
      SetAutoWhiteBalanceLock(c.autoWhiteBalanceMode) in Directives(c) && Count(Directives(c), ManualWhiteBalanceSetter) == 0
    ensures c.autoWhiteBalanceMode <= 0 ==>
      SetManualWhiteBalance(c.manualWhiteBalance) in Directives(c) && Count(Directives(c), AutoWhiteBalanceLockSetter) == 0
    ensures forall d :: d in Directives(c) && d.SetAutoWhiteBalanceLock? ==>
      d.whiteBalanceLock == c.autoWhiteBalanceMode && d.whiteBalanceLock != 0
  {
    SetterCounts(c, AutoWhiteBalanceModeSetter);
    SetterCounts(c, AutoWhiteBalanceLockSetter);
    SetterCounts(c, ManualWhiteBalanceSetter);
    var d := Directives(c);
    assert d == FocusDirectives(c) + ExposureDirectives(c) + WhiteBalanceDirectives(c);
    assert d[|d| - 2] == SetAutoWhiteBalanceMode(c.autoWhiteBalanceMode);
  }

  /**
    Each mode select comes before the values it governs: the message opens
    with the focus mode; under auto exposure the enable comes right after the
    focus part, followed by lock, compensation and anti-banding; and its last
    two directives are the white balance mode followed by the lock or the
    manual temperature. It holds four to eight directives.
   */
  lemma DirectiveOrder(c: CameraControlConfig)
    ensures 4 <= |Directives(c)| <= 8
    ensures Directives(c)[0].SetAutoFocusMode?
    ensures c.manualExposureTime == 0 ==>
      var k := |FocusDirectives(c)|;
      Directives(c)[k..k + 4] ==
        [ SetAutoExposureEnable, SetAutoExposureLock(c.autoExposureLock),
          SetAutoExposureCompensation(c.autoExposureCompensation), SetAntiBandingMode(c.antiBandingMode) ]
    ensures Directives(c)[|Directives(c)| - 2] == SetAutoWhiteBalanceMode(c.autoWhiteBalanceMode)
    ensures Directives(c)[|Directives(c)| - 1].Setter() in {AutoWhiteBalanceLockSetter, ManualWhiteBalanceSetter}
    ensures forall i :: 1 <= i < |Directives(c)| ==> !Directives(c)[i].SetAutoFocusMode?
  {
  }

  /** Scenario: auto focus off, auto exposure, manual white balance. */
  lemma ScenarioManualFocusAutoExposure()
    ensures Directives(CameraControlConfig(0, 120, 0, 100, true, 2, 1, 0, 4500)) ==
      [ SetAutoFocusMode(0), SetManualFocus(120),
        SetAutoExposureEnable, SetAutoExposureLock(true), SetAutoExposureCompensation(2), SetAntiBandingMode(1),
        SetAutoWhiteBalanceMode(0), SetManualWhiteBalance(4500) ]
  {
  }

  // ---------------------------------------------------------------------------
  // The control message and the queue

  /** A camera control message under construction: the setters called on it so far. */
  class CameraControl {
    var directives: seq<Directive>

    constructor ()
      ensures directives == []
    {
      directives := [];
    }

    /** Calls the setter `d` names, with `d`'s argument. */
    method Set(d: Directive)
      modifies this
      ensures directives == old(directives) + [d]
    {
      directives := directives + [d];
    }
  }

  /** The host side of the device's "control" input: the messages sent on it, oldest first. */
  class ControlQueue {
    var sent: seq<seq<Directive>>

    constructor ()
      ensures sent == []
    {
      sent := [];
    }

    method Send(message: seq<Directive>)
      modifies this
      ensures sent == old(sent) + [message]
    {
      sent := sent + [message];
    }
  }

  /** Builds the control message for a request by calling its setters in order. */
  method BuildControl(config: CameraControlConfig) returns (message: seq<Directive>)
    ensures message == Directives(config)
  {
    var ctrl := new CameraControl();
    ctrl.Set(SetAutoFocusMode(config.autoFocusMode));
    if config.autoFocusMode == 0 {
      ctrl.Set(SetManualFocus(config.manualFocus));
    } else if config.autoFocusMode < 3 || config.autoFocusMode == 5 {
      ctrl.Set(SetAutoFocusTrigger);
    }
    assert ctrl.directives == FocusDirectives(config);

    if config.manualExposureTime == 0 {
      ctrl.Set(SetAutoExposureEnable);
      ctrl.Set(SetAutoExposureLock(config.autoExposureLock));
      ctrl.Set(SetAutoExposureCompensation(config.autoExposureCompensation));
      ctrl.Set(SetAntiBandingMode(config.antiBandingMode));
    } else {
      ctrl.Set(SetManualExposure(config.manualExposureTime, config.manualExposureIso));
    }
    assert ctrl.directives == FocusDirectives(config) + ExposureDirectives(config);

    ctrl.Set(SetAutoWhiteBalanceMode(config.autoWhiteBalanceMode));
    if config.autoWhiteBalanceMode > 0 {
      ctrl.Set(SetAutoWhiteBalanceLock(config.autoWhiteBalanceMode));
    } else {
      ctrl.Set(SetManualWhiteBalance(config.manualWhiteBalance));
    }
    message := ctrl.directives;
  }

  /**
    The reconfiguration callback: builds the message and sends it once on the
    control queue if there is one; with no queue nothing is sent anywhere.
    `level` is unused.
   */
  method ReconfigureCallback(config: CameraControlConfig, level: nat, controlQueue: ControlQueue?)
    modifies controlQueue
    ensures controlQueue != null ==> controlQueue.sent == old(controlQueue.sent) + [Directives(config)]
  {
    var message := BuildControl(config);
    if controlQueue != null {
      controlQueue.Send(message);
    }
  }
}
