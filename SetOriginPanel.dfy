/**
 * The coordinate-method selector of the set-origin panel: the choice between
 * setting the origin manually and by the control panel, the "home the
 * machine first" tip, and the motor-power requests the selector sends to the
 * controller.  The socket is abstracted to the list of requests emitted, in
 * order; the controller's reply to a mode query is a parameter.
 */
module SetOriginPanel {
  import opened Wrappers
  import opened RunBoundary

  /** The `setMotorPowerHoldMod` values sent to the controller. */
  datatype MotorPowerMode = StayPower | ShutAll | GetCurrentMode

  /** The panel's view of the workspace, the tip flag and the requests sent so far. */
  datatype PanelState = PanelState(
    isConnected: bool,
    isHomed: bool,
    isRotate: bool,
    setupCoordinateMethod: SetupCoordinateMethod,
    showHomeTip: bool,
    motorRequests: seq<MotorPowerMode>)

  /** onChangeCoordinateMode: a request for the control-panel method needs a
      homed machine; any other method first releases the motor hold. */
  function ChangeCoordinateMode(s: PanelState, value: SetupCoordinateMethod): PanelState {
    if !s.isConnected then s
    else if value == ByControlPanel then
      if !s.isHomed then s.(showHomeTip := true)
      else s.(showHomeTip := false, setupCoordinateMethod := ByControlPanel)
    else
      s.(motorRequests := s.motorRequests + [ShutAll], setupCoordinateMethod := value)
  }

  /** The method adopted from the controller's reply to a mode query: the
      control-panel method exactly when the motors are held (`STAYPOWER`);
      `None` stands for a reply that is none of the known modes. */
  function ModeFromHoldMode(reply: Option<MotorPowerMode>): (m: SetupCoordinateMethod)
    ensures m == ByControlPanel <==> reply == Some(StayPower)
    ensures m == Manually <==> reply != Some(StayPower)
  {
    if reply != Some(StayPower) then Manually else ByControlPanel
  }

  /** The effect run when the homed, connected or rotary flags change: a
      connected linear machine is asked for its hold mode and the answer is
      fed back through onChangeCoordinateMode. */
  function SyncWithController(s: PanelState, reply: Option<MotorPowerMode>): PanelState {
    if s.isConnected && !s.isRotate then
      ChangeCoordinateMode(s.(motorRequests := s.motorRequests + [GetCurrentMode]), ModeFromHoldMode(reply))
    else s
  }

  /** The effect run when the rotary flag changes: a rotary setup releases the motor hold. */
  function RotaryChanged(s: PanelState): PanelState {
    if s.isRotate then s.(motorRequests := s.motorRequests + [ShutAll]) else s
  }

  /** The panel state, updated in place by its handlers. */
  class CoordinateSelector {
    var isConnected: bool
    var isHomed: bool
    var isRotate: bool
    var setupCoordinateMethod: SetupCoordinateMethod
    var showHomeTip: bool
    var motorRequests: seq<MotorPowerMode>

    function View(): PanelState
      reads this
    {
      PanelState(isConnected, isHomed, isRotate, setupCoordinateMethod, showHomeTip, motorRequests)
    }

    /** A freshly mounted panel: the tip hidden and nothing sent yet. */
    constructor (isConnected: bool, isHomed: bool, isRotate: bool, initialMethod: SetupCoordinateMethod)
      ensures View() == PanelState(isConnected, isHomed, isRotate, initialMethod, false, [])
    {
      this.isConnected, this.isHomed, this.isRotate := isConnected, isHomed, isRotate;
      setupCoordinateMethod := initialMethod;
      showHomeTip := false;
      motorRequests := [];
    }

    /** turnOffHoldMotorPower: sends `SHUTAll`. */
    method TurnOffHoldMotorPower()
      modifies this
      ensures View() == old(View()).(motorRequests := old(motorRequests) + [ShutAll])
    {
      motorRequests := motorRequests + [ShutAll];
    }

    /** onChangeCoordinateMode. */
    method OnChangeCoordinateMode(value: SetupCoordinateMethod)
      modifies this
      ensures View() == ChangeCoordinateMode(old(View()), value)
    {
      if !isConnected {
        return;
      }
      if value == ByControlPanel {
        if !isHomed {
          showHomeTip := true;
          return;
        }
        showHomeTip := false;
        setupCoordinateMethod := ByControlPanel;
      } else {
        TurnOffHoldMotorPower();
        setupCoordinateMethod := value;
      }
    }

    /** The hold-mode effect, with the controller's reply given. */
    method SyncHoldMode(reply: Option<MotorPowerMode>)
      modifies this
      ensures View() == SyncWithController(old(View()), reply)
    {
      if isConnected && !isRotate {
        motorRequests := motorRequests + [GetCurrentMode];
        var mode := ModeFromHoldMode(reply);
        OnChangeCoordinateMode(mode);
      }
    }

    /** The rotary effect. */
    method OnRotaryChanged()
      modifies this
      ensures View() == RotaryChanged(old(View()))
    {
      if isRotate {
        TurnOffHoldMotorPower();
      }
    }
  }

  // ---------------------------------------------------------------------------
  // Properties of the selector

  /** A disconnected panel ignores every request. */
  lemma DisconnectedIgnoresChanges(s: PanelState, value: SetupCoordinateMethod)
    requires !s.isConnected
    ensures ChangeCoordinateMode(s, value) == s
  {
  }

  /** Asking for the control-panel method on an unhomed machine only shows the tip. */
  lemma ControlPanelNeedsHoming(s: PanelState)
    requires s.isConnected && !s.isHomed
    ensures var t := ChangeCoordinateMode(s, ByControlPanel);
      && t.showHomeTip
      && t.setupCoordinateMethod == s.setupCoordinateMethod
      && t.motorRequests == s.motorRequests
      && t.(showHomeTip := s.showHomeTip) == s
  {
  }

  /** On a homed machine the control-panel method is taken and the tip hidden, with nothing sent. */
  lemma ControlPanelWhenHomed(s: PanelState)
    requires s.isConnected && s.isHomed
    ensures var t := ChangeCoordinateMode(s, ByControlPanel);
      && t.setupCoordinateMethod == ByControlPanel
      && !t.showHomeTip
      && t.motorRequests == s.motorRequests
  {
  }

  /** Any other method is taken as given, after one request releasing the motors; the tip is left alone. */
  lemma OtherMethodReleasesMotors(s: PanelState, value: SetupCoordinateMethod)
    requires s.isConnected && value != ByControlPanel
    ensures var t := ChangeCoordinateMode(s, value);
      && t.setupCoordinateMethod == value
      && t.motorRequests == s.motorRequests + [ShutAll]
      && t.showHomeTip == s.showHomeTip
  {
  }

  /** The method after a request is the one asked for, unless the panel is
      disconnected or the control-panel method was asked for before homing. */
  lemma RequestTakenUnlessBlocked(s: PanelState, value: SetupCoordinateMethod)
    ensures var t := ChangeCoordinateMode(s, value);
      t.setupCoordinateMethod == value <==>
        value == s.setupCoordinateMethod || (s.isConnected && (value != ByControlPanel || s.isHomed))
  {
  }

  /** The connection and machine flags are never touched by a request. */
  lemma ChangeKeepsMachineFlags(s: PanelState, value: SetupCoordinateMethod)
    ensures var t := ChangeCoordinateMode(s, value);
      t.isConnected == s.isConnected && t.isHomed == s.isHomed && t.isRotate == s.isRotate
  {
  }

  /** Repeating a request does not change the method or the tip again. */
  lemma ChangeSettles(s: PanelState, value: SetupCoordinateMethod)
    ensures var t := ChangeCoordinateMode(s, value);
      var u := ChangeCoordinateMode(t, value);
      u.setupCoordinateMethod == t.setupCoordinateMethod && u.showHomeTip == t.showHomeTip
  {
  }

  /** A connected, homed linear machine ends up with the method its hold mode reports. */
  lemma SyncAdoptsControllerMode(s: PanelState, reply: Option<MotorPowerMode>)
    requires s.isConnected && !s.isRotate && s.isHomed
    ensures var t := SyncWithController(s, reply);
      && t.setupCoordinateMethod == (if reply == Some(StayPower) then ByControlPanel else Manually)
      && |t.motorRequests| >= |s.motorRequests| + 1
      && t.motorRequests[|s.motorRequests|] == GetCurrentMode
  {
  }

  /** A rotary or disconnected machine is not queried. */
  lemma SyncSkipsRotaryOrDisconnected(s: PanelState, reply: Option<MotorPowerMode>)
    requires !s.isConnected || s.isRotate
    ensures SyncWithController(s, reply) == s
  {
  }

  /** Only a rotary setup sends a release request when the rotary flag changes. */
  lemma RotaryReleasesMotors(s: PanelState)
    ensures var t := RotaryChanged(s);
      && (s.isRotate ==> t.motorRequests == s.motorRequests + [ShutAll])
      && (!s.isRotate ==> t == s)
      && t.setupCoordinateMethod == s.setupCoordinateMethod
  {
  }
}
