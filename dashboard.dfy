/** The `solar-storage-ui` element itself: its fields are updated in place by
    the `state` listener and by the click and dialog handlers. `State()` reads
    them back as a `ViewState.Snapshot`. A method that changes the element is
    specified by the function on snapshots it performs; the output handlers
    change nothing and are specified by the request they return; the dialog
    handlers by the dialog closing and by the `CallOutcome` they return. */
module Dashboard {
  import opened JsValues
  import opened Actions
  import opened ViewState
  import opened Dispatch
  import Identifier

  /** What calling a stored setter does: sends a request, or throws a
      `TypeError` because nothing is stored to call. */
  datatype CallOutcome = Sent(request: Request) | NotCallable

  class SolarStorageUI {
    var number: string
    /** The 29 optional `@state()` data fields, keyed by name. */
    var fields: map<Field, Option<Value>>
    var toggleOutput1: Option<Command>
    var toggleOutput2: Option<Command>
    var dodModalOpen: bool
    var setDoD: Option<Command>
    var dischargeThresholdModalOpen: bool
    var setDischargeThreshold: Option<Command>
    var deviceInfoToShow: DeviceInfo

    /** The element's fields as one value. */
    function State(): Snapshot
      reads this
    {
      Snapshot(number, fields, toggleOutput1, toggleOutput2, dodModalOpen, setDoD,
        dischargeThresholdModalOpen, setDischargeThreshold, deviceInfoToShow)
    }

    /** A new element: `number` is `"0"` until the page sets it, every
        optional field is unset, both dialogs are closed and the info line
        shows the device name. */
    constructor ()
      ensures State() == Initial("0")
    {
      number := "0";
      fields := map[];
      toggleOutput1, toggleOutput2 := None, None;
      dodModalOpen, setDoD := false, None;
      dischargeThresholdModalOpen, setDischargeThreshold := false, None;
      deviceInfoToShow := ShowDeviceName;
    }

    /** The page setting the `number` attribute. */
    method SetNumber(n: string)
      modifies this
      ensures State() == old(State()).(number := n)
    {
      number := n;
    }

    /** `this.<c> = v` for one command field. */
    method StoreCommand(c: CommandSlot, v: Option<Command>)
      modifies this
      ensures State() == SetCommand(old(State()), c, v)
    {
      match c
      case ToggleOutput1 => toggleOutput1 := v;
      case ToggleOutput2 => toggleOutput2 := v;
      case SetDoD => setDoD := v;
      case SetDischargeThreshold => setDischargeThreshold := v;
    }

    /** The body of one `case` of the switch, for the message `msg` whose
        identifier is `rawId`. */
    method RunCase(rawId: string, e: Effect, msg: Message)
      modifies this
      ensures State() == ApplyEffect(old(State()), rawId, e, msg)
    {
      match e
      case Assign(f) =>
        fields := fields[f := msg.value];
      case AssignDod =>
        fields := fields[Dod := msg.value];
        fields := fields[DodMin := msg.minValue];
        fields := fields[DodMax := msg.maxValue];
        setDoD := Some(SetValue(rawId));
      case AssignDischargeThreshold =>
        fields := fields[DischargeThreshold := msg.value];
        fields := fields[DischargeThresholdMin := msg.minValue];
        fields := fields[DischargeThresholdMax := msg.maxValue];
        setDischargeThreshold := Some(SetValue(rawId));
      case BuildToggle(c) =>
        StoreCommand(c, ToggleCommand(rawId, msg.value));
    }

    /** The `state` event listener on one decoded message: returns early
        unless the id is a string matching the pattern with this element's
        slot, then runs the first case whose label is the attribute id (the
        default case only logs). */
    method HandleState(msg: Message)
      modifies this
      ensures State() == Step(old(State()), msg)
    {
      if !(msg.id.Some? && msg.id.value.Str?) {
        return;
      }
      var id := msg.id.value.s;
      var parsed := Identifier.Match(id);
      if parsed.None? {
        return;
      }
      if [parsed.value.slot] != number {
        return;
      }
      var e := DispatchAttr(parsed.value.attr);
      if e.None? {
        return;
      }
      RoutedStep(State(), msg, id, e.value);
      RunCase(id, e.value, msg);
    }

    /** A click on the device info line: name, then type, id and MAC, then
        round again from the type. */
    method ToggleDeviceInfo()
      modifies this
      ensures State() == old(State()).(deviceInfoToShow := NextDeviceInfo(old(deviceInfoToShow)))
    {
      match deviceInfoToShow
      case ShowDeviceName => deviceInfoToShow := ShowDeviceType;
      case ShowDeviceType => deviceInfoToShow := ShowDeviceId;
      case ShowDeviceId => deviceInfoToShow := ShowMac;
      case ShowMac => deviceInfoToShow := ShowDeviceType;
    }

    /** A click on output 1: calls the stored toggle when there is one, and
        otherwise does nothing. */
    method HandleOutput1(pathname: string) returns (req: Option<Request>)
      ensures toggleOutput1.None? ==> req.None?
      ensures toggleOutput1.Some? ==> req == Some(Run(toggleOutput1.value, None, pathname))
    {
      if toggleOutput1.Some? {
        req := Some(Run(toggleOutput1.value, None, pathname));
      } else {
        req := None;
      }
    }

    /** A click on output 2, in the same way. */
    method HandleOutput2(pathname: string) returns (req: Option<Request>)
      ensures toggleOutput2.None? ==> req.None?
      ensures toggleOutput2.Some? ==> req == Some(Run(toggleOutput2.value, None, pathname))
    {
      if toggleOutput2.Some? {
        req := Some(Run(toggleOutput2.value, None, pathname));
      } else {
        req := None;
      }
    }

    /** Submitting the depth-of-discharge dialog with `detail`: closes the
        dialog, then calls the stored setter with `detail`, which throws
        when no `dod` message has installed one. */
    method HandleChangeDoD(detail: Value, pathname: string) returns (r: CallOutcome)
      modifies this
      ensures State() == old(State()).(dodModalOpen := false)
      ensures old(setDoD).None? ==> r == NotCallable
      ensures old(setDoD).Some? ==> r == Sent(Run(old(setDoD).value, Some(detail), pathname))
    {
      dodModalOpen := false;
      if setDoD.Some? {
        r := Sent(Run(setDoD.value, Some(detail), pathname));
      } else {
        r := NotCallable;
      }
    }

    /** Submitting the discharge-threshold dialog, in the same way. */
    method HandleChangeDischargeThreshold(detail: Value, pathname: string) returns (r: CallOutcome)
      modifies this
      ensures State() == old(State()).(dischargeThresholdModalOpen := false)
      ensures old(setDischargeThreshold).None? ==> r == NotCallable
      ensures old(setDischargeThreshold).Some? ==>
        r == Sent(Run(old(setDischargeThreshold).value, Some(detail), pathname))
    {
      dischargeThresholdModalOpen := false;
      if setDischargeThreshold.Some? {
        r := Sent(Run(setDischargeThreshold.value, Some(detail), pathname));
      } else {
        r := NotCallable;
      }
    }
  }
}
