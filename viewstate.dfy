/** The state of one `solar-storage-ui` element: the optional readings and
    settings the listener assigns, the stored commands, and the UI-only state
    (which device detail is shown, which edit dialog is open). `Snapshot` is
    that state as a value; the element itself is `Dashboard.SolarStorageUI`. */
module ViewState {
  import opened JsValues
  import opened Actions

  /** The element's optional data fields, one per `@state()` reading or setting. */
  datatype Field =
    | SunlightStatus | Pv1Active | Pv2Active | Pv1Power | Pv2Power
    | OutputPower1 | OutputPower2 | OutputTotal | OutputEnabled1 | OutputEnabled2
    | BatteryPercentage | EnergyStored
    | Dod | DodMin | DodMax
    | DischargeThreshold | DischargeThresholdMin | DischargeThresholdMax
    | LastUpdate | Temperature1 | Temperature2
    | DeviceGeneration | DeviceName | DeviceType | DeviceId | Mac
    | Bluetooth | Wifi | Mqtt

  /** The element's optional command fields. */
  datatype CommandSlot = ToggleOutput1 | ToggleOutput2 | SetDoD | SetDischargeThreshold

  /** `deviceInfoToShow`: which device detail the info line shows. */
  datatype DeviceInfo = ShowDeviceName | ShowDeviceType | ShowDeviceId | ShowMac

  /** One click on the info line (`_toggleDeviceInfo`). */
  function NextDeviceInfo(d: DeviceInfo): (r: DeviceInfo)
    ensures r != ShowDeviceName
  {
    match d
    case ShowDeviceName => ShowDeviceType
    case ShowDeviceType => ShowDeviceId
    case ShowDeviceId => ShowMac
    case ShowMac => ShowDeviceType
  }

  /** `n` clicks on the info line. */
  function AdvanceDeviceInfo(d: DeviceInfo, n: nat): DeviceInfo
    decreases n
  {
    if n == 0 then d else AdvanceDeviceInfo(NextDeviceInfo(d), n - 1)
  }

  /** Once left, the device name is never shown again. */
  lemma {:induction false} DeviceNameNotReentered(d: DeviceInfo, n: nat)
    requires n > 0
    ensures AdvanceDeviceInfo(d, n) != ShowDeviceName
    decreases n
  {
    if n > 1 {
      DeviceNameNotReentered(NextDeviceInfo(d), n - 1);
    }
  }

  /** Away from the device name the cursor cycles through type, id and MAC. */
  lemma {:induction false} DeviceInfoCycle(d: DeviceInfo, n: nat)
    requires d != ShowDeviceName
    ensures AdvanceDeviceInfo(d, n + 3) == AdvanceDeviceInfo(d, n)
    decreases n
  {
    if n == 0 {
      var d1 := NextDeviceInfo(d);
      var d2 := NextDeviceInfo(d1);
      assert AdvanceDeviceInfo(d, 3) == AdvanceDeviceInfo(d2, 1);
      assert AdvanceDeviceInfo(d2, 1) == NextDeviceInfo(d2);
    } else {
      DeviceInfoCycle(NextDeviceInfo(d), n - 1);
    }
  }

  /** From the initial `deviceName`, three clicks show the MAC and a fourth the
      device type; after the first click every three clicks return to where
      they started. */
  lemma DeviceInfoFromStart(n: nat)
    ensures AdvanceDeviceInfo(ShowDeviceName, 3) == ShowMac
    ensures AdvanceDeviceInfo(ShowDeviceName, 4) == ShowDeviceType
    ensures n > 0 ==> AdvanceDeviceInfo(ShowDeviceName, n + 3) == AdvanceDeviceInfo(ShowDeviceName, n)
  {
    if n > 0 {
      DeviceInfoCycle(ShowDeviceType, n - 1);
    }
  }

  /** The whole state of one element as a value. The optional data fields
      are one map: a field with no key is unset (`undefined`), as is a key
      holding `None`. */
  datatype Snapshot = Snapshot(
    number: string,
    fields: map<Field, Option<Value>>,
    toggleOutput1: Option<Command>,
    toggleOutput2: Option<Command>,
    dodModalOpen: bool,
    setDoD: Option<Command>,
    dischargeThresholdModalOpen: bool,
    setDischargeThreshold: Option<Command>,
    deviceInfoToShow: DeviceInfo)

  /** A freshly created element with the given `number` property: every
      optional field unset, both dialogs closed, the device name shown. */
  function Initial(number: string): (s: Snapshot)
    ensures s.number == number && s.deviceInfoToShow == ShowDeviceName
    ensures !s.dodModalOpen && !s.dischargeThresholdModalOpen
    ensures forall f :: Get(s, f).None?
    ensures forall c :: GetCommand(s, c).None?
  {
    Snapshot(number, map[], None, None, false, None, false, None, ShowDeviceName)
  }

  /** `this.<f>`. */
  function Get(s: Snapshot, f: Field): Option<Value>
  {
    if f in s.fields then s.fields[f] else None
  }

  /** `this.<c>` for a command field. */
  function GetCommand(s: Snapshot, c: CommandSlot): Option<Command>
  {
    match c
    case ToggleOutput1 => s.toggleOutput1
    case ToggleOutput2 => s.toggleOutput2
    case SetDoD => s.setDoD
    case SetDischargeThreshold => s.setDischargeThreshold
  }

  /** `this.<f> = v`: field `f` now holds `v`, every other field is as before. */
  function Set(s: Snapshot, f: Field, v: Option<Value>): (r: Snapshot)
    ensures forall g :: Get(r, g) == if g == f then v else Get(s, g)
  {
    s.(fields := s.fields[f := v])
  }

  /** Assigning a data field leaves the commands and the UI state alone. */
  lemma SetKeepsRest(s: Snapshot, f: Field, v: Option<Value>)
    ensures forall c :: GetCommand(Set(s, f, v), c) == GetCommand(s, c)
    ensures Set(s, f, v).number == s.number && Set(s, f, v).deviceInfoToShow == s.deviceInfoToShow
    ensures Set(s, f, v).dodModalOpen == s.dodModalOpen
    ensures Set(s, f, v).dischargeThresholdModalOpen == s.dischargeThresholdModalOpen
  {
  }

  /** `this.<c> = v` for a command field. */
  function SetCommand(s: Snapshot, c: CommandSlot, v: Option<Command>): (r: Snapshot)
    ensures GetCommand(r, c) == v
    ensures forall d :: d != c ==> GetCommand(r, d) == GetCommand(s, d)
    ensures forall f :: Get(r, f) == Get(s, f)
    ensures r.number == s.number && r.deviceInfoToShow == s.deviceInfoToShow
    ensures r.dodModalOpen == s.dodModalOpen && r.dischargeThresholdModalOpen == s.dischargeThresholdModalOpen
  {
    match c
    case ToggleOutput1 => s.(toggleOutput1 := v)
    case ToggleOutput2 => s.(toggleOutput2 := v)
    case SetDoD => s.(setDoD := v)
    case SetDischargeThreshold => s.(setDischargeThreshold := v)
  }

  /** The battery gauge's alert class: both the charge and the depth of
      discharge are present and not null, and the charge is at most 100 minus
      the depth of discharge, compared after JavaScript's numeric conversion
      of both (a NaN operand makes it false). */
  function BatteryAlert(s: Snapshot): (r: bool)
    ensures r ==> NotNullish(Get(s, BatteryPercentage)) && NotNullish(Get(s, Dod))
    ensures Get(s, BatteryPercentage).Some? && Get(s, BatteryPercentage).value.Int? &&
            Get(s, Dod).Some? && Get(s, Dod).value.Int? ==>
      (r <==> Get(s, BatteryPercentage).value.i + Get(s, Dod).value.i <= 100)
  {
    var pct := Get(s, BatteryPercentage);
    var dod := Get(s, Dod);
    && NotNullish(pct)
    && NotNullish(dod)
    && var p := ToNumber(pct.value);
    && var d := ToNumber(dod.value);
    && p.Some? && d.Some? && p.value <= 100 - d.value
  }
}
