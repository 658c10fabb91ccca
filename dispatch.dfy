/** The state-event listener as a function on snapshots: recognise the
    identifier, drop messages for other slots, and apply the FIRST case of
    the attribute switch whose label equals the attribute id. */
module Dispatch {
  import opened JsValues
  import opened Actions
  import opened ViewState
  import Identifier

  /** What one `case` of the switch does. */
  datatype Effect =
    /** `this.<field> = data.value` */
    | Assign(field: Field)
    /** sets the depth of discharge, its minimum and its maximum from the
        message's value, minimum and maximum, and stores a setter bound to the
        message's id */
    | AssignDod
    /** the same for `dischargeThreshold`, its bounds and `setDischargeThreshold` */
    | AssignDischargeThreshold
    /** stores nothing for a nullish value; otherwise a fixed action on the
        message's id, `turn_off` when the value is `true` and `turn_on` otherwise */
    | BuildToggle(toggle: CommandSlot)

  /** `switch (id)`: the cases tested in source order with `===`, the first
      that matches runs; `None` is the default case, which only warns. The
      second `out_1_-_power` and `out_2_-_power` cases are kept where the
      source has them. Those later cases can never be reached, so no
      attribute id selects a case that builds a toggle. */
  function DispatchAttr(attr: string): (r: Option<Effect>)
    ensures r.Some? ==> !r.value.BuildToggle?
  {
    if attr == "pv_1_-_active" then Some(Assign(Pv1Active))
    else if attr == "pv_2_-_active" then Some(Assign(Pv2Active))
    else if attr == "in_1_-_power" then Some(Assign(Pv1Power))
    else if attr == "in_2_-_power" then Some(Assign(Pv2Power))
    else if attr == "scene" then Some(Assign(SunlightStatus))
    else if attr == "out_1_-_power" then Some(Assign(OutputPower1))
    else if attr == "out_2_-_power" then Some(Assign(OutputPower2))
    else if attr == "total_power_out" then Some(Assign(OutputTotal))
    else if attr == "battery_level" then Some(Assign(BatteryPercentage))
    else if attr == "battery_capacity" then Some(Assign(EnergyStored))
    else if attr == "last_response" then Some(Assign(LastUpdate))
    else if attr == "dod" then Some(AssignDod)
    else if attr == "discharge_threshold" then Some(AssignDischargeThreshold)
    else if attr == "temperature_1" then Some(Assign(Temperature1))
    else if attr == "temperature_2" then Some(Assign(Temperature2))
    else if attr == "out_1_-_active" then Some(Assign(OutputEnabled1))
    else if attr == "out_1_-_power" then Some(BuildToggle(ToggleOutput1))
    else if attr == "out_2_-_active" then Some(Assign(OutputEnabled2))
    else if attr == "out_2_-_power" then Some(BuildToggle(ToggleOutput2))
    else if attr == "generation" then Some(Assign(DeviceGeneration))
    else if attr == "name" then Some(Assign(DeviceName))
    else if attr == "device_type" then Some(Assign(DeviceType))
    else if attr == "device_id" then Some(Assign(DeviceId))
    else if attr == "mac" then Some(Assign(Mac))
    else if attr == "ble_connected" then Some(Assign(Bluetooth))
    else if attr == "wifi_connected" then Some(Assign(Wifi))
    else if attr == "mqtt_connected" then Some(Assign(Mqtt))
    else None
  }

  /** The switch read as a dictionary from attribute id to effect, one entry
      per distinct label. */
  const Resolved: map<string, Effect> := map[
    "pv_1_-_active" := Assign(Pv1Active),
    "pv_2_-_active" := Assign(Pv2Active),
    "in_1_-_power" := Assign(Pv1Power),
    "in_2_-_power" := Assign(Pv2Power),
    "scene" := Assign(SunlightStatus),
    "out_1_-_power" := Assign(OutputPower1),
    "out_2_-_power" := Assign(OutputPower2),
    "total_power_out" := Assign(OutputTotal),
    "battery_level" := Assign(BatteryPercentage),
    "battery_capacity" := Assign(EnergyStored),
    "last_response" := Assign(LastUpdate),
    "dod" := AssignDod,
    "discharge_threshold" := AssignDischargeThreshold,
    "temperature_1" := Assign(Temperature1),
    "temperature_2" := Assign(Temperature2),
    "out_1_-_active" := Assign(OutputEnabled1),
    "out_2_-_active" := Assign(OutputEnabled2),
    "generation" := Assign(DeviceGeneration),
    "name" := Assign(DeviceName),
    "device_type" := Assign(DeviceType),
    "device_id" := Assign(DeviceId),
    "mac" := Assign(Mac),
    "ble_connected" := Assign(Bluetooth),
    "wifi_connected" := Assign(Wifi),
    "mqtt_connected" := Assign(Mqtt)
  ]

  /** First-match over the switch is exactly the dictionary `Resolved`: every
      label is a key, and each duplicated label (`out_1_-_power`,
      `out_2_-_power`) resolves to its EARLIER case, the power assignment. */
  lemma DispatchIsResolved(attr: string)
    requires attr in Resolved
    ensures DispatchAttr(attr) == Some(Resolved[attr])
  {
    // one case per key, so each case sees one concrete label
    if attr == "pv_1_-_active" {
    } else if attr == "pv_2_-_active" {
    } else if attr == "in_1_-_power" {
    } else if attr == "in_2_-_power" {
    } else if attr == "scene" {
    } else if attr == "out_1_-_power" {
    } else if attr == "out_2_-_power" {
    } else if attr == "total_power_out" {
    } else if attr == "battery_level" {
    } else if attr == "battery_capacity" {
    } else if attr == "last_response" {
    } else if attr == "dod" {
    } else if attr == "discharge_threshold" {
    } else if attr == "temperature_1" {
    } else if attr == "temperature_2" {
    } else if attr == "out_1_-_active" {
    } else if attr == "out_2_-_active" {
    } else if attr == "generation" {
    } else if attr == "name" {
    } else if attr == "device_type" {
    } else if attr == "device_id" {
    } else if attr == "mac" {
    } else if attr == "ble_connected" {
    } else if attr == "wifi_connected" {
    } else if attr == "mqtt_connected" {
    }
  }

  /** The cases the message lemmas below run: `dod` and
      `discharge_threshold` assign a setting, and the FIRST `out_N_-_power`
      case is the power reading. */
  lemma SettingCases()
    ensures DispatchAttr("dod") == Some(AssignDod)
    ensures DispatchAttr("discharge_threshold") == Some(AssignDischargeThreshold)
    ensures DispatchAttr("out_1_-_power") == Some(Assign(OutputPower1))
    ensures DispatchAttr("out_2_-_power") == Some(Assign(OutputPower2))
  {
  }

  /** An id none of the cases names falls to the default case. */
  lemma UnknownAttributeIgnored(attr: string)
    requires attr !in Resolved
    ensures DispatchAttr(attr).None?
  {
  }

  /** The fields one effect assigns. */
  function Writes(e: Effect): set<Field>
  {
    match e
    case Assign(f) => {f}
    case AssignDod => {Dod, DodMin, DodMax}
    case AssignDischargeThreshold => {DischargeThreshold, DischargeThresholdMin, DischargeThresholdMax}
    case BuildToggle(_) => {}
  }

  /** One decoded `state` event: `{id, value, min_value?, max_value?}`.
      A key that is absent is `None`. */
  datatype Message = Message(id: Option<Value>, value: Option<Value>, minValue: Option<Value>, maxValue: Option<Value>)

  /** A message this element acts on: its raw identifier and the case that runs. */
  datatype Route = Route(rawId: string, effect: Effect)

  /** The listener's filter: the id must be a string, match the pattern,
      carry this element's `number` as its slot, and name a known attribute. */
  function RouteOf(msg: Message, number: string): (r: Option<Route>)
    ensures r.Some? ==> msg.id == Some(Str(r.value.rawId))
    ensures r.Some? ==> Identifier.Match(r.value.rawId).Some?
    ensures r.Some? ==> [Identifier.Match(r.value.rawId).value.slot] == number
    ensures r.Some? ==> DispatchAttr(Identifier.Match(r.value.rawId).value.attr) == Some(r.value.effect)
  {
    if !(msg.id.Some? && msg.id.value.Str?) then None
    else
      var id := msg.id.value.s;
      match Identifier.Match(id)
      case None => None
      case Some(p) =>
        if [p.slot] != number then None
        else
          match DispatchAttr(p.attr)
          case None => None
          case Some(e) => Some(Route(id, e))
  }

  /** The toggle a `BuildToggle` case would store: none when the value is
      nullish, otherwise `turn_off` exactly when the value is `true`. */
  function ToggleCommand(rawId: string, value: Option<Value>): (r: Option<Command>)
    ensures r.Some? <==> NotNullish(value)
    ensures r.Some? ==> r.value.Fixed? && r.value.targetId == rawId
    ensures r.Some? ==> r.value.action in ["turn_on", "turn_off"]
    ensures r.Some? ==> (r.value.action == "turn_off" <==> value == Some(Bool(true)))
  {
    if NotNullish(value) then Some(Fixed(rawId, if value == Some(Bool(true)) then "turn_off" else "turn_on"))
    else None
  }

  /** The value a case leaves in a field it assigns (the last assignment wins). */
  function WrittenValue(e: Effect, f: Field, msg: Message): Option<Value>
  {
    match e
    case AssignDod =>
      if f == DodMax then msg.maxValue else if f == DodMin then msg.minValue else msg.value
    case AssignDischargeThreshold =>
      if f == DischargeThresholdMax then msg.maxValue else if f == DischargeThresholdMin then msg.minValue else msg.value
    case _ => msg.value
  }

  /** The command field a case stores, and what it stores there. */
  function StoredCommand(e: Effect, rawId: string, msg: Message): Option<(CommandSlot, Option<Command>)>
  {
    match e
    case Assign(_) => None
    case AssignDod => Some((SetDoD, Some(SetValue(rawId))))
    case AssignDischargeThreshold => Some((SetDischargeThreshold, Some(SetValue(rawId))))
    case BuildToggle(c) => Some((c, ToggleCommand(rawId, msg.value)))
  }

  /** Running one case on a snapshot. No case touches the `number`
      property, the shown device detail or the dialogs, and only a toggle
      case touches a toggle. */
  function ApplyEffect(s: Snapshot, rawId: string, e: Effect, msg: Message): (r: Snapshot)
    ensures r.number == s.number && r.deviceInfoToShow == s.deviceInfoToShow
    ensures r.dodModalOpen == s.dodModalOpen && r.dischargeThresholdModalOpen == s.dischargeThresholdModalOpen
    ensures !e.BuildToggle? ==> r.toggleOutput1 == s.toggleOutput1 && r.toggleOutput2 == s.toggleOutput2
  {
    match e
    case Assign(f) => Set(s, f, msg.value)
    case AssignDod =>
      s.(fields := s.fields[Dod := msg.value][DodMin := msg.minValue][DodMax := msg.maxValue],
         setDoD := Some(SetValue(rawId)))
    case AssignDischargeThreshold =>
      s.(fields := s.fields[DischargeThreshold := msg.value][DischargeThresholdMin := msg.minValue]
                           [DischargeThresholdMax := msg.maxValue],
         setDischargeThreshold := Some(SetValue(rawId)))
    case BuildToggle(c) => SetCommand(s, c, ToggleCommand(rawId, msg.value))
  }

  /** A case assigns exactly the fields in `Writes`, with the value
      `WrittenValue` names, and leaves every other field alone. */
  lemma ApplyEffectFields(s: Snapshot, rawId: string, e: Effect, msg: Message, f: Field)
    ensures Get(ApplyEffect(s, rawId, e, msg), f) == if f in Writes(e) then WrittenValue(e, f, msg) else Get(s, f)
  {
  }

  /** A case stores at most the one command `StoredCommand` names. */
  lemma ApplyEffectCommands(s: Snapshot, rawId: string, e: Effect, msg: Message, c: CommandSlot)
    ensures GetCommand(ApplyEffect(s, rawId, e, msg), c) ==
      if StoredCommand(e, rawId, msg).Some? && StoredCommand(e, rawId, msg).value.0 == c
      then StoredCommand(e, rawId, msg).value.1 else GetCommand(s, c)
  {
  }

  /** The listener's whole effect on one element. No message touches the
      `number` property, the shown device detail, the dialogs or the two
      toggle commands. */
  function Step(s: Snapshot, msg: Message): (r: Snapshot)
    ensures r.number == s.number && r.deviceInfoToShow == s.deviceInfoToShow
    ensures r.dodModalOpen == s.dodModalOpen && r.dischargeThresholdModalOpen == s.dischargeThresholdModalOpen
    ensures r.toggleOutput1 == s.toggleOutput1 && r.toggleOutput2 == s.toggleOutput2
  {
    match RouteOf(msg, s.number)
    case None => s
    case Some(Route(id, e)) => ApplyEffect(s, id, e, msg)
  }

  /** A routed message runs its case. */
  lemma RoutedStep(s: Snapshot, msg: Message, rawId: string, e: Effect)
    requires RouteOf(msg, s.number) == Some(Route(rawId, e))
    ensures Step(s, msg) == ApplyEffect(s, rawId, e, msg)
  {
  }

  /** The message a given element accepts with a given attribute id. */
  ghost predicate AcceptedWith(s: Snapshot, msg: Message, rawId: string, attr: string)
  {
    && msg.id == Some(Str(rawId))
    && Identifier.Match(rawId).Some?
    && [Identifier.Match(rawId).value.slot] == s.number
    && Identifier.Match(rawId).value.attr == attr
  }

  /** An accepted message with an attribute id some case names is routed to
      the first such case, under its own id. */
  lemma AcceptedRoute(s: Snapshot, msg: Message, rawId: string, attr: string)
    requires AcceptedWith(s, msg, rawId, attr) && DispatchAttr(attr).Some?
    ensures RouteOf(msg, s.number) == Some(Route(rawId, DispatchAttr(attr).value))
  {
  }

  /** Replaying a sequence of events, in order. */
  function Replay(s: Snapshot, msgs: seq<Message>): Snapshot
    decreases |msgs|
  {
    if msgs == [] then s else Replay(Step(s, msgs[0]), msgs[1..])
  }

  /** A message whose id is not a string, or does not match the pattern,
      changes nothing. */
  lemma UnmatchedMessageIgnored(s: Snapshot, msg: Message)
    requires !(msg.id.Some? && msg.id.value.Str?) || Identifier.Match(msg.id.value.s).None?
    ensures Step(s, msg) == s
  {
  }

  /** A message for another slot changes nothing: the slot digit must equal
      the element's `number`, so a `number` that is not one character long
      (`"12"`, say) never accepts a message. */
  lemma OtherSlotIgnored(s: Snapshot, msg: Message)
    requires msg.id.Some? && msg.id.value.Str? && Identifier.Match(msg.id.value.s).Some?
    requires [Identifier.Match(msg.id.value.s).value.slot] != s.number
    ensures Step(s, msg) == s
  {
  }

  lemma LongNumberIgnoresAll(s: Snapshot, msg: Message)
    requires |s.number| != 1
    ensures Step(s, msg) == s
  {
  }

  /** Two elements with different `number`s never both change on one message. */
  lemma AtMostOneElementChanges(s1: Snapshot, s2: Snapshot, msg: Message)
    requires s1.number != s2.number
    ensures Step(s1, msg) == s1 || Step(s2, msg) == s2
  {
  }

  /** A well-formed identifier with an attribute id no case names changes nothing. */
  lemma UnknownAttributeChangesNothing(s: Snapshot, msg: Message)
    requires msg.id.Some? && msg.id.value.Str? && Identifier.Match(msg.id.value.s).Some?
    requires Identifier.Match(msg.id.value.s).value.attr !in Resolved
    ensures Step(s, msg) == s
  {
    UnknownAttributeIgnored(Identifier.Match(msg.id.value.s).value.attr);
  }

  /** An accepted message with a recognised attribute id assigns exactly the
      fields of its case, verbatim from the message, and no other field. */
  lemma AcceptedMessageFields(s: Snapshot, msg: Message, rawId: string, attr: string, f: Field)
    requires AcceptedWith(s, msg, rawId, attr) && attr in Resolved
    ensures Get(Step(s, msg), f) ==
      if f in Writes(Resolved[attr]) then WrittenValue(Resolved[attr], f, msg) else Get(s, f)
  {
    DispatchIsResolved(attr);
    AcceptedRoute(s, msg, rawId, attr);
    RoutedStep(s, msg, rawId, Resolved[attr]);
    ApplyEffectFields(s, rawId, Resolved[attr], msg, f);
  }

  /** A `dod` message sets the value, minimum and maximum from the message
      and stores a setter bound to the message's own id, whatever the value
      is (`null` included); nothing else changes. */
  lemma DodMessage(s: Snapshot, msg: Message, rawId: string)
    requires AcceptedWith(s, msg, rawId, "dod")
    ensures Step(s, msg) ==
      Set(Set(Set(s, Dod, msg.value), DodMin, msg.minValue), DodMax, msg.maxValue).(setDoD := Some(SetValue(rawId)))
  {
    SettingCases();
    AcceptedRoute(s, msg, rawId, "dod");
    RoutedStep(s, msg, rawId, AssignDod);
  }

  /** The same for `discharge_threshold`. */
  lemma DischargeThresholdMessage(s: Snapshot, msg: Message, rawId: string)
    requires AcceptedWith(s, msg, rawId, "discharge_threshold")
    ensures Step(s, msg) ==
      Set(Set(Set(s, DischargeThreshold, msg.value), DischargeThresholdMin, msg.minValue),
          DischargeThresholdMax, msg.maxValue).(setDischargeThreshold := Some(SetValue(rawId)))
  {
    SettingCases();
    AcceptedRoute(s, msg, rawId, "discharge_threshold");
    RoutedStep(s, msg, rawId, AssignDischargeThreshold);
  }

  /** An `out_1_-_power` / `out_2_-_power` message only sets the output
      power: the earlier case wins, so no toggle is built. */
  lemma OutputPower1Message(s: Snapshot, msg: Message, rawId: string)
    requires AcceptedWith(s, msg, rawId, "out_1_-_power")
    ensures Step(s, msg) == Set(s, OutputPower1, msg.value)
  {
    SettingCases();
    AcceptedRoute(s, msg, rawId, "out_1_-_power");
    RoutedStep(s, msg, rawId, Assign(OutputPower1));
  }

  lemma OutputPower2Message(s: Snapshot, msg: Message, rawId: string)
    requires AcceptedWith(s, msg, rawId, "out_2_-_power")
    ensures Step(s, msg) == Set(s, OutputPower2, msg.value)
  {
    SettingCases();
    AcceptedRoute(s, msg, rawId, "out_2_-_power");
    RoutedStep(s, msg, rawId, Assign(OutputPower2));
  }

  /** From an element whose toggles are unset, no sequence of events ever
      sets them. */
  lemma {:induction false} ReplayKeepsToggles(s: Snapshot, msgs: seq<Message>)
    ensures Replay(s, msgs).toggleOutput1 == s.toggleOutput1
    ensures Replay(s, msgs).toggleOutput2 == s.toggleOutput2
    decreases |msgs|
  {
    if msgs != [] {
      ReplayKeepsToggles(Step(s, msgs[0]), msgs[1..]);
    }
  }

  /** So in every element the toggles stay unset, the output buttons do nothing. */
  lemma TogglesNeverSet(number: string, msgs: seq<Message>)
    ensures Replay(Initial(number), msgs).toggleOutput1.None?
    ensures Replay(Initial(number), msgs).toggleOutput2.None?
  {
    ReplayKeepsToggles(Initial(number), msgs);
  }

  /** `doAction` splits a matched identifier at its first `-`: the domain is
      the entity class and the entity path is everything after it. */
  lemma MatchedIdTarget(id: string)
    requires Identifier.Match(id).Some?
    ensures var p := Identifier.Match(id).value;
      && Domain(id) == p.sensorClass
      && EntityPath(id) == Identifier.SlotLead + ([p.slot] + ("_-_" + Identifier.Tail(p)))
  {
    var p := Identifier.Match(id).value;
    Identifier.MatchSound(id);
    assert '-' !in p.sensorClass;
    Identifier.IndexOfAfterPrefix(p.sensorClass, Identifier.SlotLead + ([p.slot] + ("_-_" + Identifier.Tail(p))));
  }

  /** End to end: after an accepted `dod` message, submitting the integer `v`
      posts `"true"` to `<base>/<class>/<rest of the id>/set?value=<v>`. */
  lemma DodSetterRequest(s: Snapshot, msg: Message, rawId: string, v: int, pathname: string)
    requires AcceptedWith(s, msg, rawId, "dod")
    ensures Step(s, msg).setDoD.Some?
    ensures var p := Identifier.Match(rawId).value;
      var r := Run(Step(s, msg).setDoD.value, Some(Int(v)), pathname);
      && r.verb == "POST" && r.body == "true"
      && r.url == GetBasePath(pathname) + "/" + p.sensorClass + "/" +
           (Identifier.SlotLead + ([p.slot] + ("_-_" + Identifier.Tail(p)))) + "/" + ("set?value=" + IntToString(v))
  {
    DodMessage(s, msg, rawId);
    MatchedIdTarget(rawId);
    SetValueRequest(rawId, v, pathname);
  }
}
