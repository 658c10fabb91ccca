# Solar storage dashboard element, modelled in Dafny

This project models the `solar-storage-ui` web component of the B2500
solar-storage dashboard (`packages/v3/src/esp-storage-dashboard.ts`). The
device firmware pushes `state` events. Each one is a JSON object
`{id, value, min_value?, max_value?}` whose `id` names an entity, for example
`number-b2500_-_1_-_dod__dod`. One element exists per battery slot. Each
element keeps the latest value of every reading it knows. It stores the
commands the page can send back, and it turns a command into an HTTP `POST`
against the firmware's REST API.

The model has six modules:

- `JsValues` holds the decoded JSON scalars (`undefined` is `None`) and the
  JavaScript conversions the element relies on. These are rendering an integer
  inside `"…" + v`, reading a string back as a number, and `x != null`.
- `Identifier` models the anchored identifier pattern of line 27. An
  identifier is one of seven entity classes, a `-`, the family tag `b2500`
  with `_-_`, one digit, `_-_`, and then a name and an attribute id separated
  by `__`, with no line terminator anywhere in the tail. `Match` is a
  structured parser of it. `Denotes` says declaratively what the
  pattern accepts, and the two are proved to agree.
  - The other module in the same file, `RegexEscape`, models `escapeRegex`.
- `Actions` models `getBasePath` and `doAction`. The page's path is a
  parameter, and the request is returned as data instead of being fetched.
  - Stored commands, the closures of the source, are data: a setter bound to
    an entity id, or a fixed action on an entity id.
- `ViewState` holds the element's state as a value (`Snapshot`), the cursor
  of the device-info line, and the battery alert predicate.
- `Dispatch` models the `state` listener as a function `Step` on snapshots.
  - The `switch` is `DispatchAttr`: its cases are tested in source order, so
    the first case whose label equals the attribute id runs.
  - `Resolved` is an independent dictionary reading of the switch, and the
    two are proved equal.
- `Dashboard` holds the class `SolarStorageUI`. Its fields are updated in
  place by its methods.
  - A method that changes the element is specified by the function on
    snapshots it performs (`ensures State() == Step(old(State()), msg)`).
  - The output handlers change nothing. They are specified by the request
    they return.
  - The dialog handlers are specified both ways: their state half by the
    snapshot update (the dialog closes), and their call half by the
    `CallOutcome` they return.

The model follows the code where it is narrower or different from what one
might expect:

- The slot is a single digit (`\d`), and it is compared with the element's
  `number` property as a one-character string. A `number` of another length
  never accepts a message.
- `.*` is greedy, so the attribute id is the text after the LAST `__`. A
  name that contains `__` stays in the name group.
- The device family `b2500` is written into the pattern. `escapeRegex` is
  never applied to it, and the model proves that escaping would not change it.
- The switch labels `out_1_-_power` and `out_2_-_power` each appear twice.
  The earlier case (the power reading) always wins. The later cases, which
  would build the output toggle commands, never run, so the toggles stay unset
  and the output buttons never send anything.
  - If a toggle were built, its verb would come from the message's own
    `value` (`true` gives `turn_off`), not from the output's active flag.
- A `dod` or `discharge_threshold` message installs its setter whatever the
  value is, `null` included.
- Submitting a settings dialog closes it and then calls the setter without a
  guard. With no setter stored, the call throws (`NotCallable`).

## Model

| member | source | states |
|---|---|---|
| `Identifier.Match` | packages/v3/src/esp-storage-dashboard.ts:26-36 | a successful match recomposes exactly into the identifier it came from |
| `Identifier.MatchSound` | packages/v3/src/esp-storage-dashboard.ts:27 | every match has an admitted class, a digit slot, name and attribute groups free of line terminators, and the longest possible name |
| `Identifier.MatchComplete` | packages/v3/src/esp-storage-dashboard.ts:27 | every identifier of the pattern's shape matches, with exactly its own groups (so the parse is unique) |
| `Identifier.MatchIffDenotes` | packages/v3/src/esp-storage-dashboard.ts:27 | an identifier matches if and only if some choice of groups composes to it |
| `Identifier.LastPair` | packages/v3/src/esp-storage-dashboard.ts:27 | finds the last `__` of a text, or reports that it has none |
| `Identifier.MatchTail` | packages/v3/src/esp-storage-dashboard.ts:27 | the name and attribute groups recompose the tail around a `__` |
| `Identifier.MatchAfterClass` | packages/v3/src/esp-storage-dashboard.ts:27 | a match after the class keeps the class and recomposes the rest of the id |
| `Identifier.GreedyNameExample` | packages/v3/src/esp-storage-dashboard.ts:27 | in `sensor-b2500_-_1_-_a__b__c` the name is `a__b` and the attribute id is `c` |
| `Identifier.EmptyGroupsExample` | packages/v3/src/esp-storage-dashboard.ts:27 | the name and attribute groups may both be empty |
| `Identifier.UnknownClassRejected` | packages/v3/src/esp-storage-dashboard.ts:27 | text before the first `-` outside the seven classes does not match |
| `Identifier.NoClassSeparatorRejected` | packages/v3/src/esp-storage-dashboard.ts:27 | an identifier with no `-` does not match |
| `Identifier.ForeignFamilyRejected` | packages/v3/src/esp-storage-dashboard.ts:27 | anything other than `b2500_-_` after the class does not match |
| `Identifier.MultiDigitSlotRejected` | packages/v3/src/esp-storage-dashboard.ts:27 | a slot of two digits does not match |
| `Identifier.NoAttributeSeparatorRejected` | packages/v3/src/esp-storage-dashboard.ts:27 | a tail without `__` does not match |
| `Identifier.LineTerminatorRejected` | packages/v3/src/esp-storage-dashboard.ts:27 | a line terminator in the tail defeats `.` |
| `RegexEscape.EscapeRegex` | packages/v3/src/esp-storage-dashboard.ts:7-9 | the escaped text is longer by the number of metacharacters (with `EscapeRegexAppend` and `EscapeRegexChar` this pins where each backslash goes) |
| `RegexEscape.EscapeRegexAppend` | packages/v3/src/esp-storage-dashboard.ts:8 | escaping a concatenation concatenates the escapes, since the replacement is global and per character |
| `RegexEscape.EscapeRegexChar` | packages/v3/src/esp-storage-dashboard.ts:8 | a single metacharacter gets one backslash before it, and any other character is kept |
| `RegexEscape.UnescapeEscapeRegex` | packages/v3/src/esp-storage-dashboard.ts:7-9 | escaped text reads back as the original |
| `RegexEscape.EscapeRegexWithoutMeta` | packages/v3/src/esp-storage-dashboard.ts:7-9 | text without metacharacters is its own escape |
| `RegexEscape.FamilyTagNeedsNoEscape` | packages/v3/src/esp-storage-dashboard.ts:27 | escaping `b2500` gives `b2500`, the literal in the pattern |
| `JsValues.StringToNumberOfIntToString` | packages/v3/src/esp-storage-dashboard.ts:80 | the decimal text of any integer reads back as that integer |
| `JsValues.ConcatText` | packages/v3/src/esp-storage-dashboard.ts:80 | string concatenation renders `undefined` as `undefined`, a string as itself, and an integer as text that reads back as it |
| `JsValues.ToNumber` | packages/v3/src/esp-storage-dashboard.ts:571-573 | numeric conversion keeps integers and maps booleans to 1 and 0 |
| `JsValues.IntToString` | packages/v3/src/esp-storage-dashboard.ts:80 | `String(n)`: never empty, and it starts with `-` exactly for a negative integer; `StringToNumberOfIntToString` proves it reads back |
| `JsValues.NotNullish` | packages/v3/src/esp-storage-dashboard.ts:100 | loose `!= null` is false exactly for `undefined` and `null` (also used at :571-572) |
| `JsValues.StringToNumber` | packages/v3/src/esp-storage-dashboard.ts:573 | a string read as a number that does not start with `-` is never negative |
| `JsValues.IndexOf` | packages/v3/src/esp-storage-dashboard.ts:27 | the first position of a character, or its absence |
| `Actions.GetBasePath` | packages/v3/src/esp-storage-dashboard.ts:643-646 | exactly one trailing `/` is dropped, and any other path is kept |
| `Actions.JoinSplit` | packages/v3/src/esp-storage-dashboard.ts:649-651 | joining what a split produced, with the same separator, gives back the text |
| `Actions.Join` | packages/v3/src/esp-storage-dashboard.ts:651 | the first part leads the result and, when there are more parts, the separator follows it |
| `Actions.SplitJoin` | packages/v3/src/esp-storage-dashboard.ts:649-651 | splitting a join of separator-free parts gives back the parts, the converse of `JoinSplit` |
| `Actions.IndexOfAfterPart` | packages/v3/src/esp-storage-dashboard.ts:649 | the first separator after a separator-free part is the one right after it |
| `Actions.Split` | packages/v3/src/esp-storage-dashboard.ts:649 | a split yields at least one part, and no part holds the separator |
| `Actions.SplitRestIsEntityPath` | packages/v3/src/esp-storage-dashboard.ts:651 | joining the parts after the first gives the text after the first `-` |
| `Actions.DomainEntityPathRoundTrip` | packages/v3/src/esp-storage-dashboard.ts:649-651 | the domain has no `-`, and domain, `-` and entity path recompose the id |
| `Actions.DoAction` | packages/v3/src/esp-storage-dashboard.ts:648-658 | a `POST` with body `true` to the base path, then the id's text before its first `-`, then the rest of the id, then the action |
| `Actions.Run` | packages/v3/src/esp-storage-dashboard.ts:80 | calling a stored closure posts `true`; a setter targets `set?value=` followed by the rendered argument, a fixed action ignores any argument. This models the calls at :86-87, :455 and :487 too |
| `Actions.SetValueRequest` | packages/v3/src/esp-storage-dashboard.ts:79-80 | a setter called with an integer posts `set?value=` with that integer, which reads back |
| `ViewState.NextDeviceInfo` | packages/v3/src/esp-storage-dashboard.ts:466-483 | a click never brings back the device name |
| `ViewState.DeviceNameNotReentered` | packages/v3/src/esp-storage-dashboard.ts:466-483 | after any positive number of clicks the device name is not shown |
| `ViewState.DeviceInfoCycle` | packages/v3/src/esp-storage-dashboard.ts:466-483 | away from the name, the cursor has period three |
| `ViewState.DeviceInfoFromStart` | packages/v3/src/esp-storage-dashboard.ts:188 | from the initial name, three clicks show the MAC, four the type, then the cycle repeats |
| `ViewState.Initial` | packages/v3/src/esp-storage-dashboard.ts:152-188 | a fresh element has every optional field unset, both dialogs closed and the name shown |
| `ViewState.Set` | packages/v3/src/esp-storage-dashboard.ts:152-187 | an assignment changes its own field and no other |
| `ViewState.SetKeepsRest` | packages/v3/src/esp-storage-dashboard.ts:152-187 | assigning a data field leaves the commands, `number`, the cursor and the dialogs alone |
| `ViewState.SetCommand` | packages/v3/src/esp-storage-dashboard.ts:162-175 | storing a command changes that command and nothing else |
| `ViewState.BatteryAlert` | packages/v3/src/esp-storage-dashboard.ts:571-575 | the alert needs both values present, and for integers it holds exactly when charge plus depth of discharge is at most 100 |
| `Dispatch.DispatchIsResolved` | packages/v3/src/esp-storage-dashboard.ts:42-144 | first-match over the switch equals the dictionary, so the duplicated labels resolve to their earlier cases |
| `Dispatch.SettingCases` | packages/v3/src/esp-storage-dashboard.ts:58-88 | `dod`, `discharge_threshold` and both `out_N_-_power` labels reach their first cases |
| `Dispatch.DispatchAttr` | packages/v3/src/esp-storage-dashboard.ts:42-148 | the switch, first label that equals the id wins; no id selects a case that builds a toggle, because the two toggle cases at :98-120 repeat earlier labels |
| `Dispatch.UnknownAttributeIgnored` | packages/v3/src/esp-storage-dashboard.ts:145-147 | an id no label names falls to the default case |
| `Dispatch.RouteOf` | packages/v3/src/esp-storage-dashboard.ts:29-42 | an accepted message has a string id that matches, carries this element's slot, and names a case |
| `Dispatch.ToggleCommand` | packages/v3/src/esp-storage-dashboard.ts:99-106 | the toggle closure: none for a nullish value, otherwise a fixed action on the message's own id that is `turn_off` exactly when the value is `true` and `turn_on` otherwise |
| `Dispatch.ApplyEffect` | packages/v3/src/esp-storage-dashboard.ts:43-144 | one case body: it never changes `number`, the cursor or the dialogs, and only a toggle case changes a toggle (fields and commands in `ApplyEffectFields`, `ApplyEffectCommands`) |
| `Dispatch.ApplyEffectFields` | packages/v3/src/esp-storage-dashboard.ts:42-148 | a case assigns exactly its own fields, each from its part of the message, and leaves every other field alone |
| `Dispatch.ApplyEffectCommands` | packages/v3/src/esp-storage-dashboard.ts:76-120 | a case stores at most its one command and leaves the others alone |
| `Dispatch.RoutedStep` | packages/v3/src/esp-storage-dashboard.ts:29-148 | a routed message runs exactly its case |
| `Dispatch.AcceptedRoute` | packages/v3/src/esp-storage-dashboard.ts:29-42 | a message whose id string matches with this slot and a known attribute is routed to that attribute's case |
| `Dispatch.Step` | packages/v3/src/esp-storage-dashboard.ts:17-148 | one `state` event: no message changes `number`, the info cursor, the dialogs or either toggle command |
| `Dispatch.UnmatchedMessageIgnored` | packages/v3/src/esp-storage-dashboard.ts:29-35 | a non-string or non-matching id changes nothing |
| `Dispatch.OtherSlotIgnored` | packages/v3/src/esp-storage-dashboard.ts:37-39 | a message for another slot changes nothing |
| `Dispatch.LongNumberIgnoresAll` | packages/v3/src/esp-storage-dashboard.ts:13 | an element whose `number` is not one character long ignores every message |
| `Dispatch.AtMostOneElementChanges` | packages/v3/src/esp-storage-dashboard.ts:37-39 | of two elements with different `number`s, at most one changes on a message |
| `Dispatch.UnknownAttributeChangesNothing` | packages/v3/src/esp-storage-dashboard.ts:145-147 | a matching id with an unknown attribute id changes nothing |
| `Dispatch.AcceptedMessageFields` | packages/v3/src/esp-storage-dashboard.ts:43-144 | an accepted message with a known id assigns its case's fields verbatim from the message and no other field |
| `Dispatch.DodMessage` | packages/v3/src/esp-storage-dashboard.ts:76-81 | `dod` sets the value, minimum and maximum and installs a setter on the message's own id, even for `null`; nothing else changes |
| `Dispatch.DischargeThresholdMessage` | packages/v3/src/esp-storage-dashboard.ts:82-88 | the same for the discharge threshold |
| `Dispatch.OutputPower1Message` | packages/v3/src/esp-storage-dashboard.ts:58-60 | `out_1_-_power` sets only the output power, and never the toggle |
| `Dispatch.OutputPower2Message` | packages/v3/src/esp-storage-dashboard.ts:61-63 | `out_2_-_power` sets only the output power, and never the toggle |
| `Dispatch.ReplayKeepsToggles` | packages/v3/src/esp-storage-dashboard.ts:98-120 | no sequence of messages changes the toggles |
| `Dispatch.TogglesNeverSet` | packages/v3/src/esp-storage-dashboard.ts:452-464 | from a fresh element the toggles are never set, so the output handlers never send |
| `Dispatch.MatchedIdTarget` | packages/v3/src/esp-storage-dashboard.ts:648-651 | for a matched id, the request's domain is the entity class and the entity path is the rest of the id |
| `Dispatch.DodSetterRequest` | packages/v3/src/esp-storage-dashboard.ts:76-81 | after a `dod` message, submitting `v` posts to base, class, rest of the id and `set?value=v` |
| `Dashboard.SolarStorageUI.constructor` | packages/v3/src/esp-storage-dashboard.ts:152-188 | a new element is the initial snapshot with `number` `"0"` |
| `Dashboard.SolarStorageUI.SetNumber` | packages/v3/src/esp-storage-dashboard.ts:13 | setting the attribute changes `number` only |
| `Dashboard.SolarStorageUI.StoreCommand` | packages/v3/src/esp-storage-dashboard.ts:98-120 | one command field is replaced and the rest of the element is unchanged |
| `Dashboard.SolarStorageUI.RunCase` | packages/v3/src/esp-storage-dashboard.ts:42-144 | running a case updates the fields as the case's snapshot function says |
| `Dashboard.SolarStorageUI.HandleState` | packages/v3/src/esp-storage-dashboard.ts:17-149 | the listener changes the element exactly as `Step` does |
| `Dashboard.SolarStorageUI.ToggleDeviceInfo` | packages/v3/src/esp-storage-dashboard.ts:466-483 | a click advances the cursor by `NextDeviceInfo` and changes nothing else |
| `Dashboard.SolarStorageUI.HandleOutput1` | packages/v3/src/esp-storage-dashboard.ts:452-457 | a request exactly when a toggle is stored, namely that toggle's request |
| `Dashboard.SolarStorageUI.HandleOutput2` | packages/v3/src/esp-storage-dashboard.ts:459-464 | the same for output 2 |
| `Dashboard.SolarStorageUI.HandleChangeDoD` | packages/v3/src/esp-storage-dashboard.ts:485-488 | the dialog closes, then the stored setter's request is sent with the detail, or the call throws when none is stored |
| `Dashboard.SolarStorageUI.HandleChangeDischargeThreshold` | packages/v3/src/esp-storage-dashboard.ts:490-493 | the same for the discharge threshold |

## Left out

- The event source, `JSON.parse` and `fetch` are not modelled. A message comes
  in already decoded, and a request is returned as a value. The `.then`
  logging of the response and the `console.warn` of the default case are
  dropped.
- `window.location.pathname` is a parameter of every member that builds a
  request.
- JSON values are limited to `null`, booleans, integers and strings. Floating-point
  numbers, objects and arrays are not modelled.
- Strings are sequences of Unicode scalar values, not UTF-16 code units.
- The 29 optional `@state()` data fields are held in one map keyed by field
  name (an absent key is `undefined`), instead of as 29 separate class fields.
  The command fields, the dialog flags, `number` and the info cursor are
  separate fields as in the source.
- Lit's rendering, styles and reactivity are not modelled, and neither is
  `render` apart from the battery alert condition.
  - This includes the inline handlers in `render` that open and close the
    dialogs.
  - `input-modal.ts` and `wattage-status-box.ts` are not part of this model.
- The output handlers' `ctrlKey` test and `stopPropagation` call act only on
  the browser event, and they are not modelled.
- The `default` branch of `_toggleDeviceInfo` (:480-481) has no counterpart
  in the model. The field's declared type admits only the four values the
  other cases handle, and `DeviceInfo` has exactly those four, so that branch
  cannot run.
- `ViewState.BatteryAlert`: the comparison is modelled on integers only. A
  string operand is read by `JsValues.StringToNumber`.
- `JsValues.StringToNumber` reads the empty string, decimal integers and
  negative decimal integers. Every other string JavaScript would accept as a
  number (surrounding white space, a leading `+`, hexadecimal, fractions,
  exponents, `Infinity`) reads as NaN here.
- `JsValues.IntToString`: `Int` stands for an integer JavaScript number below
  10^21 in magnitude. Above that, JavaScript prints exponent form
  (`1e+21`), and above 2^53 a decoded number is already rounded. The model
  renders every integer in plain decimal.
- `Actions.SetValueRequest`: the plain-decimal URL it states is what
  JavaScript produces only for integers below 10^21 in magnitude.
- `Dispatch.DodSetterRequest`: the same bound applies to the submitted `v`.
