# Shared line appearance: call-control model

A Dafny model of the core of an Asterisk ARI application for shared line
appearances. Several stations (phones) share one extension that is backed by
trunks. An incoming call rings every station. The first station to answer is
bridged with the caller and the other attempts are hung up. Digits dialled
from the bridge can then place one further call out on the first trunk. The
call is torn down when the bridge empties.

Two parts of the repository are modelled:

- `Dal.dfy` (module `Dal`) models `lib/data/dal.js`. `GetSharedExtension` is
  the source's index loop with `break`. It takes the already-parsed
  `sharedExtensions` list and is proved equal to the specification function
  `Resolve`. Lemmas then state the first-match rule, the `InvalidExtension`
  cases, and that later entries are never consulted. `GetData` wraps the
  result as `data.extension`.
- `StateMachine.dfy` (module `StateMachine`) models `lib/core/stateMachine.js`.
  The object returned by `init` becomes the class `SharedLine`. Its fields are
  the participant map, the incoming channel, the resolved extension,
  `dialString`, `allowDtmf`, `currentState`, the bridge's member list and the
  event subscriptions. Each platform request is fire-and-forget, so it is
  appended to an `effects` log as an `Effect` (`Answer`, `Hangup`,
  `Originate`, `AddToBridge`, `UpdateDeviceState`, `ContinueInDialplan`,
  `GetOrCreateBridge`). `Exited` marks where `exit` ran. Each handler's frame
  lists exactly the fields it may change (`modifies this`f`). Its `ensures`
  clauses say which effects it appends and what the changed fields hold.
  Digit collection is also specified by the functions `DigitStep` and
  `Collect`, and the lemmas about them cover whole digit sequences.
- `Scenarios.dfy` follows one call on extension "201" (stations phone1 and
  phone2, trunk trunkA) using only the contracts. Both stations ring. phone2
  answers, so phone1 is hung up and phone2 joins the caller. If instead the
  caller hangs up while both ring, phone1's and then phone2's leg are hung
  up, in the order they were tracked. Digits 9 1 5 #
  dial `SIP/915@trunkA`. phone2 leaving hangs up the caller, and the empty
  bridge publishes `NOT_INUSE`.
- `Wrappers.dfy` holds `Option`, `Result` and `Outcome`.

The device-state labels are those of `states`: IDLE is the string
`"NOT_INUSE"`.

Where the source has evident defects, the model follows the intent:

- `channel` and `data` are free variables of the closure. Here they are the
  fields `channel` and `extension`, and `ResolveContext` sets them.
- `participants.forEach` is called on a plain object. It is read as
  iteration over the map's entries in key order. The class keeps that order
  in the field `keys`.
- `isStation` is called with bare ids at line 206. The lookup is by id.
- An unknown id in `isStation` dereferences `undefined`. `IsStation` returns
  `UnknownChannel` instead, and `OnChannelLeftBridge` then fails before it
  issues anything.
- `exit` is read as a no-op on listeners that were never attached. As written,
  it would throw when `bridge` is unset.
- The filter at lines 263-265 keeps every key (see Findings). The model hangs
  up every tracked id except the winner's.
- Every handler is registered unbound: `this.onParticipantStasisStart` and
  `this.onParticipantHangup` at lines 34-35, `this.onChannelLeftBridge` at
  line 105, `this.onChannelHangup` at line 116 and
  `this.onChannelDtmfReceived` at line 156. The handlers then read `this`
  (`this.isStation`, `this.participantsIsEmpty`, `this.allowDtmf`,
  `this.dialString`, `this.updateState`, `this.joinBridge`, `this.exit`), which
  as written is whatever the emitter passes, not the machine. The model runs
  every handler as a method of `SharedLine`.
- The module exports a bare function (lines 291-293), but
  lib/sla.application.js:24 and :36 call `init` and `resolveContext` as its
  properties, and `init` itself starts with `dal.init`, which dal.js does not
  export. The evident intent is one machine, created when the client loads,
  whose `resolveContext` receives every incoming channel not tagged `dialed`.
  The model's `SharedLine` is that machine.

Other behaviour of the code that the model keeps as it is:

- `resolveContext` never compares the state it reads with BUSY, and nothing in
  stateMachine.js calls `busy`. `Busy` is modelled as the method it is.
- `onParticipantHangup` ends the call whenever the participant map empties,
  whichever participant was the last.
- `exit` only drops listeners and, given an error, hangs up the incoming
  channel. It notifies nothing else.
- The comment at lines 195-196 names two rules. When every station has left
  the bridge, the caller is hung up: `onChannelLeftBridge` does this. When the
  caller hangs up, every participant is hung up: `onChannelHangup` does this.
  The model has both, as `OnChannelLeftBridge` and `OnChannelHangup`.

## Model

| member | source | states |
|---|---|---|
| `Dal.FirstMatchFrom` | lib/data/dal.js:17-27 | the index found is the first entry at or after the start that has the key; none is found exactly when no entry from there on has it |
| `Dal.Resolve` | lib/data/dal.js:13-34 | a success carries the requested name; every failure is `InvalidExtension("Invalid specified extension: " + name)` |
| `Dal.GetSharedExtension` | lib/data/dal.js:13-35 | the index loop with `break` stays within the list and returns exactly the result of the first-match specification `Resolve` |
| `Dal.ResolveFirstMatch` | lib/data/dal.js:17-31 | when entry i is the first one with the key, the result is built from entry i alone: its `stations` and `trunks` exactly (empty lists accepted), and `InvalidExtension` when either is absent even though a match was found |
| `Dal.ResolveMissing` | lib/data/dal.js:29-31 | no entry with the key gives `InvalidExtension` |
| `Dal.ResolveIgnoresLater` | lib/data/dal.js:17-27 | once some entry has the key, appending further entries (same key or not) does not change the result |
| `Dal.GetData` | lib/data/dal.js:43-50 | returns `{extension: <lookup result>}` or the lookup's error, whatever the channel argument is |
| `StateMachine.IsStation` | lib/core/stateMachine.js:45-54 | the incoming channel answers with its own flag, any other id with its participant's flag; an id that is neither fails with `UnknownChannel` and is never reported as `false` |
| `StateMachine.NonStations` | lib/core/stateMachine.js:205-207 | succeeds exactly when every member can be classified; the result holds exactly the members that are not stations and is no longer than the member list |
| `StateMachine.NoStationRemains` | lib/core/stateMachine.js:204-209 | the filtered list is as long as the member list if and only if no remaining member is a station |
| `StateMachine.LeftBridgeHangups` | lib/core/stateMachine.js:197-217 | fails exactly when the leaving id, or (for a leaving station) some remaining member, cannot be classified; otherwise hangs up every remaining member, in member order, exactly when a station left and no station remains, and issues nothing in every other case |
| `StateMachine.Without` | lib/core/stateMachine.js:263-265 | the race losers are exactly the tracked ids other than the winner's; the winner is never among them |
| `StateMachine.WithoutAbsent` | lib/core/stateMachine.js:263-265 | deleting an id that is not tracked leaves the key list exactly as it was |
| `StateMachine.WithoutAppend` | lib/core/stateMachine.js:263-265 | deleting distributes over concatenation, so the kept keys keep their relative order: the losers come in key order |
| `StateMachine.WithoutDistinct` | lib/core/stateMachine.js:263-265 | dropping one id from a key list without repetition leaves a list without repetition |
| `StateMachine.TrackedAdd` | lib/core/stateMachine.js:31-32 | storing a channel under its own id keeps the key order in step with the map: a new id is enumerated last, each id still once |
| `StateMachine.TrackedRemove` | lib/core/stateMachine.js:281 | `delete participants[id]` keeps the key order in step with the map when the id leaves the enumeration |
| `StateMachine.HangupEach` | lib/core/stateMachine.js:188-192 | the `forEach` loop issues one hangup per listed id, in list order, and nothing else |
| `StateMachine.HangupsOnce` | lib/core/stateMachine.js:188-192 | over ids without repetition, every listed id is hung up exactly once and no other id at all |
| `StateMachine.LosersHungUpOnce` | lib/core/stateMachine.js:263-274 | when a participant wins, every other tracked participant is hung up exactly once and the winner not at all |
| `StateMachine.AsWrittenKeepsWinner` | lib/core/stateMachine.js:263-265 | as written, the filter keeps the winner's own key whenever it is tracked |
| `StateMachine.CollectClosed` | lib/core/stateMachine.js:226-229 | with `allowDtmf` false, any sequence of digits changes no field and emits nothing |
| `StateMachine.CollectDigits` | lib/core/stateMachine.js:250-252 | while collection is open, digits other than `#` are appended in arrival order and nothing is emitted |
| `StateMachine.CollectTerminated` | lib/core/stateMachine.js:234-248 | digits before the first `#` form the dial string; the `#` publishes RINGING, closes collection and emits exactly one `Originate("SIP/" + dialString + "@" + trunks[0], false)`; no later digit has any effect |
| `StateMachine.SharedLine.constructor` | lib/core/stateMachine.js:11-28 | no participants, empty dial string, collection open, no state read, nothing subscribed, nothing issued |
| `StateMachine.SharedLine.ParticipantsIsEmpty` | lib/core/stateMachine.js:56-58 | true exactly when no participant id is tracked |
| `StateMachine.SharedLine.AddParticipant` | lib/core/stateMachine.js:31-36 | the participant is tracked under its own id, a new id is enumerated after all earlier ones (a known one keeps its place), and it is subscribed for StasisStart and ChannelDestroyed |
| `StateMachine.SharedLine.ResolveContext` | lib/core/stateMachine.js:60-69 | a failed lookup throws its `InvalidExtension` and changes nothing; otherwise the incoming channel and extension are recorded and the channel is answered |
| `StateMachine.SharedLine.OnDeviceState` | lib/core/stateMachine.js:80-84 | the state read becomes `currentState` and the bridge is requested |
| `StateMachine.SharedLine.UpdateState` | lib/core/stateMachine.js:88-99 | sets `currentState` and publishes it under `Stasis:<extension name>` |
| `StateMachine.SharedLine.BridgeLoaded` | lib/core/stateMachine.js:102-117 | keeps the bridge and its members; subscribes to ChannelLeftBridge and to the incoming channel's hangup request |
| `StateMachine.SharedLine.Exit` | lib/core/stateMachine.js:124-144 | drops the bridge, hangup and DTMF subscriptions and every tracked participant's; hangs up the incoming channel only when given an error |
| `StateMachine.SharedLine.Busy` | lib/core/stateMachine.js:119-122 | continues the caller in the dialplan, then exits with no hangup |
| `StateMachine.SharedLine.GetDtmf` | lib/core/stateMachine.js:154-157 | resets the dial string to empty and subscribes to digits |
| `StateMachine.SharedLine.JoinBridge` | lib/core/stateMachine.js:159-169 | adds the incoming channel to the bridge, then the participant when one is given |
| `StateMachine.SharedLine.StationsReady` | lib/core/stateMachine.js:171-180 | exactly one station origination per configured station, in list order |
| `StateMachine.SharedLine.OnChannelHangup` | lib/core/stateMachine.js:183-193 | with no participant, exits and issues nothing else; otherwise hangs up every tracked participant, in key order, and does not exit |
| `StateMachine.SharedLine.OnChannelLeftBridge` | lib/core/stateMachine.js:197-224 | when a station leaves and no remaining member is a station, every remaining member is hung up in member order; independently, an empty bridge publishes `NOT_INUSE` and exits, dropping every subscription including each tracked participant's; an unclassifiable id fails before anything is issued |
| `StateMachine.SharedLine.OnChannelDtmfReceived` | lib/core/stateMachine.js:226-255 | one digit event moves the dial string, the collection flag, the state and the effects exactly as `DigitStep` does |
| `StateMachine.SharedLine.OnParticipantStasisStart` | lib/core/stateMachine.js:257-278 | the winner is answered; then every other tracked participant, in key order, is hung up and loses its subscriptions, and the winner is not hung up; then INUSE is published and the incoming channel and the winner are added to the bridge, in that order |
| `StateMachine.SharedLine.OnParticipantHangup` | lib/core/stateMachine.js:280-287 | removes only that participant, from the map and from the key order; publishes `NOT_INUSE` and exits if and only if no participant is left |

## Left out

- Connection setup, `client.start` and event wiring (lib/sla.application.js) are network and bootstrap code. The only decision there is that channels tagged `'dialed'` start no new session.
- The Q promise plumbing (`denodeify`, `then`, `done`) is not modelled, and neither is the order in which completions arrive. Each request is one effect, appended when it is issued.
- In `resolveContext`, the answer is followed by a device-state read. That asynchronous chain is modelled only as `OnDeviceState`, which stores the value read and requests the bridge.
- lib/core/helpers/getOrCreateBridge.js and lib/core/helpers/originator.js are not part of this model. Asking for the bridge is the effect `GetOrCreateBridge`. The originator's set-up is left out. Its `init` is taken to lead to `StationsReady`, and each channel it returns to `AddParticipant`.
- Event-emitter mechanics (`once`, `on`, `removeListener`) are kept only as subscription flags and id sets. The handlers do not consult them: the emitter only delivers an event to a subscribed handler.
- Console logging is left out.
- Loading the JSON configuration with `require`, and the `dal.init(confFilePath)` call, are file I/O. `dal.js` exports no `init`. The parsed `sharedExtensions` list is taken as input. Only object-valued entries are modelled, so a key that is present always counts as a match.
- The wiring of lib/sla.application.js:9-37 is not modelled: the export does not match the calls made on it. In the intended code one machine object serves every incoming call, so a second call would share `participants`, `dialString` and the other fields with the first. The model does not capture that sharing; each scenario uses one `SharedLine` for one call.
- `stateMachine.js:63` calls `dal.getData(channel, extension)`, which does not match the signature `(confFile, channel, extensionName)`. `GetData` is modelled against its own signature.
- `resolveContext` copies `data.isStation`, but `getData` never sets that field. The station classifier is not part of this model. `ResolveContext` takes the incoming channel's classification as a parameter.
- Before `resolveContext`, or before a bridge exists, the source would dereference `undefined`. Those paths are not modelled: the handlers that read the channel or the extension require `resolved`, and the ones that use the bridge require `hasBridge`.
- JavaScript enumerates keys that look like array indices (`"0"`, `"17"`) before all other keys, in numeric order. The field `keys` records plain insertion order, which matches only for ids that are not such strings. Channel ids of the form `<timestamp>.<sequence>` never are.

## Findings

| source | as written | input that shows it | evidently intended | confidence | as-written member | corrected member |
|---|---|---|---|---|---|---|
| lib/core/stateMachine.js:263-265 | the filter runs over `Object.keys(participants)`, which are strings, and compares `candidate.id` (undefined) with the winner's id, so it keeps every key; the loop after it then reads `.hangup` from a string, so `.bind` of undefined throws at the first key and, as written, nobody is hung up | participants `leg1` and `leg2`, winner `leg2`: `leg2` is kept among the channels to hang up | every tracked id except the winner's is hung up | high (not executed) | `StateMachine.AsWrittenKeepsWinner` | `StateMachine.Without` |
