/** The per-extension call-control state machine of a shared line
    (lib/core/stateMachine.js).

    Handlers run to completion one at a time. Every request to the telephony
    platform (answer, hangup, originate, add to bridge, device-state update,
    continue in dialplan) is fire-and-forget, so each is recorded as one
    `Effect` appended to the machine's `effects` log at the moment it is
    issued. Event subscriptions are kept as flags and id sets. */
module StateMachine {
  import opened Wrappers
  import Dal

  // Device-state labels; note that IDLE is reported as "NOT_INUSE".
  const BUSY := "BUSY"
  const INUSE := "INUSE"
  const IDLE := "NOT_INUSE"
  const RINGING := "RINGING"
  const UNKNOWN := "UNKNOWN"

  /** A channel handle as far as the machine looks at it: its id and the
      station flag fixed when it was classified or originated. */
  datatype Channel = Channel(id: string, isStation: bool)

  /** One request issued to the platform. `Exited` is not a request: it marks
      in the log the point where `exit` ran. */
  datatype Effect =
    | Answer(channelId: string)
    | Hangup(channelId: string)
    | Originate(endpoint: string, asStation: bool)
    | AddToBridge(channelId: string)
    | UpdateDeviceState(deviceName: string, state: string)
    | ContinueInDialplan(channelId: string)
    | GetOrCreateBridge
    | Exited

  /** Classifying an id that is neither the incoming channel nor a tracked
      participant: the source dereferences an undefined entry and throws. */
  datatype Fault = UnknownChannel(id: string)

  /** The device the state is published under. */
  function DeviceName(extensionName: string): string
  {
    "Stasis:" + extensionName
  }

  // ---------------------------------------------------------------------
  // Station classification (isStation) and the bridge-member filter

  /** Whether channel `id` is a station: the incoming channel answers for
      itself, any other id is looked up among the participants. */
  function IsStation(incoming: Channel, participants: map<string, Channel>, id: string): (r: Result<bool, Fault>)
    ensures r.Failure? <==> id != incoming.id && id !in participants
    ensures r.Failure? ==> r.error == UnknownChannel(id)
    ensures r == Success(true) <==>
              (id == incoming.id && incoming.isStation) ||
              (id != incoming.id && id in participants && participants[id].isStation)
  {
    if id == incoming.id then Success(incoming.isStation)
    else if id in participants then Success(participants[id].isStation)
    else Failure(UnknownChannel(id))
  }

  /** The bridge members that are not stations, in member order; throws on
      the first member that cannot be classified. */
  function NonStations(incoming: Channel, participants: map<string, Channel>, ids: seq<string>): (r: Result<seq<string>, Fault>)
    ensures r.Success? <==> forall k :: 0 <= k < |ids| ==> IsStation(incoming, participants, ids[k]).Success?
    ensures r.Success? ==> |r.value| <= |ids|
    ensures r.Success? ==> forall x :: x in r.value <==> x in ids && IsStation(incoming, participants, x) == Success(false)
  {
    if ids == [] then Success([])
    else
      match IsStation(incoming, participants, ids[0])
      case Failure(f) => Failure(f)
      case Success(station) =>
        match NonStations(incoming, participants, ids[1..])
        case Failure(f) => Failure(f)
        case Success(rest) => Success(if station then rest else [ids[0]] + rest)
  }

  /** The length test in `onChannelLeftBridge` means what it is meant to:
      the filtered list is as long as the member list exactly when no
      member is a station. */
  lemma {:induction false} NoStationRemains(incoming: Channel, participants: map<string, Channel>,
                                            ids: seq<string>, nonStations: seq<string>)
    requires NonStations(incoming, participants, ids) == Success(nonStations)
    ensures |nonStations| == |ids| <==>
              forall k :: 0 <= k < |ids| ==> IsStation(incoming, participants, ids[k]) == Success(false)
  {
    if ids != [] {
      var rest := NonStations(incoming, participants, ids[1..]).value;
      NoStationRemains(incoming, participants, ids[1..], rest);
      assert forall k :: 1 <= k < |ids| ==> ids[k] == ids[1..][k - 1];
      if IsStation(incoming, participants, ids[0]) == Success(true) {
        assert nonStations == rest;
        assert |rest| <= |ids[1..]|;
      }
    }
  }

  // ---------------------------------------------------------------------
  // Hangup cascades

  /** No id occurs twice. */
  predicate Distinct(ids: seq<string>)
  {
    forall i, j :: 0 <= i < j < |ids| ==> ids[i] != ids[j]
  }

  /** `keys` without `id`, in the same order: the keys that remain when a
      participant is deleted, and the race losers when `id` has won. */
  function Without(keys: seq<string>, id: string): (r: seq<string>)
    ensures forall x :: x in r <==> x in keys && x != id
  {
    if keys == [] then []
    else (if keys[0] != id then [keys[0]] else []) + Without(keys[1..], id)
  }

  /** Deleting an id that is not there changes nothing. */
  lemma {:induction false} WithoutAbsent(keys: seq<string>, id: string)
    requires id !in keys
    ensures Without(keys, id) == keys
  {
    if keys != [] {
      WithoutAbsent(keys[1..], id);
      assert keys == [keys[0]] + keys[1..];
    }
  }

  /** Deleting distributes over concatenation: every kept key stays in its
      place relative to the others, so the result is in key order. */
  lemma {:induction false} WithoutAppend(a: seq<string>, b: seq<string>, id: string)
    ensures Without(a + b, id) == Without(a, id) + Without(b, id)
  {
    if a == [] {
      assert a + b == b;
    } else {
      assert (a + b)[1..] == a[1..] + b;
      WithoutAppend(a[1..], b, id);
    }
  }

  /** The head of a list without repetition does not recur in its tail. */
  lemma DistinctTail(ids: seq<string>)
    requires Distinct(ids) && ids != []
    ensures Distinct(ids[1..]) && ids[0] !in ids[1..]
  {
  }

  /** Deleting a key keeps the remaining keys free of repetition. */
  lemma {:induction false} WithoutDistinct(keys: seq<string>, id: string)
    requires Distinct(keys)
    ensures Distinct(Without(keys, id))
  {
    if keys != [] {
      DistinctTail(keys);
      WithoutDistinct(keys[1..], id);
      var rest := Without(keys[1..], id);
      if keys[0] != id {
        var r := [keys[0]] + rest;
        forall i, j | 0 <= i < j < |r|
          ensures r[i] != r[j]
        {
          if i == 0 {
            assert r[j] == rest[j - 1];
          } else {
            assert r[i] == rest[i - 1] && r[j] == rest[j - 1];
          }
        }
      }
    }
  }

  /** Every participant is keyed by its own id, and `keys` lists each
      tracked id exactly once, in insertion order: the order in which a
      JavaScript object enumerates its (non-index) keys. */
  ghost predicate Tracked(participants: map<string, Channel>, keys: seq<string>)
  {
    (forall id :: id in participants ==> participants[id].id == id) &&
    (forall id :: id in participants <==> id in keys) &&
    Distinct(keys)
  }

  /** Tracking a channel under its id keeps the order in step: a new id is
      enumerated last, a known one keeps its place. */
  lemma TrackedAdd(participants: map<string, Channel>, keys: seq<string>, c: Channel)
    requires Tracked(participants, keys)
    ensures Tracked(participants[c.id := c], if c.id in participants then keys else keys + [c.id])
  {
  }

  /** The first enumerated key is tracked, so an empty map enumerates no
      keys. */
  lemma TrackedFirst(participants: map<string, Channel>, keys: seq<string>)
    requires Tracked(participants, keys)
    ensures keys != [] ==> keys[0] in participants
  {
    if keys != [] {
      assert keys[0] in keys;
    }
  }

  /** `delete participants[id]` keeps the order in step when the key is
      dropped from the enumeration too. */
  lemma TrackedRemove(participants: map<string, Channel>, keys: seq<string>, id: string)
    requires Tracked(participants, keys)
    ensures Tracked(participants - {id}, Without(keys, id))
  {
    WithoutDistinct(keys, id);
  }

  /** One hangup per id, in list order. */
  function HangupsInOrder(ids: seq<string>): (hs: seq<Effect>)
    ensures |hs| == |ids| && forall k :: 0 <= k < |ids| ==> hs[k] == Hangup(ids[k])
  {
    if ids == [] then [] else [Hangup(ids[0])] + HangupsInOrder(ids[1..])
  }

  /** The hangup requests of a `forEach` over a list of channel ids. */
  method HangupEach(ids: seq<string>) returns (hs: seq<Effect>)
    ensures hs == HangupsInOrder(ids)
  {
    hs := [];
    var i := 0;
    while i < |ids|
      invariant 0 <= i <= |ids|
      invariant |hs| == i && forall k :: 0 <= k < i ==> hs[k] == Hangup(ids[k])
    {
      hs := hs + [Hangup(ids[i])];
      i := i + 1;
    }
  }

  /** Over ids without repetition, every listed id is hung up exactly once
      and no other id is hung up. */
  lemma {:induction false} HangupsOnce(ids: seq<string>, id: string)
    requires Distinct(ids)
    ensures multiset(HangupsInOrder(ids))[Hangup(id)] == if id in ids then 1 else 0
  {
    if ids != [] {
      DistinctTail(ids);
      HangupsOnce(ids[1..], id);
      var rest := HangupsInOrder(ids[1..]);
      assert multiset(HangupsInOrder(ids)) == multiset{Hangup(ids[0])} + multiset(rest);
      assert id in ids <==> id == ids[0] || id in ids[1..] by {
        assert ids == [ids[0]] + ids[1..];
      }
    }
  }

  /** First responder wins: when `winnerId` answers, every other tracked
      participant receives exactly one hangup and the winner receives none. */
  lemma LosersHungUpOnce(keys: seq<string>, winnerId: string, id: string)
    requires Distinct(keys)
    ensures multiset(HangupsInOrder(Without(keys, winnerId)))[Hangup(id)] ==
              if id in keys && id != winnerId then 1 else 0
  {
    WithoutDistinct(keys, winnerId);
    HangupsOnce(Without(keys, winnerId), id);
  }

  /** A station has left and no remaining member is a station: the call is
      abandoned. */
  ghost predicate Abandoned(incoming: Channel, participants: map<string, Channel>, leftId: string, members: seq<string>)
  {
    IsStation(incoming, participants, leftId) == Success(true) &&
    forall k :: 0 <= k < |members| ==> IsStation(incoming, participants, members[k]) == Success(false)
  }

  /** The station check of `onChannelLeftBridge` when `leftId` has left a
      bridge whose members are now `members`: the hangups it issues, or the
      fault thrown when an id cannot be classified. */
  method LeftBridgeHangups(incoming: Channel, participants: map<string, Channel>, leftId: string, members: seq<string>)
    returns (r: Result<seq<Effect>, Fault>)
    ensures var leaving := IsStation(incoming, participants, leftId);
            r.Failure? <==> leaving.Failure? || (leaving == Success(true) && NonStations(incoming, participants, members).Failure?)
    ensures r.Success? ==> r.value == if Abandoned(incoming, participants, leftId, members) then HangupsInOrder(members) else []
  {
    var leaving := IsStation(incoming, participants, leftId);
    if leaving.Failure? {
      return Failure(leaving.error);
    }
    if !leaving.value {
      return Success([]);
    }
    var nonStations := NonStations(incoming, participants, members);
    if nonStations.Failure? {
      return Failure(nonStations.error);
    }
    NoStationRemains(incoming, participants, members, nonStations.value);
    if |nonStations.value| != |members| {
      return Success([]);
    }
    var hangups := HangupEach(members);
    return Success(hangups);
  }

  // ---------------------------------------------------------------------
  // Digit collection

  /** The digit-collection part of the machine's state. */
  datatype DtmfSession = DtmfSession(dialString: string, allowDtmf: bool, state: Option<string>, effects: seq<Effect>)

  /** The endpoint dialled on `#`: `SIP/<digits>@<first trunk>`. An empty
      trunk list formats as "undefined", as `util.format` does. */
  function DialAddress(dialString: string, trunks: seq<string>): string
  {
    "SIP/" + dialString + "@" + (if |trunks| > 0 then trunks[0] else "undefined")
  }

  /** One `ChannelDtmfReceived` event. */
  function DigitStep(s: DtmfSession, digit: string, ext: Dal.SharedExtension): DtmfSession
  {
    if !s.allowDtmf then s
    else if digit == "#" then
      DtmfSession(s.dialString, false, Some(RINGING),
                  s.effects + [UpdateDeviceState(DeviceName(ext.name), RINGING),
                               Originate(DialAddress(s.dialString, ext.trunks), false)])
    else s.(dialString := s.dialString + digit)
  }

  /** A sequence of digit events, in arrival order. */
  function Collect(s: DtmfSession, digits: seq<string>, ext: Dal.SharedExtension): DtmfSession
    decreases |digits|
  {
    if digits == [] then s else Collect(DigitStep(s, digits[0], ext), digits[1..], ext)
  }

  function Concat(digits: seq<string>): string
  {
    if digits == [] then "" else digits[0] + Concat(digits[1..])
  }

  predicate NoTerminator(digits: seq<string>)
  {
    forall k :: 0 <= k < |digits| ==> digits[k] != "#"
  }

  lemma {:induction false} CollectAppend(s: DtmfSession, a: seq<string>, b: seq<string>, ext: Dal.SharedExtension)
    ensures Collect(s, a + b, ext) == Collect(Collect(s, a, ext), b, ext)
    decreases |a|
  {
    if a == [] {
      assert a + b == b;
    } else {
      assert (a + b)[0] == a[0];
      assert (a + b)[1..] == a[1..] + b;
      CollectAppend(DigitStep(s, a[0], ext), a[1..], b, ext);
    }
  }

  /** Once collection is closed, no digit changes anything or emits anything. */
  lemma {:induction false} CollectClosed(s: DtmfSession, digits: seq<string>, ext: Dal.SharedExtension)
    requires !s.allowDtmf
    ensures Collect(s, digits, ext) == s
    decreases |digits|
  {
    if digits != [] {
      CollectClosed(s, digits[1..], ext);
    }
  }

  /** While collection is open, digits other than `#` are appended in arrival
      order and nothing is emitted. */
  lemma {:induction false} CollectDigits(s: DtmfSession, digits: seq<string>, ext: Dal.SharedExtension)
    requires s.allowDtmf && NoTerminator(digits)
    ensures Collect(s, digits, ext) == s.(dialString := s.dialString + Concat(digits))
    decreases |digits|
  {
    if digits != [] {
      var next := s.(dialString := s.dialString + digits[0]);
      assert DigitStep(s, digits[0], ext) == next;
      CollectDigits(next, digits[1..], ext);
      assert s.dialString + digits[0] + Concat(digits[1..]) == s.dialString + (digits[0] + Concat(digits[1..]));
    }
  }

  /** Digits up to the first `#` build the dial string; the `#` publishes
      RINGING, closes collection and originates exactly one trunk call to
      that dial string; nothing after it has any effect. */
  lemma CollectTerminated(s: DtmfSession, digits: seq<string>, rest: seq<string>, ext: Dal.SharedExtension)
    requires s.allowDtmf && NoTerminator(digits)
    ensures var dialled := s.dialString + Concat(digits);
            Collect(s, digits + ["#"] + rest, ext) ==
              DtmfSession(dialled, false, Some(RINGING),
                          s.effects + [UpdateDeviceState(DeviceName(ext.name), RINGING),
                                       Originate(DialAddress(dialled, ext.trunks), false)])
  {
    CollectAppend(s, digits, ["#"] + rest, ext);
    assert digits + ["#"] + rest == digits + (["#"] + rest);
    CollectDigits(s, digits, ext);
    var closed := DigitStep(Collect(s, digits, ext), "#", ext);
    assert (["#"] + rest)[1..] == rest;
    CollectClosed(closed, rest, ext);
  }

  // ---------------------------------------------------------------------
  // The machine

  /** One shared extension's call-control session. The fields `channel` and
      `extension` stand for the incoming channel and the resolved
      configuration, which the source reads as free variables of its closure;
      here `ResolveContext` sets them. */
  class SharedLine {
    var participants: map<string, Channel>
    var keys: seq<string>  // the order in which `participants` gained its keys
    var channel: Channel
    var extension: Dal.SharedExtension
    var resolved: bool
    var dialString: string
    var allowDtmf: bool
    var currentState: Option<string>
    var hasBridge: bool
    var bridgeChannels: seq<string>
    var effects: seq<Effect>

    // Event subscriptions.
    var listensLeftBridge: bool     // bridge: ChannelLeftBridge
    var listensHangupRequest: bool  // incoming channel: ChannelHangupRequest
    var listensDtmf: bool           // incoming channel: ChannelDtmfReceived
    var listensStasisStart: set<string>  // participant ids: StasisStart
    var listensDestroyed: set<string>    // participant ids: ChannelDestroyed

    /** Participants are keyed by their own id, and `keys` is their
        enumeration order. */
    ghost predicate Valid()
      reads this
    {
      Tracked(participants, keys)
    }

    function Session(): DtmfSession
      reads this
    {
      DtmfSession(dialString, allowDtmf, currentState, effects)
    }

    /** `init`: nothing tracked, an empty dial string, digit collection open,
        and no device state read yet. */
    constructor ()
      ensures Valid()
      ensures participants == map[] && keys == [] && dialString == "" && allowDtmf && currentState == None
      ensures !resolved && !hasBridge && bridgeChannels == [] && effects == []
      ensures !listensLeftBridge && !listensHangupRequest && !listensDtmf
      ensures listensStasisStart == {} && listensDestroyed == {}
    {
      participants := map[];
      keys := [];
      channel := Channel("", false);
      extension := Dal.SharedExtension("", [], []);
      resolved := false;
      dialString := "";
      allowDtmf := true;
      currentState := None;
      hasBridge := false;
      bridgeChannels := [];
      effects := [];
      listensLeftBridge, listensHangupRequest, listensDtmf := false, false, false;
      listensStasisStart, listensDestroyed := {}, {};
    }

    /** `participantsIsEmpty`: no participant is tracked, that is, the map
        has no keys. */
    predicate ParticipantsIsEmpty()
      reads this
      ensures ParticipantsIsEmpty() <==> forall id :: id !in participants
    {
      participants == map[]
    }

    /** `addParticipant`: tracks an originated channel and listens for its
        StasisStart and ChannelDestroyed events. A new id is enumerated
        last; an id already tracked keeps its place. */
    method AddParticipant(participant: Channel)
      requires Valid()
      modifies this`participants, this`keys, this`listensStasisStart, this`listensDestroyed
      ensures Valid()
      ensures participants == old(participants)[participant.id := participant]
      ensures keys == if participant.id in old(participants) then old(keys) else old(keys) + [participant.id]
      ensures listensStasisStart == old(listensStasisStart) + {participant.id}
      ensures listensDestroyed == old(listensDestroyed) + {participant.id}
    {
      TrackedAdd(participants, keys, participant);
      if participant.id !in participants {
        keys := keys + [participant.id];
      }
      participants := participants[participant.id := participant];
      listensStasisStart := listensStasisStart + {participant.id};
      listensDestroyed := listensDestroyed + {participant.id};
    }

    /** `resolveContext`: looks the extension up; on success records the
        incoming channel with its classification and answers it. A lookup
        failure throws before anything changes. */
    method ResolveContext(incoming: string, extensionName: string,
                          entries: seq<map<string, Dal.ExtConfig>>, isStation: bool)
      returns (outcome: Outcome<Dal.Error>)
      modifies this`channel, this`extension, this`resolved, this`effects
      ensures match Dal.Resolve(entries, extensionName)
              case Failure(e) =>
                outcome == Fail(e) && channel == old(channel) && extension == old(extension) &&
                resolved == old(resolved) && effects == old(effects)
              case Success(ext) =>
                outcome == Pass && channel == Channel(incoming, isStation) && extension == ext &&
                resolved && effects == old(effects) + [Answer(incoming)]
    {
      var data := Dal.GetData(entries, incoming, extensionName);
      if data.Failure? {
        return Fail(data.error);
      }
      channel := Channel(incoming, isStation);
      extension := data.value.extension;
      resolved := true;
      effects := effects + [Answer(incoming)];
      outcome := Pass;
    }

    /** Completion of the device-state read: the stored state becomes the
        current one and the bridge is requested. */
    method OnDeviceState(state: string)
      modifies this`currentState, this`effects
      ensures currentState == Some(state)
      ensures effects == old(effects) + [GetOrCreateBridge]
    {
      currentState := Some(state);
      effects := effects + [GetOrCreateBridge];
    }

    /** `updateState`: sets the state and publishes it under the extension's
        device name. */
    method UpdateState(state: string)
      requires resolved
      modifies this`currentState, this`effects
      ensures currentState == Some(state)
      ensures effects == old(effects) + [UpdateDeviceState(DeviceName(extension.name), state)]
    {
      currentState := Some(state);
      effects := effects + [UpdateDeviceState(DeviceName(extension.name), state)];
    }

    /** `bridgeLoaded`: keeps the bridge, listens for members leaving it and
        for the incoming channel's hangup request. */
    method BridgeLoaded(members: seq<string>)
      requires resolved
      modifies this`hasBridge, this`bridgeChannels, this`listensLeftBridge, this`listensHangupRequest
      ensures hasBridge && bridgeChannels == members
      ensures listensLeftBridge && listensHangupRequest
    {
      hasBridge := true;
      bridgeChannels := members;
      listensLeftBridge := true;
      listensHangupRequest := true;
    }

    /** `exit`: drops every subscription, the per-participant ones for every
        tracked participant; hangs up the incoming channel only when given an
        error. */
    method Exit(err: bool)
      requires resolved
      modifies this`listensLeftBridge, this`listensHangupRequest, this`listensDtmf,
               this`listensStasisStart, this`listensDestroyed, this`effects
      ensures !listensLeftBridge && !listensHangupRequest && !listensDtmf
      ensures listensStasisStart == old(listensStasisStart) - participants.Keys
      ensures listensDestroyed == old(listensDestroyed) - participants.Keys
      ensures err ==> effects == old(effects) + [Hangup(channel.id), Exited]
      ensures !err ==> effects == old(effects) + [Exited]
    {
      listensLeftBridge := false;
      listensHangupRequest := false;
      listensDtmf := false;
      listensStasisStart := listensStasisStart - participants.Keys;
      listensDestroyed := listensDestroyed - participants.Keys;
      if err {
        effects := effects + [Hangup(channel.id)];
      }
      effects := effects + [Exited];
    }

    /** `busy`: hands the caller back to the dialplan and exits without a
        hangup. */
    method Busy()
      requires resolved
      modifies this`listensLeftBridge, this`listensHangupRequest, this`listensDtmf,
               this`listensStasisStart, this`listensDestroyed, this`effects
      ensures !listensLeftBridge && !listensHangupRequest && !listensDtmf
      ensures listensStasisStart == old(listensStasisStart) - participants.Keys
      ensures listensDestroyed == old(listensDestroyed) - participants.Keys
      ensures effects == old(effects) + [ContinueInDialplan(channel.id), Exited]
    {
      effects := effects + [ContinueInDialplan(channel.id)];
      Exit(false);
    }

    /** `getDtmf`: restarts digit collection on the incoming channel. */
    method GetDtmf()
      modifies this`dialString, this`listensDtmf
      ensures dialString == "" && listensDtmf
    {
      dialString := "";
      listensDtmf := true;
    }

    /** `joinBridge`: adds the incoming channel and, if given, the participant
        to the bridge, in that order. */
    method JoinBridge(participant: Option<Channel>)
      requires resolved && hasBridge
      modifies this`effects
      ensures participant.Some? ==> effects == old(effects) + [AddToBridge(channel.id), AddToBridge(participant.value.id)]
      ensures participant.None? ==> effects == old(effects) + [AddToBridge(channel.id)]
    {
      if participant.Some? {
        effects := effects + [AddToBridge(channel.id), AddToBridge(participant.value.id)];
      } else {
        effects := effects + [AddToBridge(channel.id)];
      }
    }

    /** `stationsReady`: one station origination per configured station, in
        list order. */
    method StationsReady()
      requires resolved
      modifies this`effects
      ensures |effects| == |old(effects)| + |extension.stations|
      ensures effects[..|old(effects)|] == old(effects)
      ensures forall k :: 0 <= k < |extension.stations| ==>
                effects[|old(effects)| + k] == Originate(extension.stations[k], true)
    {
      var stations := extension.stations;
      var i := 0;
      while i < |stations|
        invariant 0 <= i <= |stations|
        invariant |effects| == |old(effects)| + i
        invariant effects[..|old(effects)|] == old(effects)
        invariant forall k :: 0 <= k < i ==> effects[|old(effects)| + k] == Originate(stations[k], true)
      {
        effects := effects + [Originate(stations[i], true)];
        i := i + 1;
      }
    }

    /** `onChannelHangup` (subscribed once): exits only when no participant is
        tracked, and then hangs up every tracked participant, in key order. */
    method OnChannelHangup()
      requires Valid() && resolved
      modifies this`listensLeftBridge, this`listensHangupRequest, this`listensDtmf,
               this`listensStasisStart, this`listensDestroyed, this`effects
      ensures !listensHangupRequest
      ensures participants == map[] ==> effects == old(effects) + [Exited]
      ensures participants != map[] ==> effects == old(effects) + HangupsInOrder(keys)
      ensures participants == map[] ==>
                !listensLeftBridge && !listensDtmf &&
                listensStasisStart == old(listensStasisStart) - participants.Keys &&
                listensDestroyed == old(listensDestroyed) - participants.Keys
      ensures participants != map[] ==>
                listensLeftBridge == old(listensLeftBridge) && listensDtmf == old(listensDtmf) &&
                listensStasisStart == old(listensStasisStart) && listensDestroyed == old(listensDestroyed)
    {
      listensHangupRequest := false;
      var hangups := HangupEach(keys);
      if ParticipantsIsEmpty() {
        TrackedFirst(participants, keys);
        Exit(false);
        effects := effects + hangups;
      } else {
        effects := effects + hangups;
      }
    }

    /** `onChannelLeftBridge`: `members` is the bridge's member list after the
        departure. When a station leaves and no station remains, every
        remaining member is hung up; independently, an empty bridge publishes
        IDLE and exits. An id that cannot be classified throws before
        anything is issued. */
    method OnChannelLeftBridge(leftId: string, members: seq<string>) returns (outcome: Outcome<Fault>)
      requires resolved && hasBridge
      modifies this`bridgeChannels, this`currentState,
               this`listensLeftBridge, this`listensHangupRequest, this`listensDtmf,
               this`listensStasisStart, this`listensDestroyed, this`effects
      ensures bridgeChannels == members
      ensures var leaving := IsStation(channel, participants, leftId);
              outcome.Fail? <==>
                leaving.Failure? || (leaving == Success(true) && NonStations(channel, participants, members).Failure?)
      ensures outcome.Fail? ==>
                effects == old(effects) && currentState == old(currentState) &&
                listensLeftBridge == old(listensLeftBridge) && listensHangupRequest == old(listensHangupRequest) &&
                listensDtmf == old(listensDtmf) && listensStasisStart == old(listensStasisStart) &&
                listensDestroyed == old(listensDestroyed)
      ensures outcome.Pass? ==>
                effects == old(effects) +
                           (if Abandoned(channel, participants, leftId, members) then HangupsInOrder(members) else []) +
                           (if |members| == 0 then [UpdateDeviceState(DeviceName(extension.name), IDLE), Exited] else [])
      ensures outcome.Pass? && |members| == 0 ==>
                currentState == Some(IDLE) && !listensLeftBridge && !listensHangupRequest && !listensDtmf &&
                listensStasisStart == old(listensStasisStart) - participants.Keys &&
                listensDestroyed == old(listensDestroyed) - participants.Keys
      ensures outcome.Pass? && |members| != 0 ==>
                currentState == old(currentState) &&
                listensLeftBridge == old(listensLeftBridge) && listensHangupRequest == old(listensHangupRequest) &&
                listensDtmf == old(listensDtmf) && listensStasisStart == old(listensStasisStart) &&
                listensDestroyed == old(listensDestroyed)
    {
      bridgeChannels := members;
      var hangups := LeftBridgeHangups(channel, participants, leftId, bridgeChannels);
      if hangups.Failure? {
        return Fail(hangups.error);
      }
      effects := effects + hangups.value;
      if |bridgeChannels| == 0 {
        UpdateState(IDLE);
        Exit(false);
      }
      outcome := Pass;
    }

    /** `onChannelDtmfReceived`: one digit event, as `DigitStep` states. */
    method OnChannelDtmfReceived(digit: string)
      requires resolved
      modifies this`dialString, this`allowDtmf, this`currentState, this`effects
      ensures Session() == DigitStep(old(Session()), digit, extension)
    {
      if !allowDtmf {
        return;
      }
      if digit == "#" {
        UpdateState(RINGING);
        allowDtmf := false;
        effects := effects + [Originate(DialAddress(dialString, extension.trunks), false)];
      } else {
        dialString := dialString + digit;
      }
    }

    /** `onParticipantStasisStart` (subscribed once): the first participant to
        answer wins. It is answered, every other tracked participant is hung
        up, in key order, and its subscriptions dropped; INUSE is published
        and the incoming channel and the winner are joined to the bridge. */
    method OnParticipantStasisStart(winner: Channel)
      requires resolved && hasBridge
      modifies this`listensStasisStart, this`listensDestroyed, this`currentState, this`effects
      ensures effects == old(effects) + [Answer(winner.id)] + HangupsInOrder(Without(keys, winner.id)) +
                         [UpdateDeviceState(DeviceName(extension.name), INUSE), AddToBridge(channel.id), AddToBridge(winner.id)]
      ensures listensStasisStart == old(listensStasisStart) - {winner.id} - (set id | id in Without(keys, winner.id))
      ensures listensDestroyed == old(listensDestroyed) - (set id | id in Without(keys, winner.id))
      ensures currentState == Some(INUSE)
    {
      listensStasisStart := listensStasisStart - {winner.id};
      var losers := Without(keys, winner.id);
      var hangups := HangupEach(losers);
      effects := effects + [Answer(winner.id)] + hangups;
      ghost var answered := effects;
      listensStasisStart := listensStasisStart - (set id | id in losers);
      listensDestroyed := listensDestroyed - (set id | id in losers);
      UpdateState(INUSE);
      JoinBridge(Some(winner));
      assert effects == answered + [UpdateDeviceState(DeviceName(extension.name), INUSE)] +
                       [AddToBridge(channel.id), AddToBridge(winner.id)];
    }

    /** `onParticipantHangup` (subscribed once): forgets the participant; when
        none is left, publishes IDLE and exits. */
    method OnParticipantHangup(participant: Channel)
      requires Valid() && resolved
      modifies this`participants, this`keys, this`currentState,
               this`listensLeftBridge, this`listensHangupRequest, this`listensDtmf,
               this`listensStasisStart, this`listensDestroyed, this`effects
      ensures Valid()
      ensures participants == old(participants) - {participant.id}
      ensures keys == Without(old(keys), participant.id)
      ensures listensStasisStart == old(listensStasisStart)
      ensures listensDestroyed == old(listensDestroyed) - {participant.id}
      ensures participants == map[] ==>
                currentState == Some(IDLE) &&
                effects == old(effects) + [UpdateDeviceState(DeviceName(extension.name), IDLE), Exited] &&
                !listensLeftBridge && !listensHangupRequest && !listensDtmf
      ensures participants != map[] ==>
                currentState == old(currentState) && effects == old(effects) &&
                listensLeftBridge == old(listensLeftBridge) && listensHangupRequest == old(listensHangupRequest) &&
                listensDtmf == old(listensDtmf)
    {
      listensDestroyed := listensDestroyed - {participant.id};
      TrackedRemove(participants, keys, participant.id);
      participants := participants - {participant.id};
      keys := Without(keys, participant.id);
      if ParticipantsIsEmpty() {
        UpdateState(IDLE);
        Exit(false);
      }
    }
  }

  // ---------------------------------------------------------------------
  // The winner filter as written

  /** The `id` property read from a key of `participants`: the keys are
      strings, which have no such property. */
  function KeyId(key: string): Option<string>
  {
    None
  }

  /** The filter at lines 263-265 as written: it compares `key.id` with the
      winner's id, so it keeps every key. */
  function LosersAsWritten(keys: seq<string>, winnerId: string): seq<string>
  {
    if keys == [] then []
    else (if KeyId(keys[0]) != Some(winnerId) then [keys[0]] else []) + LosersAsWritten(keys[1..], winnerId)
  }

  /** As written, the filter keeps the winner's own key among the channels to
      hang up. (The loop that follows would then throw at its first key,
      since a string has no `hangup` to bind, before any hangup is issued.) */
  lemma {:induction false} AsWrittenKeepsWinner(keys: seq<string>, winnerId: string)
    requires winnerId in keys
    ensures winnerId in LosersAsWritten(keys, winnerId)
  {
    if keys[0] != winnerId {
      AsWrittenKeepsWinner(keys[1..], winnerId);
    }
  }
}
