/** Calls on extension "201" (stations phone1 and phone2, trunk trunkA),
    walked through using only the machine's contracts. */
module Scenarios {
  import opened Wrappers
  import Dal
  import opened StateMachine

  function Config(): seq<map<string, Dal.ExtConfig>>
  {
    [map["201" := Dal.ExtConfig(Some(["phone1", "phone2"]), Some(["trunkA"]))]]
  }

  /** Extension "201" resolves to its two stations and its trunk. */
  lemma ConfigResolves()
    ensures Dal.Resolve(Config(), "201") == Success(Dal.SharedExtension("201", ["phone1", "phone2"], ["trunkA"]))
  {
  }

  /** A machine for extension "201" whose incoming channel "caller" (not a
      station) has been answered and whose bridge is up. */
  method Ready() returns (line: SharedLine)
    ensures fresh(line) && line.Valid() && line.resolved && line.hasBridge
    ensures line.channel == Channel("caller", false)
    ensures line.extension == Dal.SharedExtension("201", ["phone1", "phone2"], ["trunkA"])
    ensures line.participants == map[] && line.keys == [] && line.allowDtmf
    ensures line.effects == [Answer("caller"), GetOrCreateBridge]
    ensures line.listensLeftBridge
  {
    line := new SharedLine();
    ConfigResolves();
    var resolved := line.ResolveContext("caller", "201", Config(), false);
    line.OnDeviceState(IDLE);
    line.BridgeLoaded([]);
  }

  /** Both configured stations are originated, in configuration order. */
  method BothStationsRing()
  {
    var line := Ready();
    ghost var before := line.effects;
    line.StationsReady();
    assert line.effects[|before| + 0] == Originate(line.extension.stations[0], true);
    assert line.effects[|before| + 1] == Originate(line.extension.stations[1], true);
    assert line.effects[2..] == [Originate("phone1", true), Originate("phone2", true)];
  }

  /** `Ready`, then both stations' legs are tracked, leg1 first. */
  method TwoLegs() returns (line: SharedLine)
    ensures fresh(line) && line.Valid() && line.resolved && line.hasBridge
    ensures line.channel == Channel("caller", false)
    ensures line.extension.name == "201"
    ensures line.participants != map[] && line.keys == ["leg1", "leg2"]
    ensures line.effects == [Answer("caller"), GetOrCreateBridge]
    ensures line.listensLeftBridge
  {
    line := Ready();
    line.AddParticipant(Channel("leg1", true));
    line.AddParticipant(Channel("leg2", true));
  }

  /** leg2 winning leaves leg1 as the only loser. */
  lemma Leg1Loses()
    ensures HangupsInOrder(Without(["leg1", "leg2"], "leg2")) == [Hangup("leg1")]
  {
  }

  /** phone2's leg answers first: phone1's leg is hung up, phone2's is not,
      INUSE is published and phone2 joins the caller. */
  method Phone2AnswersFirst()
  {
    var line := TwoLegs();
    Leg1Loses();
    assert DeviceName("201") == "Stasis:201";
    line.OnParticipantStasisStart(Channel("leg2", true));
    assert line.effects == [Answer("caller"), GetOrCreateBridge, Answer("leg2"), Hangup("leg1"),
                            UpdateDeviceState("Stasis:201", INUSE), AddToBridge("caller"), AddToBridge("leg2")];
    assert line.currentState == Some(INUSE);
  }

  /** The caller hangs up while both legs ring: both legs are hung up, in
      the order they were tracked, and the machine does not exit. */
  method CallerHangsUpWhileRinging()
  {
    var line := TwoLegs();
    assert HangupsInOrder(["leg1", "leg2"]) == [Hangup("leg1"), Hangup("leg2")];
    line.OnChannelHangup();
    assert line.effects == [Answer("caller"), GetOrCreateBridge, Hangup("leg1"), Hangup("leg2")];
    assert line.listensLeftBridge;
  }

  /** 9, 1, 5, # dial exactly one call to SIP/915@trunkA; a later digit does
      nothing. */
  method DialThroughTrunk()
  {
    var line := Ready();
    line.GetDtmf();
    line.OnChannelDtmfReceived("9");
    line.OnChannelDtmfReceived("1");
    line.OnChannelDtmfReceived("5");
    assert line.dialString == "915";
    assert DeviceName("201") == "Stasis:201";
    assert DialAddress("915", ["trunkA"]) == "SIP/915@trunkA";
    line.OnChannelDtmfReceived("#");
    assert line.effects[2..] == [UpdateDeviceState("Stasis:201", RINGING), Originate("SIP/915@trunkA", false)];
    assert line.currentState == Some(RINGING);
    line.OnChannelDtmfReceived("7");
    assert |line.effects| == 4 && line.dialString == "915";
  }

  /** With leg2 the only participant, leg2 leaving a bridge that holds only
      the caller abandons the call; the caller leaving afterwards does not. */
  lemma LegLeaves(participants: map<string, Channel>)
    requires participants == map["leg2" := Channel("leg2", true)]
    ensures IsStation(Channel("caller", false), participants, "leg2") == Success(true)
    ensures NonStations(Channel("caller", false), participants, ["caller"]).Success?
    ensures Abandoned(Channel("caller", false), participants, "leg2", ["caller"])
    ensures HangupsInOrder(["caller"]) == [Hangup("caller")]
    ensures IsStation(Channel("caller", false), participants, "caller") == Success(false)
    ensures !Abandoned(Channel("caller", false), participants, "caller", [])
  {
  }

  /** The answering station leaves while only the caller remains: the caller
      is hung up, and the bridge, still holding the caller, stays up. */
  method StationLeaves() returns (line: SharedLine)
    ensures fresh(line) && line.resolved && line.hasBridge
    ensures line.channel == Channel("caller", false) && line.extension.name == "201"
    ensures line.participants == map["leg2" := Channel("leg2", true)]
    ensures line.effects == [Answer("caller"), GetOrCreateBridge, Hangup("caller")]
    ensures line.listensLeftBridge
  {
    line := Ready();
    line.AddParticipant(Channel("leg2", true));
    LegLeaves(line.participants);
    var left := line.OnChannelLeftBridge("leg2", ["caller"]);
    assert left == Pass;
  }

  /** When the caller has left too, the bridge is empty: IDLE is published
      and the machine exits. */
  method CallerLeavesLast()
  {
    var line := StationLeaves();
    LegLeaves(line.participants);
    assert DeviceName("201") == "Stasis:201";
    var left := line.OnChannelLeftBridge("caller", []);
    assert left == Pass;
    assert line.effects[3..] == [UpdateDeviceState("Stasis:201", IDLE), Exited];
    assert line.currentState == Some(IDLE) && !line.listensLeftBridge;
  }
}
