/**
 * The station page's join pipeline (src/App.tsx): the credential gate, client
 * and agent creation, device negotiation, the join by camera name and the
 * call-id latch.  The calling SDK, the device manager and the authentication
 * endpoint are not modelled; what they return is passed in as an SdkResults value.
 */
module App {
  import opened Wrappers
  import opened Devices

  /**
   * What getAcsAuth resolves to.  A failed request resolves to the error
   * object, whose userId and token are undefined (None).
   */
  datatype AuthResponse = AuthResponse(userId: Option<string>, token: Option<string>)

  /** The calling client, created for `{communicationUserId: userId}`. */
  datatype CallClient = CallClient(communicationUserId: string)

  /** The call agent, created from the token credential and display options. */
  datatype CallAgent = CallAgent(token: string, displayName: string)

  /** `new LocalVideoStream(camera!)`: the source is None when no camera matched. */
  datatype LocalVideoStream = LocalVideoStream(source: Option<Device>)

  /** The call returned by `callAgent.join`, with the id the engine gave it. */
  datatype Call = Call(id: string, localVideoStreams: seq<LocalVideoStream>)

  const AgentDisplayName: string := "Dashboard"

  /** A JavaScript string value is truthy when it is defined and not empty. */
  predicate Truthy(s: Option<string>)
  {
    s.Some? && s.value != ""
  }

  /** The test at src/App.tsx:139. */
  predicate CredentialAccepted(auth: AuthResponse)
  {
    Truthy(auth.userId) && Truthy(auth.token)
  }

  /** Everything the SDK, the device manager and the backend answer during one click. */
  datatype SdkResults = SdkResults(
    auth: AuthResponse,              // getAcsAuth("DashboardData")
    first: Enumeration,              // getCameras / getMicrophones at lines 78-79
    permission: Option<Permission>,  // askDevicePermission at line 82, when it is reached
    regranted: Enumeration,          // getCameras / getMicrophones at lines 88-89
    atJoin: seq<Device>,             // getCameras inside handleSetCall, line 50
    callId: string)                  // the id of the call that join returns

  /** The component's state fields (src/App.tsx:21-27). */
  datatype Snapshot = Snapshot(
    selectedCamera: string,
    callId: string,
    client: Option<CallClient>,
    agent: Option<CallAgent>,
    call: Option<Call>)

  const Initial: Snapshot := Snapshot("", "", None, None, None)

  /** The render gate at src/App.tsx:157: the call surface replaces the join button. */
  predicate ShowsCallSurface(s: Snapshot)
  {
    s.client.Some? && s.agent.Some? && s.call.Some?
  }

  /**
   * What the pipeline keeps true: a call is only made through a client and an
   * agent, and a call id is only copied from a call.
   */
  predicate Consistent(s: Snapshot)
  {
    (s.call.Some? ==> s.client.Some? && s.agent.Some?) &&
    (s.callId != "" ==> s.call.Some?)
  }

  /** The call agent.join returns for the camera named `name` among `cameras`. */
  function JoinByName(cameras: seq<Device>, name: string, id: string): (c: Call)
    ensures c.id == id
    ensures |c.localVideoStreams| == 1
    ensures c.localVideoStreams[0].source.Some? ==>
      exists k: nat :: IsFirstNamed(cameras, name, k) && cameras[k] == c.localVideoStreams[0].source.value
    ensures c.localVideoStreams[0].source.None? <==> forall i :: 0 <= i < |cameras| ==> cameras[i].name != name
  {
    Call(id, [LocalVideoStream(Find(cameras, name))])
  }

  /** The effect at src/App.tsx:29-33: the id a call carries, copied only into an empty callId. */
  function LatchCallId(call: Option<Call>, callId: string): (r: string)
    ensures callId != "" ==> r == callId
    ensures call.None? ==> r == callId
    ensures callId == "" && call.Some? ==> r == call.value.id
  {
    if call.Some? && callId == "" then call.value.id else callId
  }

  /** A run of the pipeline: the new state and the effects issued. */
  datatype Outcome = Outcome(state: Snapshot, effects: seq<Effect>)

  /**
   * handleSetCallClient and what follows it (src/App.tsx:114-134), from state
   * `s`, with `selected` the camera name of the clicked render.
   */
  function SetCallClient(s: Snapshot, token: string, callerId: string, selected: string, sdk: SdkResults): (o: Outcome)
    ensures o.state.client == Some(CallClient(callerId))
    ensures o.state.agent == Some(CallAgent(token, AgentDisplayName))
    ensures var n := Negotiate(sdk.first, selected, sdk.permission, sdk.regranted);
      o.effects == n.effects &&
      (n.chosen.None? ==> o.state.selectedCamera == s.selectedCamera && o.state.call == s.call && o.state.callId == s.callId) &&
      (n.chosen.Some? ==>
        o.state.selectedCamera == n.chosen.value &&
        o.state.call == Some(JoinByName(sdk.atJoin, n.chosen.value, sdk.callId)) &&
        o.state.callId == LatchCallId(o.state.call, s.callId))
  {
    var withAgent := s.(client := Some(CallClient(callerId)), agent := Some(CallAgent(token, AgentDisplayName)));
    var n := Negotiate(sdk.first, selected, sdk.permission, sdk.regranted);
    match n.chosen
    case None => Outcome(withAgent, n.effects)
    case Some(name) =>
      var call := Some(JoinByName(sdk.atJoin, name, sdk.callId));
      Outcome(withAgent.(selectedCamera := name, call := call, callId := LatchCallId(call, s.callId)), n.effects)
  }

  /** One click on "Join call" (handleJoinCall, src/App.tsx:136-146) from state `s`. */
  function JoinCall(s: Snapshot, sdk: SdkResults): (o: Outcome)
    // credential gate: without a truthy userId and token nothing changes and nothing happens
    ensures !CredentialAccepted(sdk.auth) ==> o == Outcome(s, [])
    ensures CredentialAccepted(sdk.auth) ==>
      o.state.client == Some(CallClient(sdk.auth.userId.value)) &&
      o.state.agent == Some(CallAgent(sdk.auth.token.value, AgentDisplayName)) &&
      o.effects == Negotiate(sdk.first, s.selectedCamera, sdk.permission, sdk.regranted).effects
    // at most one join, and a join sets the selection and the call
    ensures |Joins(o.effects)| <= 1
    ensures Joins(o.effects) == [] ==>
      o.state.selectedCamera == s.selectedCamera && o.state.call == s.call && o.state.callId == s.callId
    ensures Joins(o.effects) != [] ==>
      CredentialAccepted(sdk.auth) &&
      o.state.selectedCamera == Joins(o.effects)[0] &&
      o.state.call == Some(JoinByName(sdk.atJoin, Joins(o.effects)[0], sdk.callId))
    // the call id is never overwritten once set
    ensures s.callId != "" ==> o.state.callId == s.callId
    ensures s.callId == "" && Joins(o.effects) != [] ==> o.state.callId == sdk.callId
    ensures Consistent(s) ==> Consistent(o.state)
    ensures Consistent(s) ==> (ShowsCallSurface(o.state) <==> s.call.Some? || Joins(o.effects) != [])
  {
    if CredentialAccepted(sdk.auth) then
      SetCallClient(s, sdk.auth.token.value, sdk.auth.userId.value, s.selectedCamera, sdk)
    else
      Outcome(s, [])
  }

  /**
   * The component.  Its fields are the React state; `effects` is the log of
   * what the page did that a user can observe.
   */
  class Station {
    var selectedCamera: string
    var callId: string
    var client: Option<CallClient>
    var agent: Option<CallAgent>
    var call: Option<Call>
    var effects: seq<Effect>

    function State(): Snapshot
      reads this
    {
      Snapshot(selectedCamera, callId, client, agent, call)
    }

    predicate Valid()
      reads this
    {
      Consistent(State())
    }

    /** The first render: every state hook at its initial value. */
    constructor ()
      ensures Valid() && State() == Initial && effects == []
    {
      selectedCamera, callId := "", "";
      client, agent, call := None, None, None;
      effects := [];
    }

    /** The effect at src/App.tsx:29-33, run after a render in which `call` changed. */
    method CallEffect()
      requires Valid()
      modifies this`callId
      ensures Valid()
      ensures old(callId) != "" ==> callId == old(callId)
      ensures callId == LatchCallId(call, old(callId))
    {
      if call.Some? && callId == "" {
        callId := call.value.id;
      }
    }

    /**
     * handleSetCall (src/App.tsx:44-71): look the camera up by name among
     * `cameras`, the re-enumeration, and join with one local video stream.
     */
    method HandleSetCall(name: string, cameras: seq<Device>, engineCallId: string)
      requires Valid() && client.Some? && agent.Some?
      modifies this`call, this`callId, this`effects
      ensures Valid()
      ensures effects == old(effects) + [Join(name)]
      ensures call == Some(JoinByName(cameras, name, engineCallId))
      ensures callId == LatchCallId(call, old(callId))
    {
      var camera := Find(cameras, name);
      var localVideoStream := LocalVideoStream(camera);
      effects := effects + [Join(name)];
      call := Some(Call(engineCallId, [localVideoStream]));
      CallEffect();
    }

    /**
     * handleSelectCameraAndMicrophone (src/App.tsx:73-112); `selected` is the
     * value of selectedCamera in the render whose handler is running.
     */
    method HandleSelectCameraAndMicrophone(selected: string, first: Enumeration, permission: Option<Permission>,
                                           regranted: Enumeration, atJoin: seq<Device>, engineCallId: string)
      requires Valid() && client.Some? && agent.Some?
      modifies this`selectedCamera, this`call, this`callId, this`effects
      ensures Valid()
      ensures var n := Negotiate(first, selected, permission, regranted);
        effects == old(effects) + n.effects &&
        (n.chosen.None? ==> selectedCamera == old(selectedCamera) && call == old(call) && callId == old(callId)) &&
        (n.chosen.Some? ==>
          selectedCamera == n.chosen.value &&
          call == Some(JoinByName(atJoin, n.chosen.value, engineCallId)) &&
          callId == LatchCallId(call, old(callId)))
    {
      if |first.cameras| == 0 || |first.microphones| == 0 || selected == "" {
        effects := effects + [PromptPermission];
        if permission.Some? && permission.value.audio && permission.value.video {
          if |regranted.cameras| == 0 || |regranted.microphones| == 0 {
            effects := effects + [Alert(NoDeviceMessage)];
            effects := effects + [Reload];
          }
          if |regranted.cameras| > 0 {
            selectedCamera := regranted.cameras[0].name;
            HandleSetCall(regranted.cameras[0].name, atJoin, engineCallId);
          }
        } else {
          effects := effects + [Alert(PermissionDeniedMessage)];
          effects := effects + [Reload];
        }
      } else {
        if |first.cameras| > 0 {
          selectedCamera := first.cameras[0].name;
          HandleSetCall(first.cameras[0].name, atJoin, engineCallId);
        }
      }
    }

    /** handleSetCallClient (src/App.tsx:114-134). */
    method HandleSetCallClient(token: string, callerId: string, selected: string, sdk: SdkResults)
      requires Valid()
      modifies this
      ensures Valid()
      ensures var o := SetCallClient(old(State()), token, callerId, selected, sdk);
        State() == o.state && effects == old(effects) + o.effects
    {
      client := Some(CallClient(callerId));
      agent := Some(CallAgent(token, AgentDisplayName));
      HandleSelectCameraAndMicrophone(selected, sdk.first, sdk.permission, sdk.regranted, sdk.atJoin, sdk.callId);
    }

    /** handleJoinCall (src/App.tsx:136-146), the button's click handler. */
    method HandleJoinCall(sdk: SdkResults)
      requires Valid()
      modifies this
      ensures Valid()
      ensures var o := JoinCall(old(State()), sdk);
        State() == o.state && effects == old(effects) + o.effects
    {
      // the handlers below are closures of the clicked render: they see this value
      var selected := selectedCamera;
      if sdk.auth.userId.Some? && sdk.auth.userId.value != "" && sdk.auth.token.Some? && sdk.auth.token.value != "" {
        HandleSetCallClient(sdk.auth.token.value, sdk.auth.userId.value, selected, sdk);
      }
    }
  }
}
