/**
 * The mock tunnel provider manager (Mocking/TMTunnelProviderManager.swift,
 * `TMMockTunnelProviderManager`): it runs a packet tunnel provider inside the
 * app and drives a status that every assignment copies to its loop-back
 * session and reports to its delegate. The provider is outside the model:
 * what its configure and start steps report is an input. What the manager
 * does that can be seen from outside, the statuses it reports to its delegate
 * and the calls it makes on the provider, is recorded in one trace of
 * `Event`s, in the order it happens.
 */
module MockProviderManager {
  import opened Wrappers
  import opened Container
  import opened VpnStatus
  import opened ProviderSession
  import opened NetworkSettings

  /** Why configuring the provider failed (TunnelConfiguration/TunnelConfigurationError.swift). */
  datatype ConfigurationError =
    | MissingConfiguration | MissingNetworkSettings | MissingUserConfiguration
    | ConfigurationDecodingFailed | SettingsApplicationFailed

  /** An error the provider reports when its service fails to start; its contents are not inspected. */
  datatype StartError = StartError(reason: string)

  /** How a provider step ended: its completion never called, or called with an error or with none. */
  datatype Callback<E> = NoCallback | CalledBack(error: Option<E>)

  datatype StopReason = UserInitiated

  /** A call the manager makes on its provider. */
  datatype ProviderCall = Configure(userConfigurationData: Option<Bytes>) | Start | Stop(reason: StopReason)

  /** Identifies the delegate object. */
  type DelegateId = nat

  /**
   * The values `startTunnel` assigns to the status, in order: `connecting`,
   * then, once configuring succeeded, `connected` if the provider started or
   * `disconnecting` and `disconnected` if it reported an error.
   */
  function StartTransitions(configure: Callback<ConfigurationError>, start: Callback<StartError>): (statuses: seq<Status>) {
    [Connecting] +
    if configure != CalledBack(None) then []
    else match start
      case NoCallback => []
      case CalledBack(None) => [Connected]
      case CalledBack(Some(_)) => [Disconnecting, Disconnected]
  }

  function Last(statuses: seq<Status>): Status
    requires statuses != []
  {
    statuses[|statuses| - 1]
  }

  /** How `startTunnel` ends, by what the provider reports. */
  lemma StartOutcomes(configure: Callback<ConfigurationError>, start: Callback<StartError>)
    ensures var ts := StartTransitions(configure, start);
      && ts[0] == Connecting
      && (Last(ts) == Connected <==> configure == CalledBack(None) && start == CalledBack(None))
      && (Last(ts) == Disconnected <==> configure == CalledBack(None) && start.CalledBack? && start.error.Some?)
      && (Last(ts) == Connecting <==> configure != CalledBack(None) || start == NoCallback)
      && (Last(ts) == Disconnected ==> ts == [Connecting, Disconnecting, Disconnected])
      && (configure != CalledBack(None) ==> ts == [Connecting])
  {
  }

  /** The calls `startTunnel` makes on the provider: configure, then start only if configuring succeeded. */
  function StartCalls(configure: Callback<ConfigurationError>, userConfigurationData: Option<Bytes>): seq<ProviderCall> {
    [Configure(userConfigurationData)] + if configure == CalledBack(None) then [Start] else []
  }

  /** Something the manager does that can be seen from outside: a status reported to the delegate, or a call on the provider. */
  datatype Event = Notified(status: Status) | Called(call: ProviderCall)

  /** The statuses reported in a trace, in order. */
  function Notifications(events: seq<Event>): (statuses: seq<Status>)
    ensures |statuses| <= |events|
  {
    if events == [] then []
    else (if events[0].Notified? then [events[0].status] else []) + Notifications(events[1..])
  }

  /** The provider calls in a trace, in order. */
  function Calls(events: seq<Event>): (calls: seq<ProviderCall>)
    ensures |calls| <= |events|
  {
    if events == [] then []
    else (if events[0].Called? then [events[0].call] else []) + Calls(events[1..])
  }

  lemma {:induction false} ProjectionsAppend(a: seq<Event>, b: seq<Event>)
    ensures Notifications(a + b) == Notifications(a) + Notifications(b)
    ensures Calls(a + b) == Calls(a) + Calls(b)
  {
    if a != [] {
      assert (a + b)[1..] == a[1..] + b;
      ProjectionsAppend(a[1..], b);
    } else {
      assert a + b == b;
    }
  }

  /** Every event of a trace is either a notification or a call, so the two projections together have its length. */
  lemma {:induction false} ProjectionsPartition(events: seq<Event>)
    ensures |Notifications(events)| + |Calls(events)| == |events|
  {
    if events != [] {
      ProjectionsPartition(events[1..]);
    }
  }

  /** What one assignment of `s` to the status shows: a notification when a delegate is set. */
  function Reported(hasDelegate: bool, s: Status): seq<Event> {
    if hasDelegate then [Notified(s)] else []
  }

  /**
   * The trace of `startTunnel`: `connecting` is reported, then configure is
   * called; once configuring succeeded start is called, and after it
   * `connected` is reported, or `disconnecting` and `disconnected` on a start
   * error.
   */
  function StartEvents(configure: Callback<ConfigurationError>, start: Callback<StartError>,
                       userConfigurationData: Option<Bytes>, hasDelegate: bool): seq<Event> {
    Reported(hasDelegate, Connecting) + [Called(Configure(userConfigurationData))] +
    if configure != CalledBack(None) then []
    else [Called(Start)] + AfterStart(start, hasDelegate)
  }

  /** What `startTunnel` reports once start was called, by how start ended. */
  function AfterStart(start: Callback<StartError>, hasDelegate: bool): seq<Event> {
    match start
    case NoCallback => []
    case CalledBack(None) => Reported(hasDelegate, Connected)
    case CalledBack(Some(_)) => Reported(hasDelegate, Disconnecting) + Reported(hasDelegate, Disconnected)
  }

  /** `StartEvents` as the steps of `startTunnel` build it, after an earlier trace. */
  lemma StartEventsSteps(before: seq<Event>, configure: Callback<ConfigurationError>, start: Callback<StartError>,
                         userConfigurationData: Option<Bytes>, hasDelegate: bool)
    ensures var configured := before + Reported(hasDelegate, Connecting) + [Called(Configure(userConfigurationData))];
      && (configure != CalledBack(None) ==>
            configured == before + StartEvents(configure, start, userConfigurationData, hasDelegate))
      && (configure == CalledBack(None) ==>
            configured + [Called(Start)] + AfterStart(start, hasDelegate)
              == before + StartEvents(configure, start, userConfigurationData, hasDelegate))
  {
  }

  /**
   * The trace of `startTunnel` shows to the delegate exactly the status
   * assignments, and makes exactly the provider calls, that `startTunnel`
   * performs.
   */
  lemma StartEventsProjections(configure: Callback<ConfigurationError>, start: Callback<StartError>,
                               userConfigurationData: Option<Bytes>, hasDelegate: bool)
    ensures var events := StartEvents(configure, start, userConfigurationData, hasDelegate);
      && Notifications(events) == (if hasDelegate then StartTransitions(configure, start) else [])
      && Calls(events) == StartCalls(configure, userConfigurationData)
  {
    var d := hasDelegate;
    var head := Reported(d, Connecting) + [Called(Configure(userConfigurationData))];
    ProjectionsAppend(Reported(d, Connecting), [Called(Configure(userConfigurationData))]);
    if configure == CalledBack(None) {
      var tail := AfterStart(start, d);
      ProjectionsAppend(head, [Called(Start)] + tail);
      ProjectionsAppend([Called(Start)], tail);
      ProjectionsAppend(Reported(d, Disconnecting), Reported(d, Disconnected));
    } else {
      assert StartEvents(configure, start, userConfigurationData, d) == head + [];
    }
  }

  /**
   * In the trace of `startTunnel`, `connecting` is reported before configure
   * is called, and everything after the start call is a notification.
   */
  lemma StartEventsOrder(configure: Callback<ConfigurationError>, start: Callback<StartError>,
                         userConfigurationData: Option<Bytes>, hasDelegate: bool)
    ensures var events, k := StartEvents(configure, start, userConfigurationData, hasDelegate), if hasDelegate then 1 else 0;
      && |events| > k
      && (hasDelegate ==> events[0] == Notified(Connecting))
      && events[k] == Called(Configure(userConfigurationData))
      && (configure != CalledBack(None) ==> |events| == k + 1)
      && (configure == CalledBack(None) ==>
            && |events| > k + 1 && events[k + 1] == Called(Start)
            && forall j :: k + 1 < j < |events| ==> events[j].Notified?)
  {
  }

  /**
   * The configuration blob handed to the provider: None when no user
   * configuration is given, its encoding otherwise. The outer None is the
   * init's thrown error when encoding fails.
   */
  function UserConfigurationData<U>(config: Option<U>, encode: U -> Option<Bytes>): (data: Option<Option<Bytes>>)
    ensures data == Some(None) <==> config.None?
    ensures config.Some? ==> (data.None? <==> encode(config.value).None?)
    ensures config.Some? && data.Some? ==> data.value == encode(config.value)
  {
    match config
    case None => Some(None)
    case Some(c) =>
      match encode(c)
      case None => None
      case Some(bytes) => Some(Some(bytes))
  }

  class MockTunnelProviderManager {
    const mockSession: TunnelProviderSessionMock
    const networkSettings: TunnelNetworkSettings
    const userConfigurationData: Option<Bytes>
    var currentTunnelStatus: Status
    var delegate: Option<DelegateId>
    /** What the manager has shown to its delegate and its provider, oldest first. */
    var events: seq<Event>

    /** The session reports the manager's status. */
    ghost predicate SessionMirrorsStatus()
      reads this, mockSession
    {
      mockSession.statusToReturn == currentTunnelStatus
    }

    /** `init` once the user configuration has been encoded (see `UserConfigurationData`). */
    constructor (networkSettings: TunnelNetworkSettings, userConfigurationData: Option<Bytes>)
      ensures SessionMirrorsStatus() && fresh(mockSession)
      ensures this.networkSettings == networkSettings && this.userConfigurationData == userConfigurationData
      ensures currentTunnelStatus == Invalid
      ensures delegate == None && events == []
    {
      this.networkSettings := networkSettings;
      this.userConfigurationData := userConfigurationData;
      mockSession := new TunnelProviderSessionMock();
      currentTunnelStatus := Invalid;
      delegate := None;
      events := [];
    }

    /** `tunnelStatus`. */
    function TunnelStatus(): Status
      reads this
    {
      currentTunnelStatus
    }

    method SetDelegate(d: Option<DelegateId>)
      modifies this`delegate
      ensures delegate == d
      ensures SessionMirrorsStatus() <==> old(SessionMirrorsStatus())
    {
      delegate := d;
    }

    /**
     * An assignment to `currentTunnelStatus` with its observer: the value is
     * copied to the session and reported once to the delegate, if there is one.
     */
    method AssignStatus(s: Status)
      modifies this`currentTunnelStatus, this`events, mockSession`statusToReturn
      ensures currentTunnelStatus == s && SessionMirrorsStatus()
      ensures events == old(events) + Reported(delegate.Some?, s)
    {
      currentTunnelStatus := s;
      mockSession.statusToReturn := s;
      if delegate.Some? {
        events := events + [Notified(s)];
      }
    }

    /**
     * Starts the provider: `connecting`, then configure; on success start;
     * then `connected`, or `disconnecting` and `disconnected` on a start error.
     * A configure error or a missing callback leaves the status `connecting`.
     */
    method StartTunnel(configure: Callback<ConfigurationError>, start: Callback<StartError>)
      modifies this`currentTunnelStatus, this`events, mockSession`statusToReturn
      ensures SessionMirrorsStatus()
      ensures currentTunnelStatus == Last(StartTransitions(configure, start))
      ensures events == old(events) + StartEvents(configure, start, userConfigurationData, delegate.Some?)
    {
      ghost var before := events;
      StartEventsSteps(before, configure, start, userConfigurationData, delegate.Some?);
      AssignStatus(Connecting);
      events := events + [Called(Configure(userConfigurationData))];
      if configure != CalledBack(None) {
        assert StartTransitions(configure, start) == [Connecting];
        return;
      }
      events := events + [Called(Start)];
      FinishStart(start);
    }

    /** The statuses `startTunnel` assigns once the provider's start completion has been called. */
    method FinishStart(start: Callback<StartError>)
      requires SessionMirrorsStatus()
      modifies this`currentTunnelStatus, this`events, mockSession`statusToReturn
      ensures SessionMirrorsStatus()
      requires currentTunnelStatus == Connecting
      ensures currentTunnelStatus == Last(StartTransitions(CalledBack(None), start))
      ensures events == old(events) + AfterStart(start, delegate.Some?)
    {
      match start {
        case NoCallback =>
        case CalledBack(None) =>
          AssignStatus(Connected);
        case CalledBack(Some(_)) =>
          AssignStatus(Disconnecting);
          AssignStatus(Disconnected);
      }
    }

    /** Asks the provider to stop, as initiated by the user; the status is left as it is. */
    method StopTunnel()
      modifies this`events
      ensures events == old(events) + [Called(Stop(UserInitiated))]
      ensures SessionMirrorsStatus() <==> old(SessionMirrorsStatus())
    {
      events := events + [Called(Stop(UserInitiated))];
    }
  }

  /** A provider that fails to start is seen by the delegate going through `disconnecting` to `disconnected`. */
  method FailedStartScenario(settings: TunnelNetworkSettings)
  {
    var manager := new MockTunnelProviderManager(settings, None);
    assert manager.TunnelStatus() == Invalid;
    manager.SetDelegate(Some(1));
    manager.StartTunnel(CalledBack(None), CalledBack(Some(StartError("no service"))));
    assert manager.mockSession.ReportedStatus() == Disconnected;
    manager.StopTunnel();
    assert manager.TunnelStatus() == Disconnected;
    assert manager.events == [Notified(Connecting), Called(Configure(None)), Called(Start),
                              Notified(Disconnecting), Notified(Disconnected), Called(Stop(UserInitiated))];
  }
}
