/** The module instance (src/main.ts): its configuration, the current
    snapshot, the polling timer, and the connect / poll / reconfigure /
    teardown steps that change them. The network fetch is an outcome passed
    in; the host's timer table is the set of running intervals; every call
    into the host registry is recorded, in order, in `hostCalls`. */
module Lifecycle {
  import opened Snapshot
  import Feedbacks
  import Variables
  import Presets

  /** The configuration fields (src/config.ts:3-6). */
  datatype Config = Config(secretKey: string, environment: string)

  /** The connection states reported to the host. */
  datatype InstanceStatus = Connecting | Ok | AuthenticationFailure | ConnectionFailure | UnknownError | Disconnected

  /** What one fetch of the snapshot came back with: the snapshot, or an
      error carrying the HTTP status of the response when there was one. */
  datatype FetchOutcome = Fetched(data: BroadcastData) | FetchFailed(responseStatus: Option<int>)

  /** How an async step settles: its promise resolves, or it rejects. */
  datatype Completion = Returned | Threw

  type TimerHandle = nat

  /** The calls the instance makes into the host's registries. */
  datatype HostCall =
    | UpdateStatus(status: InstanceStatus)
    | CheckFeedbacks(feedbackIds: seq<string>)
    | SetVariableValues(values: map<Variables.VarId, Option<string>>)
    | SetFeedbackDefinitions(feedbackIds: seq<string>)
    | SetVariableDefinitions(definitions: seq<Variables.VariableDefinition>)
    | SetPresetDefinitions(presets: map<Presets.PresetKey, Presets.Preset>)

  /** The status a failed connect reports (src/main.ts:53-67): 401 and 403
      are an authentication failure, 404 a connection failure, anything
      else (no response included) an unknown error. */
  function ConnectFailureStatus(responseStatus: Option<int>): (s: InstanceStatus)
    ensures s == AuthenticationFailure <==> responseStatus == Some(401) || responseStatus == Some(403)
    ensures s == ConnectionFailure <==> responseStatus == Some(404)
    ensures s == UnknownError <==> !(responseStatus in {Some(401), Some(403), Some(404)})
  {
    if responseStatus == Some(401) || responseStatus == Some(403) then AuthenticationFailure
    else if responseStatus == Some(404) then ConnectionFailure
    else UnknownError
  }

  /** Only an unknown error is rethrown by a failed connect. */
  function ConnectFailureCompletion(responseStatus: Option<int>): (c: Completion)
    ensures c == Threw <==> ConnectFailureStatus(responseStatus) == UnknownError
  {
    if responseStatus in {Some(401), Some(403), Some(404)} then Returned else Threw
  }

  /** A reconnect is needed when the environment or the secret key changed,
      which, these being the only two settings, is any change at all. */
  predicate NeedsReconnect(current: Config, next: Config): (r: bool)
    ensures r <==> current != next
  {
    next.environment != current.environment || next.secretKey != current.secretKey
  }

  /** The last host call publishes the presets of `data`. */
  ghost predicate EndsWithPresets(calls: seq<HostCall>, data: Option<BroadcastData>)
  {
    && |calls| > 0
    && calls[|calls| - 1].SetPresetDefinitions?
    && Presets.IsPresetsOf(calls[|calls| - 1].presets, data)
  }

  class BallScoreBroadcastModuleInstance {
    var config: Option<Config>
    /** The configuration the snapshot fetcher was last built with. */
    var apiService: Option<Config>
    var data: Option<BroadcastData>
    var broadcastTimer: Option<TimerHandle>
    /** The last status reported to the host. */
    var status: Option<InstanceStatus>
    var hostCalls: seq<HostCall>
    /** The host's timer table: the intervals currently running. */
    var runningIntervals: set<TimerHandle>
    var nextTimerHandle: TimerHandle

    /** At most one interval runs, and it is the one `broadcastTimer` holds;
        an interval runs only once a snapshot has been fetched. */
    ghost predicate Valid()
      reads this
    {
      && runningIntervals == (if broadcastTimer.Some? then {broadcastTimer.value} else {})
      && (forall h | h in runningIntervals :: h < nextTimerHandle)
      && (broadcastTimer.Some? ==> data.Some? && apiService.Some?)
    }

    /** A new instance: nothing configured, fetched, armed or reported. */
    constructor ()
      ensures Valid()
      ensures config == None && apiService == None && data == None && broadcastTimer == None
      ensures status == None && hostCalls == [] && runningIntervals == {}
    {
      config := None;
      apiService := None;
      data := None;
      broadcastTimer := None;
      status := None;
      hostCalls := [];
      runningIntervals := {};
      nextTimerHandle := 0;
    }

    /** `subscribeToBroadcast` (src/main.ts:20-43): clears the running
        interval, if any, and arms a new one. */
    method SubscribeToBroadcast() returns (timer: TimerHandle)
      requires Valid() && data.Some? && apiService.Some?
      modifies this
      ensures Valid()
      ensures broadcastTimer == Some(timer) && runningIntervals == {timer}
      ensures timer !in old(runningIntervals) && old(nextTimerHandle) <= timer
      ensures nextTimerHandle >= old(nextTimerHandle)
      ensures config == old(config) && apiService == old(apiService) && data == old(data)
      ensures status == old(status) && hostCalls == old(hostCalls)
    {
      if broadcastTimer.Some? {
        runningIntervals := runningIntervals - {broadcastTimer.value};
      }
      timer := nextTimerHandle;
      nextTimerHandle := nextTimerHandle + 1;
      runningIntervals := runningIntervals + {timer};
      broadcastTimer := Some(timer);
    }

    /** One firing of the interval `timer` (src/main.ts:27-39), with the
        outcome of its fetch. A snapshot replaces the stored one whole, then
        the feedbacks are re-checked and the variables re-published; a failure
        reports `Disconnected`. Either way the interval keeps running. A
        successful tick reports no status, so after a failed one the host
        keeps showing `Disconnected`. */
    method OnBroadcastTick(timer: TimerHandle, outcome: FetchOutcome)
      requires Valid() && timer in runningIntervals
      modifies this
      ensures Valid()
      ensures broadcastTimer == old(broadcastTimer) && runningIntervals == old(runningIntervals)
      ensures config == old(config) && apiService == old(apiService)
      ensures outcome.Fetched? ==>
        && data == Some(outcome.data) && status == old(status)
        && |hostCalls| == |old(hostCalls)| + 2
        && hostCalls[..|old(hostCalls)| + 1] == old(hostCalls) + [CheckFeedbacks(Feedbacks.RECHECKED_FEEDBACKS)]
        && hostCalls[|old(hostCalls)| + 1].SetVariableValues?
        && Variables.IsProjectionOf(hostCalls[|old(hostCalls)| + 1].values, outcome.data)
      ensures outcome.FetchFailed? ==>
        && data == old(data) && status == Some(Disconnected)
        && hostCalls == old(hostCalls) + [UpdateStatus(Disconnected)]
    {
      match outcome
      case Fetched(snapshot) =>
        data := Some(snapshot);
        hostCalls := hostCalls + [CheckFeedbacks(Feedbacks.RECHECKED_FEEDBACKS)];
        var updates := Variables.UpdateLineupAndPitchersVariables(snapshot);
        hostCalls := hostCalls + [SetVariableValues(updates)];
      case FetchFailed(_) =>
        status := Some(Disconnected);
        hostCalls := hostCalls + [UpdateStatus(Disconnected)];
    }

    /** `connectToBallScore` (src/main.ts:45-68): reports `Connecting`, builds
        the fetcher for `cfg` and fetches once. A snapshot is stored, `Ok`
        reported and the interval armed; a failure is classified, reported,
        and rethrown only when it is an unknown error, with no interval armed
        and the stored snapshot kept. */
    method ConnectToBallScore(cfg: Config, outcome: FetchOutcome) returns (completion: Completion)
      requires Valid()
      modifies this
      ensures Valid()
      ensures config == old(config) && apiService == Some(cfg)
      ensures nextTimerHandle >= old(nextTimerHandle)
      ensures outcome.Fetched? ==>
        && completion == Returned
        && data == Some(outcome.data) && status == Some(Ok)
        && hostCalls == old(hostCalls) + [UpdateStatus(Connecting), UpdateStatus(Ok)]
        && broadcastTimer.Some? && runningIntervals == {broadcastTimer.value}
        && broadcastTimer.value !in old(runningIntervals) && old(nextTimerHandle) <= broadcastTimer.value
      ensures outcome.FetchFailed? ==>
        var failure := ConnectFailureStatus(outcome.responseStatus);
        && completion == ConnectFailureCompletion(outcome.responseStatus)
        && data == old(data) && status == Some(failure)
        && hostCalls == old(hostCalls) + [UpdateStatus(Connecting), UpdateStatus(failure)]
        && broadcastTimer == old(broadcastTimer) && runningIntervals == old(runningIntervals)
    {
      status := Some(Connecting);
      hostCalls := hostCalls + [UpdateStatus(Connecting)];
      apiService := Some(cfg);
      match outcome
      case Fetched(snapshot) =>
        data := Some(snapshot);
        status := Some(Ok);
        hostCalls := hostCalls + [UpdateStatus(Ok)];
        var _ := SubscribeToBroadcast();
        completion := Returned;
      case FetchFailed(responseStatus) =>
        if responseStatus == Some(401) || responseStatus == Some(403) {
          status := Some(AuthenticationFailure);
          hostCalls := hostCalls + [UpdateStatus(AuthenticationFailure)];
          return Returned;
        }
        if responseStatus == Some(404) {
          status := Some(ConnectionFailure);
          hostCalls := hostCalls + [UpdateStatus(ConnectionFailure)];
          return Returned;
        }
        status := Some(UnknownError);
        hostCalls := hostCalls + [UpdateStatus(UnknownError)];
        completion := Threw;
    }

    /** `init` (src/main.ts:70-79): stores the configuration, connects, and,
        unless the connect threw, registers the feedbacks, the variables and
        the presets of whatever snapshot is stored. */
    method Init(cfg: Config, outcome: FetchOutcome) returns (completion: Completion)
      requires Valid()
      modifies this
      ensures Valid()
      ensures config == Some(cfg) && apiService == Some(cfg)
      ensures completion == (if outcome.Fetched? then Returned else ConnectFailureCompletion(outcome.responseStatus))
      ensures outcome.Fetched? ==> data == Some(outcome.data) && status == Some(Ok) && broadcastTimer.Some?
      ensures outcome.FetchFailed? ==>
        && data == old(data) && status == Some(ConnectFailureStatus(outcome.responseStatus))
        && broadcastTimer == old(broadcastTimer)
      ensures completion == Returned ==>
        && |hostCalls| == |old(hostCalls)| + 5
        && hostCalls[..|old(hostCalls)| + 2] == old(hostCalls) + [UpdateStatus(Connecting), UpdateStatus(status.value)]
        && hostCalls[|old(hostCalls)| + 2] == SetFeedbackDefinitions(Feedbacks.FEEDBACK_DEFINITIONS)
        && hostCalls[|old(hostCalls)| + 3].SetVariableDefinitions?
        && Variables.IsDefinitionList(hostCalls[|old(hostCalls)| + 3].definitions)
        && EndsWithPresets(hostCalls, data)
      ensures completion == Threw ==>
        hostCalls == old(hostCalls) + [UpdateStatus(Connecting), UpdateStatus(UnknownError)]
    {
      config := Some(cfg);
      completion := ConnectToBallScore(cfg, outcome);
      if completion == Threw {
        return;
      }
      hostCalls := hostCalls + [SetFeedbackDefinitions(Feedbacks.FEEDBACK_DEFINITIONS)];
      var definitions := Variables.UpdateVariableDefinitions();
      hostCalls := hostCalls + [SetVariableDefinitions(definitions)];
      var presets := Presets.UpdatePresetDefinitions(data);
      hostCalls := hostCalls + [SetPresetDefinitions(presets)];
    }

    /** `destroy` (src/main.ts:81-88): clears the interval, if one runs.
        Once nothing runs it changes nothing, so a second call is harmless. */
    method Destroy()
      requires Valid()
      modifies this
      ensures Valid()
      ensures broadcastTimer == None && runningIntervals == {}
      ensures config == old(config) && apiService == old(apiService) && data == old(data)
      ensures status == old(status) && hostCalls == old(hostCalls)
      ensures old(broadcastTimer).None? ==> unchanged(this)
    {
      if broadcastTimer.Some? {
        runningIntervals := runningIntervals - {broadcastTimer.value};
        broadcastTimer := None;
      }
    }

    /** `configUpdated` (src/main.ts:90-106). When the environment or the
        secret key changed: clears the interval, connects with the new
        configuration and, unless that threw, rebuilds the presets. The new
        configuration is stored unless the connect threw. Otherwise nothing
        but the stored configuration changes. */
    method ConfigUpdated(cfg: Config, outcome: FetchOutcome) returns (completion: Completion)
      requires Valid() && config.Some?
      modifies this
      ensures Valid()
      ensures !NeedsReconnect(old(config).value, cfg) ==>
        && completion == Returned && config == Some(cfg)
        && data == old(data) && apiService == old(apiService) && status == old(status)
        && broadcastTimer == old(broadcastTimer) && runningIntervals == old(runningIntervals)
        && hostCalls == old(hostCalls)
      ensures NeedsReconnect(old(config).value, cfg) ==>
        && apiService == Some(cfg)
        && (old(broadcastTimer).Some? ==> old(broadcastTimer).value !in runningIntervals)
        && |hostCalls| >= |old(hostCalls)| + 2
        && hostCalls[|old(hostCalls)|] == UpdateStatus(Connecting)
      ensures NeedsReconnect(old(config).value, cfg) && outcome.Fetched? ==>
        && completion == Returned && config == Some(cfg)
        && data == Some(outcome.data) && status == Some(Ok) && broadcastTimer.Some?
        && hostCalls[..|hostCalls| - 1] == old(hostCalls) + [UpdateStatus(Connecting), UpdateStatus(Ok)]
        && EndsWithPresets(hostCalls, data)
      ensures NeedsReconnect(old(config).value, cfg) && outcome.FetchFailed? ==>
        var failure := ConnectFailureStatus(outcome.responseStatus);
        && completion == ConnectFailureCompletion(outcome.responseStatus)
        && data == old(data) && status == Some(failure)
        && broadcastTimer == None && runningIntervals == {}
        && (completion == Threw ==>
              && config == old(config)
              && hostCalls == old(hostCalls) + [UpdateStatus(Connecting), UpdateStatus(failure)])
        && (completion == Returned ==>
              && config == Some(cfg)
              && hostCalls[..|hostCalls| - 1] == old(hostCalls) + [UpdateStatus(Connecting), UpdateStatus(failure)]
              && EndsWithPresets(hostCalls, data))
    {
      var isReconnectionNeeded := NeedsReconnect(config.value, cfg);
      if isReconnectionNeeded {
        if broadcastTimer.Some? {
          runningIntervals := runningIntervals - {broadcastTimer.value};
          broadcastTimer := None;
        }
        completion := ConnectToBallScore(cfg, outcome);
        if completion == Threw {
          return;
        }
        var presets := Presets.UpdatePresetDefinitions(data);
        hostCalls := hostCalls + [SetPresetDefinitions(presets)];
      } else {
        completion := Returned;
      }
      config := Some(cfg);
    }
  }
}
