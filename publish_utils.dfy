/** The rollback of one channel entry (`publish:rollback`): the count guard of
    the history query, the empty-result check of the details query, the
    confirmation gate and the decision procedure that chooses which
    publication users receive and which mutating calls are issued.

    Each operation is given twice: as a function returning a `Run` (the calls
    issued, in order, and the outcome), which is the specification, and as a
    method over an `ApiClient` that posts the calls one after another, proved
    to issue exactly the calls of the function and to return its outcome. */
module PublishUtils {
  import opened Remote

  datatype ParentOptions = ParentOptions(nonInteractive: Option<bool>)

  /** The options of `publish:rollback`. */
  datatype RollbackOptions = RollbackOptions(channelId: string, parent: Option<ParentOptions>)

  /** The errors the operations throw. */
  datatype Error =
    | CountOutOfRange
    | ChannelNotFound(channelId: string)
    | NotInPublishHistory(channelId: string, channel: string)
    | NoRollbackTarget(channel: string, sdkVersion: string, platform: Platform)
    | NoRecordsFound
    | ConfirmationDeclined
    | RemoteCallFailed(reason: string)

  datatype Result<+T> = Ok(value: T) | Err(error: Error)

  /** One run of an operation: the remote calls it issued, in order, and its outcome. */
  datatype Run<+T> = Run(calls: seq<Call>, result: Result<T>)

  function PlatformName(p: Platform): (name: string) {
    match p
    case Android => "android"
    case Ios => "ios"
  }

  /** The message each error carries; a remote error is re-thrown as it came. */
  function Message(e: Error): (message: string)
    ensures e.RemoteCallFailed? ==> message == e.reason
    ensures !e.RemoteCallFailed? ==> |message| > 0
  {
    match e
    case CountOutOfRange =>
      "-n must be a number between 1 and 100 inclusive"
    case ChannelNotFound(id) =>
      "The channel id " + id + " could not be found"
    case NotInPublishHistory(id, channel) =>
      "The channel id " + id + " could not be found in the publish history of channel: " + channel
    case NoRollbackTarget(channel, sdkVersion, platform) =>
      "There is no publication assigned to channel " + channel + " with the same sdkVersion ("
      + sdkVersion + ") and platform (" + PlatformName(platform) + ") for users to receive if we rollback"
    case NoRecordsFound =>
      "No records found matching your query."
    case ConfirmationDeclined =>
      "Please run 'publish:set' to send the desired publication to users"
    case RemoteCallFailed(reason) =>
      reason
  }

  /** An awaited reply: its `queryResult`, or its error propagated unchanged. */
  function Lift<T>(reply: Reply<T>): (result: Result<T>) {
    match reply
    case Answered(v) => Ok(v)
    case Failed(reason) => Err(RemoteCallFailed(reason))
  }

  /** One awaited `postAsync`: the call is issued whatever the reply is. */
  function Post<T>(call: Call, reply: Reply<T>): (run: Run<T>) {
    Run([call], Lift(reply))
  }

  // ---------------------------------------------------------------------------
  // getPublishHistoryAsync, getPublicationDetailAsync, setPublishToChannelAsync

  /** The guard of `getPublishHistoryAsync`: a count of 0 is falsy and skips
      the range check, so only a present count below 0 or above 100 is refused. */
  function CountRejected(count: Option<int>): (rejected: bool)
    ensures rejected <==> count.Some? && (count.value < 0 || 100 < count.value)
    ensures count == None || count == Some(0) ==> !rejected
  {
    count.Some? && count.value != 0 && (count.value < 1 || count.value > 100)
  }

  function HistoryRun(server: Server, options: HistoryOptions): (run: Run<seq<Publication>>)
    ensures CountRejected(options.count) ==> run == Run([], Err(CountOutOfRange))
    ensures !CountRejected(options.count) ==>
      run.calls == [HistoryCall(options)] && run.result == Lift(server.history(options))
  {
    if CountRejected(options.count) then Run([], Err(CountOutOfRange))
    else Post(HistoryCall(options), server.history(options))
  }

  function DetailRun(server: Server, publishId: string): (run: Run<PublicationDetail>)
    ensures run.calls == [DetailsCall(publishId)]
    ensures run.result.Ok? <==>
      server.details(publishId).Answered? && server.details(publishId).queryResult.Some?
    ensures run.result.Ok? ==> server.details(publishId) == Answered(Some(run.result.value))
    ensures server.details(publishId) == Answered(None) ==> run.result == Err(NoRecordsFound)
    ensures server.details(publishId).Failed? ==>
      run.result == Err(RemoteCallFailed(server.details(publishId).reason))
  {
    var posted: Run<Option<PublicationDetail>> := Post(DetailsCall(publishId), server.details(publishId));
    match posted.result
    case Err(e) => Run(posted.calls, Err(e))
    case Ok(None) => Run(posted.calls, Err(NoRecordsFound))
    case Ok(Some(detail)) => Run(posted.calls, Ok(detail))
  }

  function SetRun(server: Server, releaseChannel: string, publishId: string): (run: Run<QueryResult>)
    ensures run.calls == [SetCall(releaseChannel, publishId)]
    ensures run.result.Err? <==> server.setChannel(releaseChannel, publishId).Failed?
    ensures run.result == Lift(server.setChannel(releaseChannel, publishId))
  {
    Post(SetCall(releaseChannel, publishId), server.setChannel(releaseChannel, publishId))
  }

  // ---------------------------------------------------------------------------
  // _printAndConfirm

  /** `parent.nonInteractive` is set and true. */
  predicate NonInteractive(options: RollbackOptions) {
    options.parent.Some? && options.parent.value.nonInteractive == Some(true)
  }

  /** Fetch (and print) the entry users will receive, then ask unless
      non-interactive; `confirm` is the operator's answer to the prompt. */
  function ConfirmRun(server: Server, entry: Publication, options: RollbackOptions, confirm: bool): (run: Run<()>)
    ensures run.calls == [DetailsCall(entry.publicationId)]
    ensures run.result.Ok? <==>
      DetailRun(server, entry.publicationId).result.Ok? && (NonInteractive(options) || confirm)
    ensures DetailRun(server, entry.publicationId).result.Ok? && !NonInteractive(options) && !confirm ==>
      run.result == Err(ConfirmationDeclined)
    ensures DetailRun(server, entry.publicationId).result.Err? ==>
      run.result == Err(DetailRun(server, entry.publicationId).result.error)
  {
    var detail := DetailRun(server, entry.publicationId);
    if detail.result.Err? then Run(detail.calls, Err(detail.result.error))
    else if NonInteractive(options) then Run(detail.calls, Ok(()))
    else if !confirm then Run(detail.calls, Err(ConfirmationDeclined))
    else Run(detail.calls, Ok(()))
  }

  // ---------------------------------------------------------------------------
  // rollbackPublicationFromChannelAsync

  /** The channel-details reply carries a truthy (present, non-empty) `errorCode`. */
  predicate HasErrorCode(details: ChannelQueryResult) {
    details.errorCode.Some? && details.errorCode.value != ""
  }

  /** The history query for a channel: its name, platform and sdkVersion, two entries. */
  function HistoryQueryFor(details: ChannelQueryResult): (options: HistoryOptions) {
    HistoryOptions(Some(details.channel), Some(2), Some(details.platform), Some(details.sdkVersion))
  }

  /** What the history means for the rollback of `channelId`. */
  datatype Decision =
    | NotInHistory
    | NothingToReceive
    | RevertTo(target: Publication)       // the entry is live: serve the older one again
    | KeepMostRecent(target: Publication) // the entry is not live: users keep the newest one

  function Decide(history: seq<Publication>, channelId: string): (d: Decision)
    ensures d == NotInHistory <==> |history| == 0
    ensures d == NothingToReceive <==> |history| == 1
    ensures d.RevertTo? <==> 2 <= |history| && history[0].channelId == channelId
    ensures d.KeepMostRecent? <==> 2 <= |history| && history[0].channelId != channelId
    ensures d.RevertTo? ==> d.target == history[|history| - 1]
    ensures d.KeepMostRecent? ==> d.target == history[0]
    // when the newest and the oldest entries differ and one of them is the
    // entry rolled back, users receive the other one
    ensures (d.RevertTo? || d.KeepMostRecent?) &&
            history[0].channelId != history[|history| - 1].channelId &&
            (channelId == history[0].channelId || channelId == history[|history| - 1].channelId) ==>
              d.target.channelId != channelId
  {
    if |history| == 0 then NotInHistory
    else if |history| == 1 then NothingToReceive
    else if history[0].channelId == channelId then RevertTo(history[|history| - 1])
    else KeepMostRecent(history[0])
  }

  /** From the confirmation on, once a target is chosen: confirm it, apply it
      with `publish/set` when reverting, then `publish/rollback` the entry. */
  function ApplyRun(server: Server, options: RollbackOptions, confirm: bool, channel: string, decision: Decision)
    : (run: Run<QueryResult>)
    requires decision.RevertTo? || decision.KeepMostRecent?
    ensures 1 <= |run.calls| <= 3 && run.calls[0] == DetailsCall(decision.target.publicationId)
    ensures run.result.Ok? ==>
      run.calls[|run.calls| - 1] == RollbackCall(options.channelId) && (NonInteractive(options) || confirm)
    ensures run.result.Ok? ==>
      (ConfirmRun(server, decision.target, options, confirm).result.Ok? &&
       run.result == Lift(server.rollback(options.channelId)))
    ensures SetCall(channel, decision.target.publicationId) in run.calls ==> decision.RevertTo?
  {
    var gate := ConfirmRun(server, decision.target, options, confirm);
    var revert := SetRun(server, channel, decision.target.publicationId);
    if gate.result.Err? then Run(gate.calls, Err(gate.result.error))
    else if decision.RevertTo? && revert.result.Err? then
      Run(gate.calls + revert.calls, Err(revert.result.error))
    else
      var reverts := if decision.RevertTo? then revert.calls else [];
      var rollback := Post(RollbackCall(options.channelId), server.rollback(options.channelId));
      Run(gate.calls + reverts + rollback.calls, rollback.result)
  }

  function RollbackRun(server: Server, options: RollbackOptions, confirm: bool): (run: Run<QueryResult>)
    ensures 1 <= |run.calls| <= 5 && run.calls[0] == ChannelDetailsCall(options.channelId)
    ensures run.result.Ok? ==> run.calls[|run.calls| - 1] == RollbackCall(options.channelId)
  {
    var id := options.channelId;
    var asked := [ChannelDetailsCall(id)];
    match server.channelDetails(id)
    case Failed(reason) => Run(asked, Err(RemoteCallFailed(reason)))
    case Answered(details) =>
      if HasErrorCode(details) then Run(asked, Err(ChannelNotFound(id)))
      else
        var fetched := HistoryRun(server, HistoryQueryFor(details));
        var read := asked + fetched.calls;
        match fetched.result
        case Err(e) => Run(read, Err(e))
        case Ok(history) =>
          var decision := Decide(history, id);
          if decision == NotInHistory then
            Run(read, Err(NotInPublishHistory(id, details.channel)))
          else if decision == NothingToReceive then
            Run(read, Err(NoRollbackTarget(details.channel, details.sdkVersion, details.platform)))
          else
            var applied := ApplyRun(server, options, confirm, details.channel, decision);
            Run(read + applied.calls, applied.result)
  }

  // ---------------------------------------------------------------------------
  // The same operations, posting their calls one after another

  method GetPublishHistory(api: ApiClient, options: HistoryOptions) returns (result: Result<seq<Publication>>)
    modifies api
    ensures api.calls == old(api.calls) + HistoryRun(api.server, options).calls
    ensures result == HistoryRun(api.server, options).result
  {
    if CountRejected(options.count) {
      return Err(CountOutOfRange);
    }
    var reply := api.PostHistory(options);
    result := Lift(reply);
  }

  method GetPublicationDetail(api: ApiClient, publishId: string) returns (result: Result<PublicationDetail>)
    modifies api
    ensures api.calls == old(api.calls) + DetailRun(api.server, publishId).calls
    ensures result == DetailRun(api.server, publishId).result
  {
    var reply := api.PostDetails(publishId);
    match reply
    case Failed(reason) => result := Err(RemoteCallFailed(reason));
    case Answered(None) => result := Err(NoRecordsFound);
    case Answered(Some(detail)) => result := Ok(detail);
  }

  method SetPublishToChannel(api: ApiClient, releaseChannel: string, publishId: string) returns (result: Result<QueryResult>)
    modifies api
    ensures api.calls == old(api.calls) + SetRun(api.server, releaseChannel, publishId).calls
    ensures result == SetRun(api.server, releaseChannel, publishId).result
  {
    var reply := api.PostSet(releaseChannel, publishId);
    result := Lift(reply);
  }

  method PrintAndConfirm(api: ApiClient, entry: Publication, options: RollbackOptions, confirm: bool)
    returns (result: Result<()>)
    modifies api
    ensures api.calls == old(api.calls) + ConfirmRun(api.server, entry, options, confirm).calls
    ensures result == ConfirmRun(api.server, entry, options, confirm).result
  {
    var detail := GetPublicationDetail(api, entry.publicationId);
    if detail.Err? {
      return Err(detail.error);
    }
    if NonInteractive(options) {
      return Ok(());
    }
    if !confirm {
      return Err(ConfirmationDeclined);
    }
    result := Ok(());
  }

  method RollbackPublicationFromChannel(api: ApiClient, options: RollbackOptions, confirm: bool)
    returns (result: Result<QueryResult>)
    modifies api
    ensures api.calls == old(api.calls) + RollbackRun(api.server, options, confirm).calls
    ensures result == RollbackRun(api.server, options, confirm).result
  {
    var id := options.channelId;
    var channelReply := api.PostChannelDetails(id);
    if channelReply.Failed? {
      return Err(RemoteCallFailed(channelReply.reason));
    }
    var details := channelReply.queryResult;
    if HasErrorCode(details) {
      return Err(ChannelNotFound(id));
    }

    // the two most recent entries of the channel's history
    var fetched := GetPublishHistory(api, HistoryQueryFor(details));
    if fetched.Err? {
      return Err(fetched.error);
    }
    var history := fetched.value;
    if |history| == 0 {
      return Err(NotInPublishHistory(id, details.channel));
    } else if |history| == 1 {
      return Err(NoRollbackTarget(details.channel, details.sdkVersion, details.platform));
    }

    var mostRecent := history[0];
    var secondMostRecent := history[|history| - 1];
    ghost var read := api.calls;
    if mostRecent.channelId == id {
      // the entry is live: users receive secondMostRecent, applied with publish/set
      var confirmed := PrintAndConfirm(api, secondMostRecent, options, confirm);
      if confirmed.Err? {
        return Err(confirmed.error);
      }
      var applied := SetPublishToChannel(api, details.channel, secondMostRecent.publicationId);
      if applied.Err? {
        return Err(applied.error);
      }
    } else {
      // users keep receiving mostRecent
      var confirmed := PrintAndConfirm(api, mostRecent, options, confirm);
      if confirmed.Err? {
        return Err(confirmed.error);
      }
    }

    var rollbackReply := api.PostRollback(id);
    result := Lift(rollbackReply);
  }
}
