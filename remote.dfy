/** Data shapes exchanged with the Expo publish API, and the API client as seen
    by the rollback logic: every `postAsync` is recorded, in order, in `calls`,
    and its reply comes from a `Server` oracle that stands for the remote service. */
module Remote {

  datatype Option<+T> = None | Some(value: T)

  datatype Platform = Android | Ios

  /** One entry of a channel's publish history. */
  datatype Publication = Publication(
    fullName: string,
    channel: string,
    channelId: string,
    publicationId: string,
    appVersion: string,
    sdkVersion: string,
    publishedTime: string,
    platform: Platform)

  /** The reply of `publish/details`; only printed by the rollback logic. */
  datatype PublicationDetail = PublicationDetail(
    publicationId: string,
    fullName: string,
    sdkVersion: string,
    manifest: map<string, string>)

  /** The `queryResult` of `publish/channel-details`. */
  datatype ChannelQueryResult = ChannelQueryResult(
    channel: string,
    platform: Platform,
    sdkVersion: string,
    errorCode: Option<string>)

  /** The options of `getPublishHistoryAsync` that reach the `publish/history` query. */
  datatype HistoryOptions = HistoryOptions(
    releaseChannel: Option<string>,
    count: Option<int>,
    platform: Option<Platform>,
    sdkVersion: Option<string>)

  /** The `queryResult` of `publish/set` and `publish/rollback`, a status table. */
  type QueryResult = map<string, string>

  /** One remote call, with the arguments the rollback logic chooses. */
  datatype Call =
    | ChannelDetailsCall(channelId: string)
    | HistoryCall(options: HistoryOptions)
    | DetailsCall(publishId: string)
    | SetCall(releaseChannel: string, publishId: string)
    | RollbackCall(channelId: string)
  {
    /** The calls that change what a channel serves. */
    predicate Mutates() {
      SetCall? || RollbackCall?
    }
  }

  /** What an awaited remote call yields: its `queryResult`, or a thrown error. */
  datatype Reply<+T> = Answered(queryResult: T) | Failed(reason: string) {
    /** The error the call threw, if it threw one. */
    function Thrown(): (thrown: Option<string>) {
      if Failed? then Some(reason) else None
    }
  }

  /** The remote service, as an oracle: the reply to each possible call. */
  datatype Server = Server(
    channelDetails: string -> Reply<ChannelQueryResult>,
    history: HistoryOptions -> Reply<seq<Publication>>,
    details: string -> Reply<Option<PublicationDetail>>,
    setChannel: (string, string) -> Reply<QueryResult>,
    rollback: string -> Reply<QueryResult>)
  {
    /** The error the service throws for a call, if it throws one. */
    function Throws(call: Call): (thrown: Option<string>) {
      match call
      case ChannelDetailsCall(channelId) => channelDetails(channelId).Thrown()
      case HistoryCall(options) => history(options).Thrown()
      case DetailsCall(publishId) => details(publishId).Thrown()
      case SetCall(releaseChannel, publishId) => setChannel(releaseChannel, publishId).Thrown()
      case RollbackCall(channelId) => rollback(channelId).Thrown()
    }
  }

  /** The authenticated API client: it records each call it posts. */
  class ApiClient {
    const server: Server
    var calls: seq<Call>

    constructor (server: Server)
      ensures this.server == server && calls == []
    {
      this.server := server;
      calls := [];
    }

    method PostChannelDetails(channelId: string) returns (r: Reply<ChannelQueryResult>)
      modifies this
      ensures calls == old(calls) + [ChannelDetailsCall(channelId)]
      ensures r == server.channelDetails(channelId)
    {
      calls := calls + [ChannelDetailsCall(channelId)];
      r := server.channelDetails(channelId);
    }

    method PostHistory(options: HistoryOptions) returns (r: Reply<seq<Publication>>)
      modifies this
      ensures calls == old(calls) + [HistoryCall(options)]
      ensures r == server.history(options)
    {
      calls := calls + [HistoryCall(options)];
      r := server.history(options);
    }

    method PostDetails(publishId: string) returns (r: Reply<Option<PublicationDetail>>)
      modifies this
      ensures calls == old(calls) + [DetailsCall(publishId)]
      ensures r == server.details(publishId)
    {
      calls := calls + [DetailsCall(publishId)];
      r := server.details(publishId);
    }

    method PostSet(releaseChannel: string, publishId: string) returns (r: Reply<QueryResult>)
      modifies this
      ensures calls == old(calls) + [SetCall(releaseChannel, publishId)]
      ensures r == server.setChannel(releaseChannel, publishId)
    {
      calls := calls + [SetCall(releaseChannel, publishId)];
      r := server.setChannel(releaseChannel, publishId);
    }

    method PostRollback(channelId: string) returns (r: Reply<QueryResult>)
      modifies this
      ensures calls == old(calls) + [RollbackCall(channelId)]
      ensures r == server.rollback(channelId)
    {
      calls := calls + [RollbackCall(channelId)];
      r := server.rollback(channelId);
    }
  }
}
