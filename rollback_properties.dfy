/** What a rollback run does, stated over the calls it issues: the scenarios
    the test suite pins down (which calls, with which arguments, in which
    order, how many) and the facts that hold on every input (the writes come
    last, at most one `publish/set` and always before the one
    `publish/rollback`, nothing is written without confirmation). */
module RollbackProperties {
  import opened Remote
  import opened PublishUtils

  /** The mutating calls of a trace, in order. */
  function Writes(calls: seq<Call>): (w: seq<Call>)
    ensures |w| <= |calls|
    ensures forall i | 0 <= i < |w| :: w[i].Mutates()
    ensures w == [] ==> forall i | 0 <= i < |calls| :: !calls[i].Mutates()
  {
    if calls == [] then []
    else if calls[0].Mutates() then [calls[0]] + Writes(calls[1..])
    else Writes(calls[1..])
  }

  lemma {:induction false} WritesAppend(a: seq<Call>, b: seq<Call>)
    ensures Writes(a + b) == Writes(a) + Writes(b)
  {
    if a == [] {
      assert a + b == b;
    } else {
      assert (a + b)[1..] == a[1..] + b;
      WritesAppend(a[1..], b);
    }
  }

  /** A trace of reads only has no writes. */
  lemma {:induction false} ReadsOnly(calls: seq<Call>)
    requires forall i | 0 <= i < |calls| :: !calls[i].Mutates()
    ensures Writes(calls) == []
  {
    if calls != [] {
      ReadsOnly(calls[1..]);
    }
  }

  // ---------------------------------------------------------------------------
  // Scenarios

  /** An `errorCode` in the channel details: "could not be found", and
      `publish/channel-details` is the only call made. */
  lemma UnknownChannelId(server: Server, options: RollbackOptions, confirm: bool)
    requires server.channelDetails(options.channelId).Answered?
    requires HasErrorCode(server.channelDetails(options.channelId).queryResult)
    ensures RollbackRun(server, options, confirm) ==
      Run([ChannelDetailsCall(options.channelId)], Err(ChannelNotFound(options.channelId)))
    ensures Message(RollbackRun(server, options, confirm).result.error) ==
      "The channel id " + options.channelId + " could not be found"
  {
  }

  /** A `publish/channel-details` call that throws: its error, unchanged,
      after that one call. */
  lemma ChannelDetailsCallFails(server: Server, options: RollbackOptions, confirm: bool)
    requires server.channelDetails(options.channelId).Failed?
    ensures RollbackRun(server, options, confirm) ==
      Run([ChannelDetailsCall(options.channelId)],
          Err(RemoteCallFailed(server.channelDetails(options.channelId).reason)))
  {
  }

  /** The history is asked for with the channel, platform and sdkVersion of
      the channel details and a count of 2, right after the details call. */
  lemma HistoryQueryFollowsChannelDetails(server: Server, options: RollbackOptions, confirm: bool)
    requires server.channelDetails(options.channelId).Answered?
    requires !HasErrorCode(server.channelDetails(options.channelId).queryResult)
    ensures var details := server.channelDetails(options.channelId).queryResult;
            var run := RollbackRun(server, options, confirm);
            2 <= |run.calls| &&
            run.calls[1] == HistoryCall(HistoryOptions(
              Some(details.channel), Some(2), Some(details.platform), Some(details.sdkVersion)))
  {
  }

  /** An empty history: "not found in publish history", after the two reads. */
  lemma EmptyHistory(server: Server, options: RollbackOptions, confirm: bool, details: ChannelQueryResult)
    requires server.channelDetails(options.channelId) == Answered(details) && !HasErrorCode(details)
    requires server.history(HistoryQueryFor(details)) == Answered([])
    ensures RollbackRun(server, options, confirm) ==
      Run([ChannelDetailsCall(options.channelId), HistoryCall(HistoryQueryFor(details))],
          Err(NotInPublishHistory(options.channelId, details.channel)))
    ensures Message(RollbackRun(server, options, confirm).result.error) ==
      "The channel id " + options.channelId + " could not be found in the publish history of channel: "
      + details.channel
  {
  }

  /** A one-entry history: nothing for users to receive, after exactly the two
      reads; neither `publish/set` nor `publish/rollback` is issued. */
  lemma SingleEntryHistory(server: Server, options: RollbackOptions, confirm: bool,
                           details: ChannelQueryResult, only: Publication)
    requires server.channelDetails(options.channelId) == Answered(details) && !HasErrorCode(details)
    requires server.history(HistoryQueryFor(details)) == Answered([only])
    ensures var run := RollbackRun(server, options, confirm);
            run == Run([ChannelDetailsCall(options.channelId), HistoryCall(HistoryQueryFor(details))],
                       Err(NoRollbackTarget(details.channel, details.sdkVersion, details.platform))) &&
            Writes(run.calls) == [] &&
            Message(run.result.error) ==
              "There is no publication assigned to channel " + details.channel + " with the same sdkVersion ("
              + details.sdkVersion + ") and platform (" + PlatformName(details.platform)
              + ") for users to receive if we rollback"
  {
  }

  /** Once the history has two entries or more, a run is the two reads
      followed by the step after the decision. */
  lemma RunAfterDecision(server: Server, options: RollbackOptions, confirm: bool,
                         details: ChannelQueryResult, history: seq<Publication>)
    requires server.channelDetails(options.channelId) == Answered(details) && !HasErrorCode(details)
    requires server.history(HistoryQueryFor(details)) == Answered(history)
    requires 2 <= |history|
    ensures var applied := ApplyRun(server, options, confirm, details.channel, Decide(history, options.channelId));
            RollbackRun(server, options, confirm) ==
              Run([ChannelDetailsCall(options.channelId), HistoryCall(HistoryQueryFor(details))] + applied.calls,
                  applied.result)
  {
  }

  /** The entry rolled back is the newest one: the older entry is shown,
      applied with `publish/set`, then the entry is rolled back; five calls,
      and the rollback's outcome, error included, is the run's outcome. */
  lemma RevertWhenEntryIsLive(server: Server, options: RollbackOptions, confirm: bool,
                              details: ChannelQueryResult, history: seq<Publication>)
    requires server.channelDetails(options.channelId) == Answered(details) && !HasErrorCode(details)
    requires server.history(HistoryQueryFor(details)) == Answered(history)
    requires 2 <= |history| && history[0].channelId == options.channelId
    requires server.details(history[|history| - 1].publicationId).Answered?
    requires server.details(history[|history| - 1].publicationId).queryResult.Some?
    requires server.setChannel(details.channel, history[|history| - 1].publicationId).Answered?
    requires NonInteractive(options) || confirm
    ensures var target := history[|history| - 1].publicationId;
            var run := RollbackRun(server, options, confirm);
            run.calls == [ChannelDetailsCall(options.channelId), HistoryCall(HistoryQueryFor(details)),
                          DetailsCall(target), SetCall(details.channel, target),
                          RollbackCall(options.channelId)] &&
            run.result == Lift(server.rollback(options.channelId)) &&
            Writes(run.calls) == [SetCall(details.channel, target), RollbackCall(options.channelId)]
  {
    var id := options.channelId;
    var query := HistoryQueryFor(details);
    var target := history[|history| - 1].publicationId;
    var decision := Decide(history, id);
    assert decision == RevertTo(history[|history| - 1]);
    assert ConfirmRun(server, decision.target, options, confirm) == Run([DetailsCall(target)], Ok(()));
    var applied := ApplyRun(server, options, confirm, details.channel, decision);
    assert applied == Run([DetailsCall(target), SetCall(details.channel, target), RollbackCall(id)],
                          Lift(server.rollback(id)));
    RunAfterDecision(server, options, confirm, details, history);
    var looked := [ChannelDetailsCall(id), HistoryCall(query), DetailsCall(target)];
    assert [ChannelDetailsCall(id), HistoryCall(query)] + applied.calls
        == looked + [SetCall(details.channel, target), RollbackCall(id)];
    WritesAppend(looked, [SetCall(details.channel, target), RollbackCall(id)]);
    ReadsOnly(looked);
  }

  /** The entry rolled back is not the newest one (including an id that
      matches neither entry): the newest entry is shown and kept, no
      `publish/set` is issued, the entry is rolled back; four calls. */
  lemma KeepWhenEntryIsNotLive(server: Server, options: RollbackOptions, confirm: bool,
                               details: ChannelQueryResult, history: seq<Publication>)
    requires server.channelDetails(options.channelId) == Answered(details) && !HasErrorCode(details)
    requires server.history(HistoryQueryFor(details)) == Answered(history)
    requires 2 <= |history| && history[0].channelId != options.channelId
    requires server.details(history[0].publicationId).Answered?
    requires server.details(history[0].publicationId).queryResult.Some?
    requires NonInteractive(options) || confirm
    ensures var run := RollbackRun(server, options, confirm);
            run.calls == [ChannelDetailsCall(options.channelId), HistoryCall(HistoryQueryFor(details)),
                          DetailsCall(history[0].publicationId), RollbackCall(options.channelId)] &&
            run.result == Lift(server.rollback(options.channelId)) &&
            Writes(run.calls) == [RollbackCall(options.channelId)]
  {
    var id := options.channelId;
    var query := HistoryQueryFor(details);
    var decision := Decide(history, id);
    assert decision == KeepMostRecent(history[0]);
    assert ConfirmRun(server, decision.target, options, confirm) == Run([DetailsCall(history[0].publicationId)], Ok(()));
    var applied := ApplyRun(server, options, confirm, details.channel, decision);
    assert applied == Run([DetailsCall(history[0].publicationId), RollbackCall(id)], Lift(server.rollback(id)));
    RunAfterDecision(server, options, confirm, details, history);
    var looked := [ChannelDetailsCall(id), HistoryCall(query), DetailsCall(history[0].publicationId)];
    assert [ChannelDetailsCall(id), HistoryCall(query)] + applied.calls == looked + [RollbackCall(id)];
    WritesAppend(looked, [RollbackCall(id)]);
    ReadsOnly(looked);
  }

  /** Reverting, approved, with the target's details found, but the
      `publish/set` throws: its error, unchanged, after four calls; no
      rollback is issued. */
  lemma SetFailsBeforeRollback(server: Server, options: RollbackOptions, confirm: bool,
                               details: ChannelQueryResult, history: seq<Publication>)
    requires server.channelDetails(options.channelId) == Answered(details) && !HasErrorCode(details)
    requires server.history(HistoryQueryFor(details)) == Answered(history)
    requires 2 <= |history| && history[0].channelId == options.channelId
    requires server.details(history[|history| - 1].publicationId).Answered?
    requires server.details(history[|history| - 1].publicationId).queryResult.Some?
    requires server.setChannel(details.channel, history[|history| - 1].publicationId).Failed?
    requires NonInteractive(options) || confirm
    ensures var target := history[|history| - 1].publicationId;
            RollbackRun(server, options, confirm) ==
              Run([ChannelDetailsCall(options.channelId), HistoryCall(HistoryQueryFor(details)),
                   DetailsCall(target), SetCall(details.channel, target)],
                  Err(RemoteCallFailed(server.setChannel(details.channel, target).reason)))
  {
    RunAfterDecision(server, options, confirm, details, history);
  }

  /** With both reads done and two entries or more, a target whose details
      come back empty throws "No records found" right after the details read:
      three calls, no write, whatever the operator would have answered. */
  lemma TargetDetailsNotFound(server: Server, options: RollbackOptions, confirm: bool,
                              details: ChannelQueryResult, history: seq<Publication>)
    requires server.channelDetails(options.channelId) == Answered(details) && !HasErrorCode(details)
    requires server.history(HistoryQueryFor(details)) == Answered(history)
    requires 2 <= |history|
    requires server.details(Decide(history, options.channelId).target.publicationId) == Answered(None)
    ensures var run := RollbackRun(server, options, confirm);
            run == Run([ChannelDetailsCall(options.channelId), HistoryCall(HistoryQueryFor(details)),
                        DetailsCall(Decide(history, options.channelId).target.publicationId)],
                       Err(NoRecordsFound)) &&
            Message(run.result.error) == "No records found matching your query."
  {
    RunAfterDecision(server, options, confirm, details, history);
  }

  /** Interactively, with both reads done, two entries or more and the
      target's details found, a "no" throws the "run publish:set" error right
      after the details read: three calls, no write. */
  lemma DeclinedAfterDetails(server: Server, options: RollbackOptions,
                             details: ChannelQueryResult, history: seq<Publication>)
    requires !NonInteractive(options)
    requires server.channelDetails(options.channelId) == Answered(details) && !HasErrorCode(details)
    requires server.history(HistoryQueryFor(details)) == Answered(history)
    requires 2 <= |history|
    requires server.details(Decide(history, options.channelId).target.publicationId).Answered?
    requires server.details(Decide(history, options.channelId).target.publicationId).queryResult.Some?
    ensures var run := RollbackRun(server, options, false);
            run == Run([ChannelDetailsCall(options.channelId), HistoryCall(HistoryQueryFor(details)),
                        DetailsCall(Decide(history, options.channelId).target.publicationId)],
                       Err(ConfirmationDeclined)) &&
            Message(run.result.error) == "Please run 'publish:set' to send the desired publication to users"
  {
    RunAfterDecision(server, options, false, details, history);
  }

  // ---------------------------------------------------------------------------
  // Every run

  /** The writes of the step after the decision. Reads come first, the writes
      trail; a `publish/set` is issued only when reverting, and a failed one
      ends the run before the rollback. */
  lemma ApplyWrites(server: Server, options: RollbackOptions, confirm: bool, channel: string, decision: Decision)
    requires decision.RevertTo? || decision.KeepMostRecent?
    ensures var run := ApplyRun(server, options, confirm, channel, decision);
            var w := Writes(run.calls);
            var revert := SetCall(channel, decision.target.publicationId);
            var rollback := RollbackCall(options.channelId);
            (w == [] || w == [rollback] || w == [revert] || w == [revert, rollback]) &&
            run.calls[|run.calls| - |w|..] == w &&
            (w == [] ==> run.result.Err?) &&
            (w != [] ==> NonInteractive(options) || confirm) &&
            (w != [] ==> ConfirmRun(server, decision.target, options, confirm).result.Ok?) &&
            (w != [] ==> |w| < |run.calls| && FoundDetails(server, run.calls[|run.calls| - |w| - 1])) &&
            (w != [] ==> (w[0] == revert <==> decision.RevertTo?)) &&
            (run.result.Ok? ==> w != [] && w[|w| - 1] == rollback)
  {
    var run := ApplyRun(server, options, confirm, channel, decision);
    var gate := ConfirmRun(server, decision.target, options, confirm);
    var detail := [DetailsCall(decision.target.publicationId)];
    var setCall := SetCall(channel, decision.target.publicationId);
    var rollback := RollbackCall(options.channelId);
    ReadsOnly(detail);
    if gate.result.Err? {
      ReadsOnly(run.calls);
    } else if decision.RevertTo? {
      if SetRun(server, channel, decision.target.publicationId).result.Err? {
        assert run.calls == detail + [setCall];
        WritesAppend(detail, [setCall]);
      } else {
        assert run.calls == detail + [setCall, rollback];
        WritesAppend(detail, [setCall, rollback]);
      }
    } else {
      assert run.calls == detail + [rollback];
      WritesAppend(detail, [rollback]);
    }
  }

  /** A `publish/details` read that found its publication. */
  predicate FoundDetails(server: Server, call: Call) {
    && call.DetailsCall?
    && server.details(call.publishId).Answered?
    && server.details(call.publishId).queryResult.Some?
  }

  /** The writes of a run trail its reads; they are nothing, the rollback of
      `channelId` alone, a `publish/set` alone (one that failed) or a
      `publish/set` then the rollback; there are none unless the run was
      allowed to proceed and the read right before them found the target's
      details; a run that succeeds has issued the rollback, and one that wrote
      nothing has failed. */
  ghost predicate WritesTrailReads(server: Server, run: Run<QueryResult>, channelId: string, proceeded: bool) {
    var w := Writes(run.calls);
    var rollback := RollbackCall(channelId);
    && (w == [] || w == [rollback] || (w[0].SetCall? && (w == [w[0]] || w == [w[0], rollback])))
    && |w| <= |run.calls| && run.calls[|run.calls| - |w|..] == w
    && (w == [] ==> run.result.Err?)
    && (w != [] ==> proceeded)
    && (w != [] ==> |w| < |run.calls| && FoundDetails(server, run.calls[|run.calls| - |w| - 1]))
    && (run.result.Ok? ==> w != [] && w[|w| - 1] == rollback)
  }

  lemma WritesAfterDecision(server: Server, options: RollbackOptions, confirm: bool,
                            details: ChannelQueryResult, history: seq<Publication>)
    requires server.channelDetails(options.channelId) == Answered(details) && !HasErrorCode(details)
    requires server.history(HistoryQueryFor(details)) == Answered(history)
    requires 2 <= |history|
    ensures WritesTrailReads(server, RollbackRun(server, options, confirm), options.channelId,
                             NonInteractive(options) || confirm)
  {
    var id := options.channelId;
    var decision := Decide(history, id);
    var read := [ChannelDetailsCall(id), HistoryCall(HistoryQueryFor(details))];
    var applied := ApplyRun(server, options, confirm, details.channel, decision);
    RunAfterDecision(server, options, confirm, details, history);
    ApplyWrites(server, options, confirm, details.channel, decision);
    assert WritesTrailReads(server, applied, id, NonInteractive(options) || confirm);
    ReadsBeforeWrites(server, read, applied, id, NonInteractive(options) || confirm);
  }

  /** Reads put in front of a run leave the shape of its writes as it was. */
  lemma ReadsBeforeWrites(server: Server, read: seq<Call>, run: Run<QueryResult>, channelId: string, proceeded: bool)
    requires forall i | 0 <= i < |read| :: !read[i].Mutates()
    requires WritesTrailReads(server, run, channelId, proceeded)
    ensures WritesTrailReads(server, Run(read + run.calls, run.result), channelId, proceeded)
  {
    ReadsOnly(read);
    WritesAppend(read, run.calls);
    var w := Writes(run.calls);
    var all := read + run.calls;
    assert all[|all| - |w|..] == run.calls[|run.calls| - |w|..];
    if w != [] {
      assert all[|all| - |w| - 1] == run.calls[|run.calls| - |w| - 1];
    }
  }

  /** On every input the writes trail the reads and are one of the four
      shapes above, and nothing is written unless confirmed or non-interactive
      and unless the details read just before the writes found its publication. */
  lemma WritesOfEveryRun(server: Server, options: RollbackOptions, confirm: bool)
    ensures WritesTrailReads(server, RollbackRun(server, options, confirm), options.channelId,
                             NonInteractive(options) || confirm)
  {
    var id := options.channelId;
    var run := RollbackRun(server, options, confirm);
    match server.channelDetails(id)
    case Failed(_) =>
      ReadsOnly(run.calls);
    case Answered(details) =>
      if HasErrorCode(details) {
        ReadsOnly(run.calls);
      } else {
        match server.history(HistoryQueryFor(details))
        case Failed(_) =>
          ReadsOnly(run.calls);
        case Answered(history) =>
          if 2 <= |history| {
            WritesAfterDecision(server, options, confirm, details, history);
          } else {
            ReadsOnly(run.calls);
          }
      }
  }

  /** Interactively, a "no" issues neither `publish/set` nor
      `publish/rollback`, and the run fails. */
  lemma DeclinedConfirmationWritesNothing(server: Server, options: RollbackOptions)
    requires !NonInteractive(options)
    ensures var run := RollbackRun(server, options, false);
            Writes(run.calls) == [] && run.result.Err?
  {
    WritesOfEveryRun(server, options, false);
  }

  /** A run stops at the first call that throws, and that call's error is
      the run's error, unchanged: no call before the last one threw, and the
      run failed with a remote error exactly when its last call threw. */
  ghost predicate StopsAtFirstThrow<T>(server: Server, run: Run<T>) {
    && 1 <= |run.calls|
    && (forall i | 0 <= i < |run.calls| - 1 :: server.Throws(run.calls[i]).None?)
    && ((run.result.Err? && run.result.error.RemoteCallFailed?) <==>
        server.Throws(run.calls[|run.calls| - 1]).Some?)
    && (server.Throws(run.calls[|run.calls| - 1]).Some? ==>
        run.result == Err(RemoteCallFailed(server.Throws(run.calls[|run.calls| - 1]).value)))
  }

  /** Reads that did not throw, put in front of a run, keep it stopping at
      its first throw. */
  lemma QuietReadsBefore<T>(server: Server, read: seq<Call>, run: Run<T>)
    requires forall i | 0 <= i < |read| :: server.Throws(read[i]).None?
    requires StopsAtFirstThrow(server, run)
    ensures StopsAtFirstThrow(server, Run(read + run.calls, run.result))
  {
    var all := read + run.calls;
    forall i | 0 <= i < |all| - 1
      ensures server.Throws(all[i]).None?
    {
      if i >= |read| {
        assert all[i] == run.calls[i - |read|];
      }
    }
    assert all[|all| - 1] == run.calls[|run.calls| - 1];
  }

  lemma ApplyStopsAtFirstThrow(server: Server, options: RollbackOptions, confirm: bool, channel: string,
                               decision: Decision)
    requires decision.RevertTo? || decision.KeepMostRecent?
    ensures StopsAtFirstThrow(server, ApplyRun(server, options, confirm, channel, decision))
  {
    var run := ApplyRun(server, options, confirm, channel, decision);
    var gate := ConfirmRun(server, decision.target, options, confirm);
    if gate.result.Ok? {
      assert server.Throws(run.calls[0]).None?;
    }
  }

  /** On every input, the first remote call that throws ends the run with
      its own error: nothing is retried, wrapped or issued after it. */
  lemma RemoteErrorsPropagate(server: Server, options: RollbackOptions, confirm: bool)
    ensures StopsAtFirstThrow(server, RollbackRun(server, options, confirm))
  {
    var id := options.channelId;
    match server.channelDetails(id)
    case Failed(_) =>
    case Answered(details) =>
      if !HasErrorCode(details) {
        match server.history(HistoryQueryFor(details))
        case Failed(_) =>
        case Answered(history) =>
          if 2 <= |history| {
            var decision := Decide(history, id);
            var read := [ChannelDetailsCall(id), HistoryCall(HistoryQueryFor(details))];
            RunAfterDecision(server, options, confirm, details, history);
            ApplyStopsAtFirstThrow(server, options, confirm, details.channel, decision);
            QuietReadsBefore(server, read, ApplyRun(server, options, confirm, details.channel, decision));
          }
      }
  }

  /** Non-interactively there is no prompt: the answer is never consulted and
      the run is that of an interactive run answered "yes". */
  lemma NonInteractiveProceeds(server: Server, options: RollbackOptions, confirm: bool)
    requires NonInteractive(options)
    ensures RollbackRun(server, options, confirm) == RollbackRun(server, options.(parent := None), true)
  {
  }
}
