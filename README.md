# Rollback of a channel entry in expo-cli (`publish:rollback`)

A model of the decision logic behind `expo publish:rollback --channel-id <id>`.
Given the id of a channel entry (one assignment of a publication to a release
channel), the command does these steps in order:

1. It reads the channel's details.
2. It reads the two most recent entries of that channel's history for the
   same platform and sdkVersion.
3. It chooses the publication that users will receive after the rollback.
4. It shows that publication and asks the operator to confirm, unless it runs
   non-interactively.
5. If the entry being rolled back is the live one, it re-applies the older
   publication with `publish/set`.
6. It ends with `publish/rollback` of the entry.

The remote service is an oracle (`Remote.Server`). It gives the reply to every
call the command can make: `publish/channel-details`, `publish/history`,
`publish/details`, `publish/set` and `publish/rollback`. The operator's answer
to the prompt is a boolean input.

Each operation appears in two forms:

- a function that returns a `Run`: the calls it issued, in order, and its
  outcome (a value, or the error it throws). An `Ok` value stands for the
  `queryResult` of the last call. The source does not always hand that value
  back: `setPublishToChannelAsync` returns the whole response, and
  `rollbackPublicationFromChannelAsync` prints the rollback's `queryResult`
  as a status table and returns nothing (PublishUtils.ts:196-206);
- a method that posts the calls one by one through `Remote.ApiClient`. The
  client records every call in its `calls` field. Each method is proved to
  issue exactly the calls of its function and to return its outcome.

The lemmas in `RollbackProperties` state, over these runs, the scenarios the
command's tests pin down and the facts that hold on every input. A helper
`Writes` keeps only the mutating calls (`publish/set`, `publish/rollback`) of a
trace.

Files:

- `remote.dfy`: module `Remote`. The data shapes, the remote calls, the server
  oracle and the recording API client.
- `publish_utils.dfy`: module `PublishUtils`. These parts of
  `packages/expo-cli/src/commands/utils/PublishUtils.ts`:
  - the count guard of `getPublishHistoryAsync`;
  - the empty-result check of `getPublicationDetailAsync`;
  - `setPublishToChannelAsync`;
  - `_printAndConfirm`;
  - `rollbackPublicationFromChannelAsync`.
- `rollback_properties.dfy`: module `RollbackProperties`. The properties of
  rollback runs.

Behaviour as written in the code, kept in the model:

- A history count is refused only when it is present, non-zero and outside
  1..100. A count of 0 is falsy in JavaScript, so it skips the check.
- An `errorCode` counts only when it is truthy: present and not the empty
  string.
- The newest entry is `history[0]` and the older one is
  `history[history.length - 1]`.
- If the channel id matches neither entry, the code takes the "not the newest"
  branch. Users then keep the newest entry and the entry is still rolled back.
  There is no mismatch error. `KeepWhenEntryIsNotLive` covers this case.
- An empty history and a one-entry history fail with two different errors,
  each with its own message (see `PublishUtils.Message`).
- When the entry is the live one, the run makes five remote calls, and the
  details call counts among them. A successful `publish/set` followed by a
  failed rollback is a possible end state and is not undone.
- A `publish/set` that fails is still a call that was issued. The run then
  ends with that set call and no rollback.

## Model

| member | source | states |
|---|---|---|
| `PublishUtils.CountRejected` | packages/expo-cli/src/commands/utils/PublishUtils.ts:65-67 | a count is refused exactly when it is present and below 0 or above 100; an absent count and a count of 0 are never refused |
| `PublishUtils.HistoryRun` | packages/expo-cli/src/commands/utils/PublishUtils.ts:61-114 | a refused count fails with the range error before any remote call; otherwise exactly one `publish/history` call with the given options is made and its reply or error is the outcome |
| `PublishUtils.DetailRun` | packages/expo-cli/src/commands/utils/PublishUtils.ts:241-279 | exactly one `publish/details` call; it succeeds exactly when the reply has a `queryResult`, returns that result; an empty `queryResult` fails with "No records found"; a call that throws fails with that call's own error |
| `PublishUtils.SetRun` | packages/expo-cli/src/commands/utils/PublishUtils.ts:116-127 | exactly one `publish/set` of the given channel and publication; its outcome is that call's `queryResult` (the source returns the whole response, which holds it), or that call's own error when it throws |
| `PublishUtils.ConfirmRun` | packages/expo-cli/src/commands/utils/PublishUtils.ts:213-239 | the details of the entry are always fetched, in one call; the gate passes exactly when the details were found and the run is non-interactive or the operator said yes; found details with an interactive "no" fail with the "run publish:set" error; a failed details read fails the gate with that read's own error |
| `PublishUtils.Decide` | packages/expo-cli/src/commands/utils/PublishUtils.ts:159-191 | empty history, one entry, revert, keep: each decision holds exactly when its history condition holds; a revert targets the last entry and a keep targets the first; when the two entries differ and one of them is the entry rolled back, users receive the other one |
| `PublishUtils.RollbackRun` | packages/expo-cli/src/commands/utils/PublishUtils.ts:129-211 | every run starts with `publish/channel-details` of the caller's id and makes at most five calls; a successful run ends with `publish/rollback` of the caller's id (which error a failed call yields: `RemoteErrorsPropagate`; target details not found: `TargetDetailsNotFound`) |
| `PublishUtils.ApplyRun` | packages/expo-cli/src/commands/utils/PublishUtils.ts:174-210 | after the decision: the target's details are read first; one to three calls; a success ends with `publish/rollback` of the caller's id, needs the confirmation gate passed (the target's details found, and non-interactive or "yes") and returns the rollback's `queryResult`; a set is issued only in the revert branch (the full shapes of its writes: `ApplyWrites`) |
| `PublishUtils.Message` | packages/expo-cli/src/commands/utils/PublishUtils.ts:66-275 | the texts of the errors thrown at lines 66, 148, 162-164, 166-168, 237 and 275; a remote call's error keeps its own message, every other message is non-empty |
| `PublishUtils.GetPublishHistory` | packages/expo-cli/src/commands/utils/PublishUtils.ts:61-114 | appends exactly the calls of `HistoryRun` to the client's calls and returns its outcome |
| `PublishUtils.GetPublicationDetail` | packages/expo-cli/src/commands/utils/PublishUtils.ts:241-279 | appends exactly the calls of `DetailRun` and returns its outcome |
| `PublishUtils.SetPublishToChannel` | packages/expo-cli/src/commands/utils/PublishUtils.ts:116-127 | appends exactly the calls of `SetRun` and returns its outcome |
| `PublishUtils.PrintAndConfirm` | packages/expo-cli/src/commands/utils/PublishUtils.ts:213-239 | appends exactly the calls of `ConfirmRun` and returns its outcome |
| `PublishUtils.RollbackPublicationFromChannel` | packages/expo-cli/src/commands/utils/PublishUtils.ts:129-211 | posts the calls one after another and appends exactly the calls of `RollbackRun`, in order, and returns its outcome |
| `Remote.ApiClient.PostChannelDetails` | packages/expo-cli/src/commands/utils/PublishUtils.ts:139-143 | records one `publish/channel-details` call with the channel id and returns the server's reply to it |
| `Remote.ApiClient.PostHistory` | packages/expo-cli/src/commands/utils/PublishUtils.ts:102-111 | records one `publish/history` call with the query options and returns the server's reply to it |
| `Remote.ApiClient.PostDetails` | packages/expo-cli/src/commands/utils/PublishUtils.ts:266-271 | records one `publish/details` call with the publication id and returns the server's reply to it |
| `Remote.ApiClient.PostSet` | packages/expo-cli/src/commands/utils/PublishUtils.ts:120-126 | records one `publish/set` call with the channel and publication id and returns the server's reply to it |
| `Remote.ApiClient.PostRollback` | packages/expo-cli/src/commands/utils/PublishUtils.ts:196-199 | records one `publish/rollback` call with the channel id and returns the server's reply to it |
| `RollbackProperties.UnknownChannelId` | packages/expo-cli/src/commands/utils/PublishUtils.ts:139-149 | channel details with an error code fail with "The channel id <id> could not be found", and `publish/channel-details` is the only call made (as in publish-modify-test.ts:98-124) |
| `RollbackProperties.HistoryQueryFollowsChannelDetails` | packages/expo-cli/src/commands/utils/PublishUtils.ts:151-157 | the second call is always `publish/history` with the channel, platform and sdkVersion of the channel details and a count of 2 |
| `RollbackProperties.EmptyHistory` | packages/expo-cli/src/commands/utils/PublishUtils.ts:161-164 | an empty history fails with "The channel id <id> could not be found in the publish history of channel: <channel>" after exactly the two reads |
| `RollbackProperties.SingleEntryHistory` | packages/expo-cli/src/commands/utils/PublishUtils.ts:165-169 | a one-entry history fails with the full "There is no publication assigned to channel ... for users to receive if we rollback" message, with the channel, sdkVersion and platform filled in, after exactly two calls; no set and no rollback is issued (as in publish-modify-test.ts:126-170) |
| `RollbackProperties.RevertWhenEntryIsLive` | packages/expo-cli/src/commands/utils/PublishUtils.ts:171-199 | when the newest entry is the one rolled back, the trace is channel-details, history, details(last), set(channel, last), rollback(id): five calls, set before rollback; the outcome is the rollback's `queryResult`, the table the source prints, or its error (as in publish-modify-test.ts:172-225) |
| `RollbackProperties.KeepWhenEntryIsNotLive` | packages/expo-cli/src/commands/utils/PublishUtils.ts:188-199 | otherwise, including an id that matches neither entry, the trace is channel-details, history, details(first), rollback(id): four calls and no set (as in publish-modify-test.ts:227-275) |
| `RollbackProperties.ChannelDetailsCallFails` | packages/expo-cli/src/commands/utils/PublishUtils.ts:139-143 | a `publish/channel-details` call that throws ends the run after that one call, with that call's own error |
| `RollbackProperties.SetFailsBeforeRollback` | packages/expo-cli/src/commands/utils/PublishUtils.ts:171-185 | reverting, approved, with the target's details found, a `publish/set` that throws ends the run after four calls (channel-details, history, details, set) with the set's own error; no rollback is issued |
| `RollbackProperties.TargetDetailsNotFound` | packages/expo-cli/src/commands/utils/PublishUtils.ts:274-276 | with both reads done and two entries or more, empty details for the target end the run right after the details read (three calls, no write) with "No records found matching your query.", whatever the operator's answer |
| `RollbackProperties.DeclinedAfterDetails` | packages/expo-cli/src/commands/utils/PublishUtils.ts:213-239 | interactively, with both reads done, two entries or more and the target's details found, a "no" ends the run right after the details read (three calls, no write) with "Please run 'publish:set' to send the desired publication to users" |
| `RollbackProperties.RemoteErrorsPropagate` | packages/expo-cli/src/commands/utils/PublishUtils.ts:129-211 | on every input, no call before the last one threw; the run fails with a remote error exactly when its last call threw, and then with that call's own error |
| `RollbackProperties.ApplyWrites` | packages/expo-cli/src/commands/utils/PublishUtils.ts:174-210 | after the decision the writes trail the details read and are none, the rollback, a set alone, or a set then the rollback; a set is issued exactly in the revert branch; nothing is written unless the confirmation gate passed: the target's details were found by the read right before the writes, and the run is non-interactive or answered "yes" |
| `RollbackProperties.WritesOfEveryRun` | packages/expo-cli/src/commands/utils/PublishUtils.ts:129-211 | on every input the writes come after all reads and are none, the rollback of the caller's id, one set, or one set then that rollback; nothing is written unless approved and unless the details read right before the writes found its publication; a successful run issued the rollback, and a run with no writes failed |
| `RollbackProperties.Writes` | packages/expo-cli/src/commands/utils/PublishUtils.ts:181-199 | a filter over traces: it keeps the `publish/set` (line 181, posted at 122) and `publish/rollback` (line 196) calls, so every call kept mutates, and it is empty only when the trace holds no set and no rollback |
| `RollbackProperties.DeclinedConfirmationWritesNothing` | packages/expo-cli/src/commands/utils/PublishUtils.ts:228-238 | interactively, a "no" means no set and no rollback is issued, and the run fails |
| `RollbackProperties.NonInteractiveProceeds` | packages/expo-cli/src/commands/utils/PublishUtils.ts:225-227 | non-interactively the prompt's answer is never consulted: the run equals an interactive run answered "yes" |

## Left out

- The legacy `EXPO_LEGACY_API` path (multipart FormData to `publishInfo`, PublishUtils.ts:76-100 and 252-264) is not modelled. It asks the same logical query; the model follows the `publish/...` JSON path.
- The `owner`, `slug` and `version` payload fields are not modelled. Their values are fixed for a project, but the calls do not all carry the same fields: `slug` goes with all five calls; `owner` goes with the three reads (PublishUtils.ts:104, 140 and 268); `version` goes with the `publish/history` query only (PublishUtils.ts:106). The model drops all three, so a `Call` holds only the arguments the rollback logic chooses. The values come from project config loading (`getConfig`, `Project.getSlugAsync`); a failure of that loading is not modelled either.
- Authentication (`UserManager`, `ApiV2.clientForUser`) is not modelled. The API client is an oracle.
- Printing is not modelled: `printPublicationDetailAsync`, the status tables, the `ora` spinners and `console.log`. The prompt's rendering is not modelled either, and neither is the `channel` argument of `_printAndConfirm`, which only appears in the prompt's text. The prompt's answer is a boolean input.
- `PublishUtils.CountRejected`: counts are integers. A `NaN` or fractional count is not modelled.
- Malformed replies are not modelled: a `publish/channel-details` reply without `errorCode` that lacks `channel`, `platform` or `sdkVersion`, and a `publish/history` reply whose `queryResult` is not an array. Each reply is either well-formed or a thrown error.
- The CLI wiring in `publish-modify.ts` is not part of this model. It only checks for required options.
