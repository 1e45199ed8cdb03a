# p1, modelled and proved

This project models the parts of p1 whose correctness is hardest to see, in Dafny, and proves what
p1's journal contract, documentation and comments promise of them.

- **The agent core** (`Agent.dfy`, `Session.dfy`, `ToolGroups.dfy`, `Execution.dfy`, `Records.dfy`,
  `Inbox.dfy`, `Trace.dfy`, `Resume.dfy`, `Transcript.dfy`). `Agent` is a class with the fields of p1's
  agent. The provider, the tools, the authorization and context policies, the commit sink, the cancellation
  token and the other inbox handles answer arbitrarily: any commit can fail and the token can fire at every
  await. Each thing an outsider could see (a durable record, a request, a
  permit, the start and return of an execution) is appended to a ghost trace. `Trace.Run` is an automaton
  that says which traces keep the commit boundaries of the journal contract; every method of `Agent` keeps
  the trace accepted, and the lemmas of `Trace` say what every accepted trace has. `Session` puts any
  sequence of turns, inbox turns, compactions, switches, crashes and resumes together.
- **Context compaction** (`Estimate.dfy`, `Plan.dfy`, `Render.dfy`, `Engine.dfy`, `Compaction.dfy`). The
  summarizing policy as it is, against a driver that answers anything. The agent calls it when its policy
  is the summarizing one, so the two crates are proved together: in every session whose policy summarizes,
  every request carries a well-formed transcript, still shows the user's first message and, unless a user's text
  begins with the summary's marker, one summary at most.
- **Image metadata removal** (`Bytes.dfy`, `Png.dfy`, `Jpeg.dfy`, `JpegSyntax.dfy`, `ImageFile.dfy`). The
  byte-level walks, on arbitrary bytes and over the chunk layout of section 5.3 of the PNG specification and
  the marker syntax of Annex B, section B.1.1, of ITU-T T.81.
- **The prompt renderer** (`Prompt.dfy`): the one-pass scanner with its stack, and the tree it stands for.
- **The ACP router** (`Router.dfy`): atomic steps of asks, relays, openings and shut-downs, in any order.
- **The credential store** (`Store.dfy`): two documents published one after the other, stopping anywhere.
- **Workflow cards** (`Cards.dfy`), **base64** (`Base64.dfy`), **the build date** (`Civil.dfy`) and **test
  sharding** (`Shards.dfy`).

Code that changes state is a class or a loop here too, proved against its specification; `var x := *` stands
for whatever a collaborator answers. A text is a sequence of Unicode scalar values, so its length is the
number of characters the code counts. A `hide` statement only keeps a definition out of one proof.

Where the code and its documentation differ, the model follows the code: the prompt renderer also fills in
`{{scratch}}`, which the list of placeholders in its documentation does not name.

## What turned out false

Four promises fail on some inputs. Each has a lemma with such an input, and the exact condition under which it holds.

- *What is summarized is everything outside the verbatim tail* (engine.rs, line 249, a comment). It fails in
  two ways. The summary is made of what precedes the full tail; when the replacement is still too long the tail
  is halved, and the responses between the two starts are neither shown nor kept
  (`Compaction.HalvingDropsAnAnswer`). And of what precedes the full tail the transcript omits the oldest items
  when it is over its budget, all of them if it must (`Compaction.BudgetDropsAnAnswer`). Nothing is lost exactly
  when the replacement with the full tail is acceptable, that is, below the threshold or with a tail of one
  unit, and each item the transcript omits, the fewest oldest ones that let it fit the budget of the request
  that was answered, is among the user's messages kept verbatim (`Compaction.WhatASummaryLoses`; the halving
  alone: `Compaction.NothingDroppedIffFullTailFits`).
- *Every journal a core session writes can be resumed.* A policy other than the summarizing one may end its
  replacement with an assistant item whose calls the journal never saw; the core's validation lets it pass,
  reconciliation answers them, and the projection refuses the journal (`Resume.ForeignCallsBreakResume`).
  Once the calls a replacement leaves open are reconciled, in one go or in several, a journal can be resumed
  exactly when it could before the replacement and each of those calls is one of the last journalled response
  (`Resume.ResumableIffCallsKnown`, which also says it of a reconciliation that got half-way); while every
  response is accounted for, resuming is exact (`Resume.ResumeIsExact`).
- *Only a policy's bug makes the core refuse its replacement* (lib.rs, line 804, a comment). After a turn that
  stopped between the results of one response, manual compaction keeps the unanswered calls pending, as it
  must, and the validation refuses that (`Compaction.HalfAnsweredIsRefused`): it lets only the last item's
  calls be unanswered. The compaction of a history passes exactly when nothing is pending in it or its last
  item is the response whose calls are (`Compaction.RefusedIffPartlyAnswered`); before a request that always
  holds.
- *Only metadata is removed* (image.rs, lines 1-3). From a JPEG some fill bytes go too, optional 0xFF bytes
  before a marker (`JpegSyntax.FillBytesGo`). Only metadata is removed exactly when no fill byte precedes the
  first scan and those behind it stand where stripping leaves them (`JpegSyntax.OnlyMetadataIsRemovedIff`); the
  bytes stay as they are exactly when, besides, there is no metadata (`JpegSyntax.UnchangedIffTidy`).

## Model

| member | source | states |
|---|---|---|
| `Trace.HistoryIsProjection` | crates/p1-contracts/src/journal.rs:1-13 | After any accepted trace the in-memory history is the fold of the durable records, and the first record, if there is one, is the environment. |
| `Trace.RequestsAreWellFormed` | crates/p1-contracts/src/journal.rs:8-12 | Every request carries the projection of exactly what was durable before it; while no replacement lost a pending call it is a well-formed transcript, in which every call is answered once, in block order, before anything else. |
| `Trace.UnreplacedRequestsAreWellFormed` | crates/p1-core/src/lib.rs:608-668 | Under any policy, every request before the first replacement is a well-formed transcript. |
| `Trace.ResponseAnswersItsRequest` | crates/p1-core/src/lib.rs:668-744 | A recorded response joins the very history that was last sent: no record lies between its request and it. |
| `Trace.EachCallFinishedOnce` | crates/p1-contracts/src/journal.rs:11-12 | By the next request, input or response, the results recorded since a response are its calls, each once, in block order, whatever order they finished in and whichever commits failed. This holds for every response; only a replacement made since then, one that loses calls still waiting or brings calls that are then answered, ends it. |
| `Trace.ExecutesOnceAfterItsRecord` | crates/p1-contracts/src/journal.rs:10-11 | An execution belongs to the last response; its call had not begun before, was permitted first, and had its own `ToolStarted` durable after the permit. |
| `Trace.ReconciledUnknownIffStarted` | crates/p1-core/src/lib.rs:1176-1210 | While the last response is accounted for, a reconciled result is `Unknown` exactly when a `ToolStarted` of that call followed the response, `Cancelled` otherwise, and is the call's first result. |
| `Trace.ReconciledClaimsNothing` | crates/p1-core/src/lib.rs:1176-1210 | Whatever replacements did, a reconciled result is unknown or cancelled and claims no execution. |
| `Trace.ResultsReportExecutions` | crates/p1-core/src/lib.rs:1085-1143 | A result that claims more than denied, unavailable or cancelled has an execution of that call behind it. |
| `Trace.ExclusiveCallsRunAlone` | crates/p1-core/src/lib.rs:1359-1387 | Of two executions one of which is exclusive, writes, delegates or has a bound of one, the first has returned, or its process ended, before the second begins. |
| `Trace.AtMostLimitRun` | crates/p1-core/src/lib.rs:1039-1062 | When a call begins, the calls that began and have not returned, itself included, are at most as many as the bound. |
| `Trace.GivenUpAfterToken` | crates/p1-core/src/lib.rs:1389-1421 | A turn reports a call as cancelled that did not execute only behind its own token, which was cancelled from the start or fired. |
| `Trace.NothingBeginsAfterCancel` | crates/p1-core/src/lib.rs:657-668 | Between the firing of a turn's token and the next turn no request is sent and no call permitted. |
| `Trace.SinceResponse` | crates/p1-core/src/lib.rs:1027-1080 | The automaton's sets hold exactly the calls permitted, started and executed since the last response. |
| `Trace.RunPrefix` | crates/p1-contracts/src/journal.rs:1-13 | A trace may stop anywhere: every prefix of an accepted trace is accepted, each by one step from the one before. |
| `Transcript.ValidateReplacement` | crates/p1-core/src/lib.rs:1500-1529 | The validation accepts exactly the item lists without an unpaired call or result, and otherwise names one that is. |
| `Transcript.WellFormedPasses` | crates/p1-core/src/lib.rs:1500-1529 | Every well-formed transcript passes the validation. |
| `Transcript.PendingPassesIffLast` | crates/p1-core/src/lib.rs:1500-1529 | A transcript with distinct calls passes exactly when nothing is pending or its last item is the assistant item all of whose calls are. |
| `Transcript.PartlyAnsweredOffends` | crates/p1-core/src/lib.rs:1500-1529 | A transcript that leaves calls pending and does not end in a response fails the validation. |
| `Transcript.UnresolvedIsPending` | crates/p1-core/src/lib.rs:1213-1240 | For a transcript, the calls the reconciliation looks up are the ones without a result, in order. |
| `Transcript.UnresolvedAppend` | crates/p1-core/src/lib.rs:1213-1240 | For any history at all: a response leaves exactly its calls unresolved, a result resolves those of its id, and no other item changes what is unresolved. |
| `Resume.Project` | crates/p1-core/src/resume.rs:77-145 | The projection succeeds exactly on journals that begin with an environment, are densely numbered and finish only calls of their last response; it gives their history, next number, usage, and the unresolved calls with those that were started. |
| `Resume.ResumeIsExact` | crates/p1-core/src/resume.rs:1-11 | Wherever a process stopped, its journal projects to the state it was in: same history, same calls started and, while the last response is accounted for and waits, the same calls pending. When every response was accounted for, the projection accepts the journal exactly while the sequence numbers have not saturated. |
| `Resume.ForeignCallsBreakResume` | crates/p1-core/src/resume.rs:111-123 | A journal that a policy's foreign final calls lead to, through validation and reconciliation, and that the projection refuses. |
| `Resume.ResumableIffCallsKnown` | crates/p1-core/src/resume.rs:111-123 | However far the calls a replacement leaves open have been reconciled, in order, with interrupted requests, new environments and failed commits anywhere in between, the journal finishes only known calls exactly when it did before and each call answered so far, in the end each call left open, belongs to the response journalled last. |
| `Resume.CompareEnvironment` | crates/p1-core/src/resume.rs:243-296 | The report names exactly the journalled tools that are another one now and those that are gone, and a changed environment exactly when the last journalled assembly differs. |
| `ToolGroups.Groups` | crates/p1-core/src/lib.rs:1359-1387 | The calls are cut, in order and without gaps, into single calls and runs of shared ones, and a group ends only where two neighbours are not both shared. |
| `AgentCore.Agent.constructor` | crates/p1-core/src/lib.rs:327-329 | A fresh agent has empty history, journal, inbox and usage and is between two operations. |
| `AgentSession.BuildAgent` | crates/p1-core/src/lib.rs:327-410 | An agent is refused before anything runs, for a repeated call name exactly when there is one, or has done nothing. |
| `AgentCore.Agent.Resume` | crates/p1-core/src/resume.rs:195-236 | An agent resumed from any journal an earlier process left, stopped at any point, has that journal's projection as its state, its last usage and inbox records included, an environment to commit exactly when the assembly changed, and has committed nothing. |
| `AgentSession.ResumeAgent` | crates/p1-core/src/resume.rs:195-236 | Resuming is refused exactly when the records are no core session's or the parts cannot be built; otherwise the agent and the report say what the journal says. |
| `AgentCore.Agent.CommitRecord` | crates/p1-core/src/lib.rs:1325-1336 | A record is durable under the next number and moves the state as the journal contract says, or nothing changed. |
| `AgentCore.Agent.DeliverInbox` | crates/p1-core/src/lib.rs:971-1008 | Everything queued at the boundary becomes durable in order; when a commit fails the rest stands at the front of the queue again, before what arrived meanwhile. |
| `AgentCore.Agent.InstallReplacement` | crates/p1-core/src/lib.rs:798-824 | A replacement is installed only when valid and durable; otherwise nothing changed and the error says which of the two failed. |
| `AgentCore.Agent.PrepareContext` | crates/p1-core/src/lib.rs:614-659 | Before a request the history is the old one or a validated replacement; a summarizing policy is never rejected. |
| `AgentCore.Agent.CompactNow` | crates/p1-core/src/lib.rs:837-884 | Manual and overflow compaction install a valid replacement and forget the last usage, or leave history and usage alone; pending calls stay pending. |
| `AgentCore.Agent.Admit` | crates/p1-core/src/lib.rs:1085-1143 | Cancellation comes first, then the lookup, then the permit; a call counts as started only with its record durable, and a call that has a tool is settled only by the policy's denial or because the token fired. |
| `AgentCore.Agent.ExecuteGroup` | crates/p1-core/src/lib.rs:1027-1080 | All started calls of a group, in whatever order they return, have an outcome at the end and nothing runs: each executed, but for those that had to wait behind as many others as may run and found the token fired; each began with what the tool of its name says of it and with the agent's bound (`Grows`). |
| `AgentCore.Agent.FinishGroup` | crates/p1-core/src/lib.rs:1027-1080 | The results of a group join the history in block order, and the turn ends exactly when the outcome of some started call says so. |
| `AgentCore.Agent.RunCalls` | crates/p1-core/src/lib.rs:766-781 | When all groups ran, the history has one result per call in block order, each call was settled for a reason that holds, executed, or given up behind a fired token, and the turn is asked to end exactly when the outcome of some executed call says so. |
| `AgentCore.Agent.TakeResponse` | crates/p1-core/src/lib.rs:729-792 | A completed response is in the history before its calls run; unless a commit failed its usage is known and the history is it and one result per call; the turn then ends exactly when there were no calls, no pause and no queued message, or the token fired, or the outcome of a call says so. |
| `AgentCore.Agent.ReconcileUnresolvedCalls` | crates/p1-core/src/lib.rs:1176-1210 | For any history, the results appended are exactly those of its unresolved calls, in order, unknown or cancelled as they were started or not; behind them nothing in it is unresolved, and nothing was sent, permitted or executed. |
| `AgentCore.Agent.EndInterrupted` | crates/p1-core/src/lib.rs:1274-1311 | An interrupted response leaves the history alone, and the turn ends as cancelled, with the provider's error, or with the failed commit. |
| `AgentCore.Agent.Reconfigure` | crates/p1-core/src/lib.rs:331-377 | A switch takes effect only with its environment record durable and call names distinct; otherwise assembly, tools, policy and journal stay. Nothing else changes. |
| `AgentCore.Agent.OneRequest` | crates/p1-core/src/lib.rs:608-792 | Unless a commit failed, every message queued when the request was prepared is durable, in order; a request that goes on or completes the turn leaves every call of its response answered, under any policy. |
| `AgentCore.Agent.RunTurn` | crates/p1-core/src/lib.rs:462-471 | Unless a commit failed, the turn made its input durable, behind the environment if that was due; a completed turn leaves every call of its last response answered, under any policy. |
| `AgentCore.Agent.RunInboxTurn` | crates/p1-core/src/lib.rs:488-498 | With an empty queue it does nothing at all; otherwise it is a turn without input. |
| `AgentSession.Session` | crates/p1-core/src/lib.rs:143-160 | After any sequence of operations and crashes the history is the journal's projection, record i has number i, the inbox records are those found at the last resumption, none without one, and then every delivered message once, in order; each call began as an assembled tool of its name describes it, within a bound that was set; with a summarizing policy every request ever sent was well-formed and went on showing the user's message shown first, and while no user's text begins with the summary's marker it showed at most one summary, in first place; without any replacement every request was well-formed under any policy. |
| `AgentSession.ExclusiveToolsRunAlone` | crates/p1-core/src/lib.rs:1359-1387 | In a session, a call whose tools always say exclusive, writing or delegating never overlaps another. |
| `Records.TaskIsAlwaysSent` | crates/p1-context/src/plan.rs:112-134 | When each replacement kept the first plain user message, every later request shows the one an earlier request showed, across turns, crashes and resumptions. |
| `Records.OneSummaryIsSent` | crates/p1-context/src/engine.rs:389-435 | When each replacement kept at most one summary in first place and no user's text begins with the marker, every request shows at most one summary, in first place, across turns, crashes and resumptions. |
| `Records.AllRequestsWellFormed` | crates/p1-core/src/lib.rs:530-534 | If no replacement ever lost a pending call, every request of the trace carries a well-formed transcript. |
| `Records.CrashPoint` | crates/p1-core/src/resume.rs:1-11 | For every number of durable records there is a point of the trace at which exactly those were durable. |
| `AgentInbox.InboxShared.EachInOnePlace` | crates/p1-core/src/lib.rs:93-140 | Each message that arrived is in exactly one of the queue, the batch in delivery, the delivered ones and the withdrawn ones. |
| `AgentInbox.InboxShared.Withdraw` | crates/p1-core/src/lib.rs:129-140 | A withdrawal succeeds exactly when the message is still queued, and removes it alone. |
| `AgentInbox.InboxShared.OthersAct` | crates/p1-core/src/lib.rs:107-140 | Sends, halves of sends and withdrawals of other handles, in any order, keep every message in one place and arrival order. |
| `AgentInbox.InboxShared.PutBack` | crates/p1-core/src/lib.rs:971-1008 | The undelivered rest returns to the front of the queue, in order. |
| `Estimate.CeilTokensIsCeiling` | crates/p1-context/src/estimate.rs:16-19 | The estimate is the ceiling of characters over 3.5, for every text that can exist. |
| `Plan.SegmentsCut` | crates/p1-context/src/plan.rs:21-53 | Units follow each other behind the prelude, begin with no result, and only items without a response lie outside them. |
| `Plan.UnitsHoldAssistants` | crates/p1-context/src/plan.rs:21-53 | Every unit holds an assistant item. |
| `Plan.TailStart` | crates/p1-context/src/plan.rs:58-73 | The tail is the longest suffix of units whose estimate fits, at least one unit. |
| `Plan.TailStartUnique` | crates/p1-context/src/plan.rs:58-73 | There is only one such start. |
| `Plan.TailGrowsWithBudget` | crates/p1-context/src/plan.rs:58-73 | A larger budget never keeps less. |
| `Plan.TailIsClean` | crates/p1-context/src/plan.rs:15-53 | Nothing is pending where the tail begins: no call is cut from its results. |
| `Plan.KeptUserIndices` | crates/p1-context/src/plan.rs:112-134 | Kept are the first plain user message and the longest run of newest ones that fits the budget with it, in order. |
| `Plan.BuildReplacement` | crates/p1-context/src/plan.rs:98-107 | The replacement is the summary, the kept user messages and the whole tail, in this order. |
| `Render.AssembledLength` | crates/p1-context/src/render.rs:38-62 | The running character count is the length of the text that would be assembled, for every number of dropped blocks. |
| `Render.Transcript` | crates/p1-context/src/render.rs:27-72 | The transcript drops the fewest oldest blocks that let it fit, and says how many; when not even that fits, only the previous summaries are left. |
| `Render.TranscriptIsDetermined` | crates/p1-context/src/render.rs:27-72 | How many blocks are dropped, and with it the transcript, follows from the blocks and the budget. |
| `Render.CheckedTranscript` | crates/p1-context/src/render.rs:77-108 | Rendering fails exactly when the previous summaries alone exceed the budget, and what it returns fits. |
| `Render.OneSummary` | crates/p1-context/src/render.rs:77-108 | With one previous summary at most, that is exactly when this summary alone does not fit. |
| `Render.NothingShownIsShortened` | crates/p1-context/src/render.rs:124-136 | A transcript that fits is assembled from whole blocks: the per-item bound never shortens what is shown. |
| `Engine.TrimOldResults` | crates/p1-context/src/engine.rs:166-191 | Trimming shortens exactly the results before the tail that it makes shorter and has not marked yet, and reports no change exactly when there is none. |
| `Engine.TrimChars` | crates/p1-context/src/engine.rs:166-191 | A trim that changes anything strictly shrinks the history. |
| `Engine.ContentsDoNotPair` | crates/p1-context/src/engine.rs:162-165 | What results say decides neither which calls are pending nor where units begin. |
| `Engine.TrimIsIdempotent` | crates/p1-context/src/engine.rs:166-191 | Trimming again changes nothing, although the tail is found anew on the trimmed history. |
| `Engine.Summarization.Refused` | crates/p1-context/src/engine.rs:310-317 | Only the first capped request is sent again, without its cap. |
| `Engine.Summarization.Completed` | crates/p1-context/src/engine.rs:334-383 | A replacement is built exactly when the summary stopped by itself, is not empty and some of the four tail budgets leads to an acceptable one; it is asked for again exactly when the first one was truncated and the previous summaries still fit beside the doubled cap, which is at most the wall. |
| `Engine.Summarization.Accept` | crates/p1-context/src/engine.rs:389-435 | The tail is halved only while the replacement reaches the threshold with more than one unit, at most three times; it fails exactly when the summary is empty or all four budgets lead to such a replacement. |
| `Engine.CandidateUnique` | crates/p1-context/src/engine.rs:389-435 | The tail budget determines the replacement. |
| `Engine.Summarize` | crates/p1-context/src/engine.rs:242-298 | Nothing is sent exactly when there is nothing to summarize or the previous summaries alone exceed the first budget, and the end says which; otherwise one or two requests are sent, each the transcript of what precedes the tail within its own budget and leaving room for its cap; the driver's answers decide whether a second one follows and whether a replacement of this history is built. |
| `Engine.Prepare` | crates/p1-context/src/engine.rs:130-160 | Below the thresholds nothing happens; a trim is returned exactly when it is due and brings the next input below the threshold; otherwise a history at the threshold is summarized and the driver's answers decide; a history at the wall is never sent unchanged, and a failure below it is never fatal. |
| `Engine.EnoughIsBelowThreshold` | crates/p1-context/src/engine.rs:141-144 | Without last usage the trimmed history's own estimate is below the threshold. |
| `Engine.CompactNow` | crates/p1-context/src/engine.rs:202-214 | Manual compaction reports the size of an unchanged history exactly when no unit is older than the tail or all that is older is a summary; it fails without a request exactly when the previous summaries leave no room; otherwise the driver's answers decide, and it replaces the history and reports both sizes. |
| `Compaction.ReplacementKeepsPending` | crates/p1-context/src/plan.rs:98-107 | Whatever the budgets and the summary, the calls pending in the replacement are those pending in the history. |
| `Compaction.TrimKeepsPending` | crates/p1-context/src/engine.rs:162-191 | So are those of a trimmed history. |
| `Compaction.PolicyPassesValidation` | crates/p1-core/src/lib.rs:1500-1529 | Across both crates: what the policy returns for a well-formed history is well-formed and passes the core's validation. |
| `Compaction.ReplacementKeepsTask` | crates/p1-context/src/plan.rs:112-134 | The first plain user message of the replacement is the history's, verbatim. |
| `Compaction.ReplacementSummarizesOnce` | crates/p1-context/src/engine.rs:389-435 | A replacement holds one summary, in first place. |
| `Compaction.ReplacementIsSubsequence` | crates/p1-context/src/plan.rs:98-134 | Behind the summary stands a subsequence of the history, without repetition: the kept messages and the whole tail of the fewest halvings that are acceptable. |
| `Compaction.WhatASummaryLoses` | crates/p1-context/src/engine.rs:249-270 | The request that was answered shows every item before the full tail but the fewest oldest ones that had to go for its budget; every item of the history is shown or kept exactly when these are kept and the replacement with the full tail is below the threshold or has a tail of one unit. |
| `Compaction.BudgetDropsAnAnswer` | crates/p1-context/src/render.rs:57-72 | A history of which an answer is neither in the transcript nor in the replacement, although the full tail stays. |
| `Compaction.NothingDroppedIffFullTailFits` | crates/p1-context/src/engine.rs:404-418 | Every item from the full tail's start on is kept exactly when the replacement with the full tail is below the threshold or has a tail of one unit. |
| `Compaction.HalvingDropsAnAnswer` | crates/p1-context/src/engine.rs:404-418 | A history of which an answer is neither shown to the summary nor kept by the replacement. |
| `Compaction.RefusedIffPartlyAnswered` | crates/p1-core/src/lib.rs:798-806 | The core refuses the compaction of a history exactly when calls are pending in it and its last item is not the response that made them. |
| `Compaction.HalfAnsweredIsRefused` | crates/p1-core/src/lib.rs:798-806 | A history with one of two calls answered, and its replacement, which the validation refuses. |
| `Compaction.TaskSurvives` | crates/p1-context/src/engine.rs:389-435 | Over any number of trims, compactions and new items of any kind, the first plain user message stays first and verbatim. |
| `Compaction.OneSummarySurvives` | crates/p1-context/src/engine.rs:389-435 | While no new item is itself marked as a summary, at most one summary stands, in first place. |
| `Png.StripPng` | crates/p1-attachment-local/src/image.rs:118-141 | It fails exactly when the bytes behind the signature do not begin with chunks up to IEND; otherwise it gives those chunks without the metadata ones. |
| `Png.StripsExactlyTheMetadata` | crates/p1-attachment-local/src/image.rs:113-141 | For every chunk sequence ended by IEND and any trailing bytes, stripping the serialized stream gives the serialized sequence without its metadata chunks. |
| `Png.StrippedIsClean` | crates/p1-attachment-local/src/image.rs:113-141 | The result is never longer, holds no metadata chunk, and stripping it again changes nothing. |
| `Png.StripKeepsDimensions` | crates/p1-attachment-local/src/image.rs:103-112 | The stored image has the width and height of the given one. |
| `Jpeg.JpegSegments` | crates/p1-attachment-local/src/image.rs:184-214 | The positions found are those of the segments before the scan and of its marker, and it fails exactly when the bytes do not read that way. |
| `Jpeg.StripJpeg` | crates/p1-attachment-local/src/image.rs:248-320 | The nested loops compute the recursive reading `Stripped` of the bytes, errors included; the laws below are about it. |
| `Jpeg.NeverLonger` | crates/p1-attachment-local/src/image.rs:248-320 | On every accepted input, malformed ones included, the result is never longer. |
| `Jpeg.StripKeepsDimensions` | crates/p1-attachment-local/src/image.rs:216-237 | On every accepted input the result measures what the input did and begins with the same two bytes. |
| `JpegSyntax.StripsExactlyTheMetadata` | crates/p1-attachment-local/src/image.rs:239-320 | For every picture of the marker syntax, ended by EOI, and any trailing bytes, stripping the serialized stream gives the serialization of the same picture without its metadata segments. |
| `JpegSyntax.OnlyMetadataGoes` | crates/p1-attachment-local/src/image.rs:239-247 | Every scan and every other segment stays, in order, byte for byte. |
| `JpegSyntax.StrippingTwiceStripsOnce` | crates/p1-attachment-local/src/image.rs:239-320 | Stripping a stripped picture changes nothing. |
| `JpegSyntax.UnchangedIffTidy` | crates/p1-attachment-local/src/image.rs:239-320 | Stripping leaves a picture's bytes as they are exactly when it holds no metadata and no fill byte before the scan's marker or between two segments behind it. |
| `JpegSyntax.OnlyMetadataIsRemovedIff` | crates/p1-attachment-local/src/image.rs:1-3 | Stripping gives the bytes of the picture with its metadata segments gone and nothing else exactly when no fill byte precedes the first scan and before each part that stays behind it stand as many as right behind the data before, or none behind a segment that stays. |
| `JpegSyntax.SerializationIsUnique` | crates/p1-attachment-local/src/image.rs:239-320 | No two pictures of the marker syntax are written as the same bytes, so what stripping gives is one picture. |
| `JpegSyntax.FillBytesGo` | crates/p1-attachment-local/src/image.rs:258-272 | A picture without metadata that stripping makes one byte shorter. |
| `ImageFile.StoredIsTheSameImage` | crates/p1-attachment-local/src/image.rs:17-58 | What is stored is sniffed as the same kind of image, measures the same and is no larger. |
| `ImageFile.Validate` | crates/p1-attachment-local/src/image.rs:17-58 | Accepted is exactly an image of a known kind, readable and strippable, within the byte and pixel limits; the second size check never fails. |
| `Prompt.SubstitutePrompt` | crates/p1-assembly/src/lib.rs:1593-1672 | The loop over the rest of the template and the stack of open sections computes `Scan`, errors included; the laws below are about it. |
| `Prompt.RendersItsTree` | crates/p1-assembly/src/lib.rs:29-54 | Scanning the printed form of any tree of text, placeholders and nested sections gives the tree's meaning: a section is kept when its module and all around it are assembled, and a dropped one takes one newline along. |
| `Prompt.SuccessIsATree` | crates/p1-assembly/src/lib.rs:51-54 | Whatever template renders is the printed form of such a tree, so its tags are balanced, and the result is the tree's meaning. |
| `Prompt.NamesOnlyAssembledTools` | crates/p1-assembly/src/lib.rs:20-23 | A prompt that renders names no tool outside a dropped section that the agent does not have. |
| `AcpRouter.Session.Register` | crates/p1-acp/src/router.rs:566-580 | A continuation waits under an id no other one has, or is refused because the output ended. |
| `AcpRouter.Session.Respond` | crates/p1-acp/src/router.rs:631-647 | A response takes the continuation that waits under its id; an unknown or repeated id takes none. |
| `AcpRouter.Session.EndOfOutput` | crates/p1-acp/src/router.rs:649-654 | At the end of the output everything that waits is taken, as ended. |
| `AcpRouter.Session.RunsAtMostOnce` | crates/p1-acp/src/router.rs:566-580 | No continuation runs twice, in any interleaving. |
| `AcpRouter.Session.ExactlyOnceWhenDrained` | crates/p1-acp/src/router.rs:602-654 | When the relay has drained, every continuation ever handed over has run exactly once. |
| `AcpRouter.Session.NothingWaitsBehindTheEnd` | crates/p1-acp/src/router.rs:521-524 | Once the output ended, nothing waits, whatever was asked later. |
| `AcpRouter.Router.BeginShutDown` | crates/p1-acp/src/router.rs:145-153 | Every process not known to have ended is closed and among those to wait for. |
| `AcpRouter.Router.Track` | crates/p1-acp/src/router.rs:161-171 | A process, even one that exited before it is tracked, is accepted exactly when the router does not shut down, and otherwise closed at once. |
| `AcpRouter.Router.Opened` | crates/p1-acp/src/router.rs:311-345 | A session is registered exactly when it opened and no shut-down has begun; otherwise its process has ended or is told to close. |
| `AcpRouter.Router.CloseSession` | crates/p1-acp/src/router.rs:393-408 | The session is gone from the map at once and its process told to close. |
| `AcpRouter.ShutDownIsFinal` | crates/p1-acp/src/router.rs:142-158 | Whatever runs before, between and after its two halves, behind a shut-down no session is registered and every process ever tracked has ended or been told to close. |
| `CredentialStore.Store.WriteEntry` | crates/p1-auth/src/store.rs:360-386 | Wherever it stops, the route has its old entry with its old approval or none, or the new entry with none or exactly the new approval; other routes are untouched. |
| `CredentialStore.Store.Remove` | crates/p1-auth/src/store.rs:625-644 | The approval is gone whenever the entry is, and it says whether there was anything to remove. |
| `CredentialStore.Store.TrustEndpoints` | crates/p1-auth/src/store.rs:510-526 | The recorded approval becomes exactly the given one, for the entry that is there, or stays. |
| `CredentialStore.Store.CheckOrigin` | crates/p1-auth/src/store.rs:448-466 | An origin passes when it is recorded, or none is and none is required. |
| `CredentialStore.Store.ReadBoundEntry` | crates/p1-auth/src/store.rs:468-490 | The entry comes back only as it is stored, and with a required origin only if that origin is recorded, and so was approved for this very entry. |
| `CredentialStore.AnySequence` | crates/p1-auth/src/store.rs:373-385 | Over any logins, logouts and approvals, each stopped anywhere, a recorded origin was approved for the entry now stored. |
| `CredentialStore.ApprovalsAreNotInherited` | crates/p1-auth/src/store.rs:373-385 | An origin that counts was approved by the act that stored the present entry or by a later one. |
| `CredentialStore.WrittenApprovalReadsBack` | crates/p1-auth/src/store.rs:388-403 | Both written forms read back as the origins approved, and are accepted exactly when none is empty. |
| `WorkflowCard.Play` | crates/p1-acp/src/workflow_card.rs:77-180 | For any sequence of observations and all updates they lead to, the card of a run that exactly one start result named was last made to show that result and then all the run's lines, and the updates tell every note once, in order, but for those that wait for an open call. |
| `WorkflowCard.CardsIgnoreInterleaving` | crates/p1-acp/src/workflow_card.rs:1-2 | How a run's progress interleaves with everything else has no say in what its card shows. |
| `WorkflowCard.LinkIgnoresProgress` | crates/p1-acp/src/workflow_card.rs:94-103 | Progress has no say in which run a result is linked to. |
| `WorkflowCard.WorkflowCards.Observe` | crates/p1-acp/src/workflow_card.rs:94-103 | Progress of a linked run is shown at once with all before it; progress of an unlinked one is kept. |
| `WorkflowCard.WorkflowCards.EndWorker` | crates/p1-acp/src/workflow_card.rs:105-117 | A note goes to the worker's card, out as a message when no call is open, or into the queue. |
| `WorkflowCard.WorkflowCards.Finish` | crates/p1-acp/src/workflow_card.rs:119-167 | A start result is shown, then each line reported before it; a result that starts no run is shown as finished, then, on a worker's card, each note queued for it; without open calls every other note is shown behind that, in order, and none stays queued. |
| `WorkflowCard.WorkflowCards.LinkWorker` | crates/p1-acp/src/workflow_card.rs:144-160 | A worker's card gets the notes queued for it, in order, and the others stay queued, in order. |
| `WorkflowCard.WorkflowCards.Start` | crates/p1-acp/src/workflow_card.rs:77-88 | A reused call id loses its cards; the other workers' cards stay as they are. |
| `WorkflowCard.WorkflowCards.EndTurn` | crates/p1-acp/src/workflow_card.rs:169-180 | No call stays open and every queued note is shown, in order. |
| `Base64.DecodesExactlyTheEncodings` | crates/p1-contracts/src/attachment.rs:170-206 | A text decodes to given bytes exactly when it is their encoding, or their encoding without any of its padding. |
| `Base64.Decode` | crates/p1-contracts/src/attachment.rs:172-206 | The loop over chunks and letters computes `Decoded`, rejections included. |
| `Base64.Encode` | crates/p1-contracts/src/attachment.rs:215-234 | The loop over chunks computes `Encoded` with padding. |
| `CivilDate.DateIsValid` | crates/p1-host/build.rs:311-327 | Every integer day count gives a date of the proleptic Gregorian calendar. |
| `CivilDate.CountsBack` | crates/p1-host/build.rs:311-327 | Counting the days of that date gives the day count back. |
| `CivilDate.EveryDateIsReached` | crates/p1-host/build.rs:311-327 | Every valid date is the date of its day count. |
| `CivilDate.ConsecutiveDays` | crates/p1-host/build.rs:308-327 | Day 0 is 1970-01-01 and consecutive days are consecutive calendar dates, in both directions without end. |
| `CivilDate.SecondsOfADay` | crates/p1-host/build.rs:311-312 | A second belongs to the day that began at or before it, before 1970 too. |
| `Shards.FillShards` | scripts/ci-tests.py:92-97 | Each shard holds exactly what the one assignment gives it, in order: each target goes to the shard with the least load, then the fewest targets, then the lowest number. |
| `Shards.ShardTargets` | scripts/ci-tests.py:86-98 | A runner's shard is a function of the targets and their committed costs alone. |
| `Shards.ShardsPartition` | scripts/ci-tests.py:86-91 | What runners 1 to m compute, each for itself, holds together every target, each once. |
| `Shards.RunnersAgree` | scripts/ci-tests.py:86-91 | Runners that learn of the same targets in different orders agree on every shard. |
| `Shards.AssignmentIsGreedy` | scripts/ci-tests.py:94-97 | The one assignment gives each target to a shard with the least load at that time. |
| `Shards.LoadsAreClose` | scripts/ci-tests.py:94-97 | No two loads differ by more than the heaviest target. |
| `Shards.ListBound` | scripts/ci-tests.py:94-97 | In any order, the largest load is at most 2 - 1/m times the largest load of any other assignment to m shards. |
| `Shards.LongestFirstBound` | scripts/ci-tests.py:94-97 | Longest first, it is at most 4/3 - 1/(3m) times it. |
| `Shards.SharingIsNearlyBest` | scripts/ci-tests.py:86-98 | Under any greedy assignment of the sorted targets, each is in one shard, and no shard exceeds 4/3 - 1/(3m) times the best possible. |
| `Shards.RunnersAreNearlyBest` | scripts/ci-tests.py:86-98 | What a runner computes as its shard never weighs more than 4/3 - 1/(3m) times the fullest shard of any assignment. |

## Left out

- AgentCore.Agent.Reconfigure: the authorization policy answers arbitrarily, before a switch and behind it, so replacing it shows nowhere.
- AgentCore.Agent.RequestLoop: runs a given number of requests of a turn, any number, because a turn that goes on for ever does not terminate.
- AgentCore.Agent.OneRequest: the stream is reduced to its terminal event; deltas, notices, events to a front end and what `RequestTiming` records are not modelled. Call ids are taken to be distinct within one response, which the code relies on.
- AgentCore.Agent.Await: a turn whose future is dropped in the middle of an await is not modelled; the process may stop anywhere.
- AgentCore.Agent.PrepareContext: a replacement installed before a request leaves the last usage as it is, as the code does; no law compares that with the usage a resumed agent starts from.
- Engine.Summarize: the summary prompt, masking and the texts of errors; sums of token counts are unbounded integers where the code does not saturate them.
- Estimate.CeilTokensIsCeiling: is stated up to 2^63 - 4 characters, beyond which the code's arithmetic saturates.
- Plan: the placeholder text of an image and the line of a file are stored with the block instead of being composed.
- ImageFile.Validate: the wording of the reasons an image is malformed for.
- JpegSyntax.StripsExactlyTheMetadata: start-of-image markers and hierarchical streams do not occur inside a picture, as T.81 has it for one picture.
- Prompt.SubstitutePrompt: where the values of the placeholders come from.
- AcpRouter.Session.Reserve: request ids are unbounded; the code's 64-bit counter would wrap after 2^64 asks.
- AcpRouter.Router.Opened: JSON messages, workspaces, archives and launching; a continuation is its number, and what it does when it runs is another step.
- CredentialStore.Store.ReadBoundEntry: file permissions, lock files, staged files and the recovery of an interrupted refresh; holding the lock and publishing one whole document are taken as given, and the header-safety of keys is not checked.
- WorkflowCard.StartedRun: how a tool's identity tells what kind of start it is.
- CivilDate.UtcDate: the zero-padded text of the date.
- Shards.ShardTargets: costs are exact real numbers, not rounded ones.
- HTTP refresh, credential modules, MCP, the environment loader, TOML and JSON parsing: foreign libraries and I/O.
- Path patterns, hashes, hook merging, usage totals, session titles, plan display and the other scripts: they would only add easy members.
