# spark-runner, modelled and verified

The runner drives one agent turn at a time against an untrusted app-server child
and exposes it over a local HTTP and SSE adapter. This project models its state
machines in Dafny and proves what they promise.

| files | what they model |
|---|---|
| `Owner`, `ReplayLog`, `OwnerInvariant`, `OwnerSafety`, `OwnerHistory`, `OwnerDelivery`, `OwnerGrants`, `OwnerEnds`, `OwnerReplies`, `OwnerState`, `SseResume`, `SseGap` | the runtime owner: admission, approvals, the bounded replay log, resuming an event stream |
| `ApprovalText`, `ShownText`, `Permissions`, `Descriptor`, `AllowExactly`, `ApprovalHandler`, `HandlerAnswers`, `HandlerState`, `Handover`, `Interleaving` | the approval boundary: from arbitrary request JSON to a review record, a ruling, journal rows and an answer |
| `Framing`, `Writing`, `Transport`, `Inbound` | the JSONL transport: cancel-safe framing, the pending buffer, calls that dispatch server requests |
| `Flow`, `Restart`, `Control`, `ControlEnds`, `Ambiguity`, `Uncontrolled`, `Verdict` | one execution, the single restart, and the controlled path with its cancellation protocol |
| `Journal`, `ProjectionExactly`, `Recovery`, `Redaction`, `RedactionExactly`, `StoredLog` | the append-only journal, its restart projection, crash recovery and redaction |
| `Session`, `SessionCalls` | the session state machine with its bounded event window |
| `Sha256` | the in-tree hash, against FIPS 180-4 |
| `Basics`, `Text`, `Json`, `Ordering` | strings, JSON values and ordered iteration as the runner sees them |

Each component is stated twice. Functions on values say what one step does, and
the theorems about runs, crashes and round trips are about them; what each step
answers, writes and leaves is stated once more as an if-and-only-if over its inputs
(the theorems called `...Exactly`). Classes and
methods keep the fields, loops and saturating counters of the source, and are
proved equal to those functions. What the outside decides (acknowledgements,
control outcomes, failing appends, where a read is abandoned, the order a hash
map is visited in) is an input or a free choice, so every statement holds for all
of it. The encoded size of an event or a JSON value is an arbitrary function.

Some promises one would expect are false of the code. Each is stated as it is:

- An interrupt that fails to deliver one denial leaves the approvals claimed after
  it in delivery for good, also when their turn ends. In every run this is the only
  way an approval stays in delivery (`OwnerDelivery.InDeliveryExactly`), and
  `OwnerDelivery.AbandonedOnEndedTurn` is a run in which it does.
- A resumed stream is complete if and only if nothing newer than `last_seen` was
  evicted (`SseResume.ResumeIsExactlyOnce`); `SseGap.StreamMissesItsStart` is a run
  in which something was.
- Text of exactly the limit that ends like a cut replacement passes the review
  check (`ApprovalText.ReviewableText`); such text exists for every limit from eight
  on (`ApprovalText.CutReplacementPasses`), so at both limits in use
  (`Descriptor.UncleanTextPasses`).
- Words that carry credentials are to be hidden from whoever reads a request. A word
  broken up by a control character is not: it is put together again and shown
  (`ShownText.MaskedWordIsShown`), which is exactly what can go wrong
  (`ShownText.HiddenExactly`). Such text may not be allowed.
- The bearer marker hides only the word "Bearer"; what follows is kept exactly if it
  holds no marker itself (`Redaction.BearerCredentialIsKept`).
- A key requested again keeps its old state in the projected map while it is listed
  unresolved (`Recovery.ReopenedKeyStillReadsAllowed`); it reads DeniedOnRestart
  exactly if a recovery denial follows every decision on it
  (`Recovery.ReadsDeniedExactlyWhenOverruled`).
- The comment on the controlled path says that an unknown delivery is left
  recoverable. Recovery lists the execution exactly if a delivery counts as
  ambiguous or the completion row is lost (`Ambiguity.UnresolvedExactly`,
  `Ambiguity.AmbiguousExactly`). An outcome may be unread and yet recorded as Failed,
  exactly in the circumstances of `Ambiguity.MisreadExactly`;
  `Ambiguity.UnreadButRecordedFailed` gives four.
- Without a controller no unread outcome is left for recovery at all, unless the
  completion row is lost (`Uncontrolled.UncontrolledMisreadExactly`): a turn/start
  that is never answered reads Failed (`Uncontrolled.UnansweredReadsFailed`).
- The owner reads the end of a run off a line that quotes the server's status, so it
  may differ from the journal (`Verdict.VerdictsAgreeExactly`).
- An approval the owner reads as Denied may have been answered with Allow
  (`Handover.DeniedButAllowed`, `Handover.LateAcknowledgement`); one it reads or
  reported as Approved was, in every interleaving
  (`Interleaving.ApprovedInEveryInterleaving`).

`dafny verify dfyconfig.toml` checks everything.

## Model

| member | source | states |
|---|---|---|
| `OwnerActor.OwnerState.constructor` | src/api.rs:217-239 | a new owner is the initial state: not ready when live, no turns, ids from one |
| `OwnerActor.OwnerState.OldestTurn` | src/api.rs:1809-1817 | whatever order the map is visited in, the turn found is the one holding the globally oldest retained event |
| `OwnerActor.SmallestIsOldest` | src/api.rs:1809-1817 | a minimum over the turns by first event id is unique, because event ids are |
| `OwnerActor.OwnerState.RemoveFirst` | src/api.rs:1818-1828 | one eviction: the first event of that turn leaves both byte counts |
| `OwnerActor.OwnerState.MakeRoom` | src/api.rs:1808-1829 | the eviction loop computes `Evict`, terminates, and always makes room; the saturating sum in its guard is exact |
| `OwnerActor.OwnerState.Store` | src/api.rs:1830-1854 | storing an event keeps the newest 256 of the turn with exact counts under saturating arithmetic, and publishes it |
| `OwnerActor.OwnerState.PushEvent` | src/api.rs:1788-1854 | publishing an event in place equals `Push` on the abstract state |
| `OwnerActor.OwnerState.Publish` | src/api.rs:1808-1854 | for an event within the size limit on a retained turn neither early return is taken: it is stored after eviction |
| `OwnerActor.OwnerState.PruneTerminalRecords` | src/api.rs:1856-1873 | pruning removes exactly the turns that are over and every approval neither pending nor of a kept turn |
| `OwnerActor.OwnerState.RemoveTerminal` | src/api.rs:1857-1867 | removing turns one by one with saturating subtraction leaves the byte count of the live turns |
| `OwnerActor.OwnerState.NewThread` | src/api.rs:527-557 | creating a thread prunes at the cap and then rejects, or numbers a new thread |
| `OwnerActor.OwnerState.NewTurn` | src/api.rs:559-631 | a turn is admitted exactly in the order of checks of the source; the second capacity check never rejects |
| `OwnerActor.OwnerState.Watch` | src/api.rs:696-723 | a subscription replays the retained events after `last_seen`, and takes control only of a live turn nobody controls |
| `OwnerActor.OwnerState.Ask` | src/api.rs:725-801 | an approval is recorded only if it is reviewable, within capacity, on a live turn, and its whole event fits |
| `OwnerActor.OwnerState.ClaimApproval` | src/api.rs:1033-1068 | only a pending approval is claimed, and its sender leaves the record with the claim |
| `OwnerActor.OwnerState.Decide` | src/api.rs:831-870 | a decision claims, delivers and reports exactly as `Owner.Decide`; an unacknowledged delivery reads Denied and is not reported |
| `OwnerActor.OwnerState.Withdraw` | src/api.rs:905-913 | visiting the approvals in any order withdraws every pending approval of the turn, each once, and touches no other |
| `OwnerActor.OwnerState.CloseTurn` | src/api.rs:1151-1175 | ending a live turn releases its admission exactly once and denies everything pending on it |
| `OwnerActor.OwnerState.Terminalize` | src/api.rs:1144-1186 | ending a turn equals `Owner.Terminalize` for some visiting order; on a turn that is over it does nothing |
| `OwnerActor.OwnerState.DeliverClaimed` | src/api.rs:919-950 | the delivery loop stops at the first failure, after reporting that approval |
| `OwnerActor.OwnerState.Interrupt` | src/api.rs:872-1024 | an interrupt equals `Owner.Interrupt`: claims first, then deliveries, then the control outcome decides, as `OwnerEnds.InterruptExactly` states |
| `OwnerActor.OwnerState.Conclude` | src/api.rs:960-1023 | the control outcome ends the turn as `Owner.Answer` says; which end that is, is stated by `OwnerEnds.InterruptExactly` |
| `OwnerActor.OwnerState.ControllerDropped` | src/api.rs:473-478 | losing the controlling stream interrupts and releases control of the turn |
| `OwnerActor.OwnerState.ApprovalExpired` | src/api.rs:482-492 | an approval deadline interrupts only while that approval is still pending on that turn |
| `OwnerActor.OwnerState.Finish` | src/api.rs:1106-1142 | the end of a run ends the turn as the result says, and a failed run withdraws readiness |
| `OwnerEnds.InterruptExactly` | src/api.rs:872-1024 | an interrupt of a live turn: with every denial acknowledged and a channel, the turn is Interrupted exactly if the runtime reports it and no deadline asked, still as it was exactly if the acknowledgement times out, and Failed otherwise; and the reply to match |
| `OwnerEnds.FinishExactly` | src/api.rs:1106-1142 | the end of a run gives a live turn exactly the end its result names, and only a failed run withdraws readiness |
| `OwnerEnds.StepStatuses` | src/api.rs:374-512 | after any command every turn has exactly the status the command gives it, or the one it had |
| `OwnerEnds.EndsExactly` | src/api.rs:374-512 | in every run from the start, a turn reads Interrupted (or Completed, or Failed) exactly if some earlier command gave it that end, by the guard of that command |
| `OwnerEnds.EndStays` | src/api.rs:374-512 | an end once given is the end the turn has in every later state that retains it |
| `OwnerReplies.EndIsReported` | src/api.rs:1144-1186 | the last event published by a command that ends a turn is terminal and names the end given |
| `OwnerReplies.InterruptDelivers` | src/api.rs:905-950 | the decisions an interrupt hands over: Timeout for a deadline, else Deny, in the order visited, up to the first that is not acknowledged |
| `OwnerReplies.DecideExactly` | src/api.rs:831-870 | a decision on a pending approval uses its sender, reads Approved exactly if it approves and is acknowledged, and is reported if acknowledged; on any other it changes nothing |
| `OwnerReplies.AskExactly` | src/api.rs:725-801 | a request is recorded exactly if it may be allowed, there is room, its turn is live and its event fits; each refusal changes nothing and says why |
| `OwnerReplies.CreateThreadExactly` | src/api.rs:527-557 | a thread is created exactly if there is room, with a fresh number |
| `OwnerReplies.CreateTurnExactly` | src/api.rs:559-631 | a turn is admitted exactly if the journal is there, the owner ready, no turn active and the thread known; then it runs and is the one active turn |
| `OwnerReplies.WatchExactly` | src/api.rs:696-723 | a subscription takes control exactly of a live turn nobody controls, unless it only observes, and replays exactly the retained newer events |
| `OwnerReplies.ControlIsExclusive` | src/api.rs:696-723 | in every run, between two subscriptions that take control of one turn its controller dropped |
| `ReplayLog.EvictMakesRoom` | src/api.rs:1808-1829 | eviction keeps every byte count exact and makes room; the give-up branch is unreachable |
| `ReplayLog.EvictIsOldestFirst` | src/api.rs:1808-1829 | eviction removes the globally oldest events and no more than needed: one id cuts every turn, and one more event would not have fitted |
| `ReplayLog.DropFirstAccounted` | src/api.rs:1818-1828 | the saturating subtractions of an eviction are exact |
| `ReplayLog.AppendAccounted` | src/api.rs:1833-1852 | storing an event keeps all sums exact, at most 256 events a turn and 1 MiB in all |
| `ReplayLog.PushPublishes` | src/api.rs:1800-1853 | an event that fits is always published on a retained turn |
| `ReplayLog.PushAccounted` | src/api.rs:1788-1854 | publishing keeps the replay accounting |
| `ReplayLog.PushKeepsHistory` | src/api.rs:1795-1853 | publishing keeps ids increasing and each turn's retained events a suffix of its published ones |
| `ReplayLog.EvictTrims` | src/api.rs:1808-1829 | eviction only drops first events |
| `OwnerInvariant.PushKeepsInv` | src/api.rs:1788-1854 | publishing an admissible event keeps the whole invariant |
| `OwnerInvariant.PruneKeepsInv` | src/api.rs:1856-1873 | pruning keeps the invariant, sums included |
| `OwnerInvariant.PruneEmpties` | src/api.rs:583-593 | with no active turn, pruning leaves no turn and no retained byte |
| `OwnerInvariant.AtMostOneLiveTurn` | src/api.rs:575-582 | in every state with the invariant two live turns are the same turn |
| `OwnerInvariant.AdmitKeepsInv` | src/api.rs:606-624 | admission keeps the count of live turns equal to `active_turns`, at most one |
| `OwnerInvariant.ClaimAllKeepsInv` | src/api.rs:905-913 | claiming a turn's pending approvals at once keeps the invariant; each claimed one is undelivered and unreported |
| `OwnerInvariant.DeliverKeepsInv` | src/api.rs:926-928 | delivering a claimed decision uses its sender for the first time, and Approved needs an acknowledged Allow |
| `OwnerInvariant.CloseKeepsInv` | src/api.rs:1151-1175 | closing a turn keeps the invariant: admission drops by one and nothing stays pending on it |
| `OwnerInvariant.AddApprovalKeepsCore` | src/api.rs:773-786 | a new pending approval holds its sender on a live retained turn |
| `OwnerSafety.InitialInv` | src/api.rs:217-239 | the initial state has the invariant |
| `OwnerSafety.TurnCapacityNeverRejects` | src/api.rs:583-593 | the second TURN_CAPACITY check never rejects, because pruning empties the turns whenever admission is free |
| `OwnerSafety.RegisterKeepsInv` | src/api.rs:725-801 | no approval becomes decidable that was not published in full |
| `OwnerSafety.DecideKeepsInv` | src/api.rs:831-870 | deciding keeps the invariant |
| `OwnerSafety.DeliverAllKeepsInv` | src/api.rs:919-950 | the delivery loop of an interrupt keeps the invariant and the turn live |
| `OwnerSafety.InterruptKeepsInv` | src/api.rs:872-1024 | interrupting keeps the invariant |
| `OwnerSafety.TerminalizeKeepsInv` | src/api.rs:1144-1186 | ending a turn keeps the invariant: its terminal event is its last, its approvals are settled once |
| `OwnerSafety.FinishKeepsInv` | src/api.rs:1106-1142 | the end of a run keeps the invariant |
| `OwnerSafety.StepKeepsInv` | src/api.rs:374-512 | every command keeps the invariant: accounting, history, admission, one-shot senders, single settlements, terminal last |
| `OwnerSafety.EveryRunKeepsInv` | src/api.rs:374-512 | every state of every run has the invariant |
| `OwnerHistory.StepGrows` | src/api.rs:374-512 | one command publishes on at most one turn, live before it or just admitted |
| `OwnerHistory.StepEvolves` | src/api.rs:374-512 | no command revives a turn that is over, changes how it ended, or reuses a pruned id |
| `OwnerHistory.StepAgrees` | src/api.rs:831-1068 | a command changes no approval that was not pending |
| `OwnerHistory.DecidedForGood` | src/api.rs:1033-1074 | in every run an approval once not pending never changes, and its id names no other |
| `OwnerDelivery.InterruptLeaves` | src/api.rs:905-950 | after an interrupt the approvals in delivery are those that were before and those claimed after the first failed delivery |
| `OwnerDelivery.DoneMeansAllDenied` | src/api.rs:919-950 | an interrupt reports done only if every claimed approval acknowledged its denial |
| `OwnerDelivery.StepDelivers` | src/api.rs:374-512 | no command but such an interrupt puts an approval in delivery and leaves it there |
| `OwnerDelivery.InDeliveryExactly` | src/api.rs:374-512 | in every run from the start, a retained approval is in delivery exactly if an earlier interrupt, controller drop or approval deadline failed to deliver one claimed before it |
| `OwnerDelivery.AbandonedOnEndedTurn` | src/api.rs:936-946 | a run of six commands ends with an approval in delivery on a turn that is over, so "none in delivery on a turn that is over" is false |
| `Verdict.SummaryReads` | src/api.rs:1118-1135 | the owner reads Completed exactly if the server's status starts with that word or itself contains the owner's key and the word; Interrupted likewise |
| `Verdict.VerdictsAgreeExactly` | src/orchestrator.rs:984-995 | the statuses for which the owner's verdict on a returned run is the end the journal records |
| `Verdict.VerdictsDiffer` | src/api.rs:1118-1124 | on "completed_with_errors" the owner reads Completed where the journal has Failed |
| `Handover.ApprovedIsOnRecord` | src/api.rs:831-870 | an approval that reads or is published as Approved has its request row, its Allowed row, and then its Allow answer |
| `Handover.DeniedButAllowed` | src/api.rs:853-861 | exactly when the owner reads Denied although the client attempted an Allow: it was recorded, and then the answer failed, the session refused, or the acknowledgement came too late |
| `Handover.LateAcknowledgement` | src/api.rs:853-861 | a reachable state and a late acknowledgement where the owner reads Denied and Allow was answered |
| `OwnerGrants.OthersGrantNothing` | src/api.rs:374-512 | no command but a decision makes an approval read, or be reported as, Approved |
| `Interleaving.MoveIsSound` | src/client.rs:1114-1184 | one step of the owner or of any client, in any order, keeps rows before answers and answers before Approved |
| `Interleaving.ApprovedInEveryInterleaving` | src/api.rs:831-870 | in every interleaving of the owner with its clients, an approval that reads or was ever reported as Approved has, in this order, its request row, its Allowed row and its Allow answer |
| `SseResume.ResumeIsExactlyOnce` | src/api.rs:1618-1695 | in every run a resumed stream is exactly the turn's published events with larger ids, in order, a terminal one last, if and only if `last_seen` is not older than an evicted event |
| `SseGap.MoreThanFits` | src/api.rs:1808-1829 | a turn that published more bytes than the replay log may hold no longer has its first event, so whoever has not seen it misses it |
| `SseGap.StreamMissesItsStart` | src/api.rs:696-723 | a run with 64 requests after which a new subscriber does not receive the turn's first event |
| `SseResume.StreamIsAll` | src/api.rs:704-721 | replay followed by live events is everything newer when nothing newer was evicted |
| `SseResume.StreamLacks` | src/api.rs:704-721 | otherwise the stream misses an event |
| `SseResume.RunOnlyAppends` | src/api.rs:1788-1854 | runs only append to what was published, and a turn that is over, pruned or not, gains nothing |
| `SseResume.OverStays` | src/api.rs:1788-1854 | a command leaves a turn that is over, over and silent |
| `ApprovalText.SanitizeApprovalText` | src/client.rs:1673-1694 | the word loop computes `Sanitized`: flagged words replaced, control characters dropped, text cut at the limit |
| `ApprovalText.ReviewableText` | src/client.rs:1698-1700 | text passes the review check exactly if it is within the limit, single-spaced, free of control characters and every flagged word is literally `[REDACTED]`; or has exactly `limit` characters and differs from that only in a last, flagged word that reads like a cut replacement |
| `ApprovalText.SlippingPasses` | src/client.rs:1689-1692 | for every limit from eight on, a text of that length whose credential word is not the replacement passes |
| `ApprovalText.CutReplacementPasses` | src/client.rs:1673-1712 | some text that is not clean passes the check exactly if the limit is at least eight |
| `ApprovalText.WordsOfJoin` | src/client.rs:1676-1688 | words joined by single spaces split into the same words, unless one was empty |
| `ApprovalText.WordsOfCut` | src/client.rs:1689-1692 | cutting joined words either loses words or cuts only the last |
| `ShownText.HiddenExactly` | src/client.rs:1676-1694 | the words shown of a text hide every flagged word exactly if no word is masked by control characters |
| `ShownText.ShownIsClean` | src/client.rs:1669-1694 | text without control characters is shown clean, word for word: the replacement for each flagged word, each other word as it is |
| `ShownText.MaskedWordIsShown` | src/client.rs:1676-1688 | a sensitive word broken up by a control character is shown whole: flags are decided before control characters are dropped |
| `Permissions.DescribePermissions` | src/client.rs:1891-1942 | the description loops compute the summary and whether everything in it is reviewable |
| `Permissions.SummaryIsComplete` | src/client.rs:1891-1942 | a reviewable profile is summarised by exactly its counted entries, at most 16 of a valid one |
| `Permissions.ProfileCovered` | src/client.rs:1714-1738 | every string anywhere in a grantable profile is a fixed keyword or shown unchanged |
| `Permissions.FileSystemCovered` | src/client.rs:1754-1793 | the same for the file-system part |
| `Permissions.EntryCovered` | src/client.rs:1795-1813 | the same for one entry |
| `Permissions.PathCovered` | src/client.rs:1815-1843 | the same for one path |
| `Permissions.SpecialCovered` | src/client.rs:1845-1879 | the same for one special path |
| `Descriptor.FromRequest` | src/client.rs:479-687 | the record is built field by field as `Describe` says, and Allow is permitted exactly if it is reviewable: by `AllowExactly.AllowExactly`, exactly if the request is one that may be allowed |
| `Descriptor.ShowPaths` | src/client.rs:600-657 | the change loop shows each change on the byte budget the earlier ones left |
| `Descriptor.DescribeThePatch` | src/client.rs:580-658 | the patch branch computes its record |
| `Descriptor.DescribeThePermissions` | src/client.rs:659-682 | the permissions branch computes its record; the exact profile joins only when nothing spoke against it |
| `Descriptor.ExecuteLossless` | src/client.rs:513-534 | command, directory, environment and network are recovered from the record |
| `Descriptor.ArgumentsLossless` | src/client.rs:535-558 | the argument vector and directory are recovered from the record |
| `Descriptor.PatchLossless` | src/client.rs:580-658 | the grant root and the whole file-change map, with exact content, diff and move path, are recovered from the record |
| `Descriptor.PermissionsLossless` | src/client.rs:659-682 | the profile, directory and environment are recovered from the record |
| `Descriptor.OthersNeverAllowed` | src/client.rs:507-511 | no other method ever permits Allow |
| `Descriptor.LosslessAllow` | src/client.rs:478-688 | for every method and every request, if Allow is permitted then what it grants is decoded from the record alone |
| `Descriptor.EqualRecordsGrantTheSame` | src/client.rs:478-688 | requests with equal allowable records grant the same authority |
| `Descriptor.OnlyAllowGrants` | src/client.rs:2043-2081 | no response to Deny or Timeout lets a request go ahead |
| `Descriptor.UncleanTextPasses` | src/client.rs:1539-1540 | at both limits in use a text field passes although it shows a credential word that is not the replacement |
| `Descriptor.PermissionGrant` | src/client.rs:2061-2078 | a permission Allow answers with exactly the requested and shown profile, fully covered, at most 16 entries, all summarised |
| `AllowExactly.AllowExactly` | src/client.rs:478-688 | for every method and every request, Allow is permitted exactly if the request's own JSON satisfies the guard of its method |
| `AllowExactly.ExecuteExactly` | src/client.rs:513-534 | a command: only schema fields, command and directory given as text that passes, environment and reason absent, null or such text, network absent, null or exactly a host that passes with a known protocol, no amendment |
| `AllowExactly.ArgumentsExactly` | src/client.rs:535-558 | an argument vector: at most 16 texts that pass, a directory, and the same for the reason |
| `AllowExactly.PatchExactly` | src/client.rs:580-658 | a patch: at most 16 files with paths that pass, each added, deleted or updated by given text and nothing else said, all texts together within 8192 bytes |
| `AllowExactly.PermissionsExactly` | src/client.rs:659-682 | a profile: valid, and every path, pattern and subpath in it passes |
| `AllowExactly.NetworkPasses` | src/client.rs:1576-1612 | the network context is reviewable exactly if absent, null, or exactly the object of a host that passes and a known protocol |
| `AllowExactly.ChangesPass` | src/client.rs:600-657 | the changes are all shown exactly if each is good and their texts fit the budget together, whatever order they come in |
| `AllowExactly.ReasonIsShown` | src/client.rs:481-483 | the reason of a request that may be allowed is shown as it was given |
| `AllowExactly.GrantsExactly` | src/client.rs:2043-2081 | a response lets a request go ahead exactly if Allow was ruled on a method decided by a word, or on a valid profile that is not the empty one |
| `AllowExactly.WordsExactly` | src/client.rs:2043-2060 | the words each method is answered with, one for each ruling |
| `ApprovalHandler.CodexClient.Insert` | src/client.rs:33-44 | the duplicate detector is exact in its byte count, at most 256 keys and 16 KiB |
| `ApprovalHandler.CodexClient.AnswerRequest` | src/client.rs:1114-1184 | request row, ruling, decision row, and only then the answer; any failed append stops before the answer; the ruling is the one `HandlerAnswers.AnswersExactly` states |
| `ApprovalHandler.CodexClient.HandleRequest` | src/client.rs:1070-1199 | handling a server request, waiting for the turn or for a response, equals `Handle`, whose answers, rows and session are stated by `HandlerAnswers` and `HandlerState` |
| `ApprovalHandler.AnsweredIsOneAnswer` | src/client.rs:1241-1308 | the effects of one answer are a prefix of request row, decision row, answer, and the rows agree with the answer |
| `ApprovalHandler.HandleIsSafe` | src/client.rs:1070-1317 | handling one more message keeps the write-ahead order |
| `ApprovalHandler.EveryRunIsSafe` | src/client.rs:1070-1317 | every run under the External policy with a receipt is write-ahead |
| `ApprovalHandler.AllowIsOnRecord` | src/client.rs:1171-1184 | at every cut of every run, an attempted Allow answer was preceded by its request row and then its Allowed row |
| `ApprovalHandler.CrashSafeApprovals` | src/journal.rs:554-576 | after a crash at any point recovery reads Allowed for every key whose Allow answer was attempted; so DeniedOnRestart means none was |
| `ApprovalHandler.AllowNeedsReview` | src/client.rs:1166-1170 | under any policy an Allow answer needs a reviewable record, and a key gets at most one |
| `HandlerAnswers.AnswersExactly` | src/client.rs:1070-1317 | for every configuration, boundary and message, the answer is Allow, Deny or Timeout exactly in the cases given: Allow only for a new, known, reviewable request the session takes, under AllowForTests or ruled by the authority, with both rows acknowledged if there is a receipt; and there is no other answer |
| `HandlerAnswers.RefusesExactly` | src/client.rs:1070-1112 | credentials are given, and other requests refused, exactly in the cases given |
| `HandlerAnswers.RowsExactly` | src/client.rs:1114-1184 | the rows a request adds to the journal, exactly |
| `HandlerAnswers.HandledExactly` | src/client.rs:1070-1317 | a request counts as handled exactly if it was answered with its rows on file, or given credentials, and the answer was written |
| `HandlerAnswers.DenyAllNeverAllows` | src/client.rs:1241-1244 | under the policy that denies everything no run ever attempts an Allow |
| `HandlerState.SessionExactly` | src/client.rs:1114-1199 | while the client waits for the turn: where the turn stands afterwards, and that the session is poisoned exactly if the request came too early or was turned away |
| `HandlerState.CallLeavesSession` | src/client.rs:1201-1317 | during a call the session is not touched |
| `HandlerState.RememberedExactly` | src/client.rs:33-44 | a key is remembered exactly if it was before, or asks for approval now with room for it |
| `HandlerState.AnsweredOnceThenDenied` | src/client.rs:1070-1317 | under every policy and in every run, every answer to a key answered before is a denial |
| `Session.SessionState.EmitEvent` | src/state.rs:239-261 | emitting evicts in a loop and keeps the event window, exactly as `Emit` |
| `Session.SessionState.Call` | src/state.rs:115-189 | each method of the session equals its step of `Apply` |
| `Session.ApplySound` | src/state.rs:115-237 | one call keeps window and history, an Err poisons, poison stays, the turn makes at most one legal step |
| `Session.RunSound` | src/state.rs:115-261 | in every reachable session the kept events are a suffix of the emitted ones, consecutive, within 256 events and 16 KiB, and replaying them gives the current phase |
| `Session.ErrIsForever` | src/state.rs:115-120 | after any Err the session is poisoned in every continuation |
| `Session.StoppingIsAbsorbing` | src/state.rs:213-237 | an interrupted turn can only become Failed |
| `Session.DeniedTurnNeverCompletes` | src/state.rs:145-167 | after a denied or timed-out approval no continuation ever completes the turn |
| `SessionCalls.CallExactly` | src/state.rs:115-237 | every call from every session: when it returns Ok, where it leaves worker and turn, when it poisons, and which request, decision or interrupt it puts on record, all said of the state before it |
| `Journal.ProjectRecovery` | src/journal.rs:514-603 | the projection loop gives, for each id, its last settled state and whether its last mark opened it |
| `Journal.AppendEntry` | src/journal.rs:529-577 | appending one row moves only the id it names |
| `ProjectionExactly.ExecutionsExactly` | src/journal.rs:529-603 | an execution is known exactly if a row names it, unresolved exactly if the last such row starts it, and has the state of its last ending row, or is unknown if there is none |
| `ProjectionExactly.ApprovalsExactly` | src/journal.rs:554-603 | the same of an approval: asked for, decided, or denied on restart |
| `Recovery.PersistRecovery` | src/orchestrator.rs:570-589 | recovery appends its rows in order and, wherever it stops, leaves a prefix of them |
| `Recovery.OwedAfterSome` | src/orchestrator.rs:570-589 | after any number of owed rows exactly the rest are owed |
| `Recovery.CrashConvergence` | src/orchestrator.rs:570-589 | stopping after any prefix and recovering again gives the same final log |
| `Recovery.ManyCrashesConverge` | src/orchestrator.rs:570-589 | so does any sequence of crashes |
| `Recovery.RecoveryIsComplete` | src/journal.rs:529-603 | recovery leaves nothing unresolved, turns each unresolved id into its restart state, and changes no other id |
| `Recovery.ReopenedKeyStillReadsAllowed` | src/journal.rs:554-557 | requesting an allowed key again lists it unresolved while the map still says Allowed |
| `Recovery.ReadsDeniedExactlyWhenOverruled` | src/journal.rs:554-576 | a key the log mentions, unresolved or not, reads DeniedOnRestart exactly if every decision row for it is followed by a recovery denial for it |
| `Recovery.OpenReadsUnresolved` | src/journal.rs:554-557 | an open key is listed, and the map keeps its last settled state |
| `Redaction.RedactString` | src/journal.rs:463-475 | the rewriting loops terminate although the text can grow, and compute one left-to-right pass |
| `Redaction.RedactMarker` | src/journal.rs:466-472 | the loop for one marker terminates, the text from the first occurrence on getting shorter, and computes the pass for it |
| `Redaction.PassesCompose` | src/journal.rs:465-473 | a pass for one more marker over redacted text is one pass for all of them |
| `Redaction.RedactedText` | src/journal.rs:463-475 | redacted text holds no marker; redaction is the identity exactly on marker-free text, and idempotent; words stay apart |
| `Redaction.BearerCredentialIsKept` | src/journal.rs:465-471 | the bearer marker is cut at its own space: the text after it is redacted only as it would be alone, so it is kept exactly if it is marker-free |
| `Redaction.RedactedValue` | src/journal.rs:440-461 | a redacted value is safe at every depth, exactly the safe values are unchanged, and redaction is idempotent |
| `RedactionExactly.FirstMarkerReplaced` | src/journal.rs:463-475 | from its first marker to the end of that word a text becomes the replacement; what is before is kept, and what follows is redacted as it would be alone |
| `RedactionExactly.MarkerFreeOrFirst` | src/journal.rs:463-475 | every text is marker-free or has such a first marker, so this determines the redaction of every text |
| `RedactionExactly.SensitiveExactly` | src/journal.rs:477-484 | a key is sensitive exactly if, in some way of writing its letters large or small, it contains a listed word or is a listed name |
| `RedactionExactly.RedactedAt` | src/journal.rs:440-461 | along every path of keys and indices: what redaction leaves there, and that a path ending in its first sensitive key leads to the replacement |
| `StoredLog.RowReadsBack` | src/journal.rs:54-99 | an unredacted row reads back as its record |
| `StoredLog.RedactedRowReads` | src/journal.rs:396-399 | redaction never makes a row unreadable nor changes its kind: it reads as the record with its texts redacted |
| `StoredLog.StoredRowReadsBack` | src/journal.rs:391-405 | a stored row reads back as the same record exactly if its texts are marker-free and its snapshot safe |
| `StoredLog.RedactionKeepsProjection` | src/journal.rs:514-603 | projecting the stored log equals projecting the original one exactly if all ids in it are marker-free |
| `Framing.Reader.ReadBoundedFrame` | src/jsonl.rs:468-501 | whatever was abandoned before, a read returns what the stream has from the line start on; abandoning loses no byte |
| `Framing.FramesAreLines` | src/jsonl.rs:468-501 | unless it fails, reading a stream splits it into its lines, none over the limit |
| `Framing.LinesAreUnique` | src/jsonl.rs:468-501 | a text has only one split into lines |
| `Framing.FramesBeforeFailure` | src/jsonl.rs:468-501 | up to a failure the frames are the lines before it, and the failing line starts right after them |
| `Framing.OversizedExactly` | src/jsonl.rs:473-495 | reading fails as oversized exactly if some line runs for the whole limit without a newline |
| `Inbound.ReadRawMessage` | src/jsonl.rs:292-306 | a read skips blank lines and returns one parsed message; whatever was abandoned, the messages read are those of the lines framed so far |
| `Inbound.FromBytesToClient` | src/jsonl.rs:244-306 | from bytes to the client, across abandoned reads: the requests and notices that reached it are, each in order and none twice, the first the lines of the stream say, and all of them in the end |
| `Writing.Pipe.Send` | src/jsonl.rs:216-229 | lock, mark, line, newline, flush, stopped after any step: the pipe has exactly what was offered, and the delivery reads as marked exactly if the request was |
| `Writing.UnmarkedIsUnsent` | src/jsonl.rs:212-229 | wherever a request is given up, not marked means no character of it was offered; what was offered is the start of its line; and a request whose answer is read was offered in full |
| `Writing.MarkStays` | src/jsonl.rs:212-229 | the mark is for good and nothing offered is taken back |
| `Writing.ReadsExactly` | src/jsonl.rs:212-231 | a request is marked exactly if it got past its first two steps, and its answer is read exactly if the pipe took its line, then its newline, and one step more was taken |
| `Transport.JsonlClient.RemovePending` | src/jsonl.rs:459-466 | removing a pending message keeps the byte count exact |
| `Transport.JsonlClient.PushPending` | src/jsonl.rs:515-527 | a message is kept exactly if both bounds allow it |
| `Transport.JsonlClient.FindPending` | src/jsonl.rs:254-269 | the first pending answer to the call, else the first pending server request |
| `Transport.JsonlClient.ReadResponse` | src/jsonl.rs:244-290 | a call meets a pending answer, or else the pending requests and then the stream, and ends as the first message that ends it says: its own response is returned, another is an unexpected id, a request fails if the client does, a notice if there is no room; the only message it can lose is that one |
| `Transport.JsonlClient.Call` | src/jsonl.rs:194-242 | call ids never repeat; nothing is read before the whole request was offered; then, for any number of reads that succeed and requests that are handled, the call has its one fate over the messages it meets |
| `Transport.JsonlClient.NextMessage` | src/jsonl.rs:436-453 | the next message is exactly the oldest pending one, or else the next of the stream unless the read fails; nothing is lost |
| `Transport.RepliesExactly` | src/jsonl.rs:231-290 | what the caller hears, exactly: the result or the remote error of its own response if that ends the call, an unexpected id if another response does, a failed handler if a request does, no room if a notice does, and a failed read if nothing does |
| `Transport.FateIsUnique` | src/jsonl.rs:253-290 | the messages a call meets leave it one outcome only |
| `Transport.FateFrom` | src/jsonl.rs:253-290 | after passing some messages a call ends at the next that blocks it under the load so far, or for want of one |
| `Transport.HoldRemoved` | src/jsonl.rs:254-269 | taking the first pending request, or a response, out keeps requests and notices in order |
| `Transport.PlacePending` | src/jsonl.rs:287-288 | a kept message goes behind the pending ones |
| `Transport.DeliverFirst` | src/jsonl.rs:436-440 | delivering the oldest pending message keeps requests and notices in order |
| `Transport.ArriveInOrder` | src/jsonl.rs:244-290 | requests and notices each reach the client in the order sent, none twice, and all of them once everything is read, whether handled during a call or delivered |
| `Transport.EachOnce` | src/jsonl.rs:244-290 | once everything is read and nothing pending or lost, each message was answered, handled or delivered exactly once |
| `Flow.Runner.RunFlowBody` | src/orchestrator.rs:314-436 | the flow is a sequence of calls, rows and one wait, each step taken only without an earlier error |
| `Flow.Runner.Conclude` | src/orchestrator.rs:461-507 | an execution always writes its completion, keeping the first error |
| `Flow.Runner.ExecuteFlowOnce` | src/orchestrator.rs:441-507 | one execution equals `ExecuteOnce` |
| `Flow.RunWithRestart` | src/orchestrator.rs:523-568 | a second execution follows exactly a recoverable desync; by `Restart.RestartsExactly` that is a condition on the first world alone |
| `Flow.CalledIsCareful` | src/client.rs:779-838 | a call reports a restart cue only while no approval was seen and nothing irreversible attempted |
| `Flow.ExecuteAtMostOnce` | src/orchestrator.rs:441-507 | one execution attempts thread/start and turn/start at most once each |
| `Flow.NoReplay` | src/orchestrator.rs:509-568 | both executions together attempt thread/start and turn/start at most once each; a second one runs only if the first attempted neither and saw and recorded no approval |
| `Restart.ExecutionExactly` | src/orchestrator.rs:441-507 | over the world alone: an execution succeeds exactly if every step does, and ends in a recoverable desync exactly if the start was acknowledged, a process spawned, and the first call before thread/start that was not answered ended in a desync with no approval seen until then |
| `Restart.RestartsExactly` | src/orchestrator.rs:523-568 | a second execution runs exactly then, as an execution of its own with its own rows, and what the caller hears is the end of the last one |
| `Restart.DesyncIsTriedAgain` | src/orchestrator.rs:548-561 | the concrete case: a desync at once, everything fine the second time, and the run succeeds |
| `Restart.RowsExactly` | src/orchestrator.rs:314-507 | exactly which rows, other than those of approvals, an execution writes |
| `Control.Controller.Race` | src/orchestrator.rs:718-741 | one stage raced against the control channel |
| `Control.Controller.CancelTurn` | src/orchestrator.rs:755-802 | an interrupt is sent and only the turn's own end completes the cancellation |
| `Control.Controller.RunControlledFlow` | src/orchestrator.rs:684-824 | the controlled flow equals `Controlled` |
| `Control.Controller.Record` | src/orchestrator.rs:920-973 | the completion row is withheld exactly for ambiguous delivery |
| `Control.Controller.RunTurn` | src/orchestrator.rs:830-1003 | the controlled execution equals `Execute`, the acknowledgement last |
| `Control.InterruptedIsTrue` | src/orchestrator.rs:984-1002 | an Interrupted acknowledgement implies that turn/start was never attempted, or that turn/interrupt was acknowledged and the turn's end read |
| `Control.CompletionIsTrue` | src/orchestrator.rs:958-972 | a durable Completed row implies that end was read; a durable Interrupted row implies the same as the acknowledgement |
| `Control.AmbiguousIsUnknown` | src/orchestrator.rs:920-1003 | after ambiguous delivery there is no completion row and the controller is told Unknown, never Interrupted |
| `ControlEnds.FlowExactly` | src/orchestrator.rs:684-824 | the controlled flow returns with each end exactly in the circumstances given, and otherwise with an error |
| `ControlEnds.SucceedsExactly` | src/orchestrator.rs:830-1003 | a controlled execution succeeds exactly if its flow returned and its epilogue did everything |
| `ControlEnds.ToldExactly` | src/orchestrator.rs:984-1002 | the controller is told Interrupted exactly if the flow ended so and the epilogue did everything, Unknown exactly if it asked otherwise, and nothing if it did not ask |
| `ControlEnds.DeadlineExactly` | src/orchestrator.rs:718-816 | the deadline error is reached exactly in the circumstances given |
| `ControlEnds.RowsExactly` | src/orchestrator.rs:684-973 | exactly which rows, other than those of approvals, a controlled execution writes |
| `Ambiguity.AmbiguousExactly` | src/orchestrator.rs:684-824 | a controlled flow ends as ambiguous exactly in the circumstances `DeliveryUnclear`, over all stages: marked when an interrupt came, answered with an error, or broken, but not by a desync after an approval |
| `Ambiguity.UnresolvedExactly` | src/journal.rs:529-553 | whatever the journal held before, recovery lists the execution exactly if a delivery was ambiguous or the completion row was lost, and then reads UnknownAfterRestart |
| `Ambiguity.OutcomeExactly` | src/orchestrator.rs:709-824 | an irreversible outcome stays unread exactly in the circumstances `OutcomeUnread`: thread/start or turn/start offered and given up or broken, or the turn started and its end not read |
| `Ambiguity.MisreadExactly` | src/orchestrator.rs:920-973 | an execution with an unread outcome is closed in the journal exactly in the circumstances `Misread`: the owner gone, a desync after an approval, a deadline, a refused or lost step |
| `Ambiguity.UnreadButRecordedFailed` | src/orchestrator.rs:958-972 | four concrete executions with an unread outcome that recovery does not list |
| `Ambiguity.LateInterruptIsUnknown` | src/orchestrator.rs:718-779 | an interrupt after the mark of thread/start or turn/start, or one not answered in time once marked, leaves no completion row and is told Unknown |
| `Uncontrolled.FlowsAlike` | src/orchestrator.rs:314-436 | until the end of the turn the uncontrolled flow does what the controlled one does when nothing is asked |
| `Uncontrolled.UncontrolledUnresolvedExactly` | src/orchestrator.rs:441-507 | whatever the journal held before, recovery lists a started execution exactly if its start was not acknowledged, nothing was spawned, or its completion row was lost; then it reads UnknownAfterRestart |
| `Uncontrolled.AmbiguousReadsFailed` | src/orchestrator.rs:461-487 | the flow ends as ambiguous exactly in the circumstances `DeliveryUnclear`, and the journal then says Failed, as after any error |
| `Uncontrolled.UncontrolledOutcomeExactly` | src/orchestrator.rs:314-436 | an irreversible outcome stays unread exactly if thread/start or turn/start was offered and broke, or the turn was started and its end not read |
| `Uncontrolled.UncontrolledMisreadExactly` | src/orchestrator.rs:461-507 | an execution with an unread outcome is closed in the journal exactly if it has one and its completion row is durable |
| `Uncontrolled.UnansweredReadsFailed` | src/orchestrator.rs:509-518 | a concrete world: turn/start is offered and never answered, the delivery is ambiguous, and the journal says Failed |
| `Sha256.Pad` | src/config.rs:457-463 | the padding loop gives the padding of FIPS 180-4 section 5.1.1 |
| `Sha256.GapIsSmallest` | src/config.rs:459-462 | the number of zeros is the smallest that fits |
| `Sha256.PaddedIsWhole` | src/config.rs:457-463 | the padded message is a whole number of 64-byte blocks |
| `Sha256.PaddingIsInjective` | src/config.rs:457-463 | messages shorter than 2^61 bytes pad differently |
| `Sha256.RoundConstants` | src/config.rs:445-456 | the 64 round constants are the fractions of the cube roots of the first 64 primes |
| `Sha256.InitialHash` | src/config.rs:464-473 | the initial value is the fractions of the square roots of the first eight primes |
| `Sha256.Extend` | src/config.rs:479-490 | the in-place schedule loop computes the recurrence of section 6.2.2 |
| `Sha256.RunRounds` | src/config.rs:491-512 | the round loop over eight variables computes the recursive rounds |
| `Sha256.Compress` | src/config.rs:475-520 | one block updates the hash array as section 6.2.2 defines |
| `Sha256.HashBlocks` | src/config.rs:474-521 | the block loop computes the fold over all blocks |
| `Sha256.ProgramIsFips` | src/config.rs:480-503 | the program's word operations, rotations and orders of addition equal the standard's |
| `Sha256.SameDigest` | src/config.rs:474-521 | equal word operations give equal hashes |
| `Sha256.Sha256Hex` | src/config.rs:444-523 | for every input the program's result is the hexadecimal hash of FIPS 180-4 |
| `Sha256.HexWordTells` | src/config.rs:522-522 | eight digits determine their word |
| `Sha256.HexTells` | src/config.rs:522-522 | the text determines the whole digest, so comparing digests as text is exact |

## Left out

- HTTP routing, bearer authentication, header and workspace validation, JSON response shapes: adapters.
- Child processes, file permissions, descriptors, the lock file and environment variables: effects of the operating system.
- SQLite, schema migration, capture expiry and clocks: the journal is a sequence of rows; an append is durable and acknowledged, durable only, or lost.
- Task scheduling, channel backpressure and broadcast lag: timeouts and cancellation are free choices at the points where the program awaits; a subscriber is assumed not to lag.
- JSON parsing and the default hasher: messages are values, and the approval key is an arbitrary function, so no claim is made about collisions.
- Authentication refresh content, quota parsing, `constant_time_eq`: easy or finite.
- `approval_matrix_is_complete`: constant true for the five fixed entries of the schema matrix, and taken as such.
- `wait_for_notification`: only tests call it.
- `GetTurn`, `Snapshot` and response bodies of the owner: they read only.
- Shutdown of the owner: a sequence of interrupts, one for each turn.
- Identifiers of threads, turns and approvals are numbers instead of texts built from them, and counters are unbounded: the wrap of a 64-bit counter is not modelled.
- `redact_value` is modelled on values: rewriting in place inside one JSON tree is not captured.
- Library calls (`split_whitespace`, `join`, `find`, iterators over sorted maps) are functions; the loops the source writes itself are loops.
- Handing a denial to an approval that is not registered (`deny_pending_approval`) leaves no trace in the owner's state and is not modelled.
- ApprovalHandler.CodexClient.HandleRequest: what a wait sees is one input; `Interleaving` ties new requests to the owner's commands, and leaves duplicate and unknown requests out of those runs.
- The `initialized` notification is part of the initialize stage, and the delivery mark, optional in the source, is always there: a call without one is sent alike.
- Flow.Runner.RunFlowBody: the contents of the admission answers (account, model list, quota) are one refusing or accepting outcome.
- Control.Controller.Race: admission is raced call by call, where the source races the three calls as one.
