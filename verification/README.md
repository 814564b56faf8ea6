# ESET incident AI: verified model

A Dafny model of the parts of the ESET incident pipeline where correctness is hard to see
from one function at a time: what is notified, how often and when, over runs that overlap,
fail and resume; a token cache with double-checked locking; retrieval scores and ranking in
exact arithmetic; and the chunking of documents and the store their chunks go to.

`dafny verify dfyconfig.toml` checks the whole project.

## The notification protocol

Detection collection is a loop over pages inside which a loop over detections applies a time
window, a limit, a severity threshold and a check-send-mark step; it stores a cursor in an
append-only log after every completed page. Incident collection is a simpler loop over a
stream. Approvals are reviewed one by one, or in bulk by a script. All of them share the
table of delivery keys.

* `Keys`, `Payloads`: the keys under which notifications are remembered, and when the key of
  a reviewed payload is the key of the collected record.
* `Repositories`, `Approvals`: the tables, as classes whose methods may raise.
* `DetectionRun`, `OneRun`, `Readings`, `TwoRuns`, `Progress`: one run as a function, the flat
  reading it is equal to, what it sends and reports in terms of the detections alone, two runs
  compared, many runs in a row.
* `CollectDetections`, `IncidentRun`, `Review`: the use cases and the script as imperative
  programs over the tables, proved against those functions.
* `Protocol`, `CursorSafety`, `WindowSafety`, `SendBound`, `ApprovalSafety`: everything at
  once, as a state machine whose atomic steps are the awaits of the programs. Any number of
  processes interleave, and each may raise or vanish at any await, also after its last effect.
  The theorems hold for every finite history from every state without processes, whatever the
  tables hold; `CursorSafety` also needs the tokens stored before to be safe, and the lemmas
  on approvals need valid tables.
* `SoloRun`, `SoloBackfill`: a process of the machine that is left alone does what the
  sequential programs compute.
* `SendTwice`, `ReviewedRows`, `Recovery`: how a key comes to be sent twice, and how a reviewed
  row comes to be sent, with exact conditions; and how everything still eligible is delivered
  after any failures.

## The other components

* `TokenCache`: the client as a class, and any number of callers as a state machine with a
  clock. Lifetimes are the `expires_in` of section 5.1 of RFC 6749.
* `Vectors`, `Embedder`, `Ranking`: cosine similarity, signed feature hashing, the stable
  descending order of a search result.
* `Chunker`, `IndexStore`: chunking, and the two tables of the knowledge store together with
  the map they stand for.

## Reading the model

* SHA-256 and uuid5 are injective, so a key or an id is represented by the text that is
  hashed. The content hash of a document may be any function.
* A record is a map from field names to texts. A value that is not a text is represented by
  its `str`, and every false value by the empty text. The JSON texts that the detection
  approvals store for lists and objects are a parameter.
* The clock does not go backwards. `latest` orders the run log by creation time; the model
  orders it by insertion.
* The sanitizer is a parameter, assumed only to leave "N/A" alone and to make no non-empty
  text empty. Hashing of tokens is a parameter, and so is the square root: any function that
  returns the nonnegative root.
* A call that raises may have taken effect all the same, because only its answer was lost, in
  the classes as in the state machine. The tables, the channel and the detections API count
  the calls that raised, so that the contracts can say that nothing else makes a run fail.
* The repository's README.md says that incidents of high and critical severity are counted
  as pending approval (line 42). The code notifies every incident at or above the threshold
  and reports no pending ones; the model follows the code.

## Model

| member | source | states |
|---|---|---|
| Keys.JoinInjective | src/eset_incident_ai/infrastructure/discord/message_builder.py:10-12 | Equal key texts have equal id, version and destination whenever no id and no destination holds a colon; the version may be any text. |
| Keys.KeyReads | src/eset_incident_ai/infrastructure/discord/message_builder.py:10-12 | A key text reads identity, colon, version, colon, destination. |
| Keys.PartsRead | src/eset_incident_ai/application/use_cases/collect_and_notify_detections.py:231-234 | Which field identity and version are read from: the first non-empty one in the order of the pipeline, or unknown. |
| Keys.ColonCollides | src/eset_incident_ai/infrastructure/discord/message_builder.py:10-12 | The restriction is needed: every id or destination with a colon shares its key text with a different triple. |
| Keys.DistinctRecordsHaveDistinctKeys | src/eset_incident_ai/application/use_cases/collect_and_notify_detections.py:231-234 | Two records of one pipeline are taken for duplicates exactly when their identities and their versions agree, if no identity and no destination holds a colon. |
| Repositories.DetectionRunRepository.Latest | src/eset_incident_ai/infrastructure/persistence/detection_collection_run_repository.py:111-113 | Unless it raises, the cursor of the last row of the run log, whatever kind of row it is; none for an empty log. |
| Repositories.DetectionRunRepository.SaveCursor | src/eset_incident_ai/infrastructure/persistence/detection_collection_run_repository.py:50-69 | Appends one running row with the token; a call that raises appends it or does nothing. |
| Repositories.DetectionRunRepository.SaveSuccess | src/eset_incident_ai/infrastructure/persistence/detection_collection_run_repository.py:16-48 | Appends one success row with the counts and the token; a call that raises appends it or does nothing. |
| Repositories.DetectionRunRepository.SaveFailure | src/eset_incident_ai/infrastructure/persistence/detection_collection_run_repository.py:71-90 | Appends a row without a token, so that the next run starts from the first page; a call that raises appends it or does nothing. |
| Repositories.NotificationRepository.WasDelivered | src/eset_incident_ai/infrastructure/persistence/notification_repository.py:12-25 | Unless it raises, true exactly for the keys in the delivery table. |
| Repositories.NotificationRepository.MarkDelivered | src/eset_incident_ai/infrastructure/persistence/notification_repository.py:27-43 | Adds the key; a key already there keeps its first destination; nothing else changes; a call that raises does all of this or nothing. |
| Repositories.Deliver | src/eset_incident_ai/application/use_cases/collect_and_notify_detections.py:124-134 | Lookup, send, mark, raising exactly when one of them does: a duplicate changes nothing, a success sends once and marks; after a raise the notification was sent at most once, and its key marked only if it was sent. |
| Repositories.FirstOccurrencesKeys | src/eset_incident_ai/application/use_cases/collect_and_notify_detections.py:124-134 | The notifications kept have exactly the keys of the input that were not delivered before, each key once. |
| Repositories.FirstOccurrencesAreFirst | src/eset_incident_ai/application/use_cases/collect_and_notify_detections.py:124-134 | Each notification kept is the first of its key. |
| Repositories.FirstOccurrencesInOrder | src/eset_incident_ai/application/use_cases/collect_and_notify_detections.py:107-134 | The notifications kept are in the order of the input. |
| OneRun.OneRunSends | src/eset_incident_ai/application/use_cases/collect_and_notify_detections.py:99-147 | The nested page loop sends exactly the first occurrences of undelivered keys meeting the threshold among the first `limit` detections, of the pages it may fetch, that have no time or a time not before the cutoff; notified <= max(limit, 0), and notified + duplicates counts the notifiable ones. |
| OneRun.OneRunReads | src/eset_incident_ai/application/use_cases/collect_and_notify_detections.py:99-160 | No more pages are fetched than the cap, and a page exactly when the pages before it hold fewer in-window detections than the limit; the run is cut exactly when the fetched pages hold more; the tokens stored are the next tokens of the completed pages in order; collected = notified + duplicates + skipped, + 1 exactly when cut. |
| Readings.SendsOnlyRecent | src/eset_incident_ai/application/use_cases/collect_and_notify_detections.py:99-135 | Every notification of a run shows the record, under the detection key, of a detection of a page it fetched that has no time or a time not before the cutoff and meets the threshold. |
| Readings.ReportsWhatItRead | src/eset_incident_ai/application/use_cases/collect_and_notify_detections.py:99-161 | The result of a run: collected is the number of detections read, in order; skipped those before the cutoff or below the threshold; notified the number sent; duplicates the rest of what was taken up; what uses up the limit is exactly the detections not before the cutoff; observed is their field names. |
| OneRun.ScanPagesReads | src/eset_incident_ai/application/use_cases/collect_and_notify_detections.py:99-147 | The same for the loop started in the middle of a run, with any part of the limit and of the page cap used up. |
| TwoRuns.RunsIndependent | src/eset_incident_ai/application/use_cases/collect_and_notify_detections.py:107-147 | Two runs differing only in delivered keys and threshold fetch the same pages, store the same tokens, and report the same collected count. |
| Severities.Thresholds | src/eset_incident_ai/domain/enums/severity.py:22-35 | The order of the severities, written out as which of them meet which threshold. |
| TwoRuns.HigherThresholdSendsLess | src/eset_incident_ai/domain/enums/severity.py:22-35 | Raising the threshold, or delivering more beforehand, only shrinks the set of keys a run sends. |
| CollectDetections.CollectAndNotifyDetections.Execute | src/eset_incident_ai/application/use_cases/collect_and_notify_detections.py:56-76 | A run fails exactly when a call raises. If none does, the tables hold exactly what the run's plan says and the result reports it; if one raises, at any point, before or after taking effect, a prefix of the plan was sent, all of it marked or all but the last, and a prefix of the tokens stored, or the whole plan and its success row; a failure row follows, unless that raises too. Either way every notification sent is made of a detection, of a fetched page, with no time or a time not before now - window and at or above the threshold; and each count of the plan is the count of those detections. |
| CollectDetections.CollectAndNotifyDetections.Run | src/eset_incident_ai/application/use_cases/collect_and_notify_detections.py:78-161 | The same for _execute, without the failure row. |
| CollectDetections.CollectAndNotifyDetections.ReadPages | src/eset_incident_ai/application/use_cases/collect_and_notify_detections.py:99-147 | The outer while loop computes the recursive plan from the starting token and returns the last token stored, or the starting one. |
| CollectDetections.CollectAndNotifyDetections.HandlePage | src/eset_incident_ai/application/use_cases/collect_and_notify_detections.py:100-147 | One turn of the outer loop: fetch, go through the page, store the next token only if the page was completed. |
| CollectDetections.CollectAndNotifyDetections.ScanOnePage | src/eset_incident_ai/application/use_cases/collect_and_notify_detections.py:107-135 | The inner for loop, up to the detection that hits the limit. |
| CollectDetections.CollectAndNotifyDetections.HandleDetection | src/eset_incident_ai/application/use_cases/collect_and_notify_detections.py:107-135 | One detection: window, limit, threshold and duplicate test in this order, with the counters each branch changes; one whose time is before the cutoff is collected and skipped, uses up nothing of the limit, and is never sent. |
| CollectDetections.CompletedIsRunOnce | src/eset_incident_ai/application/use_cases/collect_and_notify_detections.py:78-161 | A run of the class that does not raise leaves the log and the delivered keys that the theorems about many runs assume of one run. |
| Progress.EverythingIsDelivered | src/eset_incident_ai/application/use_cases/collect_and_notify_detections.py:99-161 | If no page holds more in-window detections than the limit and the cap is at least 1, as many runs as there are pages, from any safe cursor and with a clock that does not go back, deliver every key still eligible at the last run. |
| Progress.NeverPastAFullPage | src/eset_incident_ai/application/use_cases/collect_and_notify_detections.py:99-147 | The hypothesis decides: however many runs follow, the cursor never passes a page that holds more in-window detections than the limit at each of them. |
| Progress.StopsAtFullPage | src/eset_incident_ai/application/use_cases/collect_and_notify_detections.py:99-161 | The two halves meet: if the pages before some page fit and that page holds more than the limit at every cutoff, as many runs as there are pages in between leave the cursor exactly at that page, with everything before it safe. |
| Progress.FirstPageDecides | src/eset_incident_ai/application/use_cases/collect_and_notify_detections.py:115-147 | For any source: a run leaves the cursor alone exactly when the first page it reads, not the last one, holds more in-window detections than the limit. |
| Progress.FullFirstPageIsStuck | src/eset_incident_ai/application/use_cases/collect_and_notify_detections.py:115-160 | If the first page read holds more than the limit, the run leaves the cursor where it was, and any number of identical further runs send nothing. |
| Progress.RunOncePasses | src/eset_incident_ai/application/use_cases/collect_and_notify_detections.py:86-161 | One run from a safe cursor ends at a safe cursor that is not smaller; if the first page fits the limit the run passes it, or, when it is the last one, leaves every page safe. |
| IncidentRun.OneIncidentRun | src/eset_incident_ai/application/use_cases/collect_and_notify_incidents.py:75-129 | A run reads exactly the first min(max(limit, 1), length) incidents, sends the first occurrence of each undelivered key meeting the threshold, and its skipped count is the number below the threshold, so max(..., 0) never acts. |
| IncidentRun.ObjectsExactly | src/eset_incident_ai/infrastructure/eset/incident_client.py:71-96 | Exactly the items that are objects are kept: item i comes after as many as were kept before it. |
| IncidentRun.ReportsWhatItRead | src/eset_incident_ai/application/use_cases/collect_and_notify_incidents.py:75-131 | Each count of the result in terms of the incidents read, and each notification shows the record, under the incident key, of one of them that meets the threshold. |
| IncidentRun.IncidentStream.Next | src/eset_incident_ai/infrastructure/eset/incident_client.py:71-96 | Yields the objects of all pages in order, page boundaries and empty pages forgotten, items that are not objects dropped. |
| IncidentRun.CollectAndNotifyIncidents.Execute | src/eset_incident_ai/application/use_cases/collect_and_notify_incidents.py:49-131 | The loop over the stream does exactly its plan and logs it, or raises at any point of it, before or after its success row, and logs a failure unless that raises too; it fails exactly when a call raises. |
| IncidentRun.CollectAndNotifyIncidents.HandleIncident | src/eset_incident_ai/application/use_cases/collect_and_notify_incidents.py:78-117 | One incident: threshold, duplicate test, send and mark, with the counters of each branch. |
| Payloads.PartsAgree | src/eset_incident_ai/infrastructure/persistence/detection_approval_repository.py:122-163 | Identity and version read from the stored payload equal those of the record exactly when storing keeps the texts they are read from: lists and objects stored as JSON, then sanitized, then cut. |
| Payloads.DetectionFieldStored | src/eset_incident_ai/infrastructure/persistence/detection_approval_repository.py:122-163 | A field of a detection is stored exactly when it is one of those listed and present: lists and objects as JSON, then sanitized, then its first 1000 characters, N/A for an empty one. |
| Payloads.UserAndDeviceStored | src/eset_incident_ai/infrastructure/persistence/detection_approval_repository.py:122-180 | User and device are stored unsanitized, from the record or else from its context, and no field outside the list is stored. |
| Payloads.IncidentFieldsStored | src/eset_incident_ai/infrastructure/persistence/approval_repository.py:119-132 | The payload of an incident holds exactly its listed fields, sanitized and cut. |
| Payloads.KeyAgreement | src/eset_incident_ai/infrastructure/persistence/detection_approval_repository.py:122-163 | Under these conditions the payload stored for review has the key of the collected record. |
| Payloads.KeyAgreementExact | src/eset_incident_ai/infrastructure/persistence/approval_repository.py:119-132 | For identities without a colon these conditions are exact, for detections and incidents. |
| Payloads.EmptyOccurTimeChangesTheKey | src/eset_incident_ai/infrastructure/persistence/detection_approval_repository.py:150-163 | A record on which the keys differ: an empty occurTime is read as unknown by the collector and stored as N/A. |
| Payloads.DeliveredDetectionIsDuplicate | src/eset_incident_ai/application/use_cases/review_pending_detection_approval.py:37-48 | When each of uuid, displayName and occurTime is absent or a non-empty text of at most 1000 characters that the sanitizer keeps, a detection the collector delivered is a duplicate on review. |
| Approvals.UpsertKeeps | src/eset_incident_ai/infrastructure/persistence/detection_approval_repository.py:20-44 | A save never makes a second row for an external id and keeps the id and the status of the row it updates, which has the payload, the severity and the time of the save; it leaves all other rows alone; a new row is pending. |
| Approvals.MarkKeeps | src/eset_incident_ai/infrastructure/persistence/detection_approval_repository.py:78-90 | A review gives one pending row the status and the time of the review; a row that is not pending keeps everything, and every row its payload and external id. |
| Approvals.SavedIsListedFirst | src/eset_incident_ai/infrastructure/persistence/detection_approval_repository.py:20-61 | Save, then list: if every other row is older than the save, a pending row just saved is the first of every listing that is not empty, however old it was before. |
| Approvals.ApprovalRepository.SavePending | src/eset_incident_ai/infrastructure/persistence/approval_repository.py:17-41 | The upsert of the sanitized payload under the record's identity, after which that row has this payload, severity and time; a call that raises does it or nothing. |
| Approvals.ApprovalRepository.ListPending | src/eset_incident_ai/infrastructure/persistence/detection_approval_repository.py:46-61 | Distinct pending rows, newest first, at most `limit`, and none left out that is newer than one listed; all of them if fewer than the limit. |
| Approvals.ApprovalRepository.Get | src/eset_incident_ai/infrastructure/persistence/detection_approval_repository.py:63-76 | Unless it raises, the row exactly when it is there and pending. |
| Approvals.ApprovalRepository.Mark | src/eset_incident_ai/infrastructure/persistence/approval_repository.py:75-87 | Changes the status of a pending row only, and keeps the table valid; a call that raises does it or nothing. |
| Review.ReviewPending.Approve | src/eset_incident_ai/application/use_cases/review_pending_detection_approval.py:32-64 | It fails exactly when a call raises. The row turns approved only with the key of its payload delivered; the payload is sent exactly when the key was not delivered before; a raise leaves the row pending, or approved with its key delivered; no other row changes and the table stays valid. |
| Review.ReviewPending.Reject | src/eset_incident_ai/application/use_cases/review_pending_approval.py:64-77 | It fails exactly when a call raises; a pending row turns rejected; nothing is sent, and the table stays valid. |
| Review.Backfill.Run | scripts/backfill_pending_detection_approvals.py:72-101 | A row changes only by turning approved with its key delivered, and as its outcome says; only listed notes are sent, in their order and each under a key not delivered before; a pass in which nothing raises approves every listed row and sends exactly the first occurrences; a dry run changes nothing. |
| Review.Backfill.ProcessAll | scripts/backfill_pending_detection_approvals.py:93-101 | The loop goes on after a delivery that raised and ends early only when a lookup or a change of status raised; it leaves as many approvals pending as sends and marks raised, and reports one outcome for every approval it took up. |
| Review.Backfill.ProcessApproval | scripts/backfill_pending_detection_approvals.py:120-178 | One approval: done, it is approved and its key delivered, with a send only if the key was not; left pending exactly when the send or the mark raises, and ending the script exactly when the lookup or the change of status does; a delivery that raises leaves it pending, having sent at most once and marked only after a send. |
| CursorSafety.CursorSafety | src/eset_incident_ai/application/use_cases/collect_and_notify_detections.py:86-161 | Over every history of interleaved collectors, reviews and scripts that may raise or vanish at any await, from an empty log or one of safe tokens: each detection on a page before any stored token is older than the cutoff, below the threshold, or delivered. |
| CursorSafety.StepKeeps | src/eset_incident_ai/infrastructure/persistence/detection_collection_run_repository.py:50-113 | Each single step of each process keeps the invariant: all stored tokens, and all tokens and page positions processes hold, are safe. |
| WindowSafety.DetectionRunsSendOnlyRecent | src/eset_incident_ai/application/use_cases/collect_and_notify_detections.py:107-135 | Over every history, whatever a detection run is about to send is made of a detection of the source with no time or a time not before the cutoff of the run, at or above the threshold; and no cutoff lies before the window at the start of the history. |
| WindowSafety.RunBegins | src/eset_incident_ai/application/use_cases/collect_and_notify_detections.py:86-97 | A run begins with the cutoff now - window and the token of the last log row: that of a running or a success row, none after a failure. |
| WindowSafety.RaisedRunFails | src/eset_incident_ai/application/use_cases/collect_and_notify_detections.py:56-76 | A detection run that raises leaves a failed row last, delivers nothing more, and ends. |
| SendBound.SendsAtMostLookups | src/eset_incident_ai/infrastructure/persistence/notification_repository.py:12-43 | Over every history and for every key, sends never exceed the lookups of the key completed before its first mark, across collectors, reviewers and backfill. |
| SendBound.SentAtMostOnce | src/eset_incident_ai/application/use_cases/collect_and_notify_detections.py:124-134 | At most one send of a key if, until it is delivered, nobody looks it up while another process is delivering it and no process ends between its send and its mark of it. |
| SendBound.NonOverlappingSendsOnce | src/eset_incident_ai/application/use_cases/review_pending_detection_approval.py:37-54 | At most one send of any key when processes do not overlap and none ends between send and mark. |
| SendTwice.OverlapSendsTwice | src/eset_incident_ai/application/use_cases/collect_and_notify_incidents.py:98-112 | Processes that overlap are enough: from every state, two runs send an undelivered incident key twice although no process raises or vanishes. |
| SendTwice.AbandonedSendsTwice | src/eset_incident_ai/application/use_cases/collect_and_notify_incidents.py:98-112 | A process that ends between send and mark is enough: from every state in which all have stopped, an undelivered incident key is sent twice although no process starts before all others have stopped. |
| SendTwice.CalmExactly | src/eset_incident_ai/infrastructure/persistence/notification_repository.py:12-43 | The condition of SentAtMostOnce is exact: after any history that kept it for a key, the next step keeps it if and only if no continuation that keeps it sends the key a second time. |
| ApprovalSafety.ReviewedIsFinal | src/eset_incident_ai/infrastructure/persistence/detection_approval_repository.py:20-90 | Over every history, at most one row per external id, and a reviewed status never changes, even when a save replaces the payload. |
| ApprovalSafety.ApprovedOnlyWhenDelivered | src/eset_incident_ai/application/use_cases/review_pending_detection_approval.py:32-64 | Over every history from valid tables, a row that turned approved was approved by a review whose payload was read from that row and whose key is delivered. |
| ReviewedRows.ReviewedIsNeverSent | scripts/backfill_pending_detection_approvals.py:120-178 | Once a row is reviewed and no process is on its way to sending it, no later review and no backfill pass ever sends it. |
| ReviewedRows.NeverSentExactly | src/eset_incident_ai/application/use_cases/review_pending_detection_approval.py:37-54 | That condition is exact: after any history, a reviewed row will never be sent again if and only if no process is sending it, has it looked up under an undelivered key, or is a script that has it listed with an undelivered key. |
| ReviewedRows.OverlappingRejectIsSent | src/eset_incident_ai/application/use_cases/review_pending_detection_approval.py:66-79 | It can happen without a failure: from every state without processes, a row with an undelivered key is sent after it has been rejected, with nothing but two overlapping reviews. |
| SoloRun.RunAlone | src/eset_incident_ai/application/use_cases/collect_and_notify_detections.py:78-161 | The state machine and the sequential program agree: a detection run left alone stops with exactly the tables, and the keys sent in the order, of the one-run plan. |
| SoloRun.IncidentRunAlone | src/eset_incident_ai/application/use_cases/collect_and_notify_incidents.py:75-117 | The same for incidents: a run left alone sends exactly what the incident loop sends, in that order, and marks exactly those keys. |
| SoloRun.ApproveAlone | src/eset_incident_ai/application/use_cases/review_pending_detection_approval.py:32-64 | An approval left alone turns the pending row approved, delivers its payload's key, and sends it exactly when it was not delivered before. |
| SoloRun.RejectAlone | src/eset_incident_ai/application/use_cases/review_pending_detection_approval.py:66-79 | A rejection left alone turns a pending row rejected and leaves any other as it is; it sends and delivers nothing. |
| SoloBackfill.BackfillAlone | scripts/backfill_pending_detection_approvals.py:72-178 | The script left alone, whatever listing it is given: every listed row turns approved and no other row changes; the listed keys are delivered, and those not delivered before are sent, each once, in the order of the listing. |
| SoloBackfill.FailedDeliveryIsPassedOver | scripts/backfill_pending_detection_approvals.py:151-168 | A send or a mark that raises, before or after the mark took effect, leaves its row pending, and the script still approves all the others of its listing. |
| SoloBackfill.RaisedElsewhereEnds | scripts/backfill_pending_detection_approvals.py:93-178 | A lookup or a change of status that raises ends the script where it is. |
| Recovery.Recovers | src/eset_incident_ai/application/use_cases/collect_and_notify_detections.py:78-161 | End to end: after any history from an empty log, with runs that overlapped, raised or vanished, as many undisturbed runs as there are pages deliver everything still in the window and at or above the threshold, if no page holds more in-window detections than the limit. |
| TokenCache.EsetAuthClient.constructor | src/eset_incident_ai/infrastructure/eset/auth_client.py:42-47 | A configured access token starts in the cache with its lifetime; an empty one does not. |
| TokenCache.EsetAuthClient.GetAccessToken | src/eset_incident_ai/infrastructure/eset/auth_client.py:49-76 | A call makes one request or none. Without one it returns a stored token that was valid when it was checked. With one it succeeds exactly when the answer grants a non-empty text, returns that text and stores it with the lifetime granted (3600 seconds if none is), counted from the moment of the answer; if it fails, the stored token stays. A request is made only when the stored token is absent or within 60 seconds of its expiry. |
| TokenCache.SingleFlight | src/eset_incident_ai/infrastructure/eset/auth_client.py:49-76 | Over every history of any number of callers, at most one token request is in flight. |
| TokenCache.RequestsAndReturns | src/eset_incident_ai/infrastructure/eset/auth_client.py:19-20 | Over every history, a request starts only when the stored token is absent or within 60 seconds of its expiry; each token returned was valid when checked or just installed by that caller. |
| TokenCache.InstallsAreAnswers | src/eset_incident_ai/infrastructure/eset/auth_client.py:49-76 | Over every history, every token installed is the text of an answer of the history and expires the granted lifetime after it, and the token stored is the last one installed, or the first one. |
| TokenCache.ReturnsWhatWasStored | src/eset_incident_ai/infrastructure/eset/auth_client.py:49-76 | Over every history, every token returned is the configured one or one that was installed. |
| TokenCache.CallerAlone | src/eset_incident_ai/infrastructure/eset/auth_client.py:49-76 | A caller with nobody inside, after any time: it returns the stored token if that is more than 60 seconds from its expiry; otherwise it requests, and stores and returns what is granted, or leaves the old token. |
| TokenCache.SecondCallerReuses | src/eset_incident_ai/infrastructure/eset/auth_client.py:53-55 | A caller that waited while another requested returns the token installed meanwhile and makes no request, if its lifetime is more than 60 seconds. |
| TokenCache.InstallsInWindow | src/eset_incident_ai/infrastructure/eset/auth_client.py:49-76 | With lifetimes of at least L > 60, a window of W seconds sees at most 1 + W / (L - 60) installs. |
| Vectors.CauchySchwarz | src/eset_incident_ai/infrastructure/persistence/vector_repository.py:164-172 | The square of the dot product is at most the product of the squared norms, for all vectors of equal length. |
| Vectors.ScoreInUnitInterval | src/eset_incident_ai/infrastructure/persistence/vector_repository.py:124-172 | The similarity of any two vectors lies in [0, 1], so clamping it changes nothing. |
| Vectors.SelfSimilarity | src/eset_incident_ai/infrastructure/persistence/vector_repository.py:164-172 | A nonzero vector has similarity 1 to itself. |
| Vectors.SimilarityExactly | src/eset_incident_ai/infrastructure/persistence/vector_repository.py:164-172 | The similarity of two nonzero vectors of equal length is the one number s with (2 s - 1) times the product of their norms equal to their dot product; all other pairs score 0. |
| Vectors.DotSnoc | src/eset_incident_ai/infrastructure/persistence/vector_repository.py:164-172 | The dot product is the sum of the products of the components. |
| Vectors.HigherDotScoresHigher | src/eset_incident_ai/infrastructure/persistence/vector_repository.py:164-172 | Of two vectors of equal norm, the one with the higher dot product with the query scores higher. |
| Vectors.OrthogonalScoresHalf | src/eset_incident_ai/infrastructure/persistence/vector_repository.py:164-172 | Nonzero vectors score 0.5 exactly when they are orthogonal. |
| Vectors.OppositeScoresZero | src/eset_incident_ai/infrastructure/persistence/vector_repository.py:164-172 | A nonzero vector and its opposite score 0. |
| Embedder.EmbedOne | src/eset_incident_ai/infrastructure/embeddings/local_embedder.py:18-26 | The token loop over the array and the normalisation return the embedding; it raises exactly with no slots and some token. |
| Embedder.SlotSumCounts | src/eset_incident_ai/infrastructure/embeddings/local_embedder.py:20-23 | Before normalising, a slot holds the number of tokens hashed to it with a positive sign less the number with a negative one. |
| Embedder.SlotIsRemainder | src/eset_incident_ai/infrastructure/embeddings/local_embedder.py:20-23 | The slot of a token is the remainder of its hash number by the number of slots. |
| Embedder.EmbeddingDirection | src/eset_incident_ai/infrastructure/embeddings/local_embedder.py:24-26 | Each component of the embedding times the norm of the slot sums is that slot sum; without a norm it is the slot sum. |
| Embedder.EmbeddingPermuted | src/eset_incident_ai/infrastructure/embeddings/local_embedder.py:18-26 | The embedding depends only on the multiset of the tokens. |
| Embedder.UnitOrZero | src/eset_incident_ai/infrastructure/embeddings/local_embedder.py:24-26 | The vector returned is zero, exactly when the slots are, or has squared norm exactly 1. |
| Embedder.SameTokensScoreHighest | src/eset_incident_ai/infrastructure/persistence/vector_repository.py:111-129 | A text whose tokens are a permutation of the query's scores 1 whenever the query's embedding is nonzero, and nothing scores higher. |
| Ranking.StableDescendingExactlyRanked | src/eset_incident_ai/infrastructure/persistence/vector_repository.py:116 | There is exactly one arrangement of all rows in descending score with ties in row order, and it is the one used for the sort. |
| Ranking.Search | src/eset_incident_ai/infrastructure/persistence/vector_repository.py:94-129 | The k-th result shows, field by field, the k-th row of the stable descending order of the scores, cut by the slice at `limit`, with its first 1000 characters as excerpt and the score itself as relevance. A score is any number in [0, 1] that satisfies the law of SimilarityExactly for its row. |
| Ranking.EmbeddedExactly | src/eset_incident_ai/infrastructure/persistence/vector_repository.py:100-117 | Exactly the rows with an embedding are ranked. |
| Ranking.EmbeddedKeepsOrder | src/eset_incident_ai/infrastructure/persistence/vector_repository.py:100-117 | Leaving out rows without an embedding moves no other row. |
| Ranking.TopK | src/eset_incident_ai/infrastructure/persistence/vector_repository.py:116-129 | The first min(limit, rows) rows are kept (a negative limit drops as many from the end); everything kept comes before everything left out: no higher score is left out and ties go to earlier rows. |
| Ranking.RerankIdentity | src/eset_incident_ai/rag/reranker.py:6-8 | Reranking changes nothing exactly when the evidence is in descending order already. |
| Ranking.SearchThenRerank | src/eset_incident_ai/rag/reranker.py:6-8 | Reranking what a search returned changes nothing, for any limit. |
| Ranking.PermutedChunkOnTop | src/eset_incident_ai/infrastructure/persistence/vector_repository.py:111-129 | A stored chunk with the query's tokens scores 1, and whatever is ranked before it scores 1 too and is an earlier row. |
| Chunker.MakeChunker | src/eset_incident_ai/rag/chunker.py:5-9 | Exactly the overlaps smaller than the maximum are accepted, and both arguments are kept. |
| Chunker.TextChunker.Chunk | src/eset_incident_ai/rag/chunker.py:11-22 | The while loop terminates and computes the recursive chunking, for all arguments the constructor accepts, negative ones included. |
| Chunker.Lengths | src/eset_incident_ai/rag/chunker.py:16-21 | For 0 <= overlap < max every chunk but the last has length max, and with several chunks the last is longer than the overlap. |
| Chunker.RoundTrip | src/eset_incident_ai/rag/chunker.py:11-22 | The first chunk and the others without their first overlap characters rebuild the text. |
| Chunker.NeighboursOverlap | src/eset_incident_ai/rag/chunker.py:17-21 | Each chunk ends with the overlap characters the next one starts with. |
| Chunker.Count | src/eset_incident_ai/rag/chunker.py:11-22 | n > max characters give exactly 1 + ceil((n - max) / (max - overlap)) chunks, n <= max one, none none. |
| Chunker.BuildChunks | src/eset_incident_ai/rag/indexer.py:21-30 | One record for each chunk, in order, with indices counting from 0 and the document's source id and metadata. |
| Chunker.RecordsDetermineContent | src/eset_incident_ai/rag/indexer.py:21-30 | Two documents with the same records have the same content. |
| IndexStore.KnowledgeStore.IndexDocument | src/eset_incident_ai/infrastructure/persistence/vector_repository.py:24-92 | One call is one update of the map from (source type, source id, content hash) to entries, or an error that leaves the tables untouched; the tables represent the map before and after, with no chunk row that belongs to no entry. After an accepted call the document row has the document's fields and the id type:id:hash; chunk i is stored under its index with its content, its metadata and embedding i, and nothing else under the id; all other documents and chunks are as they were. |
| IndexStore.InsertChunks | src/eset_incident_ai/infrastructure/persistence/vector_repository.py:64-92 | Deleting and inserting leaves exactly the given rows for the document and everything else as it was; it fails exactly when an index repeats. |
| IndexStore.ReplayIsLatest | src/eset_incident_ai/infrastructure/persistence/vector_repository.py:31-92 | After any sequence of calls fed by build_chunks, with source types without colons, each triple holds exactly the rows of its last call, and other triples are untouched. |
| IndexStore.AcceptedCall | src/eset_incident_ai/infrastructure/persistence/vector_repository.py:37-92 | Such a call is never refused: no uniqueness constraint is violated. |
| IndexStore.RepeatChangesNothing | src/eset_incident_ai/infrastructure/persistence/vector_repository.py:24-92 | Repeating any call gives the same answer and changes nothing. |
| IndexStore.RepresentationUnique | src/eset_incident_ai/infrastructure/persistence/vector_repository.py:64-92 | The map determines both tables, so nothing can be left over from an earlier, longer chunking. |
| IndexStore.IdSharedExactly | src/eset_incident_ai/infrastructure/persistence/vector_repository.py:37-42 | A different document with the same id exists exactly when the source type or the source id holds a colon. |
| IndexStore.SharedIdRefused | src/eset_incident_ai/infrastructure/persistence/vector_repository.py:44-63 | A store that holds the other document refuses the new one without any change. |
| IndexStore.Ingest | scripts/ingest_knowledge.py:28-50 | Over a whole ingestion every document with text is indexed, none is refused, and the count is right; every chunk row written holds the embedding of its own content. |
| IndexStore.IngestedRows | scripts/ingest_knowledge.py:28-50 | After an ingestion, the entry of each document with text that no later one replaces has its fields and holds exactly its chunks, in order, each with the document's metadata and the embedding of its own text. |

## Left out

- The analysis of an incident inside the collectors and the script: an exception there is caught, and it changes only the text of a message.
- Writing approvals during collection: the collectors hold an approval repository but never call it, so a save is a step of the environment.
- HTTP, retries, SQL, queues, routes, settings and migrations: the tables are sequences, sets and maps; column widths and the text encoding of embeddings are not modelled.
- Parsing of severities, times and replies: a detection comes with its parsed severity and its optional time.
- Layout and shortening of messages.
- The regular expressions of the sanitizer and of the tokenizer, and the nested context lookups for user and device names: parameters.
- The order of `observed_keys` in a result: kept as a set.
- The run log of the incident collector in the state machine: it feeds back into nothing. It is part of the class.
- `iter_detections`: it has no caller among the use cases; the use case pages by itself.
- Approvals.ApprovalRepository.ListPending: a negative limit, which the database refuses, is not modelled; ties in update time come in any order.
- Vectors.ScoreInUnitInterval: exact reals; floating-point rounding, which the clamp guards against, is not modelled.
- Embedder.EmbedOne: exact reals, and a number of slots that is not negative.
- Repositories.DetectionRunRepository.Latest: two rows created at the same instant, or committed out of order, are not modelled.
- Payloads.KeyAgreementExact: not for identities with a colon, where two different pairs of identity and version can share a key.
- The agent graph, the risk and confidence services and the output policy: single branches and constants.
