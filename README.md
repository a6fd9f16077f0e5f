# Watchmegym API core, modelled in Dafny

The Watchmegym API is the REST backend of a gym. This project models the parts of it that hold real logic and proves properties of them:

- **Live-stream recording.** The service validates a request (camera, stream address, duration). It captures the stream with an ffmpeg process driven by a small event controller (start, duration timer, grace timer, `end`, `error`). It uploads the file to the storage tier chosen from configuration (Supabase, S3 or a local directory), then creates the record and removes the temporary file. A batch endpoint runs several recordings and splits their settled results into successes and failures.
- **Storage naming.** A user or camera name is normalised into a path segment: lower case, accents stripped, non-alphanumerics turned into `-`, runs collapsed, ends trimmed. The scan-face video service builds storage paths the same way. It also recovers a storage path from a public address before deleting the object.
- **Billing.**
  - Subscriptions are created, cancelled, reactivated and expired, with due dates per billing cycle. `Date` rolls a day past the end of a month forward.
  - Payment status changes activate or suspend the linked subscription.
  - An overdue sweep marks payments OVERDUE and suspends their subscriptions.
  - The repository queries define "expired", "overdue", "pending" and "paid".
- **Tables with invariants.**
  - Plans: unique names, soft and hard delete, status toggle.
  - Training-exercise links: unique (training, exercise) pairs.
  - Bioimpedance measurements: a body-composition machine uploads a batch of readings. Each reading is mapped column by column, linked to a system user when one is found, and upserted by (user, measure time).
- **Authentication middleware and user errors.** A bearer-token header is classified into 401 answers or a verified user. A database unique-constraint violation is translated into a message naming the clashing field.

The database, the storage services, the ffmpeg process, timers and clocks are not modelled as code. Their effects are parameters:
- lookup results;
- upload outcomes;
- the sequence of process events;
- "now";
- the token verifier.

Tables are sequences of rows with distinct ids handed out by a counter. The creation order is the id order.

## Model

| member | source | states |
|---|---|---|
| RecordingCapture.ClassifyIgnoresCase | src/services/RecordingService.js:86-87 | The transport is detected on the lower-cased address, so the letter case of the scheme does not matter |
| RecordingCapture.InputOptionsByScheme | src/services/RecordingService.js:86-113 | `rtsp://` gets the TCP/analyse/probe input options; `http://` or `https://` gets the wall-clock option; any other scheme gets none and is still captured |
| RecordingCapture.StepFacts | src/services/RecordingService.js:133-203 | What each event does:<br>- the timer acts only while the capture has not ended; it then writes 'q', or sends SIGTERM when the write throws;<br>- the grace timer sends SIGTERM unless the process is already killed;<br>- `end` always resolves with the output path;<br>- `error`, in the corrected handler of the Findings section, ends the capture and resolves on a SIGTERM or "Exiting normally" message and rejects otherwise |
| RecordingCapture.SettledIsFinal | src/services/RecordingService.js:171-203 | Once the promise is settled, no later event changes the settlement |
| RecordingCapture.EndedIsFinal | src/services/RecordingService.js:134-187 | `hasEnded` is never reset once set |
| RecordingCapture.StepReachable | src/services/RecordingService.js:133-203 | Every step keeps the controller invariant: settled implies ended; an armed grace timer implies ended; at most one 'q', written only after the end |
| RecordingCapture.QuitAtMostOnce | src/services/RecordingService.js:133-162 | Along any event sequence, the quit command is written at most once |
| RecordingCapture.CaptureJob.constructor | src/services/RecordingService.js:90-94 | A fresh controller: not ended, no timer, nothing sent, promise pending |
| RecordingCapture.CaptureJob.OnStart | src/services/RecordingService.js:127-133 | The 'start' handler arms the duration timer; the new state is Step on Started |
| RecordingCapture.CaptureJob.OnDurationTimer | src/services/RecordingService.js:133-162 | The duration-timer handler updates the shared variables exactly as Step prescribes |
| RecordingCapture.CaptureJob.OnGraceTimer | src/services/RecordingService.js:143-151 | The follow-up timer's handler sends SIGTERM unless the process is killed, as Step prescribes |
| RecordingCapture.CaptureJob.OnEnd | src/services/RecordingService.js:171-184 | The 'end' handler, as Step prescribes |
| RecordingCapture.CaptureJob.OnError | src/services/RecordingService.js:185-203 | The 'error' handler with the correction described under Findings, as Step prescribes |
| RecordingCapture.CaptureJob.Handle | src/services/RecordingService.js:127-203 | Dispatching an event to its handler moves the state by Step, whose `error` case is the corrected handler |
| RecordingCapture.Capture | src/services/RecordingService.js:83-207 | captureRTSPStream:<br>- the command carries the stream's input options, the video filter, the output options and the output path;<br>- its settlement and signals are those of running the events through the controller with the corrected `error` handler;<br>- at most one quit command is sent;<br>- a resolution carries the output path |
| RecordingCapture.ResolvedPathIsOutput | src/services/RecordingService.js:176-192 | Every resolution of the capture yields the output path it was given |
| RecordingCapture.AsWrittenAgrees | src/services/RecordingService.js:185-203 | The written and the corrected handlers differ only on an error after the end, which the written one ignores |
| RecordingCapture.ForcedStopNeverSettles | src/services/RecordingService.js:133-186 | As written, a process that ignores 'q', is killed 2 s later and reports the kill leaves the promise pending for ever |
| RecordingCapture.ForcedStopSettles | src/services/RecordingService.js:185-192 | With the corrected handler, the same run resolves with the output path |
| RecordingCapture.ExitSettles | src/services/RecordingService.js:171-203 | With the corrected handler, every run that ends with the process exiting (`end` or `error`) is settled, and an earlier settlement stands |
| Naming.ReplaceNonAlnum | src/services/RecordingService.js:257 | Every character outside [a-z0-9] becomes '-', the others stay, and the length is kept |
| Naming.CollapseNoDouble | src/services/RecordingService.js:258 | After collapsing runs of '-', no "--" remains |
| Naming.CollapseKeepsChars | src/services/RecordingService.js:258 | Collapsing introduces no character outside [a-z0-9-] |
| Naming.CollapseFixed | src/services/RecordingService.js:258 | A string without "--" is left unchanged by the collapse |
| Naming.TrimSlug | src/services/RecordingService.js:259 | Trimming one '-' at each end of a collapsed string gives a slug |
| Naming.NormalizeIsSlug | src/services/RecordingService.js:253-259 | The normalised name contains only [a-z0-9-], has no "--", and neither starts nor ends with '-' |
| Naming.SlugIsFixedPoint | src/services/RecordingService.js:253-259 | A slug is left exactly as it is by the normaliser |
| Naming.FixedPointIffSlug | src/services/RecordingService.js:253-259 | A string is a fixed point of the normaliser exactly when it is a slug |
| Naming.NormalizeIdempotent | src/services/RecordingService.js:253-259 | Normalising twice is normalising once |
| Naming.DisplayName | src/services/RecordingService.js:246-279 | The path segment for a lookup is always a slug, and 'unknown' when there is no usable name |
| Naming.DisplayNameCases | src/services/RecordingService.js:246-279 | A failed lookup, a missing row and a missing or empty name give 'unknown'; a real name gives its normalisation, even when that is empty |
| RecordingStorage.Upload | src/services/RecordingService.js:212-236 | The upload succeeds exactly when the tier chosen from configuration succeeds; every failure carries the 'Erro ao fazer upload do arquivo: ' prefix |
| RecordingStorage.NoFallback | src/services/RecordingService.js:212-236 | The result depends only on the chosen tier's outcome: no other tier is tried |
| RecordingStorage.FailureIsFinal | src/services/RecordingService.js:212-236 | A failure of the chosen tier is reported even when every other tier would succeed |
| RecordingStorage.TierPriority | src/services/RecordingService.js:214-226 | Supabase iff its address and key are set; otherwise S3 iff its bucket and key id are set; otherwise local |
| RecordingStorage.SupabasePathSegments | src/services/RecordingService.js:280-290 | The Supabase object path has exactly four segments: date, normalised user, normalised camera, file name |
| RecordingStorage.UrlsEndInFilename | src/services/RecordingService.js:332-358 | The S3 address is on the bucket's host and the local one defaults to `http://localhost:3000/recordings/`; both end in the file name |
| RecordingService.RecordFromRtsp | src/services/RecordingService.js:33-78 | recordFromRTSP step by step produces the trace of one recording over the corrected capture: checks, capture, upload, record creation, cleanup |
| RecordingService.ValidationOrder | src/services/RecordingService.js:36-48 | A missing camera, then an empty stream address, then an out-of-range duration are refused in that order with their messages, and nothing is captured, uploaded or created |
| RecordingService.DurationsThatPass | src/services/RecordingService.js:46 | The range check passes exactly the numbers in [1, 300], fractions included, and NaN |
| RecordingService.SuccessOrder | src/services/RecordingService.js:51-73 | On success the effects are exactly capture, upload, record creation with the stored address, then temp cleanup |
| RecordingService.FailureKeepsTemp | src/services/RecordingService.js:57-77 | A failing recording creates no record and removes no temporary file, and its error is passed on unchanged |
| RecordingService.CaptureRejections | src/services/RecordingService.js:196 | A capture rejection always carries the 'Erro ao gravar stream: ' prefix |
| RecordingService.StallsOnlyInCapture | src/services/RecordingService.js:57 | A recording hangs exactly when it passes validation and the capture, run with the corrected `error` handler, never settles |
| RecordingService.RecordMultipleCameras | src/services/RecordingService.js:378-384 | Element i of the batch result is the settled outcome of request i alone (recorded with the corrected capture), and the batch has the input's length |
| RecordingController.StartRecording | src/controllers/RecordingController.js:8-29 | 201 with the record exactly on success; otherwise 400 with the error's message or the default text |
| RecordingController.PartitionConcat | src/controllers/RecordingController.js:37-43 | The successful and failed lists distribute over concatenation, so both keep input order |
| RecordingController.PartitionCounts | src/controllers/RecordingController.js:37-38 | Every settled result lands in exactly one list; the counts add up to the batch size |
| RecordingController.PartitionMembers | src/controllers/RecordingController.js:37-43 | A record is listed as successful iff some result fulfilled with it; a message is listed as failed iff some result was rejected with it |
| RecordingController.BatchMessageInjective | src/controllers/RecordingController.js:41 | The batch message determines both counts: different counts give different messages |
| RecordingController.StartMultipleRecordings | src/controllers/RecordingController.js:31-55 | 201 with the message and both lists whenever the batch call returns; 400 only when it throws |
| RecordingController.AllFailedStillCreated | src/controllers/RecordingController.js:36-49 | A batch in which every recording failed still answers 201 and lists every failure |
| RecordingController.GetRecordingStatus | src/controllers/RecordingController.js:57-85 | 404 iff the record is missing, 500 iff the lookup throws, otherwise 200 with status 'completed' |
| RecordingSchema.SchemaWithinService | src/schemas/recording.schema.js:13-17 | Every schema-valid duration passes the service check; 1.5 and NaN pass the service but not the schema |
| RecordingSchema.ValidBatchPassesService | src/schemas/recording.schema.js:21-24 | Every element of a valid batch (1 to 10 valid recordings) passes the service's duration check |
| ScanFaceVideo.UploadVideo | src/services/UserScanFaceVideoService.js:13-77 | Succeeds iff Supabase is configured and the store accepts the file; every failure, including no configuration, carries the upload prefix |
| ScanFaceVideo.IndexOf | src/services/UserScanFaceVideoService.js:96 | `parts.indexOf(x)`: the first position holding x, or -1 exactly when x is absent |
| ScanFaceVideo.ExtractWithoutBucket | src/services/UserScanFaceVideoService.js:96-98 | Without a segment equal to the bucket, the whole address is taken as the path |
| ScanFaceVideo.DeletionTarget | src/services/UserScanFaceVideoService.js:79-111 | Nothing is removed exactly when Supabase is unconfigured or no segment contains 'storage'; it never fails |
| ScanFaceVideo.ExtractRoundTrip | src/services/UserScanFaceVideoService.js:87-98 | For `prefix/bucket/path` with no bucket segment in the prefix, the extracted path is `path` |
| ScanFaceVideo.DeleteFindsPublicObject | src/services/UserScanFaceVideoService.js:79-111 | A public object address leads the deletion back to that object's path |
| ScanFaceVideo.DeleteFindsUploadedObject | src/services/UserScanFaceVideoService.js:13-111 | Deleting by the address an upload returned removes the object that was uploaded |
| ScanFaceVideo.CreateUrl | src/services/UserScanFaceVideoService.js:115-150 | A missing user is refused; an uploaded file's address overrides the given one; an empty final address is an error |
| ScanFaceVideo.ScanFaceVideos.DeleteFromStorage | src/services/UserScanFaceVideoService.js:79-113 | The bucket loses exactly the object the address leads to, unless the removal is skipped or fails |
| ScanFaceVideo.ScanFaceVideos.Create | src/services/UserScanFaceVideoService.js:115-150 | create stores exactly `{userId, videoUrl}` with the next id, or fails as CreateUrl says and changes nothing |
| ScanFaceVideo.ScanFaceVideos.Update | src/services/UserScanFaceVideoService.js:204-239 | A missing video is refused; a new file first deletes the old object; the stored address is the new one, else the existing one |
| ScanFaceVideo.ScanFaceVideos.Delete | src/services/UserScanFaceVideoService.js:241-260 | A missing video is refused; otherwise its object is removed when it has an address, and only its row is deleted |
| SupabaseStorage.PublicRouteSegments | src/services/UserScanFaceVideoService.js:86-87 | The public-object route splits into the segments the deletion looks for, one of which contains 'storage' |
| Dates.StampOrder | src/services/SubscriptionService.js:190-217 | On valid dates, calendar order coincides with timestamp order |
| Dates.Roll | src/services/SubscriptionService.js:195-213 | Normalising a day past the month's end rolls it forward into a valid date |
| Dates.RollDayNumber | src/services/SubscriptionService.js:195-213 | Rolling keeps the day count: the result is d - 1 days after the first of the month |
| Dates.JsDate.SetDate | src/services/SubscriptionService.js:197-200 | `setDate(n)` sets day n of the month, rolled forward |
| Dates.JsDate.SetMonth | src/services/SubscriptionService.js:203-210 | `setMonth(n)` carries months past December into the year and rolls the day |
| Dates.JsDate.SetFullYear | src/services/SubscriptionService.js:212 | `setFullYear(y)` moves the year and rolls 29 February forward |
| Dates.CalculateNextDueDate | src/services/SubscriptionService.js:190-217 | Works on a copy; the result is NextDueDate(start, cycle), a valid date |
| Dates.EndDate | src/services/SubscriptionService.js:219-221 | calculateEndDate is calculateNextDueDate |
| Dates.DayCycleDue | src/services/SubscriptionService.js:195-200 | WEEKLY and BIWEEKLY move the day count by exactly 7 and 14 |
| Dates.MonthCycleDue | src/services/SubscriptionService.js:201-216 | MONTHLY, QUARTERLY, SEMIANNUALLY, YEARLY and any unknown cycle add 1, 3, 6, 12 and 1 months |
| Dates.MonthsLater | src/services/SubscriptionService.js:203-212 | k months later is the same day of the target month, rolled forward if that month is shorter, and strictly later |
| Dates.YearIsTwelveMonths | src/services/SubscriptionService.js:211-212 | `setFullYear(year + 1)` equals `setMonth(month + 12)` |
| Dates.NextDueDateIsLater | src/services/SubscriptionService.js:190-217 | Every cycle puts the due date strictly after the start |
| Dates.MonthlyRollsOver | src/services/SubscriptionService.js:203-204 | 31 January + 1 month is 3 March; 29 February 2024 + 1 year is 1 March 2025 |
| SubscriptionRepository.SatisfiesByColumn | src/repositories/SubscriptionRepository.js:20-67 | A `where` object holds for a row iff every listed column meets its condition |
| SubscriptionRepository.FindAllWhere | src/repositories/SubscriptionRepository.js:20-48 | The `where` filled field by field selects exactly the rows matching every given filter, with the dates as inclusive bounds |
| SubscriptionRepository.FindAll | src/repositories/SubscriptionRepository.js:20-67 | Exactly the matching rows, as a permutation of the filtered table, newest first |
| SubscriptionRepository.CountWhere | src/repositories/SubscriptionRepository.js:171-180 | count's `where` constrains only status and userId |
| SubscriptionRepository.Count | src/repositories/SubscriptionRepository.js:171-180 | The number of rows with the given status and user, whatever the other filters say |
| SubscriptionRepository.FindExpired | src/repositories/SubscriptionRepository.js:182-195 | Exactly the ACTIVE rows whose end date is not after now |
| SubscriptionRepository.FindActiveByUserId | src/repositories/SubscriptionRepository.js:122-135 | None iff the user has no ACTIVE row; otherwise the user's most recently created ACTIVE row |
| SubscriptionRepository.LatestPayments | src/repositories/SubscriptionRepository.js:104-120 | At most five of the subscription's payments, latest due first |
| SubscriptionRepository.LatestPaymentsAreLatest | src/repositories/SubscriptionRepository.js:104-120 | min(5, n) payments are included, and none left out is due later than one included |
| SubscriptionRepository.FindByUserId | src/repositories/SubscriptionRepository.js:104-120 | Exactly the user's subscriptions, newest first, each with its latest payments |
| SubscriptionRepository.CanceledRow | src/repositories/SubscriptionRepository.js:154-163 | CANCELED, canceled now, no renewal, and no other field changed |
| SubscriptionRepository.Cancel | src/repositories/SubscriptionRepository.js:154-163 | The row becomes CanceledRow; every other row and table is unchanged |
| SubscriptionService.NewSubscriptionShape | src/services/SubscriptionService.js:38-68 | The new subscription is ACTIVE, ends on its next due date, defaults the payment method to the plan's billing type and renewal to true; its first payment is PENDING, for the plan's price, due then |
| SubscriptionService.OneActiveAppend | src/services/SubscriptionService.js:32-36 | Adding an ACTIVE row for a user with none keeps one ACTIVE subscription per user |
| SubscriptionService.Create | src/services/SubscriptionService.js:13-77 | Checks the user, the plan, that the plan is active and that the user has no ACTIVE subscription, in that order with distinct errors; then adds the subscription and one PENDING payment; one ACTIVE subscription per user is kept |
| SubscriptionService.Admit | src/services/SubscriptionService.js:17-36 | The four checks in order with their distinct errors: unknown user, unknown plan, inactive plan, an ACTIVE subscription already held; success yields the plan and implies that the user exists, the plan is active and the user holds no ACTIVE row |
| SubscriptionService.Draft | src/services/SubscriptionService.js:38-53 | The row written is the specified new subscription: start from the request or now, end and next due date one billing cycle later, payment method and auto-renew defaulted from the plan and to true |
| SubscriptionService.Open | src/services/SubscriptionService.js:38-68 | Appends exactly that subscription, then exactly its first payment (next id), leaving users and plans alone and the store's invariant intact |
| SubscriptionService.Cancel | src/services/SubscriptionService.js:123-137 | A missing or already CANCELED subscription is refused; any other is cancelled by the repository |
| SubscriptionService.ReactivatedRowShape | src/services/SubscriptionService.js:147-157 | The reactivated row is ACTIVE, not cancelled, starts now and ends one cycle later; it keeps its id, user, plan, payment method and renewal flag |
| SubscriptionService.CancelThenReactivateKeepsRenewalOff | src/services/SubscriptionService.js:147-157 | Cancel clears `autoRenew` and reactivation does not restore it |
| SubscriptionService.ReactivateMayDuplicateActive | src/services/SubscriptionService.js:139-161 | Reactivation does not check for another ACTIVE subscription of the user, so two can coexist |
| SubscriptionService.Reactivate | src/services/SubscriptionService.js:139-161 | Only CANCELED or SUSPENDED come back, as ReactivatedRow with the plan's cycle; the others are refused unchanged |
| SubscriptionService.ExpireAllClears | src/services/SubscriptionService.js:177-187 | After the sweep nothing is expired any more, only statuses change, and sweeping again changes nothing |
| SubscriptionService.ExpireListedAll | src/services/SubscriptionService.js:177-187 | Expiring every row findExpired lists, one at a time, is the whole sweep |
| SubscriptionService.CheckExpired | src/services/SubscriptionService.js:177-187 | Every expired subscription becomes EXPIRED, every other row is unchanged, and the count returned is the number expired |
| PaymentRepository.SatisfiesByColumn | src/repositories/PaymentRepository.js:24-78 | A `where` object holds for a row iff every listed column meets its condition |
| PaymentRepository.FindAllWhere | src/repositories/PaymentRepository.js:24-64 | The `where` selects exactly the rows matching every given filter, with one inclusive dueDate range |
| PaymentRepository.FindAll | src/repositories/PaymentRepository.js:24-78 | Exactly the matching payments, as a permutation of the filtered table, latest due date first |
| PaymentRepository.CountWhere | src/repositories/PaymentRepository.js:207-216 | count's `where` constrains only status and userId |
| PaymentRepository.Count | src/repositories/PaymentRepository.js:207-216 | The number of payments with the given status and user |
| PaymentRepository.FindPendingByUserId | src/repositories/PaymentRepository.js:142-159 | Exactly the user's PENDING payments, each as often as in the table (a permutation of that filter), earliest due date first |
| PaymentRepository.FindOverdue | src/repositories/PaymentRepository.js:161-178 | Exactly the PENDING payments due strictly before now |
| PaymentRepository.SumByUser | src/repositories/PaymentRepository.js:218-231 | 0 when the user has no RECEIVED or CONFIRMED payment |
| PaymentRepository.SumByUserConcat | src/repositories/PaymentRepository.js:218-231 | The total is additive over the table |
| PaymentRepository.SumByUserNonNegative | src/repositories/PaymentRepository.js:218-231 | With non-negative amounts the paid total is never negative |
| PaymentRepository.SumByUserUpdate | src/repositories/PaymentRepository.js:218-231 | Rewriting one payment changes the total by that payment's old and new contribution |
| PaymentService.Create | src/services/PaymentService.js:11-44 | Refused for a missing user, or a missing subscription when one is named; otherwise exactly one payment is appended |
| PaymentService.GetById | src/services/PaymentService.js:55-63 | The payment with that id, or 'Pagamento não encontrado' exactly when there is none |
| PaymentService.Applied | src/services/PaymentService.js:87-90 | Each given field replaces the stored one, and the others are kept |
| PaymentService.ActivateEffect | src/services/PaymentService.js:161-168 | An existing non-ACTIVE subscription becomes ACTIVE; an ACTIVE or missing one is unchanged; idempotent |
| PaymentService.SuspendEffect | src/services/PaymentService.js:170-177 | Only ACTIVE becomes SUSPENDED; every other status is unchanged; idempotent |
| PaymentService.TriggersExclusive | src/services/PaymentService.js:92-108 | One update never both activates and suspends |
| PaymentService.NoTriggerWithoutChange | src/services/PaymentService.js:94-104 | Re-sending a held status, or RECEIVED to CONFIRMED, triggers nothing |
| PaymentService.Update | src/services/PaymentService.js:77-111 | A missing payment is refused; otherwise the row is rewritten; entering RECEIVED/CONFIRMED activates and entering OVERDUE suspends the linked subscription |
| PaymentService.ActivateSubscription | src/services/PaymentService.js:161-168 | The store's subscriptions become AfterActivate; everything else is unchanged |
| PaymentService.SuspendSubscription | src/services/PaymentService.js:170-177 | The store's subscriptions become AfterSuspend; everything else is unchanged |
| PaymentService.MarkAsPaid | src/services/PaymentService.js:122-127 | The same as update with status RECEIVED and the payment date |
| PaymentService.MarkAsOverdue | src/services/PaymentService.js:129-133 | The same as update with status OVERDUE |
| PaymentService.MarkAsPaidEffect | src/services/PaymentService.js:92-127 | Marking an unpaid payment paid sets RECEIVED and the date, raises its user's paid total by exactly its amount, and leaves its existing subscription ACTIVE |
| PaymentService.MarkAsOverdueEffect | src/services/PaymentService.js:102-133 | Marking a payment that is not yet OVERDUE sets OVERDUE, and its linked subscription is SUSPENDED if it was ACTIVE and otherwise unchanged |
| PaymentService.Delete | src/services/PaymentService.js:113-120 | A missing payment is refused; otherwise exactly that row is removed |
| PaymentService.CheckOverdueClears | src/services/PaymentService.js:143-158 | After the sweep nothing is overdue; payments change only in status; no subscription with an overdue payment is still ACTIVE, and none becomes ACTIVE |
| PaymentService.ListedAll | src/services/PaymentService.js:143-158 | Processing every payment findOverdue lists, one at a time, is the sweep on both tables |
| PaymentService.CheckOverdue | src/services/PaymentService.js:143-158 | Every overdue payment becomes OVERDUE, its ACTIVE subscription SUSPENDED, and the count returned is the number overdue |
| PlanService.Create | src/services/PlanService.js:5-17 | Refused iff the name is in use; otherwise the plan with the schema defaults is added |
| PlanService.GetById | src/services/PlanService.js:29-37 | The plan, or 'Plano não encontrado' exactly when there is none |
| PlanService.Updated | src/services/PlanService.js:61-62 | Each given field (name, description, price, billing type, cycle, active) replaces the stored one; the id and every field not given stay |
| PlanService.Update | src/services/PlanService.js:43-63 | A missing plan is refused; the name is checked only when a different non-empty name is given |
| PlanService.SameNameNotChecked | src/services/PlanService.js:53 | Re-sending the plan's own name is never refused as taken |
| PlanService.Delete | src/services/PlanService.js:65-79 | Refused while an ACTIVE subscription uses the plan; otherwise only `active` becomes false |
| PlanService.HardDelete | src/services/PlanService.js:81-95 | Refused while any subscription uses the plan; otherwise the plan is removed |
| PlanService.HardDeleteGuardIsStricter | src/services/PlanService.js:72-94 | Whatever blocks the soft delete blocks the hard delete, and a CANCELED subscription blocks only the hard delete |
| PlanService.ToggleTwice | src/services/PlanService.js:97-104 | Toggling flips only that plan's flag, and toggling twice restores the table |
| PlanService.ToggleStatus | src/services/PlanService.js:97-104 | A missing plan is refused; otherwise the table becomes Toggled |
| TrainingExercise.PairIndex | src/services/TrainingExerciseService.js:26-27 | The first row holding the pair, or -1 exactly when none does |
| TrainingExercise.PairsUniqueAppend | src/services/TrainingExerciseService.js:26-35 | Appending a row with an unused pair keeps pairs unique |
| TrainingExercise.PairsUniqueSet | src/services/TrainingExerciseService.js:124-137 | Rewriting a row with a pair no other row holds keeps pairs unique |
| TrainingExercise.PairsUniqueRemove | src/services/TrainingExerciseService.js:146-160 | Removing a row keeps pairs unique |
| TrainingExercise.Create | src/services/TrainingExerciseService.js:8-42 | The training, then the exercise must exist, then the pair must be free; only then is one row added; pair uniqueness is kept |
| TrainingExercise.FindById | src/services/TrainingExerciseService.js:53-64 | The row, or the not-found message exactly when there is none |
| TrainingExercise.Update | src/services/TrainingExerciseService.js:96-144 | A missing row is refused; the target pair is each given id or the current one; only a different row holding it blocks; with neither id given there is no check; uniqueness is kept |
| TrainingExercise.UpdateKeepsPairsUnique | src/services/TrainingExerciseService.js:124-137 | Re-saving a row's own pair is never a clash, and an accepted update keeps pairs unique |
| TrainingExercise.Delete | src/services/TrainingExerciseService.js:146-160 | A missing row fails with 'Exercício de treino não encontrado'; otherwise only that row is removed |
| BioimpedanceRepository.AllFieldsComplete | src/services/BioimpedanceService.js:141-248 | The column list covers every column of the model |
| BioimpedanceRepository.Store.Create | src/repositories/BioimpedanceRepository.js:5-14 | Appends exactly the given row with the next id |
| BioimpedanceRepository.Store.Update | src/repositories/BioimpedanceRepository.js:83-92 | The given columns replace the stored ones; the rest of the row and the table stay |
| BioimpedanceRepository.Store.Delete | src/repositories/BioimpedanceRepository.js:95-104 | Removes exactly that row |
| BioimpedanceRepository.FindById | src/repositories/BioimpedanceRepository.js:39-57 | The row with that id, present exactly when some row has it |
| BioimpedanceRepository.FindByMeasureTime | src/repositories/BioimpedanceRepository.js:130-141 | The first row with that user link and measure time, or -1 exactly when none matches |
| BioimpedanceRepository.Upsert | src/repositories/BioimpedanceRepository.js:144-166 | The returned row is in the new table and carries the given user link |
| BioimpedanceRepository.UpsertCases | src/repositories/BioimpedanceRepository.js:148-158 | With no measure time, or no row holding (user, time), a new row with the argument's user is inserted and the count grows by one; otherwise the holder is updated in place and the count is unchanged |
| BioimpedanceRepository.UpsertKeepsIdsFresh | src/repositories/BioimpedanceRepository.js:144-166 | Ids stay distinct and below the next id |
| BioimpedanceRepository.UpsertKeepsKeysUnique | src/repositories/BioimpedanceRepository.js:144-166 | No second row for one (user, measure time) is ever created |
| BioimpedanceRepository.UpsertTwice | src/repositories/BioimpedanceRepository.js:144-166 | Upserting the same measurement twice adds no second row |
| BioimpedanceRepository.UpsertFromMachine | src/repositories/BioimpedanceRepository.js:144-166 | The method's result and new table are those of Upsert |
| BioimpedanceRepository.PrecedesTransitive | src/repositories/BioimpedanceRepository.js:110-113 | The listing order (measure time descending with NULL first, then newest) is transitive |
| BioimpedanceRepository.FindLatest | src/repositories/BioimpedanceRepository.js:106-127 | None iff the user has no row; otherwise one of the user's rows that no other row of theirs precedes |
| BioimpedanceRepository.LatestIsHead | src/repositories/BioimpedanceRepository.js:59-127 | The head of any listing of the user's rows sorted by that order is FindLatest |
| BioimpedanceRepository.FindByUserId | src/repositories/BioimpedanceRepository.js:59-80 | Exactly the user's rows |
| BioimpedanceService.Apply | src/services/BioimpedanceService.js:149-248 | A column is NULL iff its conversion is optional and the source falsy; otherwise it carries the source value, parsed as its kind, or its date |
| BioimpedanceService.Mapped | src/services/BioimpedanceService.js:139-248 | `mappedData` fills every column by its rule |
| BioimpedanceService.DeviceColumns | src/services/BioimpedanceService.js:141-145 | The five device columns come from the envelope under their own names, NULL when absent, and equal for every entry |
| BioimpedanceService.MappedNull | src/services/BioimpedanceService.js:149-248 | A mapped column is NULL exactly when optional and falsy at its source |
| BioimpedanceService.AlwaysFilled | src/services/BioimpedanceService.js:149-248 | Exactly machineUserId, measureTime, weight, height, bmi and bmr are never NULL; the four measurements always go through parseFloat; every other column is NULL for a falsy source |
| BioimpedanceService.LegacyKeys | src/services/BioimpedanceService.js:148-248 | A column is read under a different key exactly when it is one of the renamed legacy keys; every `*Range`/`*Status` column is renamed |
| BioimpedanceService.Linked | src/services/BioimpedanceService.js:252-259 | The entry is linked to a user iff `userId || userID` names an existing user, and then to that user |
| BioimpedanceService.MapperCovers | src/services/BioimpedanceService.js:139-263 | The machine mapping fills every column and passes the entry's date as the measure time |
| BioimpedanceService.IngestResults | src/services/BioimpedanceService.js:132-263 | Entries without `userID` or `measureTime` are skipped; every other entry adds one result, in input order, with its link |
| BioimpedanceService.IngestRowCount | src/services/BioimpedanceService.js:132-263 | The table never shrinks and grows by at most one row per kept entry |
| BioimpedanceService.IngestKeepsKeysUnique | src/services/BioimpedanceService.js:132-263 | The ingest never creates a second row for one (user, measure time) |
| BioimpedanceService.UploadResults | src/services/BioimpedanceService.js:122-270 | For the machine mapping: one result per kept entry, in order, each holding that entry's mapped columns and link |
| BioimpedanceService.ProcessMachineUpload | src/services/BioimpedanceService.js:122-270 | A missing, non-array or empty `datas` fails with 'Nenhum dado fornecido' and changes nothing; otherwise the table and results are those of the ingest loop |
| BioimpedanceService.Create | src/services/BioimpedanceService.js:7-25 | Refused iff the user does not exist; otherwise a row linked to that user is added |
| BioimpedanceService.GetById | src/services/BioimpedanceService.js:37-47 | The row, or 'Bioimpedância não encontrada' exactly when there is none |
| BioimpedanceService.GetByUserId | src/services/BioimpedanceService.js:50-62 | Refused iff the user does not exist; otherwise exactly the user's rows |
| BioimpedanceService.GetLatestByUserId | src/services/BioimpedanceService.js:65-82 | A missing user and a user without rows fail with their messages; otherwise the user's latest row |
| BioimpedanceService.Update | src/services/BioimpedanceService.js:85-102 | A missing row is refused; otherwise the given columns replace the stored ones |
| BioimpedanceService.Delete | src/services/BioimpedanceService.js:105-119 | A missing row is refused; otherwise it is removed, `true` is returned and it can no longer be found |
| Auth.IndexOf | src/middlewares/auth.js:29 | `indexOf`: the first occurrence, or -1 exactly when there is none |
| Auth.TokenIsRest | src/middlewares/auth.js:29 | On a `Bearer ` header, removing the prefix leaves exactly the header minus its first 7 characters |
| Auth.DecideCases | src/middlewares/auth.js:10-61 | The request passes iff the header is `Bearer ` plus a token the verifier accepts, with that user; a missing header and a bad format get their 401 answers; every answer is 401 |
| Auth.RejectionText | src/middlewares/auth.js:38-52 | A refusal mentioning 'inválido' or 'expirado' gets the fixed text; any other refusal gets 'Não autorizado' with its message |
| Auth.DecideOptional | src/middlewares/auth.js:63-83 | optionalAuth always passes the request on |
| Auth.OptionalAgreesWithAuth | src/middlewares/auth.js:10-83 | optionalAuth records a user exactly when auth would let the request pass, and the same user |
| Auth.AuthMiddleware | src/middlewares/auth.js:10-61 | Either sets `req.user` and calls `next` once without answering, or sends the answer and never calls `next` |
| Auth.OptionalAuthMiddleware | src/middlewares/auth.js:63-83 | Never answers; sets the user or null and calls `next` exactly once |
| UserRepository.Translate | src/repositories/UserRepository.js:12-25 | Non-P2002 errors are rethrown unchanged, and only those |
| UserRepository.TranslatePrecedence | src/repositories/UserRepository.js:12-23 | Each P2002 message names the first clash in the order cpfCnpj, email, supabaseAuthId, else the generic message, also when there is no target |
| UserRepository.CpfCnpjWins | src/repositories/UserRepository.js:14-16 | A CPF/CNPJ clash is reported as such whatever else clashes |

## Left out

- The capture members below use the corrected `error` handler of the Findings section (Step, CaptureJob.OnError), not the handler as written, which ignores an error once the duration timer has ended the capture. StepAsWritten and RunAsWritten keep the written handler. AsWrittenAgrees shows that the two differ only there, where the written one leaves the state as it was; a step that changes nothing keeps every invariant that SettledIsFinal, EndedIsFinal and QuitAtMostOnce state.
- StepFacts: its `error` clause describes the corrected handler; as written, an error after the end changes nothing.
- Handle: dispatches `error` to the corrected handler, so after the end it settles where the written listener does nothing.
- Capture: settles as the corrected Run does. On the forced-stop run (ForcedStopNeverSettles) the source stays pending while Capture resolves. On [start, duration elapsed, error "x", end] the source resolves with the output path while Capture rejects.
- RecordFromRtsp: its trace is that of a recording over the corrected capture, so on the runs named under Capture it differs from the source's.
- StallsOnlyInCapture: "never settles" is computed with the corrected handler, so the forced-stop run, which hangs in the source, does not count as a stall.
- RecordMultipleCameras: each element is the outcome of the corrected recording, not of the source's.
- The database, Supabase storage and auth, S3, the file system and the ffmpeg process are not modelled as code.
  - Lookups, upload outcomes and process events are parameters.
  - Tables are sequences of rows with distinct ids; `createdAt` order is id order.
  - Relation includes and selects, the `invoiceUrl` and other columns no rule reads, and all logging are not modelled.
- Timers are discrete events, and their real durations are not modelled. Likewise `Promise.allSettled` concurrency is modelled as a sequential map over independent recordings.
- A `null` element in a recording batch makes the `map` throw part-way; this is not modelled.
- `normalize('NFD')` is modelled by a decomposition table for the precomposed Latin-1 letters. Lower-casing covers ASCII and Latin-1 only.
- JS dates are modelled as local (year, month, day, milliseconds). Time zones, daylight saving time, `toISOString` and invalid dates are not modelled. The storage date string and "now" are parameters. `formatDate` (`Intl.DateTimeFormat`) is modelled as dd/mm/yyyy.
- `parseFloat`/`parseInt` in the bioimpedance mapping are symbolic: a parsed column records the raw value it came from. `new Date(x)` is the parameter `toMs`.
- BioimpedanceService.Linked: a user key that is not a string is treated as "not found"; the database client would reject it.
- BioimpedanceService.ProcessMachineUpload: entries that are not objects are not modelled.
- BioimpedanceRepository.FindByUserId: the order of the listing is not modelled; LatestIsHead characterises its head instead.
- The Zod schemas other than the recording bounds are not modelled, and the validation middleware is not modelled. `middlewares/validate.js` exports the function itself, so `const { validate }` in `routes/recording.routes.js` is undefined and calling it throws a TypeError when that module loads; `routes/index.js` mounts no recording route either. The recording bounds are therefore a separate predicate, and the duration bound a request meets is the service's check.
  - Plan names and other validated fields are taken as already valid.
  - The payment status default is a parameter of PaymentService.Create.
- `getAll`, `count`, `findAll` and the other service methods that only delegate to a repository query are not modelled, apart from the queries above.
- `processWebhook`, AuthService and AuthController are not modelled. In the middlewares, the token verifier is an oracle that returns a user or throws with a message. An exception thrown by `next()` itself is not modelled.
- The other services, repositories and controllers (academies, cameras, exercises, trainings, records, statistics, users apart from the create error mapping) are not modelled. Routes, multer and start-up configuration are not modelled either.

## Findings

| source | as written | input that shows it | evidently intended | confidence | as-written member | corrected member |
|---|---|---|---|---|---|---|
| src/services/RecordingService.js:133-203 | The duration timer sets `hasEnded` before writing 'q'. The 'error' handler acts only while `hasEnded` is false, so an error that arrives after the timer (the SIGTERM kill 2 s later, or right away when writing 'q' throws) is dropped and the capture promise never settles | Events start, duration elapsed, grace elapsed with the process not killed, then `error("ffmpeg was killed with signal SIGTERM")` | Settle on every error, as the 'end' handler does in both branches: a SIGTERM stop resolves with the output path | not executed | RecordingCapture.ForcedStopNeverSettles | RecordingCapture.ExitSettles |
