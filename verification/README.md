# LeadFlow, modelled and proved

LeadFlow captures leads from forms, scores them, contacts them, follows up on a schedule, listens
to replies, and mirrors everything into a CRM. Its state is a database changed by transactions; its
work is driven by a job queue that delivers at least once, late, or, after a loss, not at all.
Handlers can die between any two calls. This project models that machinery and proves what survives
every interleaving of retries, stale jobs, replies, pauses, crashes and lost queues.

## How it is built

| files | what they hold |
|---|---|
| `Leads`, `Moves`, `Schedule`, `Sweep`, `Coupling`, `Silence`, `Timelines` | one lead's row and timeline, what each transaction makes of it, and what every transaction keeps |
| `Plans`, `Machine`, `Store` | all leads as a step system: one step per transaction, three per message send, deaths in between; invariants and main results over every run |
| `Expectations` | what a match, a send, a plan and an erasure are for, said in terms of the rows alone, and that the model computes exactly that |
| `Punctuality` | when every step runs exactly on time |
| `EnrollmentKeys`, `LeadRuns`, `Exactness` | the exact conditions on the configuration, with the runs that break the promises without them |
| `Sending`, `Delivery`, `HandOff`, `Suppression`, `Consent`, `Planning` | what runs keep about sends, follow-ups that reach a provider, stage hand-offs, the suppression list, consent and first-contact plans |
| `LeadRecords`, `Steps`, `Handlers` | the handlers as methods that change tables statement by statement, each proved to take the steps of `Machine`; queue and CRM calls may fail |
| `CrmLog`, `CrmSync` | the sync position as a run model, and the sync job as a class proved to be one of its steps |
| `Contacts`, `Merging`, `ContactLocks`, `LockCollisions`, `ErasureLocks` | address matching, the merge policy over many submissions; the contact-key lock protocol with every lock, read and commit as separate steps, exactly when it deadlocks, and exactly when a capture sees what an erasure lists |
| `RateLimiter`, `Paging`, `QuietHours`, `Keys`, `Order`, `Base` | the standalone algorithms and shared vocabulary |

`Machine.Run` starts from an empty store and takes any sequence of actions with any arguments: an
action whose conditions don't hold changes nothing. So "in every run" covers any number of
concurrent or repeated deliveries, at any times, in any order. `Handlers.Pipeline` records the steps
its methods take, and `Valid()` says that the tables are the result of that run; results about runs
therefore hold of the tables after any sequence of handler calls.

The database is the only clock-free authority: `now` is an argument everywhere and need not grow,
except in the rate limiter and the CRM log, which rely on a clock that does not go back.

## Where comments and code disagree

- "Only one transaction can make this transition, so the lead is enrolled once"
  (`src/contact/sendMessage.ts:129`) depends on the configuration: with a CRM rule that targets new,
  qualified or disqualified, and first contacts on two channels, a lead can be enrolled again.
  `Exactness.EnrolledOnceExactly` gives the exact condition; the shipped `config/crm.json` meets it.
- "Callers locking several contacts can't deadlock" (`src/capture/captureLead.ts:28-29`) depends on
  the lock hash: `LockCollisions.NeverDeadlocksExactly` gives the exact condition. Collisions alone do
  no harm; two keys that share a lock around one that doesn't can deadlock.
- "A submission arriving meanwhile waits, then sees the suppression" (`src/privacy/erasure.ts:99`)
  holds for the addresses the erasure has locked. The second read may find an address merged in after
  the first; it is listed without its lock, and a capture of that address that is under way may have
  asked the list before. `ErasureLocks.CommitsFollowTheList` says exactly when a capture misses it.

## Model

| member | source | states |
|---|---|---|
| `LeadRecords.LeadRecord.StopEnrollments` | src/followup/enrollment.ts:53-77 | the loop ends every active or paused enrollment, records each once and returns how many; it refines `Leads.StopEnrollments` |
| `LeadRecords.StopEndsEverything` | src/followup/enrollment.ts:53-77 | after a stop nothing is live, and there is exactly one `sequence_stopped` per enrollment that was, naming it |
| `LeadRecords.LeadRecord.OptOutInTx` | src/inbound/optOut.ts:39-56 | a lead not opted out becomes `do_not_contact`, loses both consents and every live enrollment, with its former status on record; otherwise nothing changes, and the call says which |
| `LeadRecords.IneligibleReason` | src/contact/eligibility.ts:16-22 | wrong status unless qualified or contacted, then no address unless the channel's is given, then no consent unless the channel's is set, and no reason otherwise |
| `LeadRecords.LeadRecord.Fill` | src/capture/captureLead.ts:101-141 | an unmatched submission becomes a new lead with its data and its capture recorded; with a suppressed address it starts opted out and without consent, and says so in its timeline |
| `LeadRecords.LeadRecord.MergeSubmission` | src/capture/captureLead.ts:99-141 | known addresses, score and tier stay; with a suppressed address the lead ends opted out, without consent or anything live; otherwise status and enrollments stay |
| `Leads.MergeProfileLaws` | src/capture/captureLead.ts:57-74 | the merge policy is idempotent and associative: resubmitting adds nothing, and merging submissions first or one by one gives the same lead |
| `Merging.FirstTouchWins` | src/capture/captureLead.ts:55-68 | after any number of submissions every fixed field, addresses and UTM included, holds the first value anybody gave |
| `Merging.NewestAnswerWins` | src/capture/captureLead.ts:69-70 | after any number of submissions the answer to a free question is the newest one given |
| `Merging.ConsentIsSticky` | src/capture/captureLead.ts:71-72 | after any number of merged submissions consent stands exactly when one of them gave it |
| `LeadRecords.LeadRecord.RecordScore` | src/qualification/qualifyLead.ts:66-98 | score and tier always follow the scoring; the status moves only between new, qualified and disqualified, and among those is disqualified exactly for the disqualified tier |
| `LeadRecords.LeadRecord.EnrollLead` | src/followup/enrollment.ts:17-50 | without an active, non-empty sequence nothing changes; otherwise one enrollment is added and the returned job is the one it stores as next |
| `LeadRecords.LeadRecord.RecordSend` | src/contact/sendMessage.ts:126-148 | only a first contact to a qualified lead moves it to contacted, and then it is enrolled exactly when the tier has an active sequence with steps; the job is the new enrollment's first step at its offset; the recorded event comes last |
| `LeadRecords.LeadRecord.RecordReply` | src/inbound/handleInbound.ts:84-117 | an opt-out opts out; any other reply stops what is live and engages exactly a new, qualified, contacted or unresponsive lead; the event and the outcome say so, with the number stopped |
| `LeadRecords.LeadRecord.ChangeStatus` | src/crm/webhook.ts:111-139 | a change to another status is made and recorded; unless it is qualified or contacted nothing stays live, and the number stopped is returned |
| `LeadRecords.LeadRecord.RunFollowUpStep` | src/followup/runStep.ts:53-163 | the branch taken is said outright for every job: inactive, stale, early, lead gone, completed or queued; what is queued is the message of the sequence's step with that number, on its channel, with its template and key, and the stored next job; a completion makes a contacted lead unresponsive |
| `LeadRecords.LeadRecord.PauseEnrollment` | src/followup/enrollment.ts:112-131 | pauses exactly an active enrollment, keeping everything else of it |
| `LeadRecords.LeadRecord.ResumeEnrollment` | src/followup/enrollment.ts:137-167 | resumes exactly a paused enrollment; the job is its current step at the later of now and the stored time, as now stored |
| `Moves.ApplyMoves` | src/followup/runStep.ts:84-152 | every transaction makes one allowed move per enrollment, and adds one exactly when a first contact to a qualified lead is recorded with a usable sequence |
| `Schedule.ApplyKeepsSchedule` | src/followup/runStep.ts:101-152 | whatever job, pause, resume or stop comes: the steps run are a prefix of the sequence in order, none over a minute before its planned time or its gap after the last, and the next run is stored exactly while live |
| `Schedule.ApplyKeepsPunctual` | src/followup/runStep.ts:137-152 | if the jobs that run a current step run it when due and nothing is resumed, every step runs exactly at enrollment plus offset; other jobs may run at any time |
| `Punctuality.BuiltJobsAreNext` | src/followup/enrollment.ts:84-101 | the step jobs handed to the queue after a step, a retry, a resume or a sweep are the stored next job at that moment |
| `Punctuality.EnrollingJobIsNext` | src/contact/sendMessage.ts:135-160 | so is the job of the first contact that enrolls |
| `Punctuality.OnceNextIsNext` | src/followup/runStep.ts:66-106 | without a resume, a job that was once the stored next one and is still for the current step has the stored time |
| `Punctuality.PunctualRunsAreOnTheDot` | src/followup/runStep.ts:137-152 | in every run whose step jobs of a lead run at the time they were built for, however often and in whatever order they are delivered, with nothing of it resumed, every step ran exactly at enrollment plus offset |
| `Schedule.EnrollmentsOnlyMoveForward` | src/followup/runStep.ts:115-152 | one transaction never undoes a step, never raises the remaining runs, and leaves an ended enrollment as it is |
| `Schedule.EffectiveRunCounts` | src/followup/runStep.ts:84-152 | a step job that changes anything uses up one of the remaining runs |
| `Schedule.AtMostRemainingRuns` | src/followup/runStep.ts:84-152 | however many jobs are delivered among other transactions, at most n + 1 have an effect on an enrollment of n steps |
| `Schedule.RetryRepeats` | src/followup/runStep.ts:84-100 | a queued outcome is always the message of a step that ran, with that step's channel, template and key, and the job now stored; a retry changes nothing in the row |
| `Schedule.QueueIsDisposable` | src/followup/enrollment.ts:84-101 | with all jobs lost, reconcile-and-run rounds end an active enrollment within its remaining steps plus one |
| `Coupling.LeavingIsClosed` | src/contact/eligibility.ts:4-22 | no transaction brings a lead back from engaged, unresponsive, converted or opted out, if CRM rules target only those |
| `Store.FirstRuleWins` | src/crm/webhook.ts:100-103 | the status of a CRM change is the first matching rule's, and there is none exactly when no rule matches |
| `Coupling.ApplyKeepsCoupled` | src/contact/sendMessage.ts:126-135 | at most one enrollment ever, live only while contacted, is kept by every transaction unless a rule sends leads back |
| `Coupling.LeadLeftIsUnreachable` | src/followup/runStep.ts:108-113 | for a coupled lead the branch for a lead no longer contactable is never taken |
| `Coupling.ApplyKeepsOptedOutStopped` | src/inbound/optOut.ts:39-56 | with any CRM rules, a lead that opted out has no live enrollment |
| `Silence.ApplyKeepsSilent` | src/inbound/handleInbound.ts:106-116 | no reply follows the start of a live enrollment, and none lies between a start and a completion |
| `Silence.ApplyKeepsCompletions` | src/followup/runStep.ts:116-133 | completions are recorded exactly for the completed enrollments |
| `Timelines.ApplyRecords` | src/contact/sendMessage.ts:136-147 | each transaction inserts exactly the one keyed event it is for, or none |
| `Store.NextKeepsIndexed` | prisma/schema.prisma:118-118 | after every step the unique index holds exactly the keyed events of the existing leads, each key once |
| `Store.SchedulesAreKept` | src/followup/runStep.ts:101-152 | in every run every enrollment is on schedule |
| `Store.ProgressIsForever` | src/followup/enrollment.ts:53-77 | between any two moments of a run an enrollment only moves forward: steps stay run, stopped and completed are final |
| `Store.EnrollmentsStayCoupled` | src/contact/sendMessage.ts:128-134 | in every run whose CRM rules send no lead back, at most one enrollment ever, live only while contacted, and no step job finds its lead gone |
| `Store.CompletedSequencesMetSilence` | src/followup/runStep.ts:116-133 | in every run no reply lies between a lead's enrollment and the completion of its sequence |
| `Store.LostQueueIsRebuilt` | src/followup/enrollment.ts:79-101 | from any reachable state with all step jobs lost, timely rounds end every active enrollment |
| `Store.LeavingIsForGood` | src/inbound/handleInbound.ts:84-117 | in every run a lead that left stays left or is erased for good |
| `Store.OptedOutIsQuiet` | src/inbound/optOut.ts:39-56 | in every run a lead that opted out has nothing live, whatever the CRM rules |
| `Store.NoContactAfterLeaving` | src/contact/sendMessage.ts:81-93 | in every run a first contact or follow-up that reads after its lead left never reaches the provider |
| `Exactness.NoContactAfterLeavingExactly` | src/contact/eligibility.ts:4-22 | nobody is contacted after leaving in any run if and only if every effective CRM rule targets a leaving status, or no first contact can be planned at all |
| `Exactness.RuleContactsAgain` | src/crm/webhook.ts:111-139 | the run that contacts a lead after it replied: planned, replied, taken back by a rule, and the planned message goes out |
| `EnrollmentKeys.OneChannelEnrollsOnce` | src/contact/planFirstContact.ts:72-93 | with at most one plannable channel, a lead is enrolled at most once in every run, whatever the CRM rules |
| `EnrollmentKeys.NobodyIsEnrolled` | src/followup/enrollment.ts:23-29 | where no tier has a usable sequence nobody is enrolled in any run |
| `Exactness.RuleEnrollsTwice` | src/crm/webhook.ts:111-139 | the run that enrolls a lead twice: planned on one channel, contacted, enrolled, sent back by a rule, planned on another channel, contacted and enrolled again |
| `Exactness.EnrolledOnceExactly` | src/contact/sendMessage.ts:128-134 | a lead is enrolled at most once in every run if and only if no effective CRM rule sends leads back to before first contact, or no tier enrolls anyone, or no two channels are plannable |
| `Sending.SendsAreConserved` | src/contact/sendMessage.ts:112-157 | in every run and for every message: accepted sends = recorded (at most one) + recorded and erased since + lost after acceptance + in flight |
| `Sending.RecordedStaysRecorded` | src/contact/sendMessage.ts:136-147 | a recorded event stays under its key as long as its lead exists |
| `Sending.NoSendAfterRecorded` | src/contact/sendMessage.ts:74-75 | an attempt that starts after its message was recorded never calls the provider |
| `Sending.OneEventPerKey` | prisma/schema.prisma:118-118 | in every run at most one event with a given key exists, in one place of one timeline |
| `Expectations.CheckIsExact` | src/contact/sendMessage.ts:73-93 | a send goes ahead exactly when its key is not recorded, its lead exists and it is an alert, or the lead is qualified or contacted with an address and consent for the channel and, for a follow-up, its enrollment is active; then it goes to that address, an alert to the one it names |
| `Expectations.SendIsExact` | src/contact/sendMessage.ts:124-148 | a recorded send moves on and enrolls exactly a qualified lead at its first contact, with a sequence that has steps; the job is the first step at its offset |
| `Delivery.KnownFollowUpsRan` | src/followup/runStep.ts:84-100 | in every run a follow-up that was built, is on its way or was accepted is of a step its enrollment ran, at most a minute before its planned time |
| `Delivery.AcceptedFollowUpsRan` | src/contact/sendMessage.ts:112-123 | in every run a follow-up the provider accepted is of a step its enrollment ran, and as long as the lead exists the enrollment shows it |
| `Delivery.StepToRunIsUnrecorded` | src/followup/runStep.ts:84-100 | in every run no message is recorded for a step that still has to run |
| `Delivery.StepMessageGoesOut` | src/followup/runStep.ts:73-160 | in every run the message a due step queues, read at once, goes out on the step's channel with its template to the lead's address, exactly when the lead has that address and agreed |
| `HandOff.CapturesAreScoredOnce` | src/qualification/qualifyLead.ts:51-98 | in every run a captured event is scored at most once, even across erasures |
| `HandOff.ReenqueuesAgree` | src/qualification/qualifyLead.ts:35-49 | in every run all hand-off jobs with one id carry the same lead, score and tier |
| `HandOff.EverySubmissionHandsOff` | src/capture/captureLead.ts:81-93 | fresh or replayed, a submission hands off the one event recorded under its key, and a replay changes nothing |
| `HandOff.EveryScoringHandsOff` | src/qualification/qualifyLead.ts:25-58 | fresh or replayed, a scoring hands off the one scored event with its stored score and tier, unless the tier is disqualified |
| `Suppression.RequestSuppressesEverything` | src/privacy/erasure.ts:104-122 | an erasure request lists every address of the erased leads and of the subject, and touches no other lead |
| `Suppression.SuppressionOnlyGrows` | src/privacy/suppression.ts:21-28 | no step of any run takes a hash off the list |
| `Suppression.SuppressedSubmissionOptsOut` | src/capture/captureLead.ts:140-141 | a submission with a listed address leaves the lead it created or merged into opted out |
| `Suppression.SuppressionIsPermanent` | src/privacy/suppression.ts:30-37 | once listed, whatever happens in between, the lead of a submission with that address is never sent a first contact or follow-up |
| `Suppression.MatchesOfErasedAreSuppressed` | src/privacy/suppression.ts:10-19 | whoever would have matched an erased lead by email or phone is listed after the request |
| `Suppression.ErasedPersonIsNeverContacted` | src/privacy/erasure.ts:55-65 | in every run, after an erasure request the lead of any later submission that would have matched is never sent a first contact or follow-up |
| `Consent.ConsentWasGiven` | src/capture/captureLead.ts:71-72 | in every run a consent flag that is set was given by a submission of that very lead, which has not opted out since |
| `Consent.MessagesHaveConsent` | src/contact/eligibility.ts:16-22 | in every run a first contact or follow-up that goes ahead goes to a contactable lead, at its own address, on a channel one of its submissions agreed to since its last opt-out |
| `Planning.PlanIsWhatWouldSend` | src/contact/planFirstContact.ts:72-80 | a first contact is planned exactly when the tier's plan has its channel and template, a provider is there, its key is the lead's for that channel, and the send itself would go ahead at once |
| `Expectations.PlanIsExact` | src/contact/planFirstContact.ts:49-118 | a job is planned exactly when the lead is qualified or contacted in a tier other than disqualified and the job is a due first contact of the tier's plan or its sales alert, every field said outright |
| `Expectations.AlertIsPlanned` | src/contact/planFirstContact.ts:96-118 | the sales alert is planned exactly when the tier has a template for it, the sales address is given and none was recorded; it is an email with that template to that address; a lead without a plan gets no job at all |
| `Planning.PlannedJobsProceed` | src/contact/planFirstContact.ts:72-114 | every planned job, alerts too, would pass the sender's checks and has a recipient |
| `Planning.PlannedOncePerChannel` | src/contact/planFirstContact.ts:9-11 | no two jobs of a plan share a key, so none is swallowed as a duplicate |
| `Planning.ContactedChannelIsNotPlannedAgain` | src/contact/planFirstContact.ts:61-70 | in every run a message recorded for a lead is never planned for it again |
| `Planning.NoPlanAfterLeaving` | src/contact/planFirstContact.ts:52-59 | in every run nothing is planned for a lead that has left |
| `Handlers.Pipeline.Commit` | src/contact/sendMessage.ts:136-157 | the event and the row are stored together, or neither when the key is taken |
| `Handlers.Pipeline.HandleInbound` | src/inbound/handleInbound.ts:71-126 | an opt-out opts out, any other reply engages exactly a new, qualified, contacted or unresponsive lead, and nothing of the lead stays live; the rep alert is for exactly those replies, or for a replay of one, and the queue gains exactly that email with the given template to the sales address; the call fails exactly when that queue call does |
| `Handlers.Pipeline.OptOut` | src/inbound/optOut.ts:59-68 | takes exactly the unsubscribe step and says whether it changed the lead |
| `Handlers.Pipeline.HandleCrmChange` | src/crm/webhook.ts:99-143 | ignored without a rule, unmatched without a lead, unchanged for an equal status, duplicate for a known event key, otherwise updated to the first matching rule's status with the number of sequences stopped; only an update changes anything, by one step |
| `Handlers.Pipeline.Pause` | src/followup/enrollment.ts:112-131 | takes exactly the pause step; not found, paused or a conflict exactly as the stored status says, and only paused changes anything |
| `Handlers.Pipeline.Resume` | src/followup/enrollment.ts:137-167 | takes exactly the resume step; not found, resumed or a conflict exactly as the stored status says; the job is the stored next one, not in the past |
| `Handlers.Pipeline.ResumeAndQueue` | src/admin/service.ts:78-88 | resumed exactly when paused; the answer says queued exactly when it was resumed and the queue call succeeded, and then the job is in the queue |
| `Handlers.Pipeline.RunFollowUpStep` | src/followup/runStep.ts:51-168 | takes exactly the step job's step; a queued message is that of the sequence's step with the job's number, field by field, the next job is the stored one, and the queue gains exactly that message; success exactly when both queue calls can succeed; failing calls change nothing in the database |
| `Handlers.Pipeline.SubmitTransaction` | src/capture/captureLead.ts:87-148 | takes exactly the submission step, replayed or not, and the event it returns is the one recorded under the key |
| `Handlers.Pipeline.CaptureLead` | src/capture/captureLead.ts:87-156 | the submission goes to the oldest lead with one of its addresses or to a new one; returns normally exactly when the queue call succeeds, and then has enqueued the one scoring job of the recorded capture |
| `Handlers.Pipeline.FindMatch` | src/capture/captureLead.ts:47-53 | finds the oldest lead with the submission's email or phone, and none exactly when no lead has them |
| `Handlers.Pipeline.ScoreTransaction` | src/qualification/qualifyLead.ts:51-98 | takes exactly the scoring step; the result is what the stored scored event says |
| `Handlers.Pipeline.QualifyLead` | src/qualification/qualifyLead.ts:51-106 | returns normally exactly when there is nothing to enqueue or the queue call succeeds, and then has enqueued the planning job of the one scored event |
| `Handlers.Pipeline.CheckMessage` | src/contact/sendMessage.ts:73-93 | duplicate exactly for a recorded key; an attempt starts exactly when the message may be sent (`Expectations.MaySend`), with the lead's tier and the right recipient |
| `Handlers.Pipeline.CallProvider` | src/contact/sendMessage.ts:100-122 | an accepted call is remembered by the attempt alone; a refused one ends it, and leads and index gain exactly the failure record that is due (`Refused`): once per message, when permanent or last |
| `Handlers.Pipeline.RecordFailure` | src/contact/sendMessage.ts:52-71 | a failure is recorded once per message and never for a deleted lead |
| `Handlers.Pipeline.CommitMessage` | src/contact/sendMessage.ts:124-157 | records the send and makes of its lead exactly what a recorded send makes of it (`Expectations.AfterSend`), or loses and changes no lead |
| `Handlers.Pipeline.DieInFlight` | src/contact/sendMessage.ts:95-123 | a process that dies between its calls leaves no attempt behind; if the provider had accepted, that send counts as lost |
| `Handlers.Pipeline.SendMessage` | src/contact/sendMessage.ts:73-168 | already sent exactly for a recorded key, nothing sent exactly when it may not be; otherwise the provider accepts once or not at all; what it accepted is recorded and moves the lead on, even when the run fails afterwards, and a refusal leaves exactly the failure record that is due |
| `Handlers.Pipeline.RunSendMessageJob` | src/contact/sendMessage.ts:171-183 | the provider accepts exactly when the message may be sent, has a recipient and is taken; a failure is retried exactly when it is not permanent and tries are left; a message given up unsent is on record as failed, and a retry adds no such record |
| `Handlers.Pipeline.PlanFirstContact` | src/contact/planFirstContact.ts:49-121 | takes exactly the planning step; queues due first contacts and the alert in order, all of them exactly when the queue calls last; the queue gains nothing else and keeps what it holds |
| `Sweep.AllDueHolds` | src/followup/enrollment.ts:89-93 | the sweep finds a job exactly when it is the current step, at the stored time, of an active enrollment due within the horizon |
| `Handlers.Pipeline.ReconcileEnrollments` | src/followup/enrollment.ts:84-101 | succeeds exactly when the queue calls last for all the due jobs, and then the step queue has gained exactly those and the count is theirs |
| `Handlers.Pipeline.DeleteContacts` | src/privacy/erasure.ts:87-90 | deletes the CRM contacts in order and counts them, up to exactly the first call that fails |
| `Handlers.Pipeline.HashesToSuppress` | src/privacy/erasure.ts:104-119 | collects exactly the hashes of the subject and all leads for a request, and of the leads that opted out for retention |
| `Handlers.Pipeline.Suppress` | src/privacy/suppression.ts:21-28 | lists the hashes and returns how many were new |
| `Handlers.Pipeline.EraseLeads` | src/privacy/erasure.ts:66-133 | gives up exactly when a CRM call fails, and then nothing is erased here; otherwise exactly these leads go, exactly their CRM contacts go and are counted, the list gains exactly the hashes the reason asks for, and the log gains one entry for a request or anything erased, with the request's hashes, and none otherwise |
| `Handlers.PipelineIsSafe` | src/contact/sendMessage.ts:73-168 | after any calls in any order, rows, index, sends and hand-offs keep every invariant of the run model |
| `Handlers.PipelineIsPunctual` | src/followup/runStep.ts:137-152 | after any calls in any order: if a lead's step jobs ran at the time they were built for and nothing of it was resumed, every step ran exactly when planned; that delivered jobs were built so is an invariant of the pipeline |
| `CrmLog.TimelineIsCorrect` | src/crm/syncLead.ts:13-18 | in every run of jobs failing at any call, the CRM timeline without immediate repeats is a prefix of the syncable events in order, reaches the saved position, and repeats no more than the failed attempts |
| `CrmLog.CursorOnlyGrows` | src/crm/syncLead.ts:137-147 | the saved position never moves back |
| `CrmLog.CommitsDontDisturbJob` | src/crm/syncLead.ts:13-18 | events committed during a job don't change what it pushes, thanks to the visibility lag |
| `CrmLog.JobsDrain` | src/crm/syncLead.ts:75-100 | a job that does not fail pushes exactly its quota and leaves exactly the rest pending |
| `CrmLog.RepeatedJobsDrain` | src/crm/syncLead.ts:75-100 | n such jobs push the first min(500n, pending) events in order and leave exactly the rest |
| `CrmLog.ComparisonsAgree` | src/crm/syncLead.ts:38-52 | SQL's row comparison, with its NULLs, and the sync's OR agree on every event when the position is whole |
| `CrmLog.SweepMatchesSync` | src/crm/syncLead.ts:30-53 | in every run the sweep selects a lead exactly when a sync with the same cutoff would push an event |
| `CrmLog.HalfCursorDisagrees` | src/crm/syncLead.ts:38-52 | a position saved without its event id would make them differ |
| `CrmSync.LeadSync.PrepareContact` | src/crm/syncLead.ts:102-135 | the contact is the stored one, or a new one when the CRM no longer has it; `created` only when none was stored |
| `CrmSync.LeadSync.PushBatch` | src/crm/syncLead.ts:137-147 | whatever call fails, a prefix of the batch is on the timeline and the saved position is its end, or one behind |
| `CrmSync.LeadSync.PushPending` | src/crm/syncLead.ts:75-148 | the batch loop with its short-batch exit pushes the first min(500, pending) events, nothing skipped |
| `CrmSync.LeadSync.SyncLead` | src/crm/syncLead.ts:71-152 | skipped exactly for a lead that is missing, parked or disqualified without leave; otherwise one step of the run model, whatever call fails; without a failure it pushes the first min(500, pending) events older than ten seconds, and it fails only when its calls run out |
| `CrmSync.LeadSync.RunJob` | src/crm/syncLead.ts:208-223 | the fate is exactly decided by outcome, error and attempts: rate limits pause, permanent errors and the last attempt dead-letter and park the lead, others retry; nothing else parks |
| `CrmSync.FateOf` | src/crm/syncLead.ts:208-223 | retried exactly for a transient error with attempts left, paused for the time a rate limit names, done with its outcome exactly without an error |
| `CrmSync.LeadSync.DeadLetter` | src/crm/syncLead.ts:159-180 | the lead is parked if it exists, and the dead letter is kept either way |
| `CrmSync.LeadSync.Requeue` | src/crm/syncLead.ts:183-196 | the lead is no longer parked and has no dead letter left, the count says whether it was parked, a named lead is queued at once, and the position stays |
| `ContactLocks.LockOrder` | src/capture/captureLead.ts:31-45 | the locks taken are the contacts' keys, each once, in strictly sorted order |
| `ContactLocks.TransactionsNeverDeadlock` | src/privacy/erasure.ts:99-102 | in every interleaving of captures and erasures, while one is unfinished some transaction can step, and none wait for each other in a circle, unless two keys in play share a lock that a key in play between them does not |
| `ContactLocks.ProgressMeansEnabled` | src/capture/captureLead.ts:42-44 | a transaction that waits for nobody has a step of its own |
| `LockCollisions.BrokenHashDeadlocks` | src/capture/captureLead.ts:42-44 | the run that deadlocks: three leads are captured, then an erasure of the first two and one of the last two wait for each other, when the outer keys share a lock the middle one does not |
| `LockCollisions.NeverDeadlocksExactly` | src/capture/captureLead.ts:28-45 | no interleaving from an empty table ever deadlocks, and none ever has transactions waiting in a circle, if and only if the lock hash never gives two addresses one lock and an address between them another |
| `ContactLocks.OneLeadPerNewAddress` | src/capture/captureLead.ts:95-116 | in every interleaving an address is the creation-time address of at most one lead |
| `ContactLocks.AddressesAreNeverOverwritten` | src/capture/captureLead.ts:57-65 | in every interleaving an address once set is never changed |
| `ErasureLocks.CommitsFollowTheList` | src/capture/captureLead.ts:140-141 | in every interleaving a capture leaves its lead opted out exactly when the lead was so before, or an address of the submission is listed and no erasure listed one without its lock after the capture had asked |
| `ErasureLocks.ErasureListsAddresses` | src/privacy/erasure.ts:99-119 | in every interleaving an erasure that locked what it lists puts every address its leads have at that moment on the list, and the leads are gone |
| `ErasureLocks.CaptureAfterErasureOptsOut` | src/privacy/erasure.ts:99-112 | in every interleaving, after an erasure request whose second read found only addresses it had locked, a capture with an address of an erased lead ends opted out when it commits |
| `ErasureLocks.UnlockedListingIsMissed` | src/privacy/erasure.ts:99-112 | the run where that fails: a phone merged into the lead between the two reads is listed without its lock, and a capture that merges it into an older lead has asked the list already |
| `RateLimiter.Limiter.constructor` | src/crm/rateLimiter.ts:4-5 | a new limiter has granted nothing |
| `RateLimiter.Limiter.Prune` | src/crm/rateLimiter.ts:9-9 | pruning drops only calls outside the window |
| `RateLimiter.Limiter.Attempt` | src/crm/rateLimiter.ts:6-16 | grants exactly when the full history has fewer than max grants in the window; grant i + max is a window after grant i; a sleep is positive and exact |
| `RateLimiter.Limiter.AcquireAlone` | src/crm/rateLimiter.ts:6-16 | a lone caller is granted after one sleep, no earlier than there is room |
| `RateLimiter.PrunedDecides` | src/crm/rateLimiter.ts:9-13 | what is left after pruning decides the same as the full history |
| `RateLimiter.RecentFull` | src/crm/rateLimiter.ts:9-13 | the window is full exactly when its max-th newest grant is recent |
| `RateLimiter.SleepIsExact` | src/crm/rateLimiter.ts:14-14 | the sleep ends at the first instant with room |
| `Paging.CursorRoundTrip` | src/admin/leads.ts:36-44 | decoding inverts encoding if and only if the id is not empty and holds no '|' |
| `Paging.CursorsAreTimeAndId` | src/admin/leads.ts:39-43 | a cursor is a readable time, a bar and a non-empty id, with anything after a second bar ignored; everything else is rejected |
| `Paging.InvalidCursorsAreRefused` | src/admin/leads.ts:48-50 | a text without a bar, or without a readable time or an id, is refused; otherwise the list goes on after that time and id, and from the newest lead when it is empty |
| `Paging.CursorsAreFaithful` | src/admin/leads.ts:48-94 | following the cursor strings is following the positions they encode |
| `Paging.PageFacts` | src/admin/leads.ts:71-93 | a page is descending, within the limit, starts after the cursor and skips nothing before its next cursor |
| `Paging.PagesAreStable` | src/admin/leads.ts:71-93 | with inserts and deletes between reads nothing repeats, and a lead there at every read appears exactly once |
| `Paging.PagesAreTheList` | src/admin/leads.ts:71-93 | on an unchanging table the reading ends and the pages concatenate to the whole list |
| `QuietHours.DelayIsLeastExit` | src/contact/quietHours.ts:24-35 | the delay is zero exactly outside the window, under a day, lands on its end, and every shorter whole-second delay is still quiet |
| `QuietHours.DelayIsDistance` | src/contact/quietHours.ts:33-34 | JavaScript's truncated remainders compute the true distance forward |
| `QuietHours.QuietIsAnArc` | src/contact/quietHours.ts:31-32 | the window is an arc of the circular day, over midnight or not |
| `QuietHours.SecondsOfDayInjective` | src/contact/quietHours.ts:3-6 | distinct configured times are distinct seconds of the day |
| `QuietHours.MinutesAreRead` | src/contact/quietHours.ts:3-6 | every minute of the day written as a time is read as its distance from midnight |
| `Keys.PrintInjective` | src/contact/planFirstContact.ts:9-11 | all families of dedupe keys, `:failed` included, are injective and pairwise disjoint for ids without ':' |
| `Keys.MessageJobIdInjective` | src/queue.ts:92-93 | message job ids are injective on the messages built, for ids without '_', and hold no ':' |
| `Keys.FollowUpJobIdInjective` | src/queue.ts:95-97 | step job ids are injective for all steps and times, negative ones included, if the id does not end in '-' |
| `Keys.FollowUpJobIdNeedsTheCondition` | src/queue.ts:95-97 | with an id that ends in '-' two jobs share an id |
| `Keys.MetricsRecoversStep` | src/admin/metrics.ts:80-82 | of all the keys built, the metrics parser accepts exactly the follow-ups, and reads their step |
| `Keys.ParsePrintNat` | src/followup/enrollment.ts:9-10 | a printed step number reads back as itself |

## Left out

- HTTP routes, authentication, webhook signatures, health checks, logging and configuration parsing: plumbing.
- Providers, HubSpot, Redis and BullMQ themselves: a call is accepted, refused or fails, and a failed call may have landed; queues add a job unless one with its id is there. That BullMQ keeps finished and failed ids for a while is not modelled, so progress is stated for handlers, not for the queue.
- Phone and email normalization, time zones and daylight saving, opt-out keyword folding: normalized addresses, local seconds of the day and the opt-out decision are inputs.
- The scoring rules and template rendering: the score and tier are inputs; a template that is missing or for another channel is a permanent refusal by the provider.
- Finding the lead of a reply or CRM change by address or contact id: the handlers take the lead the query found; captures do find theirs (`Handlers.Pipeline.FindMatch`).
- The consent ledger, alert texts and cooldowns, CRM activity texts, the `crm_sync_failed` event, lead detail and export, funnel metrics other than the step parser: they read or append without affecting the properties here.
- Isolation anomalies and row-lock waits inside one transaction: a transaction is one step, except in `ContactLocks`. The eligibility reads of one send are one step.
- The order in which one stop records several enrollments: oldest first here, unspecified in the database.
- Enrollment ids are the lead and a running number, which stand for the uuids; `Enrollment.ran`, `Enrollment.completedAt` and `Machine.History` record what happened and are never read by the modelled program.
- Editing a sequence while leads are enrolled: an enrollment carries its sequence. Steps are in strict order, as the unique index on (sequence, order) and the query's sort give.
- The base64url layer of list cursors, and the filters of the list: `Paging` takes the filtered set.
- Choosing leads for retention erasure (`findExpiredLeads`): an erasure takes any set of leads.
- CRM contact ids are kept beside the modelled rows, in `Handlers.Pipeline.crmIds`; parking the sync during an erasure is not modelled.
- Message jobs other than those the program builds: first contacts come only from plans and follow-ups only from step jobs, but `Machine.CheckSend` takes any rep alert under an alert key.
- Retention erasures and other opt-outs in `ContactLocks`: an erasure is a request there, and leads opt out by the list; both are whole transactions in `Machine`. The list holds the keys of addresses in place of their hashes.
- Which of several matches a capture merges into: the oldest in the source and in `Machine`, any in `ContactLocks`. The run of `ErasureLocks.UnlockedListingIsMissed` merges into the oldest.
- Failing calls while a dead letter is parked or requeued: `CrmSync.LeadSync.DeadLetter` and `Requeue` take them to succeed.
- Whether a queue or CRM call succeeds is a budget of calls (`Handlers.Pipeline.calls`, `CrmSync.LeadSync.budget`): they succeed until one fails, which ends the handler.
- Handlers.Pipeline.SendMessage: states an uninterrupted run; runs interleaved with others are the three steps of `Machine`, for which `Sending` states conservation, and `Handlers.Pipeline.DieInFlight` a death in between.
- Handlers.Pipeline.HandleInbound: does not model the alert's text; the alert is named by its reply event.
- ErasureLocks.CaptureAfterErasureOptsOut: requires that the erasure's second read found only addresses it had locked; `ErasureLocks.UnlockedListingIsMissed` shows that this is needed.
- RateLimiter.Limiter.Attempt: requires a clock that does not go back and at least one call per window.
- Store.NoContactAfterLeaving: requires that CRM rules target only engaged, unresponsive, converted or opted out, as the shipped configuration does; `Exactness.NoContactAfterLeavingExactly` shows that this is needed as soon as a first contact can be planned.
- Store.EnrollmentsStayCoupled: requires that no effective CRM rule targets new, qualified or disqualified; for the single enrollment `Exactness.EnrolledOnceExactly` has the exact condition.
- ContactLocks.TransactionsNeverDeadlock: requires that no two keys in play share a lock around a key in play with another; `LockCollisions.NeverDeadlocksExactly` shows that this is needed.
- Punctuality.PunctualRunsAreOnTheDot: requires that nothing of the lead is resumed, since a resume reschedules the due step for now.
