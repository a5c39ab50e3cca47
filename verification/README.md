# Slipwright, modelled and proved

Slipwright takes a request through a backlog, a plan of numbered phases, and the building,
reviewing, testing and shipping of each phase, stopping at gates where a person approves. This
project models the parts of it that change state, and proves what holds over every run of them.

**The development and its run loop** (`slipwright/engine.py`, with `orchestrator/__init__.py`,
`schemas/job.py` and `roles/architect.py`). A development is a plan of phases with `depends_on`
edges, a cursor, records of phases set aside, counters and a state. What models answer, what
builds come to and what people press are inputs.

- `plan.dfy`: phases, what they need through others, and the check a plan passes.
- `reordering.dfy`: moving the unbuilt phases while the numbers they depend on follow them.
- `job.dfy`: a development as a value, and every step of the engine as a function of it.
- `safety.dfy`, `runs.dfy`: what every step keeps, and what that says of whole runs.
- `parking.dfy`: what becomes of the record of a phase set aside.
- `outcomes.dfy`: what each handler comes to, said of the builds, rounds, checks and findings
  alone; `stages.dfy`: what a development went through, over whole runs, to be where it is.
- `decisions.dfy`, `approvals.dfy`: what decisions and handlers come to together: there and back,
  refusals, and who owes the next work after an approval.
- `termination.dfy`, `runloop.dfy`: runs with nobody there come to rest while records follow
  their phases; `livelock.dfy`, `turns.dfy`, `swings.dfy`: when they do not, as the code looks
  records up, and when they still do.
- `engine.dfy`: the engine's methods, which change the stored development, up to the run loop
  itself.
- `writeahead.dfy`, `sidebyside.dfy`, `belonging.dfy`: answers written ahead of their phase's
  turn, and whose they and the records are.
- `limits.dfy`: smallest developments on which the engine falls short of what it relies on.

**Smaller parts**, each on its own: `pause.dfy` (pausing and carrying on, over a commit graph),
`retries.dfy` and `ledger.dfy` (a call's retries, and what a development has spent), `codes.dfy`
(connection codes), `jirasync.dfy` and `jiraactions.dfy` (the Jira mirror and the queue of
actions), `events.dfy` (the event bus), `costs.dfy` and `board.dfy` (cost tables and statuses).

`dafny verify dfyconfig.toml` checks the project. Automatic induction is switched off: every
induction is written out.

## Names that recur

- `uid` is the phase itself, `obj` the identity of the dictionary that holds it. The code looks
  records up by the latter; `Filing` says which of the two a run uses.
- `want` is what each phase of the plan needed when the plan was made, by `uid`: it does not
  change when phases are moved. `log` is the order phases were settled in, built green or
  accepted as finished by hand.
- `Trusted` is what the engine leaves to others: a phase that can be built here needs none that
  cannot, and a person editing a plan made again leaves its built phases as they are. Where it
  fails is said exactly by `Reordering.UnbuildableLastKeepsOrder` and `Limits.EditKeepsSettled`.

## Where the code and its comments differ

The model follows the code.

- A phase's record is meant to follow it to its new number (`slipwright/engine.py:5832-5844`),
  but is looked up by the identity of a dictionary that the move rebuilds for every phase that
  names its needs (`slipwright/engine.py:5773-5778`). So it is lost exactly then
  (`Parking.ParkFiles`), and two phases that name their needs and are independent of each other
  are tried in turn without end (`Turns.TurnsLoop`, `Limits.TwoApartGoOnForever`).
- The record of a phase set aside behind one that cannot be built here stays under its number
  when that one is moved behind it again, and is lost at the next move: the phase is tried without
  end (`Swings.SwingsLoop`). It takes a phase that names its needs and does not want another that
  can be built where it cannot, be that other independent of it (`Limits.IosSecondGoesOnForever`)
  or one that wants it (`Limits.IosFirstGoesOnForever`).
- Of a fresh plan in which nothing wants a phase that can be built in fewer places, a run can go on
  for ever exactly in these ways (`Swings.LivelockExactly`). Of other plans it can in these ways too
  (`Swings.LoopsWhere`), but not only: a move can loosen what ties two phases, and they take turns
  then (`Limits.LoosenedGoesOnForever`). In every such run each phase is built red once before it is
  set aside, so the handlers come back to the run loop and nested calls do not end it.
- Moving what cannot be built here last is called safe because nothing depends on a platform
  phase (`slipwright/engine.py:5892-5893`); a phase that says nothing of its needs depends on all
  before it (`Limits.MovedAheadOfItsNeed`). Records and answers on their way are not moved either
  (`Belonging.RecordsStayOwn`, `Belonging.AnswersStayFiled`, `Limits.AnswerForAnother`).
- Sending a plan back forgets the answers on their way but no record, and starting over forgets
  neither (`slipwright/engine.py:4474-4488`, `slipwright/engine.py:3526-3545`), though what is on
  its way is to be forgotten when its plan is going (`slipwright/engine.py:5758-5760`). A phase of
  the new plan gets the work and counters, or takes the answer, of a phase of the old plan that had
  its number (`Belonging.NewPlanRecords`, `Belonging.NewPlanAnswers`, `Limits.RecordOfAnOldPhase`,
  `Limits.AnswerOfAnOldPhase`).
- A phase's work is to be put back as it was (`slipwright/engine.py:5799-5802`); where the patch
  does not apply any more, its record is gone all the same and the patch with it
  (`Parking.UnparkRestores`).
- An automatic approval is counted before it is made, so one that is then refused is counted too
  (`slipwright/engine.py:2996-3002`; `Runs.AutoBounded`).
- A person's edit of a plan made again sets the cursor behind the kept phases whatever was edited
  (`slipwright/engine.py:2533`; `Limits.EditedPhaseIsSkipped`).
- Carrying on without a pull is refused only when somebody pushed, by its account
  (`slipwright/engine.py:3135-3139`); it is also refused when the branch on the host still ends in
  the commit an earlier pause made and took back (`PauseAndCarryOn.PausedAgainRefused`).
- The Jira mirror calls itself idempotent (`slipwright/jirasync.py:3-7`): a lost reply doubles an
  issue, an aborted pass repeats the pull request's comment, and a status whose call failed is
  not tried again (`JiraSync.LostIssueMadeAgain`, `JiraSync.LinkedTwiceExactly`,
  `JiraSync.MoveTriedOnce`).
- A truncated answer is said to be retried once (`slipwright/engine.py:4830-4831`); three smaller
  parts are asked for (`slipwright/engine.py:322-329`).
- The plan check also refuses a phase that lists one file twice
  (`slipwright/roles/architect.py:295-305`): `SharedFile(n, n, f)`.

## Model

| member | source | states |
|---|---|---|
| Plan.DependencyProblem | slipwright/roles/architect.py:266-306 | a plan is let through exactly when it is sound: unbuilt phases name only earlier ones, no phase lists a file twice, and of two phases on one file the later depends on the earlier; otherwise the problem named is really there |
| Plan.Closures | slipwright/roles/architect.py:279-294 | one pass over the phases finds, for each, exactly everything it needs through others, and stops exactly at an edge that does not point back |
| Plan.CheckFiles | slipwright/roles/architect.py:295-305 | the last owner of each file is enough to find any unordered pair on it |
| Plan.DependsOnTransitive | slipwright/roles/architect.py:291-294 | needing through others is transitive, the built phases counting for all later ones |
| Reordering.ReorderKeepsPhase | slipwright/engine.py:5765-5778 | a move keeps every phase's identity, files and platform, and the set of phases it names, and states no need it did not state before |
| Reordering.ReorderKeepsPlan | slipwright/engine.py:5765-5778 | after any move every phase and record is there once and says what the plan wants of it |
| Reordering.PlaceOrder | slipwright/engine.py:5831-5839 | two phases change places exactly when the first is moved behind and the second is not |
| Reordering.BackwardAfterMove | slipwright/engine.py:5765-5778 | edges still point back exactly when nothing is set behind a phase that names it |
| Reordering.InOrderAfterMove | slipwright/engine.py:5765-5778 | every phase still stands after all the plan wants of it exactly when nothing wanted is overtaken |
| Reordering.ParkKeepsOrder | slipwright/engine.py:5793-5839 | setting the phase in turn and all that needs it behind the rest keeps every dependency, every edge backwards and the settled phases where they are |
| Reordering.UnbuildableLastKeepsOrder | slipwright/engine.py:5889-5914 | moving what cannot be built here last keeps all that exactly when no phase that can be built wants an earlier unbuilt one that cannot |
| Engine.NeedsIt | slipwright/engine.py:5804-5813 | the single forward pass finds exactly the transitive dependents of the phase while every edge points back |
| Plan.NamerWaits | slipwright/engine.py:5810-5813 | of any arrangement, edges ahead or not: a phase that names its needs has to wait exactly when one it names, standing before it, has to |
| Engine.Reorder | slipwright/engine.py:5765-5778 | renumbering through the two identity maps puts every phase and every named need at its new place |
| Engine.Development.Park | slipwright/engine.py:5793-5865 | refuses exactly when nothing is free of the phase in turn; otherwise the whole development is as the parking step has it |
| Engine.Development.PutUnbuildableLast | slipwright/engine.py:5889-5914 | comparing the two lists moves the phases exactly when one that can be built stands behind one that cannot |
| Engine.WouldMoveCompares | slipwright/engine.py:5902-5906 | the partition differs from the present order exactly when some phase that can be built stands behind one that cannot |
| Engine.Development.Develop | slipwright/engine.py:5862-5865 | `_park` goes on with the next phase, and with records that follow their phases that ends: the handler always leaves the development in another state, as the run loop demands of it, and the invariant holds |
| Engine.Development.BuildUntilSettled | slipwright/engine.py:6009-6016 | the loop of builds ends green, lost or red exactly when one of the builds is the passing, lost or last red one that `Outcomes.GateComesTo` speaks of, with what the last correction left and all corrections counted |
| Decisions.CorrectionsBounded | slipwright/engine.py:6124-6168 | whatever QA says, it corrects its tests no more often than it may for the phase |
| Outcomes.GateComesTo | slipwright/engine.py:6003-6168 | said of the builds alone: a gate is green exactly when a build passes and every one before it was red and had its tests corrected by QA, as often as that is allowed; it is lost, or red, exactly likewise; it holds what the last correction left, and every correction is counted |
| Outcomes.GateSettles | slipwright/engine.py:6016-6066 | a gate settles the phase in turn and that one alone, with all the plan wants of it settled before, exactly when there is such a passing build and nothing is unread about it; it is reviewed next where phases are, else QA is next exactly when it was the last; otherwise cursor and log stay |
| Outcomes.RedLeads | slipwright/engine.py:6068-6122 | a gate that stays red counts one attempt and what was said of it; it has failed exactly after the last attempt, and before that it is with the specialist, the Architect from the phase in turn on, or a person, exactly as the supervisor says |
| Outcomes.UnreadLeads | slipwright/engine.py:6030-6046 | a gate that passed while somebody wrote about its phase goes to the specialist with no attempt counted and nothing committed |
| Outcomes.LostComesBack | slipwright/engine.py:6013-6016 | a gate whose builder was lost is the same gate again once a machine that can build the phase comes, with the work written and the corrections made |
| Approvals.SteeredIsReadFirst | slipwright/engine.py:4166-4176 | written to at its gate, a passing build settles nothing, and after the phase is written again nothing about it is unread |
| Decisions.ReviewComesBack | slipwright/engine.py:6309-6324 | a phase sent back by its review and built green again is in review again: same phase, one round more, no more than allowed, and settled once |
| Outcomes.ReviewLeads | slipwright/engine.py:6275-6343 | where every review leads: a person is asked exactly when blocking findings are left after the last round, the phase is in turn again exactly while rounds are left, and without blocking findings nothing is held against it and QA is next exactly when every phase is built, a phase in turn otherwise |
| Outcomes.TurnLeads | slipwright/engine.py:5457-5530 | a turn waits for a builder exactly when no phase left can be built here, for screens exactly when they are owed then, and is at its gate exactly when its phase was written, one that can be built here, with that and nothing about it unread; no phase is passed |
| Outcomes.WaitsForBuilder | slipwright/engine.py:5916-5957 | what waits for a builder is the same phase, and it goes on exactly when a machine comes that can build it |
| Decisions.PlansTaken | slipwright/engine.py:5239-5340 | the Architect's plan is taken exactly when it was not rejected too often and is sound behind the kept phases, and then goes on behind them with attempts afresh; a person's edit exactly at its gate, not empty and sound as a whole |
| Decisions.PlanSays | slipwright/engine.py:2483-2534 | a new plan says, phase for phase, what was drafted, be a phase left as it was or new |
| Decisions.ReplanSays | slipwright/engine.py:5295-5317 | a plan made again says of the kept phases what they said before, and of the others what the Architect drafted |
| Decisions.ReplanKeepsBuilt | slipwright/engine.py:4462-4489 | sent back from a phase and made again: the phases before it are the same ones, settled as they were and wanting what they wanted, it goes on behind them, and the new plan is not approved |
| Outcomes.TestsLead | slipwright/engine.py:6345-6470 | said of the rounds alone: QA's tests are put to a person exactly when in some round, with attempts left, the whole project was built green with them, every earlier round having been red, its tests written again or its code fixed as blamed; QA has failed otherwise; at the first stage the list is |
| Engine.Development.WriteTests | slipwright/engine.py:6398-6470 | the loop over writing, building, blaming and fixing comes to the tests exactly when there is such a round, and fails otherwise |
| Engine.Development.MakePlan | slipwright/engine.py:5239-5340 | a plan is taken exactly when it is sound behind the kept phases, which stay as they were |
| Engine.Development.SetPlan | slipwright/engine.py:2483-2534 | an edit is taken exactly at its gate, not empty and sound; otherwise nothing changes |
| Engine.Development.ReadPhases | slipwright/engine.py:3372-3444 | the reading has one entry for each phase left, done only where the answer says so |
| Engine.Development.AcceptReconcile | slipwright/engine.py:3330-3370 | every phase passed over was found done, the one in turn then was not, just those are logged in order, and QA is next exactly when none is left |
| Outcomes.ReadThenAccepted | slipwright/engine.py:3330-3444 | a reading and its approval together, said of the answer alone: it carries on at the first phase the answer did not find done, logs exactly those before it as done by hand, and goes to QA exactly when every phase left was found done |
| Outcomes.LeadingRunIs | slipwright/engine.py:3338-3346 | the leading run of finished phases: all of those, and not the next |
| Decisions.ApprovalRefused | slipwright/engine.py:2239-2291 | an approval is refused exactly away from a gate, where a phase's budget is the question, and where there is nothing to approve |
| Decisions.ApprovalGoesOn | slipwright/engine.py:2239-2291 | an approval leads to a working state the orchestrator allows; only at the plan's gate does it approve a plan, and there that very one |
| Approvals.ApprovalLeads | slipwright/engine.py:225-268 | whichever handler came to a gate, its approval leads to the one that owes the next work: the plan after the backlog, the Designer exactly where screens are to be drawn, the phase in turn after its screens, QA after the list of tests and after the last phase accepted or done by hand, DevOps after the tests, and who asked after a question |
| Approvals.AutoIsApproval | slipwright/engine.py:2975-3002 | the supervisor's approval is a person's with one more counted, never over the cap, never of a question; where there is nothing to approve it only counts |
| Approvals.BacklogLeads | slipwright/engine.py:5202-5237 | a backlog taken with its plan comes to what an approved one does; rejected, it is written again |
| Approvals.ScreensLead | slipwright/engine.py:2395-2437 | a phase that waits for its screens has its own turn once they are approved, and so it has once they were sent back and drawn again |
| Approvals.ListLeads | slipwright/engine.py:2293-2317 | an approved list of tests is written with every attempt left, and shipped only once built green and approved; skipped, DevOps is next with none written; written tests are not skipped |
| Approvals.DeploymentLeads | slipwright/engine.py:2319-2345 | a deployment approved or skipped is not asked about again, and the development is done exactly when its checks pass; rejected, it is proposed again |
| Approvals.BudgetLeads | slipwright/engine.py:2346-2382 | a phase out of budget with nothing free of it: an approval is refused, and an answer gives that very phase its budget again |
| Approvals.EndsForGood | slipwright/engine.py:3061-3094 | done or cancelled, nothing that comes later changes it but an approval counted in vain |
| Decisions.RejectionGoesBack | slipwright/engine.py:2346-2382 | whichever handler came to a gate, a rejection there goes back to the state it came from, but for screens, which are drawn again, a reviewed phase, which goes back to the specialist and is in turn again, and a question after a red build; it is counted but for screens, reviews and questions, a reviewed phase has its rounds and a phase out of budget its calls again, and nothing else is touched |
| Decisions.RejectionRefused | slipwright/engine.py:2346-2382 | a rejection is refused exactly away from a gate |
| Decisions.RejectedTooOften | slipwright/engine.py:2346-2382 | after the last rejection allowed, the handler it goes back to gives up |
| Decisions.PauseRoundTrip | slipwright/engine.py:3130-3178 | paused and carried on with nothing brought it is where it was, to every counter; with something brought it is read first, exactly while phases are being built and some are left; no pause within a pause |
| Decisions.QuestionAnswered | slipwright/engine.py:4451-4458 | a question answered, yes or no, leaves the development where it was asked |
| Decisions.RedirectGoesBack | slipwright/engine.py:2741-2810 | a person has the plan made again exactly where it may be, from the phase in turn on, with nothing settled or set aside touched |
| Decisions.RedirectKeepsBuilt | slipwright/engine.py:2780-2810 | the plan made then keeps every phase built before, settled as it was, and goes on behind them |
| Decisions.DoorsAgree | slipwright/engine.py:4491-4514 | a phase is planned anew exactly at a stop for its budget, and a redirect there comes to the same |
| Decisions.RetryRoundTrip | slipwright/engine.py:3446-3488 | failed and retried it is where it failed, from a build gate with the specialist, its counters afresh and nothing planned, built or set aside touched |
| Decisions.StartedOverBuildsAnew | slipwright/engine.py:3490-3550 | started over and planned again, every phase of the new plan is unsettled, all are walked again with counters afresh and QA lists its tests anew, while the log stays |
| Outcomes.ShippingLeads | slipwright/engine.py:6805-6897 | said of the checks alone: a deployment is put to a person exactly when one is proposed and none decided on; otherwise it is done exactly when the checks pass after red ones that were all fixed, as often as that is allowed, and has failed when not, pending ones included |
| Engine.Development.WaitForChecks | slipwright/engine.py:6855-6897 | the loop over the pull request's checks ends done exactly when they pass so, and failed otherwise |
| Engine.Development.Run | slipwright/engine.py:4081-4164 | the run loop ends, at a gate or an end, with the invariant kept, having made of the development exactly so many rounds of handlers and supervisor |
| RunLoop.HandlerGoesOn | slipwright/engine.py:4119-4144 | in every working state the handler there can go on from whatever comes in: no run is stuck in one |
| RunLoop.ReachesRest | slipwright/engine.py:4106-4156 | with nobody there, and records that follow their phases, it reaches a gate or an end, whatever comes in |
| Safety.StepKeeps | slipwright/engine.py:4106-4156 | every step keeps the invariant and is one the orchestrator lets through; it extends the log only under an approved plan, and only its gate approves a plan |
| Safety.ParkKeeps | slipwright/engine.py:5793-5865 | parking keeps the plan, its order and all that is settled |
| Safety.NewPlanKeeps | slipwright/engine.py:5295-5317 | a plan made again leaves what is settled settled and wants of no kept phase anything else |
| Safety.HandKeeps | slipwright/engine.py:3330-3370 | phases accepted as done by hand are settled in an order that respects what they need |
| Runs.SettledInOrder | slipwright/engine.py:6047-6066 | over every run, whatever is settled is settled after everything the plan wanted for it: the commit order is a linear extension |
| Runs.LogOnlyGrows | slipwright/engine.py:6055-6061 | over every run nothing settled is unsettled |
| Runs.NothingSkipped | slipwright/engine.py:6055-6066 | over every run the cursor stays in the plan, every phase behind it is settled, and from QA on that is all of them |
| Runs.BuiltOnlyApproved | slipwright/engine.py:2239-2291 | over every run, every building state, seen through pauses, questions and failures, and every phase settled, comes after an approval of that very plan with those very phases |
| Runs.AutoBounded | slipwright/engine.py:2975-3002 | over every run the supervisor's approvals are no more than were counted, and those no more than the cap, also where one was counted and then refused |
| Stages.SettledForCause | slipwright/engine.py:3330-3370 | over every run, each phase logged as built was in turn at a gate one of whose builds passed, and each logged as done by hand was found done, with all left before it, by the reading that was accepted |
| Stages.TestedBeforeShipped | slipwright/engine.py:2245-2317 | over every run, wherever it is DevOps' turn, seen through pauses, questions and failures, the tests were left for it before: skipped as a list, or written, built green with the whole project and approved |
| Stages.TurnIsThere | slipwright/engine.py:6063-6066 | over every run, where a plan that leaves a phase to build is developed, there is a phase in turn: no passing gate, review or reading leaves the development with none |
| Runs.RecordConserved | slipwright/engine.py:5830-5853 | filed by the phase itself, a record stays with its phase as it was through any steps and later parks, until its turn, its settling, a new plan or phases moved past it |
| Parking.ParkFiles | slipwright/engine.py:5830-5845 | after a park the phase's own record is under its new number, and another's is under its phase's new number exactly when it survives: filed by phase, or naming no needs |
| Parking.RecordStays | slipwright/engine.py:5793-5887 | the same over any one step, filed by the phase itself |
| Parking.UnparkRestores | slipwright/engine.py:5867-5887 | at its turn every counter is back, and the work where its patch applies; where not, no record holds it any more; the record is gone for good, every other stays and the person is asked |
| Parking.RecordLeftBehind | slipwright/engine.py:5889-5907 | when phases are set last a record is still its own phase's exactly when nothing moved past that phase |
| Termination.StepLeaves | slipwright/engine.py:4106-4156 | filed by the phase itself, every step with nobody there leaves less: approvals, state, unsettled phases, phases not set aside, rounds, messages, attempts |
| Termination.ParkLeavesLess | slipwright/engine.py:5793-5865 | where records follow, a park leaves fewer phases not set aside |
| Termination.RunStops | slipwright/engine.py:4081-4164 | filed by the phase itself, no run goes on for ever in such steps |
| Swings.LivelockExactly | slipwright/engine.py:5765-5907 | with records looked up as they are, and a plan in which nothing wants a phase that cannot be built wherever it can itself: an unattended run of the plan once approved, be it the first or made again behind kept phases, can go on for ever exactly when two unbuilt phases name their needs and neither wants the other, or one that names its needs does not want one that can be built where it cannot; and exactly then it can come back to the run loop again and again |
| Swings.LoopsWhere | slipwright/engine.py:5765-5907 | that condition is enough of any plan, whatever its phases want of each other's platforms |
| Swings.ApprovedIsFresh | slipwright/engine.py:5295-5317 | what the Architect's plan is once approved is what those two speak of: index where the kept phases end, and the phases standing as numbered |
| Swings.SwingsLoop | slipwright/engine.py:5793-5907 | wherever such a pair stands, the run that swings without end, a red build gate between any two phases set aside |
| Swings.AloneIs | slipwright/engine.py:5889-5893 | what the exact condition asks of the plan is what the engine trusts the Architect with: whatever can be built anywhere at once, it wants nothing that cannot |
| Turns.TurnsLoop | slipwright/engine.py:5793-5865 | wherever two phases that name their needs do not have to wait for each other, the run in which they take turns without end, a red build gate between any two phases set aside |
| Livelock.TiedComesToRest | slipwright/engine.py:5804-5815 | where all unbuilt phases that name their needs are tied, none can be set behind one it does not want, and nothing wants a phase that can be built in fewer places, every unattended run rests, however machines come and go |
| Livelock.FiledByPhaseComesToRest | slipwright/engine.py:5832-5844 | looked up by the phase itself, as the comment asks, every unattended run of any plan rests, whatever is moved past what wants it |
| Livelock.WantedIsNeeded | slipwright/engine.py:5765-5778 | what a phase wanted through others it still depends on, whatever was moved since |
| Limits.EditKeepsSettled | slipwright/engine.py:2483-2534 | after an accepted edit the phases behind the cursor are settled exactly when every kept phase was left as it was |
| Limits.EditedPhaseIsSkipped | slipwright/engine.py:2533-2534 | a development on which an edited phase is never built |
| Limits.TwoApartGoOnForever | slipwright/engine.py:5834-5844 | a fresh plan of two phases that is tried without end |
| Limits.MovedAheadOfItsNeed | slipwright/engine.py:5889-5907 | a plan of two phases whose second is moved ahead of what it needs |
| Limits.IosSecondGoesOnForever | slipwright/engine.py:5889-5907 | a fresh plan of two phases, the ones that name their needs all tied and platforms wanted by none, that is tried without end |
| Limits.IosFirstGoesOnForever | slipwright/engine.py:5889-5907 | a fresh plan of two phases the plan's check accepts, the second wanting the first, that is tried without end |
| Limits.LoosenedGoesOnForever | slipwright/engine.py:5889-5907 | a fresh plan of five phases the check accepts, tied and with none that can swing, that is tried without end all the same |
| Limits.AnswerForAnother | slipwright/engine.py:5725-5735 | a development whose answer on its way stands under another phase's number |
| Limits.RecordOfAnOldPhase | slipwright/engine.py:4474-4488 | a development whose plan is sent back and made again, and whose new phase has an old one's record |
| Limits.AnswerOfAnOldPhase | slipwright/engine.py:3526-3545 | a development started over and planned again, whose new phase will take an old one's answer |
| WriteAhead.Answers.WriteAhead | slipwright/engine.py:5648-5701 | exactly the first ready phases there is room for are started, each once, and what was on its way stays |
| WriteAhead.NeverTooMany | slipwright/engine.py:5669-5671 | never more answers unfinished than one less than the limit, unless more already were |
| WriteAhead.ChosenAre | slipwright/engine.py:5674-5694 | the ones started are ready, new and in plan order, and none ready is passed over while there is room |
| WriteAhead.StartableDependsOnBuilt | slipwright/engine.py:5672-5681 | a phase started ahead depends on nothing but committed phases, so not on the one in turn or another in flight |
| WriteAhead.Answers.Take | slipwright/engine.py:5725-5756 | an answer is taken once, and while answers are under their own phases' numbers, for the phase it was started for |
| Belonging.AnswersStayFiled | slipwright/engine.py:5889-5914 | setting phases last leaves every answer its phase's exactly when it moved past no phase with one |
| Belonging.RecordsStayOwn | slipwright/engine.py:5889-5914 | and every record likewise |
| Belonging.NewPlanRecords | slipwright/engine.py:4474-4488 | when a plan is made again, every record is its own phase's exactly when all of them are of phases left as they were |
| Belonging.NewPlanAnswers | slipwright/engine.py:3526-3545 | and every answer on its way likewise |
| Belonging.RecordsOwnOverRuns | slipwright/engine.py:5830-5887 | over every run, however filed, each record is its own phase's for as long as no such step misplaced one |
| Belonging.FiledOverRuns | slipwright/engine.py:5725-5756 | over every run with answers beside it, each answer is under its own phase's number for as long as no such step misfiled one, so it is taken for the phase it was started for |
| Belonging.PlanFindsNoAnswers | slipwright/engine.py:5758-5763 | over every run, a plan made without starting over finds no answer on its way |
| SideBySide.SideBySideOverRuns | slipwright/engine.py:5656-5663 | over every run, however its plan was moved about, a phase that may be started ahead shares no file with an unbuilt one before it |
| SideBySide.SoundIsTied | slipwright/roles/architect.py:274-277 | the check of a plan ties any two new phases on one file by what they want |
| PauseAndCarryOn.PushedRoundTrip | slipwright/engine.py:3130-3178 | paused with a push that went through and carried on without a pull: never refused, same state, phase, commit and working tree |
| PauseAndCarryOn.UnpushedRoundTrip | slipwright/engine.py:3236-3284 | without that push it is refused exactly when the host's branch has commits this one has not, and otherwise is where it was |
| PauseAndCarryOn.PausedAgainRefused | slipwright/engine.py:3260-3284 | after such a round trip a pause without a push is refused, with nobody pushing, exactly when the first had something to commit |
| PauseAndCarryOn.PullBringsItBack | slipwright/engine.py:3286-3320 | and a pull then brings that commit back |
| PauseAndCarryOn.PullComesTo | slipwright/engine.py:3286-3320 | exactly when a pull cannot be synced, brings nothing, conflicts or brings something, which is read first while phases are left; where it brings nothing no commit is made and the working tree stays |
| PauseAndCarryOn.PullLosesNothing | slipwright/engine.py:3286-3320 | a pull that fails leaves the checkout as it was; one that succeeds has both sides behind it and leaves nothing to pull |
| PauseAndCarryOn.PausedKeeps | slipwright/engine.py:3212-3258 | a pause keeps the working tree and all the branch had behind it, and what it pushes is all there was |
| PauseAndCarryOn.UnwoundKeeps | slipwright/engine.py:3260-3271 | the pause's commit is taken back only while nothing was built on it, nothing else goes, and the working tree stays |
| PauseAndCarryOn.CarriedKeeps | slipwright/engine.py:3130-3178 | however it is carried on or refused to be, the checkout and what is noted of the pause stay in order |
| Retries.CallWithRetries | slipwright/engine.py:4826-4929 | at most retries + 1 + 3 attempts, ended at the first that ends it, tokens of all attempts, silent timeouts counted, waits at most 2^retries - 1 times the first |
| Retries.PastRetriesAreCuts | slipwright/engine.py:4891-4916 | attempts past the retries are only ever for a smaller part |
| Retries.OverExactly | slipwright/engine.py:4891-4916 | a call is over exactly with an answer, with an error no retry helps, when a truncated answer cannot be made smaller again, or when the retries are spent |
| Retries.WaitsDouble | slipwright/engine.py:4917-4929 | so many retries in a row have waited 2^n - 1 times the first wait |
| Retries.SilentCounts | slipwright/engine.py:4869-4875 | the unreported attempts are exactly those that timed out and said nothing of what they cost |
| Retries.BurnedIsTheSum | slipwright/engine.py:4876-4880 | the tokens are the sums over all attempts that reported any |
| Retries.BurnedKnown | slipwright/engine.py:4841-4856 | no tokens are said exactly when no vendor said any |
| Ledger.JobSpend.Account | slipwright/engine.py:4990-5041 | the totals stay the sums over the log |
| Ledger.JobSpend.BillAnswers | slipwright/engine.py:5043-5063 | every owed answer is added once, in order |
| Ledger.EveryRunConserves | slipwright/engine.py:2686-2705 | over every interleaving of run and answering threads the totals are the sums over the log, and at rest each answer is either unbilled or in the log once |
| Ledger.CrashConserves | slipwright/engine.py:5062-5063 | a crash keeps that exactly when no answer is saved and not marked yet |
| Codes.CodeRoundTrip | slipwright/workers.py:111-143 | every code reads back as the address and secret packed into it |
| Codes.OnlyThatNumber | slipwright/workers.py:124-143 | whatever reads as an address and secret stands for their number |
| Codes.LengthKept | slipwright/workers.py:136 | a nonzero first byte keeps the number of bytes |
| Codes.AddressRoundTrip | slipwright/workers.py:146-184 | every address a code can carry is unpacked as it was packed |
| Codes.AddressFromItsBytes | slipwright/workers.py:167-184 | nothing but an address's own bytes unpacks to it |
| Codes.TypedReadsTheSame | slipwright/workers.py:124-143 | dashes and spaces anywhere, either case, and O, I or L for what they look like change nothing |
| Codes.Pack | slipwright/workers.py:111-121 | the loop prints the digits of the payload's number |
| Codes.Unpack | slipwright/workers.py:124-143 | the loop reads the number, or the first character that is none |
| JiraSync.PassKeeps | slipwright/jirasync.py:52-70 | whichever calls fail, keys are the issues Jira acknowledged, parents are the keys of the tree's parents, marks are the comments posted, once |
| JiraSync.PassAsksRight | slipwright/jirasync.py:106-248 | whatever a pass asks of Jira the job says: an issue for an item there is, under the issue of its epic or story, a move to the status the item has, a comment on the issue it is about |
| JiraSync.SettledAfter | slipwright/jirasync.py:52-70 | after a pass that was not aborted every item has its issue and its status noted, and every comment there is an issue for is posted |
| JiraSync.OneIssueEach | slipwright/jirasync.py:106-142 | over any passes an item has two issues only where the reply to a creation was lost |
| JiraSync.OneCommentEach | slipwright/jirasync.py:204-248 | over any passes a review or failure is commented once for every reply that came |
| JiraSync.AnotherPassIsIdle | slipwright/jirasync.py:52-70 | after a pass that was not aborted, another over the same job calls Jira for nothing |
| JiraSync.MoveTriedOnce | slipwright/jirasync.py:181-192 | an issue is moved exactly when there is a transition Jira did not refuse, and is not tried again |
| JiraSync.LinkedTwiceExactly | slipwright/jirasync.py:198-203 | over any passes, an issue is linked a second time exactly when a pass had linked it and was aborted before the mark was set, and a later pass gets to it again |
| JiraSync.LinkedWhereReached | slipwright/jirasync.py:198-202 | linking goes through the keys in the order of their texts, and gets to an issue exactly when Jira replied for every issue whose key's text comes before and does not refuse this one |
| JiraSync.LinkPostedTwice | slipwright/jirasync.py:198-203 | passes after which one issue has the pull request's comment twice |
| JiraSync.LostIssueMadeAgain | slipwright/jirasync.py:113-120 | a creation whose reply was lost is made again exactly when the next is not refused |
| JiraSync.IssueMadeTwice | slipwright/jirasync.py:113-120 | passes after which one item has two issues |
| JiraSync.Sync.Run | slipwright/jirasync.py:52-70 | the loops of a pass make of the mirror what the pass is |
| JiraActions.RetryConserves | slipwright/jiraactions.py:93-114 | every queued entry is tried once in order and is done, waiting in its place with one try more, or given up after its last |
| JiraActions.RetryKeeps | slipwright/jiraactions.py:93-143 | every entry has been tried one to four times, and nothing outside the project is asked |
| JiraActions.RunKeeps | slipwright/jiraactions.py:60-91 | actions directly asked passed the permission and project checks, with one outcome each |
| JiraActions.RunConserves | slipwright/jiraactions.py:60-91 | actions asked for have one outcome each in order: skipped exactly when done before, refused exactly when the role may not, an issue is outside or no client is there; all others were asked of Jira, and are done or wait in the queue, and nothing else is |
| JiraActions.QueueEmpties | slipwright/jiraactions.py:105-113 | four retries leave nothing that was queued |
| JiraActions.NoClientDropsAll | slipwright/jiraactions.py:93-128 | without a client a retry refuses and drops the whole queue |
| JiraActions.ActionRunner.Run | slipwright/jiraactions.py:60-91 | the loop over a role's actions |
| JiraActions.ActionRunner.RetryQueued | slipwright/jiraactions.py:93-114 | the loop over the queue, its entries taken out and put back |
| Events.EventBus.Since | slipwright/events.py:79-89 | exactly the visible events after an id among those remembered |
| Events.EventBus.CatchUp | slipwright/events.py:79-89 | a reader no more than the history behind misses nothing and gets nothing twice |
| Events.EventBus.Publish | slipwright/events.py:62-72 | the history stays the end of the log, and every queue what its reader may see, in order and complete while it never overran |
| Events.EventBus.Read | slipwright/events.py:96-107 | a reader takes its queue's events in order |
| Events.ShownAre | slipwright/events.py:49-51 | what is shown are the visible events under their own ids, ascending |
| Events.ShownToWhom | slipwright/events.py:49-51 | an event is shown exactly to its owner, to readers for nobody, and to all where it has no owner |
| Costs.Group | slipwright/costs.py:195-213 | one row for each name there is, with exactly its calls added up |
| Costs.ByPhase | slipwright/costs.py:205-213 | the rows by phase, one for each phase or state there is, add up to all calls, tokens, unpriced and on-plan counts and cost |
| Costs.ByRole | slipwright/costs.py:195-202 | the rows by role, one for each role there is, add up to exactly the calls that have a role |
| Costs.CountsAllExactly | slipwright/costs.py:195-202 | a table counts every call exactly when every call has a name in it |
| Costs.TotalIs | slipwright/costs.py:195-213 | each figure of a total is the sum over its calls: what a subscription paid for costs nothing, and a call without a price is counted instead of costed |
| Costs.JobCost | slipwright/costs.py:299-343 | spent, unpriced and on-plan figures counted apart equal those totals; with no calls logged, spent is the total stored |
| Board.StatusesInOrder | slipwright/board.py:97-123 | in phase order done, then at most one under way or failed, then to do |
| Board.DoneIsSettled | slipwright/board.py:97-123 | a task shown as done has its phase settled |
| Board.StatusExactly | slipwright/board.py:97-123 | under an approved plan a task is done exactly when its phase is behind the cursor and not under review, under way exactly while it is written, built or reviewed, and never failed |
| Board.StatusFollows | slipwright/board.py:97-123 | a task under way at its gate is done exactly when a build there passed with nothing unread and no review ahead, and failed when the gate failed |
| Board.StatusBefore | slipwright/board.py:97-105 | until its plan is approved no task of a development is begun |
| Board.RollupIs | slipwright/board.py:126-135 | a story has failed exactly when one of its tasks has, is done exactly when it has tasks and all are, and to do exactly when none is begun |
| Board.NestedIsFlat | slipwright/board.py:126-135 | rolling up by story and epic is rolling up all tasks, except where a story is empty and every task is done |

## Left out

- `rerun`, the hand-run of tests, documents or shipping on a finished development: it enters states without the approvals the rest goes through.
- The halts a run looks for in the middle of a handler: a pause, a stop or a re-plan takes effect between handlers here.
- The budget of the whole development, the loop check's hashes and the calls counted for a phase: they are inputs, as a handler that failed, looped or ran out.
- The parts an answer comes in: a turn is one step with the outcome they lead to.
- Role prompts and answers, standards, translation, notes and history: text nobody branches on.
- Screens and their approvals: an input says whether some still wait; DevOps' two stages are modelled without the scripts.
- Approvals.DeploymentLeads: without the scripts, an approved one that may not be written, whose deployment the code proposes again, is left out.
- Persistence: a save is one step, and ids are new.
- The display projections `pipeline.py`, `steps.py`, `activity.py` and `building.py`, and accounts, mail, quotas, CLI and web pages.
- `approval_edges` is not modelled apart: its table is in `ApproveStep` and `RejectStep` (`job.dfy`).
- Safety.StepKeeps: takes `Trusted` for granted; without it two steps fail, exactly as `Reordering.UnbuildableLastKeepsOrder` and `Limits.EditKeepsSettled` say.
- Runs.RecordConserved: for records looked up by the phase itself; as the code looks them up `Parking.ParkFiles` says exactly which are lost.
- Termination.RunStops: for records looked up by the phase itself and trusted steps; `Livelock.FiledByPhaseComesToRest` needs no trust, and as the code looks records up `Swings.LivelockExactly` says when a fresh plan's run rests.
- Swings.LivelockExactly: the exact condition of plans in which something wants a phase that can be built in fewer places is open; `Swings.LoopsWhere` holds of them, and `Limits.LoosenedGoesOnForever` shows it is not all.
- Engine.Development.Run: for records looked up by the phase itself; that a builder is there when it starts, and halts asked for between handlers, are events of their own.
- WriteAhead.Answers.Take: while answers are under their own phases' numbers; `Belonging.FiledOverRuns` says through which steps they are.
- SideBySide.SideBySideOverRuns: for two phases the plan in force added, not for kept ones sent back to be reworked.
- PauseAndCarryOn.PullLosesNothing: takes for granted that a conflicting merge leaves the checkout as it was; a development without a worktree or a remote is not modelled.
- Retries.CallWithRetries: a stop between attempts raises, and the tokens of the attempts before it are not billed; the waits are in units of the first.
- Codes.CodeRoundTrip: starts from a parsed address and takes the check byte as any function; upper-casing is that of ASCII letters.
- JiraSync.LinkedWhereReached: no two issues have one key; the texts of the keys are Jira's, and an input.
- JiraSync.AnotherPassIsIdle: the sprint, which is asked for again in every pass while none was found, has no place in a pass.
- JiraSync.PassKeeps: putting stories into a sprint and correcting issue types are not modelled; an issue's text is left out.
- JiraActions.RunKeeps: an action returned again while it waits in the queue is asked again, as in the code; only done ones are skipped.
- Events.EventBus.Publish: events are published one after another; two at once may reach a queue in either order.
- Costs.Group: the order rows are sorted in is not modelled; `timed_out` figures count different calls in a job and in its rows.
- Ledger.EveryRunConserves: the spend of a job is written only by whoever holds its lock.
