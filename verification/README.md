# Dizzy: a Dafny model and its proofs

This project models the stateful and algorithmic core of Dizzy and proves properties of it:

- the **order reconciler** (`dizzy_poll_deliver.mjs`, `lib/order_fulfillment.mjs`, `lib/reconcile_batch.mjs`):
  an append-only, content-addressed artifact directory per order, from which every pass rebuilds its facts and
  picks one action of the ladder intake, candidate, QC, upload, delivery;
- the **concurrent supervisor and pattern cache** of the Go port (`core/prototypes/go/dizzy_spec.go`);
- the **mechanism sieve, keyword matchers and capability rules** in the C++, Rust, Go and Python ports;
- four **dashboard algorithms** (`dashboard/dashboard.js`): HTML escaping, the cost/accuracy frontier, the
  conversation key, and the dropping of stale replies.

## How the reconciler is modelled

`Artifacts` has the records, `ArtifactStore` the directory as an object with files, `Fulfillment` preparation and
assessment of candidates, `Reconciler` one pass as a function, and `OrderReconciler` and `OrderBatch` the program
itself: methods that load, derive, decide and write step by step, over one order and over a whole batch, each proved to
change the durable state exactly as the function says. `Invariant` and `Preservation` hold the inductive invariant;
`Safety`, `Origins`, `Bounds`, `Tightness`, `Liveness`, `Recovery`, `Deliverable`, `SameRequest`, `Quiescence` and
`Fleet` the results. `PolicyGate` and `Decisions` write out the policy and one whole pass from the records alone, in
every situation a reachable store can be in; `SieveMeaning` and `ChatMemory` do the same for the sieve's results and the
chat's keys and messages.

A run is any sequence of passes. Each pass comes with its own polled order, mode, allowlist entries, view of the
prepared files, replies of the two services, and interruption: none, a crash before any one of its effects, or a crash
in the middle of any one write, which leaves a half-written file. A failed call is a missing reply. The world keeps the
intact records in the order of their first writing, the half-written files, and the external calls ever made.

## What comes out

The intended guarantees hold, with these limits, each proved exactly:

- **What a crash leaves possible.** An order is frozen when an exchange of its current candidate is half done: the
  upload or the delivery was announced, whole or half-written, and has no result, or the upload replied without a URL
  or media type. While the passes ask for the same request a frozen order only collects notes (`Recovery.FrozenIff`,
  `Recovery.FrozenForever`).
- **Which orders can still be delivered.** Take any store that passes over an order, and over others that share its
  directory, can leave behind, with n candidates prepared. If something was delivered from it, nothing else ever is.
  Otherwise passes over the order that keep to one given request can deliver it if and only if its id has no
  surrounding whitespace, the policy admits the request, and:
  - when the latest candidate is for this order and this request and has not failed QC: it is not frozen, and n < cap;
  - when it is for this request and has not failed QC but belongs to another order: it has not passed QC either, and
    n + 1 < cap (a passed one blocks this order for good);
  - when there is no such candidate to continue: n + 1 < cap (`SameRequest.StoresThatCanStillDeliverFor`).

  When the customer may also change the request, the order can be delivered if and only if its id has no surrounding
  whitespace and either n + 1 < cap, or n + 1 = cap and the latest candidate is for this order and has neither failed
  QC nor frozen (`Deliverable.StoresThatCanStillDeliver`). So a frozen order needs another request
  (`SameRequest.FrozenNeedsAnotherRequest`).
- From each rung of the ladder, crashes behind it or not, and also after a candidate that failed QC, as many willing
  passes as there are rungs left complete the order (`Liveness.WillingPassesFinish`).
- The last candidate that the iteration cap permits is never quality-checked, so a new order can be delivered if and
  only if the cap is at least two (`Deliverable.DeliverableIffCapAtLeastTwo`).
- "One delivery per order" is one delivery *record*. While the request stays the same there is also at most one
  delivery *call*; when the brief changes after a failed call there can be another. The calls of either kind number
  fewer than the cap and at most one more than the changes of the request, and for every number below the cap some run
  makes exactly that many (`Bounds.ExternalCallsAreBounded`, `Tightness.BoundsAreAttained`,
  `Tightness.DeliveryCallsIff`).
- A record left half-written by a crash is never completed, and if it announced a call that call is never made
  (`Safety.TornRecordsStayTorn`).
- The directory is named after the order id as polled, the prepared files and the candidate record after the trimmed
  id. Over all runs that poll a given set of ids no call key is used twice anywhere, if and only if no two of the ids
  are equal up to surrounding whitespace but name different directories (`Fleet.CallsOncePerKeyIff`).
- Different ids can name one directory, as `a.b` and `a_b` do; of such orders at most one is ever delivered. Some run
  delivers both of two orders if and only if neither id has surrounding whitespace, they name different directories
  and the cap is at least two (`Fleet.BothDeliveredIff`).
- The built-in Rust table lists the ownership phrase among the capture keywords and the procedural Rust code does
  not; the exact family of proposals on which the two forms differ is `Sieve.OnlyOwnershipInCaptureRisk`. The two
  Python forms match governance words differently and warn differently on some proposals (`Sieve.PythonFormsDiffer`).
- In the mode that generates without delivering, an order gets its candidate and its quality check as in manual mode,
  and never a call (`Decisions.ThreePassesCheck`, `Safety.UnattendedRunsMakeNoCall`).
- No candidate and no call ever comes from a pass whose brief is blank or mentions one of the nine restricted phrases as
  words of their own, in any case (`PolicyGate.WorkComesFromPermittedBriefs`).
- After a logout no reply sent under the old key is shown or saved again, unless storage refused to give up the key or
  the same key is made again (`ChatMemory.LogoutSilencesKey`, `ChatMemory.LogoutForgetsKey`).
- A conversation key set by a reset is stable exactly when it is well formed, that is, when the random suffix has at
  least four characters, which the program does not guarantee.
- Path points of the frontier are never both dearer and less accurate than another point; a point of accuracy below
  -1 is never drawn.

## Model

| member | source | states |
|---|---|---|
| ArtifactStore.Directory.AppendArtifact | dizzy_poll_deliver.mjs:73-92 | a repeated write reuses the file and changes nothing, a torn file makes the write fail, a crash leaves nothing or one torn file, a new record ends the log; no existing file ever changes |
| ArtifactStore.Directory.WriteCanonicalState | dizzy_poll_deliver.mjs:64-71 | rewriting the state file, even half-way, leaves the artifacts and what later passes load unchanged |
| ArtifactStore.Directory.LoadArtifacts | dizzy_poll_deliver.mjs:94-131 | from any listing order, loading gives per type exactly the chronological log; exactly the torn files are parse errors |
| ArtifactStore.ReadingRecoversLog | dizzy_poll_deliver.mjs:109-131 | grouping and stable sorting by creation time recovers the order of first writing |
| ArtifactStore.Directory.AppendEach | dizzy_poll_deliver.mjs:73-92 | any number of writes, each with its own crash or none, leaves exactly the intact and the half-written records that folding the single writes gives |
| ArtifactStore.LogIsFirstWrites | dizzy_poll_deliver.mjs:73-92 | in that fold the first write of a payload that was not cut off before it touched the file decides for good: the log is the payloads first written whole, in that order, and torn are those first written by half |
| ArtifactStore.LatestIsNewest | dizzy_poll_deliver.mjs:73-92 | the latest record of a type is the one added by the last write that added a record of this type; repeating an older record does not make that one the latest |
| StableSort.SortIsStable | dizzy_poll_deliver.mjs:127-129 | sorting orders by key, keeps every element, and keeps equal keys in their order |
| Fulfillment.SanitizedIs | lib/order_fulfillment.mjs:18-20 | letters, digits, underscores and hyphens are kept, every other character becomes an underscore |
| Fulfillment.PreparedIs | lib/order_fulfillment.mjs:74-119 | a candidate is prepared exactly when the id, both files, readable metadata and a real, unflagged model are there; every field of its record, written out from the order and the two files |
| Fulfillment.RefusalIff | lib/order_fulfillment.mjs:74-96 | preparation is refused with exactly the first thing wrong in the order of the checks, and its path |
| Fulfillment.IssuesAreExact | lib/order_fulfillment.mjs:121-155 | each of the thirteen issues is listed exactly when it applies |
| Fulfillment.EligibleIff | lib/order_fulfillment.mjs:121-155 | a candidate has no issue exactly when it is for this order and request, names a real model, and its two files are present in the order's directory, the first a non-empty PNG |
| Fulfillment.PreparedPassesAssessment | lib/order_fulfillment.mjs:74-155 | preparation and assessment agree: a fresh candidate has no issue exactly when its file is not empty |
| Fulfillment.RunQc | dizzy_poll_deliver.mjs:265-289 | the QC record names its candidate, is PASS exactly when the assessment finds no issue, and records the issues, existence, type and size of the file |
| Reconciler.LatestForIsLast | dizzy_poll_deliver.mjs:133-160 | the latest record for a target is the last one of its group that refers to it |
| OrderReconciler.OrderReconciler.Append | dizzy_poll_deliver.mjs:73-92 | one artifact write under any crash does to the durable state what the pass semantics says |
| OrderReconciler.OrderReconciler.RunExchange | dizzy_poll_deliver.mjs:349-401 | intent, call, completion in this order; stops at a torn file, a failed call or a crash at any point |
| OrderReconciler.OrderReconciler.ExecuteGenerate | dizzy_poll_deliver.mjs:309-324 | candidate or diagnostic, as planned |
| OrderReconciler.OrderReconciler.ExecuteUpload | dizzy_poll_deliver.mjs:332-362 | gates of the upload, then the exchange |
| OrderReconciler.OrderReconciler.ExecuteDeliver | dizzy_poll_deliver.mjs:364-402 | gates of the delivery, then the exchange |
| OrderReconciler.OrderReconciler.ExecuteAction | dizzy_poll_deliver.mjs:290-407 | executing the chosen action performs exactly its plan |
| OrderReconciler.OrderReconciler.ReconcileOrder | dizzy_poll_deliver.mjs:409-440 | a pass that loads, derives, decides and executes changes the durable state as the pure step says, under any crash, and ends, throws or dies exactly when it should |
| OrderReconciler.OrderReconciler.ReconcileAll | dizzy_poll_deliver.mjs:442-460 | so does any number of passes |
| OrderBatch.OrderBatch.ReconcileIn | dizzy_poll_deliver.mjs:56-62 | a pass in one directory leaves the files and calls of every other directory unchanged |
| OrderBatch.OrderBatch.ReconcileOrderBatch | lib/reconcile_batch.mjs:1-17 | every order of the batch is reconciled whichever others throw, until the process dies, and the result list says how each ended |
| PolicyGate.PolicyIs | dizzy_poll_deliver.mjs:35-42 | the decision and the reasons from the brief, the number of candidates and the cap: each restricted phrase written out, found ignoring case with no word character beside it |
| PolicyGate.RestrictedBriefsOnlyTakeNotes | dizzy_poll_deliver.mjs:196-223 | passes with blank or restricted briefs write nothing but notes and make no call, in any store, mode and crash |
| PolicyGate.WorkComesFromPermittedBriefs | dizzy_poll_deliver.mjs:196-223 | every candidate and every call of a run comes from a pass with a permitted brief |
| Decisions.NamelessOrder | dizzy_poll_deliver.mjs:409-411 | an order without an id is passed over |
| Decisions.DeliveredOrder | dizzy_poll_deliver.mjs:193-220 | an order marked delivered in any case, or with a delivery on record, is only noted |
| Decisions.NewOrder | dizzy_poll_deliver.mjs:137-146 | a new order is taken in with exactly what was polled, its brief trimmed |
| Decisions.RefusedOrder | dizzy_poll_deliver.mjs:196-223 | a blank or restricted brief or a used-up cap is noted with its decision and reasons |
| Decisions.CandidateDue | dizzy_poll_deliver.mjs:309-324 | without a current candidate, with one for another request or with a failed one: a dry run notes it, either working mode records the prepared asset as the next candidate or notes the first thing wrong with it |
| Decisions.CheckDue | dizzy_poll_deliver.mjs:326-330 | an unchecked current candidate is checked in either working mode, and what the record then says; a dry run notes it |
| Decisions.AmbiguousUploads | dizzy_poll_deliver.mjs:227-227 | an announced upload without result is noted, never repeated |
| Decisions.UploadDue | dizzy_poll_deliver.mjs:332-362 | a passed candidate never announced is uploaded, or what keeps it is noted; with what every crash in between leaves, and how the pass ends |
| Decisions.AmbiguousDeliveries | dizzy_poll_deliver.mjs:229-229 | an announced delivery without result is noted, never repeated |
| Decisions.DeliveryDue | dizzy_poll_deliver.mjs:364-402 | an upload never announced for delivery is delivered under the polled id, or what keeps it is noted; with what every crash in between leaves, and how the pass ends |
| Decisions.SituationsCoverAll | dizzy_poll_deliver.mjs:219-232 | every reachable store is in one of these situations |
| Decisions.ThreePassesCheck | dizzy_poll_deliver.mjs:290-330 | three crash-free passes over a new order, in either working mode, leave exactly its intake, the candidate described by its files, and its passed check, and no call |
| Preservation.UploadNotYetAnnounced | lib/order_fulfillment.mjs:5-12 | no unresolved upload and no upload record means the candidate was never announced and never called for |
| Preservation.DeliveryNotYetAnnounced | lib/order_fulfillment.mjs:5-12 | the same for deliveries of the latest upload |
| Preservation.AllowedMeansBelowCap | dizzy_poll_deliver.mjs:196-217 | an allowing policy means fewer candidates than the cap, although the policy waives the cap after a passed QC |
| Preservation.DeliveryIsSeen | dizzy_poll_deliver.mjs:147-194 | any delivery on record is seen as the delivery of the latest upload, whatever the order says now |
| Preservation.StepKeepsInv | dizzy_poll_deliver.mjs:219-440 | every pass keeps the invariant, whatever the order, mode, replies and crash |
| Preservation.RunKeepsInv | dizzy_poll_deliver.mjs:409-460 | every store reachable by any run satisfies it |
| Safety.RunGrows | dizzy_poll_deliver.mjs:73-92 | no run removes, changes or reorders a record or forgets a call |
| Safety.TornRecordsStayTorn | dizzy_poll_deliver.mjs:79-82 | a record torn by a crash is never completed, and if it is an intent its call is never made |
| Safety.AtMostOneCallPerKey | dizzy_poll_deliver.mjs:349-401 | over every run at most one upload call per candidate and one delivery call per upload, each with its durable intent |
| Safety.CapIsNeverExceededAndIsTerminal | dizzy_poll_deliver.mjs:196-232 | the candidates never exceed the cap, and once they reach it no QC, upload, delivery or call ever follows |
| Safety.DeliveryIsFinal | dizzy_poll_deliver.mjs:219-232 | at most one delivery record; after it no pass ever adds a candidate, QC, pending, upload or delivery record or makes a call |
| Safety.ClosedForever | dizzy_poll_deliver.mjs:219-232 | a store with its cap used up or with a delivery stays so, and only notes are added |
| Safety.StepCalls | dizzy_poll_deliver.mjs:332-402 | a pass makes at most one call, in manual mode, for an admissible brief, with a candidate assessed for this order, and delivers only allowlisted orders |
| Safety.EveryCallHasItsPass | dizzy_poll_deliver.mjs:332-402 | every call of a run was made by a pass entitled to it |
| Safety.UnattendedRunsMakeNoCall | dizzy_poll_deliver.mjs:332-367 | without a manual pass no external call is ever made |
| Safety.DryRunsOnlyTakeNotes | dizzy_poll_deliver.mjs:300-330 | a run wholly in dry-run mode leaves only intake and diagnostic records |
| Safety.Provenance | dizzy_poll_deliver.mjs:265-407 | every record was written after the records it depends on; one QC and one upload per candidate; uploads passed QC; a delivery repeats its upload's URL |
| Safety.DeliveriesWereOrdered | dizzy_poll_deliver.mjs:364-402 | every delivery was made by a manual pass for an allowlisted order asking for the delivered request |
| Origins.EveryRecordHasItsPass | dizzy_poll_deliver.mjs:265-407 | the content of every record comes from one pass of the run: the polled order, the prepared files, the checks, the URL and media type replied by the upload service, the status replied by the delivery service; whoever announced, uploaded or delivered had assessed the candidate without issue |
| Bounds.ExternalCallsAreBounded | dizzy_poll_deliver.mjs:147-232 | the calls of either kind number fewer than the cap and at most one more than the changes of the request |
| Bounds.ConstantRequestCallsOnce | dizzy_poll_deliver.mjs:147-232 | while the request stays the same at most one upload and one delivery call are made in the whole run, crashes included |
| Recovery.FrozenIff | dizzy_poll_deliver.mjs:178-191 | an undelivered order whose candidate passed QC is frozen exactly when one of its exchanges is half done: announced, whole or half-written, without result, or uploaded without URL or media type |
| Recovery.FrozenForever | DESIGN.md:143-148 | while the passes ask for the same request a frozen order only collects notes: no record of work, no call, in any mode, with any replies, assets and crashes |
| Liveness.Climb | dizzy_poll_deliver.mjs:219-362 | from any store a crash-free pass takes an order from its rung to the next unless the next record is half-written, on the first two rungs in either working mode and on the third in manual mode: a candidate when there is none, when the latest is for another request or when it failed QC, then its QC, then its upload |
| Liveness.WillingPassesFinish | dizzy_poll_deliver.mjs:219-407 | from each rung, the retry after a failed QC among them, as many willing passes as there are rungs left make exactly the outstanding calls and complete the delivery when the service answers |
| Liveness.FivePassesDeliver | dizzy_poll_deliver.mjs:219-440 | five willing passes deliver a new order |
| Deliverable.StoresThatCanStillDeliver | dizzy_poll_deliver.mjs:147-407 | exactly in which stores, reached by any passes over this and other orders, some further passes over the order can deliver it, when these may also change the request |
| SameRequest.StoresThatCanStillDeliverFor | dizzy_poll_deliver.mjs:147-407 | for every order and request, exactly in which stores, reached by any passes over this and other orders, some further passes over the order that all ask for this request can deliver it |
| SameRequest.NoFutureForever | dizzy_poll_deliver.mjs:196-232 | in a store where that condition fails no passes over the order that keep to the request ever deliver, whatever their mode, replies, assets and crashes |
| SameRequest.InadmissibleIsNeverDelivered | dizzy_poll_deliver.mjs:196-217 | passes that all ask for a request the policy does not admit never deliver, from any undelivered store |
| SameRequest.OthersCandidateIsReplaced | lib/order_fulfillment.mjs:131-132 | an unchecked candidate of another order of the directory is rejected by QC and replaced, and the order can be delivered |
| SameRequest.FrozenNeedsAnotherRequest | DESIGN.md:143-148 | a frozen candidate is never delivered for its request, and its order for another exactly while fewer than cap - 1 candidates were prepared |
| Deliverable.DeadForever | dizzy_poll_deliver.mjs:196-232 | a store at its cap, or one below it with no candidate, a failed one or a frozen one, is never delivered, by passes over any order |
| Deliverable.DeadForForever | lib/order_fulfillment.mjs:131-132 | nor, by passes over one order, one below the cap with a candidate of another order |
| Deliverable.DeliveredIdsAreTrimmed | dizzy_poll_deliver.mjs:16-21 | only ids without surrounding whitespace are ever delivered, because the allowlist holds trimmed ids |
| Deliverable.DeliverableIffCapAtLeastTwo | dizzy_poll_deliver.mjs:196-232 | a new order can be delivered exactly when the cap is at least two |
| Tightness.BoundsAreAttained | dizzy_poll_deliver.mjs:147-232 | for every number below the cap some run makes exactly that many upload and delivery calls, with one change of the request fewer |
| Tightness.DeliveryCallsIff | dizzy_poll_deliver.mjs:147-232 | the possible numbers of delivery calls of a run are exactly zero and those below the cap |
| Tightness.SecondDeliveryCallIff | dizzy_poll_deliver.mjs:147-232 | over two requests without a delivery reply some run makes two delivery calls exactly when the cap is at least three |
| Quiescence.FactsIgnoreDiagnostics | dizzy_poll_deliver.mjs:147-194 | the facts do not depend on the diagnostics |
| Quiescence.StepProgress | dizzy_poll_deliver.mjs:219-440 | a crash-free pass changes nothing, or settles the store, or uses up some of a bounded potential |
| Quiescence.RepeatedPassesSettle | dizzy_poll_deliver.mjs:409-460 | from any reachable store, after 2 * cap + 2 repetitions of one crash-free pass nothing changes any more and no call is made |
| Quiescence.SettledMeansReused | dizzy_poll_deliver.mjs:79-82 | in a settled store every pass reuses its artifact, or stops at that very file torn |
| Fleet.DirectoriesAreIndependent | dizzy_poll_deliver.mjs:56-62 | each order directory ends up as if the passes over its own orders had been the only ones |
| Fleet.CallsOncePerKeyIff | dizzy_poll_deliver.mjs:56-62 | which sets of polled ids keep every call key apart across all directories and runs, exactly |
| Fleet.ClashUploadsTwice | lib/order_fulfillment.mjs:74-78 | two ids equal up to whitespace with different directories upload one candidate from both |
| Fleet.ClashExamples | lib/order_fulfillment.mjs:74-78 | such ids exist, and untrimmed ids alone are harmless |
| Fleet.SharedDirectoryDeliversOne | lib/order_fulfillment.mjs:18-20 | of two orders whose ids map to one directory at most one is ever delivered |
| Fleet.BothDeliveredIff | lib/order_fulfillment.mjs:18-20 | which two different orders some run can both deliver, exactly |
| Fleet.SharedDirectoryExample | lib/order_fulfillment.mjs:18-20 | different ids that share a directory exist |
| Text.TrimSplits | core/prototypes/cpp/dizzy_spec.cpp:37-42 | trimming splits the text into whitespace, the result, and whitespace, with no whitespace at the result's ends |
| Text.LowerIs | core/prototypes/cpp/dizzy_spec.cpp:45-49 | lower-casing, letter by letter |
| Text.AlnumIs | core/prototypes/cpp/dizzy_spec.cpp:52-67 | the characters that count as part of a word, letter by letter |
| Text.SpaceIs | core/prototypes/cpp/dizzy_spec.cpp:37-42 | the whitespace characters, by code point |
| Text.TrimLowerCommute | core/src/dizzy_core_spec.rs:293-294 | lower-casing before trimming and after trimming give the same text |
| Matchers.ContainsKeywordAsWord | core/prototypes/cpp/dizzy_spec.cpp:52-67 | true exactly when an occurrence ignoring case with non-alphanumeric neighbours exists; all indices in range |
| Matchers.RegexIsStandingAlone | core/prototypes/python/dizzy_spec.py:14-24 | the regex matches exactly where the keyword occurs ignoring case with no word character on either side |
| Matchers.RegexIsCppAwayFromUnderscores | core/prototypes/python/dizzy_spec.py:14-24 | the regex matches exactly when some C++ match does not touch an underscore |
| Matchers.RegexImpliesCpp | core/prototypes/python/dizzy_spec.py:14-24 | a regex match implies a C++ match; on underscore-free text they coincide |
| Matchers.CppImpliesSubstring | core/src/dizzy_core_spec.rs:293-298 | a C++ match implies a substring match on lower-cased text |
| Matchers.MatchersDiffer | core/prototypes/cpp/dizzy_spec.cpp:52-67 | inputs on which the three matchers disagree |
| Sieve.ContainsAnyWord | core/prototypes/cpp/dizzy_spec.cpp:261-266 | the early-exit keyword loop finds a hit exactly when some keyword matches |
| Sieve.CollectMissing | core/prototypes/cpp/dizzy_spec.cpp:234-248 | the blank fields, in order |
| Sieve.CppValidateMechanismSieve | core/prototypes/cpp/dizzy_spec.cpp:228-324 | the procedural C++ validator returns the specified result |
| Sieve.CppValidateSieve | core/prototypes/cpp/dizzy_spec.cpp:433-509 | the table-driven C++ validator returns the specified result for every table |
| Sieve.Contains | core/src/dizzy_core_spec.rs:296-298 | the search finds a substring exactly when there is one |
| Sieve.ContainsAny | core/src/dizzy_core_spec.rs:296-298 | the search over a keyword list succeeds exactly when some keyword is a substring |
| Sieve.RustValidateSieve | core/src/dizzy_core_spec.rs:502-563 | the table-driven Rust validator returns the specified result for every table |
| Sieve.RustValidateMechanismSieve | core/src/dizzy_core_spec.rs:272-337 | the procedural Rust validator returns the specified result |
| SieveMeaning.HitIff | core/src/dizzy_core_spec.rs:293-298 | what each port's keyword test finds in the text as given, with the neighbours it allows |
| SieveMeaning.DeclarativeIs | core/prototypes/cpp/dizzy_spec.cpp:433-509 | for every port and table: the blank fields in order, else each check with its lengths and keywords, the findings in order, the verdict and the caution |
| SieveMeaning.ProceduralIs | core/prototypes/cpp/dizzy_spec.cpp:228-324 | the same for the procedures, with every length and keyword written out |
| SieveMeaning.DefaultsAre | core/prototypes/cpp/dizzy_spec.cpp:362-390 | the same for the built-in tables, with the Rust table's extra phrase |
| Sieve.ReportIsExact | core/prototypes/cpp/dizzy_spec.cpp:433-509 | each finding is reported exactly when it applies, the verdict is that none does, and the caution is given exactly when no appeal path is mentioned |
| Sieve.CppFormsAgree | core/prototypes/cpp/dizzy_spec.cpp:368-390 | on the default table both C++ forms return the same result for every proposal |
| Sieve.RustFormsCompared | core/src/dizzy_core_spec.rs:436-443 | the table-driven Rust form rejects whatever the procedural one rejects; when results and verdicts differ, exactly |
| Sieve.RustFormsDiffer | core/src/dizzy_core_spec.rs:436-443 | a proposal on which their results differ |
| Sieve.RustVerdictsDiffer | core/src/dizzy_core_spec.rs:436-443 | a proposal that the procedural form accepts and the table-driven one rejects |
| Sieve.PythonFormsCompared | core/prototypes/python/dizzy_spec.py:203-271 | both Python forms agree on errors and verdict; their warnings differ exactly when an appeal is mentioned only inside longer words |
| Sieve.PythonFormsDiffer | core/prototypes/python/dizzy_spec.py:425-480 | a proposal on which they warn differently |
| Sieve.StricterRulesRejectMore | core/prototypes/cpp/dizzy_spec.cpp:433-509 | growing forbidden or bad tables or the minimum length, or shrinking the good table, only adds findings |
| Sieve.OnlyKeywordSetsMatter | core/prototypes/cpp/dizzy_spec.cpp:433-509 | order and repetition of keywords are irrelevant |
| Sieve.PortsOrdered | core/prototypes/go/dizzy_spec.go:236-256 | what Go and Python find C++ finds, and what C++ finds Rust finds |
| Sieve.TableChecksOrdered | core/prototypes/python/dizzy_spec.py:425-480 | on any plain table a Python exit or capture rejection is one in C++, and one in C++ is one in Rust |
| Sieve.PythonAndCppTablesAgree | core/prototypes/python/dizzy_spec.py:425-480 | without underscores both return the same result on any plain table |
| GoSieve.ValidateMechanismSieve | core/prototypes/go/dizzy_spec.go:258-359 | the Go validator returns the specified result, whatever patterns are cached already |
| Sieve.ProceduralChecksOrdered | core/prototypes/go/dizzy_spec.go:298-321 | for every proposal an exit or capture rejection by the Go procedure is one by the C++ procedure, and one by that is one by the Rust procedure |
| Sieve.MetricsChecksCompared | core/src/dizzy_core_spec.rs:313-325 | on any plain table exactly when the metrics checks of C++ and Rust differ, in either direction |
| Sieve.MetricsChecksAreIncomparable | core/src/dizzy_core_spec.rs:313-325 | both differences occur |
| Sieve.GoAndCppAgree | core/prototypes/go/dizzy_spec.go:258-359 | without underscores the Go and C++ procedures return the same result |
| Sieve.DefaultRulesArePlain | core/src/dizzy_core_spec.rs:436-443 | the built-in tables meet the premise of these comparisons |
| Capabilities.ZoneIs | core/src/dizzy_core_spec.rs:64-91 | which caller is in which zone, exactly |
| Capabilities.ResolvedIs | core/src/dizzy_core_spec.rs:452-499 | for every table each field from the last rule for this zone and mode that sets it, the access flags from the baseline alone, and nothing for a zone without one |
| Capabilities.DefaultsAre | core/src/dizzy_core_spec.rs:102-134 | what the default rules give each zone and mode |
| Capabilities.GetCapabilities | core/prototypes/cpp/dizzy_spec.cpp:392-431 | the override loop computes the specified resolution |
| Capabilities.LastSetIsLast | core/src/dizzy_core_spec.rs:477-488 | each field has the value of the last matching rule that sets it, else the baseline's |
| Capabilities.OverridesCompose | core/src/dizzy_core_spec.rs:477-488 | concatenated override lists compose |
| Capabilities.RedundantRulesMayBeDropped | core/src/dizzy_core_spec.rs:477-488 | a rule each of whose fields is set again by a later matching rule may be dropped |
| Capabilities.UnmatchedRuleIsShadowed | core/src/dizzy_core_spec.rs:477-488 | a rule that does not match counts as such a rule |
| Capabilities.DefaultAgreesWithProcedural | core/src/dizzy_core_spec.rs:102-134 | on the default rules both forms resolve every zone and mode alike |
| Capabilities.PortsResolveAlike | core/src/dizzy_core_spec.rs:64-91 | the C++ and the Rust zone resolution agree on every input |
| Capabilities.RepoAccessNeedsTrust | core/prototypes/cpp/dizzy_spec.cpp:105-123 | whatever the overrides, who gets repository and memory access, exactly |
| Escape.EscapeIsPerCharacter | dashboard/dashboard.js:1-9 | the five successive replacements are one simultaneous per-character map |
| Escape.EscapeIsSafe | dashboard/dashboard.js:1-9 | the output has no angle bracket and no quote |
| Escape.BrowserShowsText | dashboard/dashboard.js:1-9 | reading the output as HTML, with what each reference stands for there, gives back every text |
| Escape.UnescapeUndoesEscape | dashboard/dashboard.js:1-9 | undoing the replacements in reverse order restores the text |
| Escape.EscapeIsInjective | dashboard/dashboard.js:1-9 | different texts escape differently |
| Escape.EscapingTwice | dashboard/dashboard.js:1-9 | escaping twice equals escaping once exactly when there is nothing to escape |
| Frontier.DrawFrontier | dashboard/dashboard.js:1776-1785 | the sweep draws exactly the frontier of the points sorted by spend |
| Frontier.FrontierMembers | dashboard/dashboard.js:1779-1784 | a point is drawn exactly when nothing before it in the stable spend order is strictly more accurate and its accuracy is at least -1 |
| Frontier.FrontierIsSound | dashboard/dashboard.js:1776-1785 | the path moves to its first point and draws lines from there, and rises in spend and accuracy; left-out points are beaten by drawn ones; drawn points are not both dearer and less accurate |
| Frontier.DrawnIffNoCheaperIsMoreAccurate | dashboard/dashboard.js:1776-1785 | with distinct spends a point is drawn exactly when no cheaper point is more accurate |
| Conversation.ChatSurface.constructor | dashboard/dashboard.js:1252-1263 | a loaded page shows the history that session storage holds, when it can be read |
| Conversation.ChatSurface.CurrentKey | dashboard/dashboard.js:1102-1118 | the key look-up with its fallbacks, under failing storage |
| Conversation.ChatSurface.SaveMessage | dashboard/dashboard.js:1155-1171 | the last fifty messages, or no change when storage fails |
| Conversation.ChatSurface.StartSend | dashboard/dashboard.js:1305-1322 | a send captures key and generation |
| Conversation.ChatSurface.ReceiveReply | dashboard/dashboard.js:1358-1389 | a reply is dropped when the generation or the key changed |
| Conversation.ChatSurface.OnReset | dashboard/dashboard.js:1429-1438 | a reset bumps the generation and makes a new authoritative key |
| Conversation.ChatSurface.OnLogout | dashboard/dashboard.js:1440-1449 | a logout forgets the key and leaves the generation |
| Conversation.ChatSurface.Handle | dashboard/dashboard.js:1305-1463 | any event changes the page as the pure step says |
| Conversation.StaleRepliesAreDropped | dashboard/dashboard.js:1361-1363 | no reply to a send started before a reset is rendered or saved after it, in any interleaving and under any storage behaviour |
| Conversation.ReplyShownIffSentSinceReset | dashboard/dashboard.js:1361-1381 | after a reset with a well-formed key, until the next reset or logout, a reply is rendered exactly when its send started after the reset |
| Conversation.ResetKeyIsStable | dashboard/dashboard.js:1093-1122 | a well-formed reset key is returned by every look-up until the next reset or logout, whatever storage does |
| Conversation.LookUpIsStable | dashboard/dashboard.js:1102-1118 | once a look-up could read session storage, the next one returns the same well-formed key even if storage then fails |
| Conversation.IllFormedKeyIsLost | dashboard/dashboard.js:1102-1118 | an ill-formed one is never returned by a look-up that makes a different key |
| Conversation.NewKeyIsWellFormedIff | dashboard/dashboard.js:1084-1091 | a new key is well formed exactly when the clock has 8 to 20 digits and the suffix 4 to 32 characters |
| Conversation.HistoryIsRecent | dashboard/dashboard.js:1155-1171 | over whatever history a page loads with, the stored history is always a run of the most recent messages, at most fifty unless it is still the one loaded |
| ChatMemory.IsKeyIff | dashboard/dashboard.js:1084-1086 | which texts are conversation keys, part by part |
| ChatMemory.SendIsKept | dashboard/dashboard.js:1305-1322 | a send shows and stores its text and remembers the key and the view |
| ChatMemory.ReplyIsShownIff | dashboard/dashboard.js:1358-1389 | a reply is shown and stored exactly when its send still waits, in this view and under the key in use |
| ChatMemory.HistoryIsRemoved | dashboard/dashboard.js:1124-1131 | a clear, a reset and a logout leave no stored history when storage lets it go |
| ChatMemory.LogoutForgetsKey | dashboard/dashboard.js:1440-1449 | the look-up after a logout makes a new key, unless storage refused to give up a well-formed one that can be read |
| ChatMemory.LogoutDropsReplies | dashboard/dashboard.js:1358-1389 | a reply arriving after a logout is shown only if its send was made in this view under the very key made now |
| ChatMemory.LogoutSilencesKey | dashboard/dashboard.js:1440-1449 | after a logout no reply sent under the old key is ever shown or saved, through any further events that do not bring that key back |
| ChatMemory.StoredKeyIsUsed | dashboard/dashboard.js:1102-1118 | a page that made no reset uses the well-formed key it finds in storage |
| ChatMemory.FirstKeySurvivesReload | dashboard/dashboard.js:1093-1118 | the first well-formed key a page looks up, found or newly stored, is used after the page is loaded again |
| ChatMemory.ResetKeySurvivesReload | dashboard/dashboard.js:1093-1122 | a well-formed reset key taken by storage is used after the page is loaded again |
| PatternCache.DirectIs | core/prototypes/go/dizzy_spec.go:236-256 | a search answers whether the keyword compiles and stands alone somewhere in the text |
| PatternCache.CacheHoldsSearched | core/prototypes/go/dizzy_spec.go:231-256 | when every caller is done the cache holds exactly the searched keywords that compile |
| PatternCache.Cache.ContainsKeywordAsWord | core/prototypes/go/dizzy_spec.go:236-256 | a cached search answers as an uncached one and only adds the keyword's pattern |
| PatternCache.CachedSearchIsDirect | core/prototypes/go/dizzy_spec.go:231-256 | in every interleaving cached patterns are those compiled from their keys, answers equal the uncached ones, and no read overlaps a write |
| PatternCache.SomeCallerCanStep | core/prototypes/go/dizzy_spec.go:231-256 | no deadlock, also when waiting writers block new readers |
| PatternCache.EveryRunEnds | core/prototypes/go/dizzy_spec.go:231-256 | every interleaving ends within nine steps a caller, and only with every answer given |
| Supervisor.ResultsAreFinal | core/prototypes/go/dizzy_spec.go:383-439 | when the supervisor returns every slot was written exactly once, with a value of its own proposal or a timeout after its timer expired, and is never written again |
| Supervisor.EveryOutcomeIsPossible | core/prototypes/go/dizzy_spec.go:383-439 | for every choice of late proposals some interleaving returns timeouts in exactly their slots and the others' own outcomes |
| Supervisor.SendsNeverBlock | core/prototypes/go/dizzy_spec.go:393-422 | the send into the channel of capacity one never blocks |
| Supervisor.EveryRunEnds | core/prototypes/go/dizzy_spec.go:383-439 | every interleaving has at most 15 steps a proposal and two more, and stops exactly when the supervisor returned and every evaluation ended, even if no timer fires |

## Left out

- SHA-256, canonical JSON and the truncation of keys to 20 hex digits: a key is modelled by what it digests, so keys are assumed not to collide.
- Wall-clock time: creation times are assumed strictly increasing; several writes within one millisecond or a clock set back are not modelled.
- Several reconciler processes on one directory: the code takes no lock, and the at-most-once results are for one process.
- Changes of the prepared files during a pass: a pass sees one snapshot of them. Reading the file inside `uploadFile` is counted as part of the call.
- A prepared `candidate.json` that itself carries an artifact `type` field would be loaded as an artifact; such metadata is excluded.
- Parse errors are returned apart from the diagnostics; the facts depend on neither.
- The content of `state.json`, which no pass reads.
- The error objects in the batch's result list and the error callback, which cannot stop later orders.
- The text form of the allowlist: its entries are given as a set and trimmed as the program does.
- A non-numeric iteration cap (the code would then never block); the cap is a natural number.
- Unicode: text is ASCII, with the C++ whitespace set (JavaScript's ASCII whitespace for the reconciler and the dashboard), and lengths count characters.
- Regular expressions other than a literal between two word boundaries; keywords that fail to compile are an arbitrary set.
- Real time in the supervisor: a timer may expire at any moment after it is armed, and the sleep of a slow task ends at any moment.
- One evaluation is one step of the supervisor's model; the shared pattern cache inside it is the subject of `PatternCache`.
- The zero value of the Go result slice is modelled as an absent result.
- Not-a-number spends and accuracies, and the coordinates and text of the drawn path.
- Decay curves, which need real powers, and the continuity-mode parser, which adds only easy members.
- Polling, HTTP, form data, login, telemetry panels and the rest of the dashboard, the Redis queue, the mailbox and the routing policy.
