# CMDB verification model

A Dafny model of the parts of IPT CMDB where several functions, screens or requests have to agree:
the relationship graph behind impact analysis, the dashboard's tables, the life of a change from
draft to closure, and the N-central wizard's overlapping requests. `dafny verify dfyconfig.toml`
checks everything.

## How it is organised

| files | subject |
|---|---|
| `Graph`, `Relationships`, `Lists`, `Text`, `Ordering`, `Tally` | paths and reachability, relationship records, and the list, text, sorting and counting vocabulary the rest shares |
| `DependencyGuard`, `RelationshipRaces` | the stack search that guards `depends_on`, the duplicate guard, the store behind them, and requests that overlap |
| `BusinessScope`, `ScopeSets`, `ImpactSnapshot` | the queue searches: dashboard scopes, the browser's traversal and its sets, and the impact snapshot frozen with a change |
| `Dashboard`, `DashboardTables`, `DashboardSystems`, `DashboardSnapshot` | what the dashboard counts and in which order it shows it |
| `AttentionFacts`, `TableFacts` | the same told from the assets: who needs attention and why, and what each cell of the tables counts |
| `ChangeRecord`, `ChangeLifecycle`, `ChangeEdits`, `ChangeServer`, `StoredChanges` | the change record, the requests it accepts and what each stores, many clients at once, and the log of the records they store |
| `SignOff`, `SignOffBatches`, `SignOffCover`, `SignOffOrder`, `SignOffRaces` | external approval through links while requests overlap: what always holds, who was asked, when approvals cover the plan, and two runs that go wrong |
| `Closure`, `ClosureGate`, `ClosureWizard`, `ChangeClosing` | the closure checklist in the browser, the gate on the server, and their agreement |
| `ReviewDemands`, `StoredClosure` | what both ask for, demand by demand, and what of an assessment is stored |
| `Diagnostics`, `PreviewCounters` | the N-central wizard: newest request wins, counters follow the list |
| `DeviceChoices`, `DevicePage`, `DeviceRuns` | its device step: which answers are shown for the selected customer, the component, and two sessions with late answers |
| `GridLayout` | the fallback grid of the relationship map |

Worklist searches, table building and component callbacks are methods and classes, proved against
functions; paths, protocols and records are functions and datatypes with lemmas.

## What the model takes as given

- Assets have distinct ids, companies have distinct ids, and stored relationships have both ends.
- Dates arrive as days from today, and the stale flag of an asset arrives decided.
- Impact analysis answers a change update with one value, or rejects its scope; the answer is part of the request.
- `Array.sort` and `list.sort` are stable sorts by the stated key. `Ordering.StableSortIsUnique` shows that this fixes the result.
- Options and diagnostics concern the customer they were asked for, a run concerns the customer of the policy it runs, and the customer mapping does not change.
- In `DependencyGuard` each request takes effect at once, and `ChangeLifecycle` speaks of lineages, in which each version answers the one before it. In `RelationshipRaces`, `ChangeServer`, `StoredChanges` and the `SignOff` modules requests overlap as the server lets them; `RelationshipRaces.InTurnIsGuarded` and `StoredChanges.LogLinkedExactlyWhenRevisionsMatch` connect the two views.

## What turned out not to hold

- The server compares `expectedRevision` when it reads a change and writes under its lock later, without comparing again (backend/main.py:12983-13001). Two accepted requests can therefore overwrite each other. `ChangeServer.BothAcceptedOneLost` is such a run, and `ChangeServer.NothingLostExactlyWhenRevisionsMatch` says when nothing is lost. The implemented plan was still approved in that very run: `ChangeServer.EveryInterleavingApprovedItsPlan`.
- The relationship guards read the list before the store is locked (backend/main.py:4449-4464), so two requests can close a cycle together: `RelationshipRaces.TwoEarlierReadsCanCycle`. `RelationshipRaces.KeptExactlyWhenGuardsStillPass` says when the store stays free of cycles and duplicates.
- So records stored one after another need not answer one another: `StoredChanges.LogLinkedExactlyWhenRevisionsMatch` says exactly when they do. Without that, planning can return after the start (`StoredChanges.PlanningCanReturn`), a back-out can be forgotten before the review it demands (`StoredChanges.BackOutCanBeForgotten`), and a return to impact review can be passed over (`StoredChanges.ReviewCanBeSkipped`).
- A batch of approval links can go out after the plan it was checked for was edited, and approve the edited plan (backend/main.py:13083-13122): `SignOffRaces.LateBatchApprovesUnseenPlan`. `SignOffCover.CoveredExactlyWhenWritesFit` gives the exact condition on the writes, and `SignOffOrder.OrderlyRunsAreCovered` an order of work that meets it.
- The server looks for links before the locked write (backend/main.py:13244-13265), so an approval by hand can pass over links sent meanwhile: `SignOffRaces.LateApprovalPassesTheLinks`, with the exact conditions in `SignOffOrder.LinksAloneApprove` and `SignOffOrder.OvertakenExactly`.
- A saved policy replaces the one on the screen even when another customer has been selected since (frontend/src/NcentralIntegration.tsx:2818-2819), and syncing it runs the first customer's policy and shows its preview under the second: `DeviceRuns.LateSaveStrays`. `DeviceChoices.PolicyBelongsExactly`, `OnlySyncsStray` and `RunsBelongExactly` give the exact conditions; the progress panel's own filter hides such a run (`DeviceChoices.FilterHidesStrays`), the preview below it has none.
- Linking a device takes one off one counter but removes every item with its id (frontend/src/NcentralIntegration.tsx:2986-3004): `PreviewCounters.LinkingTwinsMiscounts`. The counters stay true exactly when at most one item carries the id: `PreviewCounters.LinkKeepsCountsExactly`.
- A superseded options answer for the customer still selected replaces the newer cached one behind the screen (frontend/src/NcentralIntegration.tsx:2751-2754): `DeviceRuns.ReturningCanAgeTheCache`, with the exact condition in `DeviceChoices.InStepExactly`.
- Sharing between business systems is not symmetric: `ScopeSets.SharingIsOneWay`. `ScopeSets.WhenSharingIsMutual` says exactly when it is.

The impact snapshot and the dashboard each have a table of relationship types, and the two differ on types
that neither lists. No such relationship can be stored, so the two agree: `ImpactSnapshot.SnapshotAgreesWithMap`.

## Model

| member | source | states |
|---|---|---|
| DependencyGuard.WouldCreateDependencyCycle | app.py:1010-1025 | the search answers yes exactly when the new edge's head reaches its tail along `depends_on`; in an acyclic store that is exactly when the edge would close a cycle, itself included; it pops at most one more node than there are edges although the stack repeats nodes |
| Graph.AddArcAcyclic | app.py:1010-1011 | an edge closes a cycle in an acyclic graph exactly when its head already reaches its tail |
| DependencyGuard.RelationshipStore.Create | backend/main.py:4436-4464 | the answer to a creation request, refusal by refusal, and that only an admitted one extends the stored list |
| DependencyGuard.RelationshipStore.Delete | backend/main.py:4468-4486 | exactly the relationships with the id leave, or none if there is none or its source asset is missing, and the caller learns which |
| DependencyGuard.AdmittedExactly | backend/main.py:4438-4458 | a request is admitted exactly when both items are known, different and of one company, type and policy are known, nothing stored says the same in either guarded sense, and a dependency closes no cycle |
| DependencyGuard.WithoutKeeps | src/cmdb/repository.py:2823-2825 | a deletion takes out every relationship with the id and keeps the others in order |
| DependencyGuard.EveryRunKeepsTheGraph | app.py:989-1025 | any run of creations and deletions keeps dependencies acyclic, stores no duplicate (in either direction for symmetric types), and holds at most n(n-1)/2 dependencies over n assets |
| Graph.AcyclicArcBound | app.py:1010-1025 | an acyclic graph over n nodes has at most n(n-1)/2 edges |
| RelationshipRaces.WriteCycles | backend/main.py:4463-4464 | a write leaves an acyclic store acyclic exactly when the cycle guard would pass on the list written to |
| RelationshipRaces.WriteDuplicates | src/cmdb/repository.py:2778-2799 | a write merges a plain repetition, and so makes a duplicate exactly when a symmetric relationship is already stored the other way round |
| RelationshipRaces.InTurnIsGuarded | backend/main.py:4436-4486 | requests whose reads and writes do not overlap do exactly what the guarded store does |
| RelationshipRaces.EarlierRead | backend/main.py:4449-4464 | a verdict on an earlier read is right for the list written to if no dependency was stored in between |
| RelationshipRaces.KeptExactlyWhenGuardsStillPass | backend/main.py:4449-4464 | in any interleaving of guarded creations and deletions the store is always free of cycles and duplicates exactly when each write found a list on which its guards would pass again |
| RelationshipRaces.TwoEarlierReadsCanCycle | backend/main.py:4449-4464 | two requests that both read the empty list are both admitted and together form a cycle |
| BusinessScope.DashboardBusinessScope | app.py:1238-1261 | the search returns exactly the scope and dequeues each member once |
| BusinessScope.SearchWithin | app.py:1253-1261 | the queue search finds a closed set that holds the start and lies in every closed set that does |
| BusinessScope.ScopeIsLeast | app.py:1238-1261 | a scope is the least set with the system that is closed under reversed impact edges |
| BusinessScope.ScopeIsForwardImpact | app.py:1242-1261 | an item is in scope exactly when impact propagates from it to the system |
| BusinessScope.TraverseImpact | frontend/src/topology.ts:58-80 | the browser's traversal returns the reachable items in the asked direction, without the start |
| BusinessScope.DashboardAndBrowserAgree | frontend/src/topology.ts:82-91 | the dashboard's scope is the browser's reverse traversal plus the system, and membership reads the same forwards and backwards |
| BusinessScope.WorklistsAgree | app.py:1010-1025 | over live `depends_on` edges the stack search's cycle answer for (f, t) is membership of f in the queue search's scope of t |
| BusinessScope.ScopeOfMember | app.py:1253-1261 | the scope of a member lies inside the scope |
| BusinessScope.ScopeGrows | app.py:1253-1261 | more relationships only widen scopes |
| BusinessScope.OnlyImpactCounts | app.py:1242-1248 | informational and non-traversing relationships never change a scope |
| BusinessScope.ScopeStaysVisible | app.py:1285-1290 | with both ends of every relationship visible, intersecting a scope with the visible assets removes nothing |
| ScopeSets.FocusedSupportIds | frontend/src/Relationships.tsx:549-551 | the focused system with its upstream traversal is the dashboard's scope of it |
| ScopeSets.SharedBusinessSystemIds | frontend/src/Relationships.tsx:552-559 | the loop collects exactly the other systems some supporting item propagates to |
| ScopeSets.BusinessScopeIds | frontend/src/Relationships.tsx:560-567 | the loop collects the focused scope and, when sharing is shown, the scopes of shared systems |
| ScopeSets.InViewIs | frontend/src/Relationships.tsx:549-567 | an item is in view exactly when impact from it reaches the focused system, or, with sharing shown, another system that shares an item with it |
| ScopeSets.SharedBusinessAppCounts | frontend/src/Relationships.tsx:568-577 | a chip appears exactly on supporting non-systems that affect another system, with their number |
| ScopeSets.BusinessVisibleIds | frontend/src/Relationships.tsx:588-596 | the systems and the items that affect at least two of them are visible, and nothing else |
| ScopeSets.ViewIsClosed | frontend/src/Relationships.tsx:560-567 | the view is closed under upstream support with sharing on or off |
| ScopeSets.ChipsCountSharedSystems | frontend/src/Relationships.tsx:552-577 | every system counted on a chip is among the shared systems |
| ScopeSets.VisibleMeansShared | frontend/src/Relationships.tsx:588-596 | the systems a non-system item affects are its dashboard memberships, so it is visible exactly when the dashboard counts it as shared |
| ScopeSets.SharedMeansCommonSupport | frontend/src/Relationships.tsx:552-559 | a system is shared exactly when an item other than that system supports both |
| ScopeSets.WhenSharingIsMutual | frontend/src/Relationships.tsx:552-559 | two systems see each other alike exactly when a third item supports both or direct support goes both ways or neither, and one sees the other unseen exactly when it alone supports the other and no third item supports both |
| ScopeSets.SharingIsOneWay | frontend/src/Relationships.tsx:552-559 | with one dependency between two systems, one sees the other as shared and not the other way round |
| ImpactSnapshot.BuildImpactSnapshot | src/cmdb/change_control.py:298-394 | an empty or foreign selection is refused; otherwise there is one row per item an outage of the selection reaches, and no other, each with a shortest route from the selection, its length, its name and the matching role; rows come by length and then by name in small letters |
| ImpactSnapshot.Explore | src/cmdb/change_control.py:331-359 | the search from several starts gives every start and every successor an entry, none longer than one step more than its predecessor's |
| ImpactSnapshot.RoutesAreShortest | src/cmdb/change_control.py:331-359 | such entries are exactly the affected items, and no path from the selection is shorter |
| ImpactSnapshot.SnapshotAgreesWithMap | src/cmdb/change_control.py:113-123 | while types are known and relationships stay inside companies, the items the snapshot freezes are the selected ones and everything the browser's traversal reaches from them |
| ImpactSnapshot.StoredStaysInside | backend/main.py:4442-4448 | and that is so for every list the relationship store can come to hold |
| Dashboard.CountRelationships | app.py:1291-1294 | each visible asset's count is the number of relationship ends at it |
| AttentionFacts.EndsAre | app.py:1291-1294 | that is the number of relationships from the asset plus the number to it |
| AttentionFacts.OwnerIs | app.py:1214-1223 | who answers for an asset |
| AttentionFacts.ReasonsAre | app.py:1302-1323 | each reason is given exactly when it holds, and reasons come in a fixed order |
| AttentionFacts.ScoreIs | app.py:1302-1323 | what each reason adds to the score |
| AttentionFacts.WhoNeedsAttention | app.py:1299-1337 | the queue has a row about an asset exactly when it is offline or degraded, has a watched date, no owner or no relationship, or is stale |
| AttentionFacts.QueueOrder | app.py:1337 | the queue runs by falling score, then by the names of company and asset |
| AttentionFacts.WatchListOrder | app.py:1126 | the watch list runs from the most overdue date on, then by names |
| Dashboard.Handshake | app.py:1285-1294 | the counts add up to twice the visible relationships |
| Dashboard.AttentionItems | app.py:1085-1126 | an item is listed exactly when it is a renewal or end-of-life date at most ninety days ahead of an asset neither retired nor disposed, once each, sorted by urgency and stable |
| Dashboard.BuildAttention | app.py:1299-1337 | the loop yields the stable sort of one row per asset with reasons |
| Dashboard.Assess | app.py:1302-1323 | the score kept beside the reasons is the sum of their weights |
| Dashboard.AttentionQueue | app.py:1324-1337 | the queue is a sorted permutation of those rows, and any first rows shown precede every row left out |
| Ordering.SortArranges | app.py:1337 | a list is sorted, stable and a rearrangement exactly when it is the modelled sort, so the library sort is the modelled one |
| Ordering.TextLeIs | app.py:1337 | texts compare by their first different character, or by which begins the other |
| Text.LowerIs | src/cmdb/change_control.py:394 | lower-casing maps capitals to small letters and keeps every other character |
| Text.StripIs | src/cmdb/change_control.py:927-945 | stripping takes spaces away at both ends and nothing else |
| Text.ContainsIs | app.py:1187-1211 | a text contains its infixes |
| DashboardTables.LayersConserve | app.py:1367-1382 | layer counts add up to the visible assets and layer attention counts to the attention list |
| TableFacts.LayerIs | app.py:1182-1211 | the recorded layer counts, and otherwise the first family that fits the type and its names |
| TableFacts.LayerRowIs | app.py:1367-1382 | a layer's row counts its assets, and those of them in the queue |
| DashboardSystems.BusinessSystems | app.py:1339-1365 | each system row and each asset's membership set, from one pass over the systems |
| TableFacts.SystemsShown | app.py:1342 | the systems are the business systems among the assets, in order |
| TableFacts.RowsInScopeAre | app.py:1347 | a system's attention count is the number of queue rows in its scope |
| DashboardSystems.DoubleCounting | app.py:1339-1365 | support counts plus one, added over systems, equal membership counts added over assets |
| DashboardSystems.SharedMeansTwo | app.py:1493 | an asset is counted as shared exactly when its impact propagates to two different systems |
| DashboardSnapshot.CustomersConserve | app.py:1384-1413 | customer attention counts and risk scores add up to the whole queue's exactly when the company of every queued row is listed |
| TableFacts.CustomerRowIs | app.py:1384-1413 | a customer's row counts that customer's assets, systems, unhealthy, unowned and stale ones, queue rows and overdue dates |
| TableFacts.RiskIsSum | app.py:1410 | a customer's risk is the sum of the scores of its queue rows |
| TableFacts.TableOrder | app.py:1365-1413 | customers come by falling risk and then by name, systems by falling attention and then by name |
| DashboardSnapshot.VisibleAssetsAre | app.py:1280-1284 | the snapshot of one customer shows that customer's assets, all of them in their order, and without a customer every asset |
| DashboardSnapshot.VisibleRelationshipsAre | app.py:1286-1290 | a relationship counts exactly when both of its ends are visible |
| DashboardSnapshot.LatestRuns | app.py:1415-1421 | for each integration type with runs, the run with the greatest start key, and the first listed among equals |
| DashboardSnapshot.LatestStarted | app.py:1415-1421 | a run counts by its start, or by its end while no start is recorded |
| DashboardSnapshot.TakeSnapshot | app.py:1264-1507 | one snapshot keeps all these totals at once, although twenty rows are shown, and counts shared dependencies exactly; the customer and system rows are each system's and customer's own, sorted and stable, and for one customer everything shown is that customer's |
| Tally.PartitionTotal | app.py:1367-1413 | totals per distinct key never exceed the whole, and reach it exactly when every weighted entry's key is listed |
| ChangeLifecycle.ApprovedPlanStands | src/cmdb/change_control.py:62-90 | along any lineage a change that is approved, scheduled, being implemented or later carries exactly the plan, scope, impact and risk that stood when it went from awaiting approval to approved |
| ChangeLifecycle.FollowsFacts | src/cmdb/change_control.py:1169-1381 | every accepted request raises the revision by one, moves along the transition table, touches the plan only in draft or impact review, and never reopens a cancelled or closed change |
| ChangeEdits.EditStoresTexts | src/cmdb/change_control.py:1205-1233 | an accepted edit of a draft or a change in review stores each supplied text and keeps the others |
| ChangeEdits.EditStoresPlan | src/cmdb/change_control.py:1205-1247 | it takes over outage flag and scope and the impact found, and changes nothing but plan, schedule and revision |
| ChangeEdits.EditStoresRisk | src/cmdb/change_control.py:1205-1247 | a named risk is stored, and without one the suggested risk |
| ChangeEdits.EditStoresSchedule | src/cmdb/change_control.py:1180-1204 | an accepted edit stores each supplied schedule field and keeps the others |
| ChangeEdits.LateEditsAreSchedules | src/cmdb/change_control.py:1180-1204 | once approved an edit that names anything of the plan is refused, and nothing can be edited in any other status |
| ChangeEdits.EditsEndAfterStart | src/cmdb/change_control.py:1196-1201 | after an accepted edit the planned end is after the planned start, when both are set |
| ChangeEdits.EditsAreValid | src/cmdb/change_control.py:1205-1233 | an accepted edit leaves no required text blank and each choice among its words |
| ChangeEdits.ValidEditIsAccepted | src/cmdb/change_control.py:1205-1247 | and an edit of a draft to valid texts is accepted |
| ChangeEdits.ReassignmentIs | src/cmdb/change_control.py:1252-1302 | when a reassignment is accepted, and that it stores the assignee alone |
| ChangeEdits.TransitionAccepted | src/cmdb/change_control.py:1305-1381 | a transition is accepted along the table, with a reason where one is due, and for closing with an assessment the gate takes |
| ChangeEdits.TransitionIs | src/cmdb/change_control.py:1305-1381 | it sets the status and what comes with it, and leaves plan, schedule, assignment and template alone |
| ChangeEdits.TransitionCloses | src/cmdb/change_control.py:1368-1381 | closing stores the assessment in its stored form, and before that it only appears when the review starts |
| ChangeEdits.DecisionIs | src/cmdb/change_control.py:645-690 | an approver's answer counts while approval is awaited, declines or approves the change or is noted, and changes nothing else |
| ChangeLifecycle.ClosedOnEvidence | src/cmdb/change_control.py:1374-1381 | a closed change has every required test decided, texts recorded, a completed review with lessons wherever one is required, and its outcome set |
| ChangeLifecycle.LineageKeepsDemands | src/cmdb/change_control.py:1149-1166 | until closing, the stored closure tests ask what the pinned template asks |
| ChangeServer.EveryInterleavingApprovedItsPlan | backend/main.py:12979-13274 | in every interleaving of clients and approvers, lost updates included, the stored record came about from the starting one through records stored in that run, in that order, by answering requests of that run, and on the way its plan was approved and kept |
| ChangeServer.NothingLostExactlyWhenRevisionsMatch | backend/main.py:12983-13001 | every commit answers the record it replaces exactly when every commit finds the revision its request was checked against |
| ChangeServer.BothAcceptedOneLost | backend/main.py:13017-13040 | two accepted reassignments of one revision of which the first is lost |
| StoredChanges.LogLinkedExactlyWhenRevisionsMatch | backend/main.py:12983-13001 | in every interleaving each record stored answers the record stored before it exactly when every commit finds the revision its request was checked against |
| StoredChanges.StartedChangeRunsOut | frontend/src/ChangeControl.tsx:53-65 | with matching revisions, once a started change was stored at most four changes of status follow, planning is never stored again, and only closed has no transition left |
| StoredChanges.ReviewedChangeNeedsApproval | src/cmdb/change_control.py:62-76 | with matching revisions, after a stored return to impact review, being approved again takes a later stored awaiting approval and approval |
| StoredChanges.BackedOutChangeClosesReviewed | src/cmdb/change_control.py:1364-1367 | with matching revisions, once a back-out was stored the change closes only after a completed review with lessons |
| StoredChanges.PlanningCanReturn | backend/main.py:13244-13265 | from any scheduled change, a run that stores it as being implemented and then as approved |
| StoredChanges.BackOutCanBeForgotten | backend/main.py:13244-13265 | from any failed change, a run that stores it as backed out and then in review as if it never was |
| StoredChanges.ReviewCanBeSkipped | backend/main.py:13244-13265 | from any change awaiting approval, a run that stores a return to impact review and then an approval |
| SignOff.RunSound | backend/main.py:13115-13140 | in every interleaving the open links belong to the newest batch, each batch was sent for one plan, and nobody in the batch of an open link has declined |
| SignOff.AnswerOutcomeAlways | backend/main.py:13181-13231 | in every interleaving an answer that approves the change completes a batch approved as a whole and sent for one plan, and an answer that moves the change leaves no link open |
| SignOffBatches.SentLinks | backend/main.py:13115-13140 | a batch adds one open link per approver and closes the open links before |
| SignOffBatches.RunTraced | backend/main.py:13073-13140 | in every interleaving each batch holds as many links as approvers it was asked for, for the plan awaiting approval then, and each waiting write answers a request accepted at the revision it named |
| SignOffBatches.EveryApproverApproved | backend/main.py:13181-13231 | when an answer approves the change, a batch asked for with n approvers has n approved links |
| SignOffCover.EndangeredExactlyWhenLinksMisfit | backend/main.py:13181-13231 | the approvers alone can approve a plan they were not asked about exactly when, while approval is awaited, a link is open that was sent for another plan |
| SignOffCover.CoveredExactlyWhenWritesFit | backend/main.py:13083-13274 | in every interleaving the approvers can at no moment approve a plan they were not asked about exactly when no change is put up for approval over a link open for another plan and no batch goes out for a plan edited since |
| SignOffCover.SignOffCoversThePlan | backend/main.py:13181-13231 | after such writes, an answer that approves the change approves the plan its whole batch was sent for |
| SignOffOrder.OrderlyRunsAreCovered | backend/main.py:13233-13275 | that is so when every write finds the revision it was checked against, nothing is put up for approval while a revocation is outstanding, and no approval by hand finds a link; every open link is then for the plan awaiting approval or about to be revoked |
| SignOffOrder.LinksAloneApprove | backend/main.py:13244-13265 | in every interleaving only replies approve a change that links were sent for exactly when no approving write of a technician finds a link |
| SignOffOrder.OvertakenExactly | backend/main.py:13244-13265 | an approval by hand about to be written finds a link exactly when a batch went out while it waited |
| SignOffRaces.LateBatchApprovesUnseenPlan | backend/main.py:13083-13140 | for any change awaiting approval and any accepted edit, a run in which a link sent for the plan before the edit approves the plan after it |
| SignOffRaces.LateApprovalPassesTheLinks | backend/main.py:13244-13265 | for any change awaiting approval, a run that approves it by hand while its link is open |
| Closure.ClosureReadiness | frontend/src/ChangeControl.tsx:223-242 | the checklist shows every raised issue once, and none exactly when everything it asks for is there |
| ReviewDemands.ReadyIs | frontend/src/ChangeControl.tsx:223-242 | an assessment is ready exactly when it meets every demand of the checklist, spelled out |
| ReviewDemands.ReadyMeansReviewed | frontend/src/ChangeControl.tsx:150-160 | the checklist asks for a completed review with lessons after a failed test, an emergency, high risk, a rollback, a result short of success, a service not restored or an unexpected impact |
| ReviewDemands.AcceptedMeansReviewed | src/cmdb/change_control.py:883-902 | and so does the server |
| ReviewDemands.ClosedMeansReviewed | src/cmdb/change_control.py:1374-1381 | so a closed change has that review wherever one was due |
| ReviewDemands.NotDueNotAsked | src/cmdb/change_control.py:883-902 | and without such a reason nobody asks for one |
| ClosureGate.NormalizeClosureAssessment | src/cmdb/change_control.py:903-1053 | the gate passes exactly when all its demands hold, and then stores the cleaned assessment; otherwise it names the first fault in its order |
| ClosureGate.CheckTests | src/cmdb/change_control.py:921-971 | the loop over tests passes exactly when all keys are stable and distinct and no test has a fault, names the first fault otherwise, and collects the keys |
| StoredClosure.InitialTestsAre | src/cmdb/change_control.py:796-861 | the tests a change must account for: its template's, each asked for as defined, or its validation plan alone |
| StoredClosure.DraftIs | frontend/src/ChangeControl.tsx:162-221 | where the wizard starts: the stored assessment, or one that answers nothing |
| StoredClosure.StoredTestIs | src/cmdb/change_control.py:927-971 | a stored test carries the change's own key, name, expectation and demands and the supplied result and texts |
| StoredClosure.StoredActionsAre | src/cmdb/change_control.py:995-1020 | every described follow-up action is stored, in order, and no other |
| StoredClosure.StoredAnswersAre | src/cmdb/change_control.py:981-1030 | the other answers are stored as they are, their texts trimmed |
| StoredClosure.AcceptedShape | src/cmdb/change_control.py:921-1010 | what the gate demands of numbers, keys, owners and dates |
| StoredClosure.PlainIsEnough | src/cmdb/change_control.py:924-926 | and nothing else is demanded of keys and dates |
| ClosureWizard.SessionKeepsDemands | frontend/src/ChangeControl.tsx:497-533 | no editing session changes a test's key, texts or demands |
| StoredClosure.ActionEdits | frontend/src/ChangeControl.tsx:497-533 | adding a follow-up action appends a blank open one, removing one keeps the others in order |
| StoredClosure.PointEdits | frontend/src/ChangeControl.tsx:497-533 | editing one test or action leaves the others alone, and the review can only be ticked while it is due |
| ClosureWizard.ChecklistMatchesGate | src/cmdb/change_control.py:903-1053 | for an assessment that answers the change's own tests, the server accepts exactly what the checklist calls ready and is well shaped |
| ClosureWizard.SessionMatchesGate | frontend/src/ChangeControl.tsx:162-242 | and so after any editing session from the wizard's draft |
| ClosureWizard.ReadyIsReachable | frontend/src/ChangeControl.tsx:497-533 | from any assessment a finite session reaches a ready one with the same demands |
| ClosureWizard.AcceptedIsReachableExactly | src/cmdb/change_control.py:903-1053 | from an assessment of the change's own tests some session reaches one the server accepts exactly when the tests are at most thirty and stored with stable, distinct keys, names and expectations |
| ChangeClosing.CloseButton | frontend/src/ChangeControl.tsx:974 | along any lineage and after any session, pressing Close succeeds exactly when the checklist is empty and the assessment is well shaped |
| Diagnostics.EveryInterleaving | frontend/src/NcentralIntegration.tsx:1902-1962 | in every interleaving the report shown belongs to the current scope, loading is on exactly while the newest request is unresolved, a newest success that was not aborted is what is shown, and an error is shown for a newest failure only |
| Diagnostics.ShownMovesForward | frontend/src/NcentralIntegration.tsx:1925-1932 | what is shown never goes back to an older request |
| Diagnostics.AskingAgainKeeps | frontend/src/NcentralIntegration.tsx:1902-1962 | asking again keeps the report while the scope stays, drops it with the scope, and clears the error |
| Diagnostics.Workbench.RunDiagnostics | frontend/src/NcentralIntegration.tsx:1902-1924 | the callback takes the next number, aborts its predecessor and turns loading on, or does nothing without a scope |
| Diagnostics.Workbench.SetScope | frontend/src/NcentralIntegration.tsx:1946-1962 | the effect aborts, forgets what belongs to another scope, and asks anew |
| Diagnostics.Workbench.OnResponse | frontend/src/NcentralIntegration.tsx:1925-1944 | a response is shown only for the newest, unaborted request of the current scope |
| Diagnostics.Workbench.OnFailure | frontend/src/NcentralIntegration.tsx:1933-1944 | a failure is shown only for the newest, unaborted request, and ends loading for the newest |
| DeviceChoices.OptionsBelongToSelection | frontend/src/NcentralIntegration.tsx:2726-2760 | over any order of steps the options shown belong to the customer selected now, and each cache entry with its policy to its key |
| DeviceChoices.PolicyBelongsExactly | frontend/src/NcentralIntegration.tsx:2779-2831 | the saved policy on the screen belongs to the selected customer at every moment exactly when every save is answered while its customer is selected |
| DeviceChoices.OnlySyncsStray | frontend/src/NcentralIntegration.tsx:2541-2602 | every question asked about a run is about a run for the selection it is asked under exactly when every sync runs a policy of the customer selected then; previews, polls, cancels, retries and latest-run questions never stray |
| DeviceChoices.RunsBelongExactly | frontend/src/NcentralIntegration.tsx:2523-2539 | the accepted run and its preview belong to the selected customer at every moment exactly when every answer taken was about a run for the selection it was asked under |
| DeviceChoices.SupersededNeverTaken | frontend/src/NcentralIntegration.tsx:2541-2565 | an answer about the latest run asked for before a selection, an edit or a newer question is never taken afterwards, whatever follows |
| DeviceChoices.QuestionsAre | frontend/src/NcentralIntegration.tsx:2541-2602 | every question is asked under the selected scope; only latest-run questions are numbered, and only they and polls can be stopped |
| DeviceChoices.StoppingIs | frontend/src/NcentralIntegration.tsx:2562-2602 | cleaning up an effect stops its latest-run question or poll and no other question |
| DeviceChoices.StepsPutAside | frontend/src/NcentralIntegration.tsx:2766-2770 | selections, edits and new runs put run and preview aside, retries and option requests the preview only |
| DeviceChoices.ShownBelongsToSelection | frontend/src/NcentralIntegration.tsx:2515-2602 | while every save is answered at home, options, policy, run and preview all belong to the selected customer, and the filter on the run hides nothing |
| DeviceChoices.InStepExactly | frontend/src/NcentralIntegration.tsx:2726-2754 | screen and cache agree at every moment exactly when no superseded answer for the selected customer contradicts the options shown |
| DeviceRuns.LateSaveStrays | frontend/src/NcentralIntegration.tsx:2818-2871 | a session after which one customer is selected and the accepted run and preview are another's |
| DeviceRuns.ReturningCanAgeTheCache | frontend/src/NcentralIntegration.tsx:2726-2764 | a session after which the screen has the newer answer and the cache the older |
| DevicePage.DeviceStep.FinishLoad | frontend/src/NcentralIntegration.tsx:2751-2754 | a late answer changes no cache entry but its own, and nothing on the screen when superseded; everything shown stays with its scope, and screen and cache stay in step unless the answer contradicts |
| DevicePage.DeviceStep.BeginLoad | frontend/src/NcentralIntegration.tsx:2726-2736 | a load is served from the cache, or takes a number never used before; what is shown stays with its scope |
| DevicePage.DeviceStep.SelectCustomer | frontend/src/NcentralIntegration.tsx:3248-3254 | a selection clears what was shown and makes earlier requests stale |
| DevicePage.DeviceStep.FinishSave | frontend/src/NcentralIntegration.tsx:2818-2823 | after a save's answer the policy on the screen belongs to the selection exactly when the save was made for it |
| DevicePage.DeviceStep.SyncNow | frontend/src/NcentralIntegration.tsx:2860-2872 | the run asked for is the selection's exactly when the policy on the screen is |
| DevicePage.DeviceStep.AcceptPreviewRun | frontend/src/NcentralIntegration.tsx:2523-2539 | an answer is taken exactly while its question stands and its selection is selected, and keeps what is shown with the selection exactly when its run is the selection's |
| PreviewCounters.RemoveResolved | frontend/src/NcentralIntegration.tsx:2928-2948 | an import removes exactly the chosen items and leaves every count equal to the number of remaining items, duplicates included |
| PreviewCounters.KeptAre | frontend/src/NcentralIntegration.tsx:2945 | what stays in the list is every item with another id, in order |
| PreviewCounters.LinkKeepsCountsExactly | frontend/src/NcentralIntegration.tsx:2986-3004 | linking keeps the counts true exactly when at most one item carries the linked id |
| PreviewCounters.LinkingTwinsMiscounts | frontend/src/NcentralIntegration.tsx:2986-3004 | two items under one id whose counts are right before the link and wrong after it |
| PreviewCounters.SessionKeepsCounters | frontend/src/NcentralIntegration.tsx:2909-3007 | over any session with distinct ids the counts track the list, and pending plus resolved is conserved while pending covers what is resolved |
| GridLayout.CardsDisjoint | frontend/src/Relationships.tsx:350-353 | for any number of cards none overlap, and there are no more rows than columns |
| GridLayout.NextPlace | frontend/src/Relationships.tsx:352 | the first card is in the corner, and each next one stands a step to the right, or at the start of the next row once a row is full |
| GridLayout.NarrowerIsTaller | frontend/src/Relationships.tsx:350-353 | with fewer columns, though at least two, there would be more rows than columns |

## Left out

- ImpactSnapshot.BuildImpactSnapshot: does not model relationship types, policies and notes along a route, or the high-availability policy; routes do not depend on them.
- ClosureGate.NormalizeClosureAssessment: takes enumerated values as valid, because the wizard only offers valid ones, and names a fault without the test it concerns.
- DashboardSnapshot.TakeSnapshot: does not model integration rows, upcoming changes and the plain counts of the summary; each is one filter or count.
- ChangeLifecycle.Updated: impact analysis and risk scoring enter as the request's answer; `ImpactSnapshot` models the reach part of it separately.
- SignOff.Run: link expiry is an input of a reply; approver addresses and e-mail delivery are not modelled.
- RelationshipRaces.Written: keeps the new id where a repetition is merged, as the file store does; PostgreSQL keeps the old one.
- Text.Strip: knows the four ASCII spaces, `Text.Lower` ASCII letters; the two languages' wider and slightly different notions of space, letter case and text length are not modelled.
- Diagnostics.Run: page offset, device-status filter and error texts of the workbench.
- DeviceChoices.Run: re-mapping a customer, notices, and which controls are disabled while something is busy or a run is active; the steps may come in any order, those the page allows among them.
- PreviewCounters.Linked: the copy of the preview kept inside the preview run, which linking does not update.
- Relationship candidates approved by automation, which have a cycle check of their own in the repository layer.
- Stable-key normalisation and copying of change templates: short text properties only.
- Authorisation, tenancy checks of users, audit events, e-mail delivery, PostgreSQL storage and migrations.
- React rendering, ELK layout, saved positions, PDF rendering and all other pages.
