# Verified models of the operational tooling

This project models the parts of the repository whose behaviour is hardest to see from the
code, and proves what that behaviour comes to. Everything is Dafny 4.11; run
`dafny verify dfyconfig.toml --resource-limit 2000000` here.

## What is modelled

**Disk-fixture cleanup** (`scripts/disk_fixture.py`). The observer that decides whether a
deleted App left nothing behind.

- `PurgeJobs`: the lifetimes of the purge Job. A functional history of rows, a declarative
  account of which row sequences are acceptable, and the class with its aliased
  `current`/`attempts` records.
- `Inventory`: one sweep of the cluster by owner chain, as a fold over the API server's
  answers and as a class that changes its dictionary and lists in place.
- `Observer` and `ObserverLoop`: the whole loop, its receipts and its verdict, first as a
  function of everything the world answers, then as the object the program runs.
- `ReplayedWatch`: the collector thread and the drain, as a machine that takes one step at a
  time against a versioned event log.
- `ObserverChannel`: child process, reader thread, bounded queue, supervisor and waiting
  command, interleaved in any way.
- `CleanupPipeline`: watch, observer and supervisor put together, from the server's log to the
  wait that is accepted.

**PTY markers** (`scripts/render-cli-pty.py`). `MarkerMatcher` holds the chunked search
through a trimmed buffer to greedy matching on the whole stream. `Search` has the sequence
search that it and the patch share.

**Billing** (`scripts/stripe_billing_reconcile.py`, `scripts/stripe-billing-setup.py`).
`Rounding` has the decimal rounding modes, `Reconcile` the comparison and its declarative
audit, `BillingMoney` the bound on what rounding can cost and the independence of order, `Emission`
what the emitter (`lego/backend/internal/billing/stripe.go`) sends against what the comparison
expects, `SheetText` and `PriceSheet` the reader of the price sheet, `Provisioning`, `ProvisioningProofs` and
`ProvisioningRuns` the idempotent setup, and `BillingSetup` the setup as it executes.

**Test runner** (`mobile/scripts/jest-lite-runner.js`). `TestPool` is the worker pool,
`TestTree` the meaning of `only` and `skip`, `TestRun` hook order and counting, and
`TestNodes` the runner on its mutable nodes.

**Smaller pieces.** `ScriptJson` is the script-safe JSON of
`dashboard/src/i18n/client-bootstrap.ts` with a JSON reader that undoes it; `NodeFinderPatch`
(with `Insertion`) the idempotent patch of `deploy/native-common/prepare-node14-tools.py`;
`KubeNames` the bounded names of `lego/types/k8sname/k8sname.go`.

Where the source works step by step, the model has a class or a loop, and each method's
contract equates the new state with a function of the old one; what the source promises is
then proved of those functions. Threads are machines whose steps interleave freely. What the
outside world answers (API rows, clocks, exit statuses, which call throws) is an input.

## Where the code does not do what one would expect

Each is a lemma with the exact condition, a concrete instance, or both.

- The comparison re-bases neither service-disk usage, which the emitter sends in GB-hours, nor
  paid Key Value usage, which it sends as a cost. Even against a provider that adds up exactly
  what it was sent, nothing is reported as a mismatch exactly when there is no disk usage and
  the summed Key Value cost happens to equal the summed seconds; at rates above one millionth of
  a dollar a second that means no Key Value usage either
  (`Emission.FaithfulProviderMatchesUnless`, `Emission.AnySuchUsageMismatches`,
  `Emission.DiskHourMismatches`, `Emission.KeyValueHourMismatches`).
- A superseded meter stays active when another meter of the same name is listed after it,
  because the listing is read into a dictionary. The same holds for a second active meter of
  a priced dimension (`ProvisioningRuns.ShadowsEscape`,
  `ProvisioningRuns.ShadowedMeterStaysActive`).
- A short name that ends in a dash and twelve lower-case hexadecimal digits, with no separator
  before that dash, can share its name with an over-limit one; every other short name shares it
  with nothing (`KubeNames.ShapelessNamesAreSafe`, `KubeNames.ShapedNamesAreShared`,
  `KubeNames.BoundedNameIsTaken`). A text whose first 50 bytes are separators gives no valid
  label (`KubeNames.StableIsLabel`, `KubeNames.SeparatorsGiveNoLabel`).
- The catalog is assigned as an object literal, so that a member named `__proto__` does not
  arrive; every other catalog arrives whole (`ScriptJson.ClientSeesTheServersCatalog`).
- The runner's counters add up, and the reported number of skipped tests is right, unless a
  `beforeAll`, `afterAll` or `afterEach` hook throws while tests are skipped
  (`TestRun.SummaryIsExact`).
- A worker setting between zero and one starts nothing and never resolves
  (`TestPool.QuietMeansDone`).

## Model

| member | source | states |
|---|---|---|
| PurgeJobs.AcceptsExactlyAcceptableRows | scripts/disk_fixture.py:809-834 | For every sequence of watch rows: it is accepted exactly when it is acceptable (each row passes the policy, a new UID only follows a deleted one and never returns, at most 128 UIDs, image and trust fixed within a UID, nothing but DELETED after DELETED), and the recorded attempts then summarise the rows UID by UID |
| PurgeJobs.CompletionMeans | scripts/disk_fixture.py:831-834 | There is a completion exactly when the last UID runs the reviewed image and one of its own rows said it was complete |
| PurgeJobs.LifetimesAreTheUids | scripts/disk_fixture.py:809-829 | The recorded lifetimes are exactly the UIDs of the rows |
| PurgeJobs.FollowExtendsReplay | scripts/disk_fixture.py:814-829 | One more accepted row extends the replayed history, and the reply is true exactly when the UID changed |
| PurgeJobs.CurrentSpeaksForItsRows | scripts/disk_fixture.py:822-827 | The current attempt is approved exactly when the last row names the reviewed image, and counts as complete exactly when a row of its own UID said so |
| PurgeJobs.FollowDecides | scripts/disk_fixture.py:814-828 | A row is accepted exactly when the declarative rule admits it after the rows before |
| PurgeJobs.FollowKeepsValid | scripts/disk_fixture.py:814-829 | Every row keeps the history well formed: distinct UIDs, all but the last attempt deleted, at most 128 |
| PurgeJobs.PurgeAttempts.CurrentIsShared | scripts/disk_fixture.py:822-823 | The current record is the same object as the newest entry of the attempts |
| PurgeJobs.PurgeAttempts.Observe | scripts/disk_fixture.py:814-829 | The object changed in place agrees with the history function, on acceptance and on every refusal |
| PurgeJobs.PurgeAttempts.Admit | scripts/disk_fixture.py:816-823 | Which rows begin a new lifetime, and which are refused before anything changes |
| PurgeJobs.PurgeAttempts.Continue | scripts/disk_fixture.py:824-828 | A row is folded into the shared record unless it contradicts it; flags only rise |
| PurgeJobs.PurgeAttempts.Completion | scripts/disk_fixture.py:831-834 | The method returns the completion of the represented history |
| PurgeJobs.PurgeAttempts.Views | scripts/disk_fixture.py:1009 | The list of attempts is the history in order of appearance |
| Inventory.SweepIsExact | scripts/disk_fixture.py:857-904 | On any snapshot, a pass that is not aborted reports exactly the fixed objects present, the workloads found, the attachments on the bound volume and the remembered lifetimes still present by name |
| Inventory.WorkloadsAreTheOwnedOnes | scripts/disk_fixture.py:871-889 | Where controllers of a kind come before what they own, the workloads found are the least set of listed rows closed under ownership from the remembered owners, whatever the labels |
| Inventory.FoundIsLeast | scripts/disk_fixture.py:872-889 | In any listing order, what is found lies in every owner-closed set |
| Inventory.FoundIsClosed | scripts/disk_fixture.py:872-889 | With controllers first, what is found is owner-closed |
| Inventory.KindsDescendPutsControllersFirst | scripts/disk_fixture.py:876 | The order of the resource kinds puts controllers first |
| Inventory.RootsAreRemembered | scripts/disk_fixture.py:872-874 | The owners a pass starts from are the App, the CronJob and every remembered controller lifetime |
| Inventory.EmptyMeansGone | scripts/disk_fixture.py:857-904 | A pass reports nothing exactly when none of the fixture exists |
| Inventory.RememberedIsReported | scripts/disk_fixture.py:895-903 | A remembered object that still exists by name is always reported |
| Inventory.SweepForgetsNothing | scripts/disk_fixture.py:845-855 | However a pass ends, no key is forgotten, and a UID changes only to that of an attachment listed on the bound volume |
| Inventory.AwaitMeansReplaced | scripts/disk_fixture.py:841-889 | A whole pass waits for the watch only if it listed the purge Job under another UID than the remembered one |
| Inventory.Inventory.Run | scripts/disk_fixture.py:841-904 | The pass that changes its dictionary, owners and lists in place computes the sweep function |
| Inventory.Inventory.RememberObject | scripts/disk_fixture.py:845-855 | The nested function, with both refusals |
| Inventory.Inventory.VisitFixedObjects | scripts/disk_fixture.py:857-869 | The loop over the fixed objects |
| Inventory.Inventory.VisitListedWorkloads | scripts/disk_fixture.py:876-889 | The loop over the listed workloads |
| Inventory.Inventory.VisitListedAttachments | scripts/disk_fixture.py:890-893 | The loop over the attachments |
| Inventory.Inventory.LookUpRemembered | scripts/disk_fixture.py:894-903 | The look-up of every remembered lifetime not seen yet |
| Observer.CompleteIsProved | scripts/disk_fixture.py:913-1026 | Over every run: a `complete` verdict means that the last turn drained, swept empty, got HTTP 404, drained and swept empty again, in that order, and that nothing of the fixture was in what those two sweeps were answered; that the rows drained were acceptable, the last purge Job approved and seen complete; and that the last App row carries the mark, later than any Job replacement |
| Observer.UnapprovedIsNeverComplete | scripts/disk_fixture.py:998-1020 | The UNAPPROVED verdict means the same absence with a last Job on another image that was seen complete, and no receipt of the run states completion |
| Observer.VerdictsExclude | scripts/disk_fixture.py:1009-1020 | Over every run, also one that ends with a fault, at most one final verdict is printed, nothing follows it, and it is printed exactly when the run ends with it |
| Observer.VerdictMeansAbsence | scripts/disk_fixture.py:980-1008 | Behind a verdict, both sweeps of the turn were answered with nothing of the fixture and the provider answered 404 in between |
| Observer.TurnDecides | scripts/disk_fixture.py:978-1021 | A turn that decides has the five steps in order and justifies its verdict |
| Observer.TurnsDecide | scripts/disk_fixture.py:978-1021 | A run of any number of turns decides only through such a turn |
| Observer.TurnsKeep | scripts/disk_fixture.py:913-1026 | Every run keeps the invariant: every lifetime of a returned sweep and of a drained Job row is remembered and the receipts hold a verdict only at their end, faults included; and without a fault the flags tell the drained events and the receipts fit the channel |
| Observer.MemoryEvolves | scripts/disk_fixture.py:938-957 | Over any turns no key is forgotten, and a UID changes only to that of an attachment that one of the passes made meanwhile listed on the bound volume, or for the purge Job through a verified row processed meanwhile |
| Observer.RunForgetsNothing | scripts/disk_fixture.py:938-977 | The same over every run, from its opening sweep to its end and from each of its turns to its end |
| Observer.MarkExtends | scripts/disk_fixture.py:951 | The completion mark is that of the last App row, and a later replacement of the Job clears it |
| ObserverLoop.CleanupObserver.Run | scripts/disk_fixture.py:913-1026 | The run of the object that shares the inventory and the purge attempts is the run of the model |
| ObserverLoop.CleanupObserver.Turn | scripts/disk_fixture.py:978-1021 | One turn of the loop |
| ObserverLoop.CleanupObserver.Capture | scripts/disk_fixture.py:947-964 | Draining both watches |
| ObserverLoop.CleanupObserver.SeeJob | scripts/disk_fixture.py:949-957 | One purge Job row: its effect on flags, memory, lifetimes and receipts |
| ObserverLoop.CleanupObserver.SeeApp | scripts/disk_fixture.py:958-964 | One App row, with both refusals |
| ObserverLoop.CleanupObserver.TakeInventory | scripts/disk_fixture.py:938-945 | The sweep with its lifetimes and bound |
| ObserverLoop.CleanupObserver.Settle | scripts/disk_fixture.py:997-1008 | The final absence sweep |
| ObserverLoop.CleanupObserver.Conclude | scripts/disk_fixture.py:1009-1020 | The verdict, printed when it is new |
| ObserverLoop.CleanupObserver.Emit | scripts/disk_fixture.py:931-936 | A receipt is printed unless it exceeds the output bound |
| ObserverLoop.CleanupObserver.Open | scripts/disk_fixture.py:970-977 | The checks before readiness |
| ReplayedWatch.DrainsThePrefix | scripts/disk_fixture.py:419-477 | For every log, every way connections break and every interleaving: the rows drained since the start bookmark are an in-order, gap-free, duplicate-free prefix of the entries with a later version, and all of those up to the reached version when the queue is empty |
| ReplayedWatch.FailureIsFinal | scripts/disk_fixture.py:455-461 | Once failure is recorded no later drain returns a row |
| ReplayedWatch.RunKeepsInv | scripts/disk_fixture.py:419-477 | The invariant of every step of collector and consumer |
| ObserverChannel.ArtifactIsPrefix | scripts/disk_fixture.py:137-194 | Whatever the interleaving, the artifact is, one for one, the projection of the first lines of the child output, within the size bound |
| ObserverChannel.WaitProves | scripts/disk_fixture.py:126-211 | An accepted final status means one readiness receipt, a complete receipt and exit status 0; if the child says `complete` only at its end, also that the artifact is the whole of what it said, whatever signals, stop requests and delays there were |
| ObserverChannel.Wait | scripts/disk_fixture.py:214-228 | The waiting loop returns at the first status that answers, and raises at the first that neither answers nor leaves the matter open, or when time is up |
| ObserverChannel.AnswerIsAccepted | scripts/disk_fixture.py:214-228 | A wait for completion that returns has read the final status of an accepted run |
| ObserverChannel.RunKeepsInv | scripts/disk_fixture.py:126-211 | The invariant of every step of reader, supervisor, child and signals |
| CleanupPipeline.AcceptedWaitIsProved | scripts/disk_fixture.py:126-222 | For every run of the observer and every interleaving of its supervisor: an accepted wait means that the run returned, that all behind a `complete` verdict holds, and that the artifact holds every receipt the observer printed |
| CleanupPipeline.ReturnedWaitIsProved | scripts/disk_fixture.py:214-228 | The same when the waiting command returns |
| CleanupPipeline.ObserverFollowsTheLog | scripts/disk_fixture.py:947-957 | With the drains of a watch on the purge Job, the Job rows that a run processes are the first changes logged after the start bookmark, in order and without gap; a run that returns has processed all that was handed out, which from a sound and drained watch is every change up to the version it reached |
| CleanupPipeline.TurnsProcess | scripts/disk_fixture.py:947-957 | Over any turns the observer processes the rows its drains hand out, in order, all of them unless it stops with a fault |
| MarkerMatcher.Matcher.Read | scripts/render-cli-pty.py:194-217 | For every chunking: after each chunk the markers passed and the responses sent are those of greedy in-order matching on the whole stream so far |
| MarkerMatcher.Matcher.MatchAll | scripts/render-cli-pty.py:198-217 | The loop over the markers restores agreement with greedy matching |
| MarkerMatcher.Matcher.Trim | scripts/render-cli-pty.py:202-204 | Trimming to the larger of one byte less than the marker and 4096 keeps the buffer sufficient |
| MarkerMatcher.Matcher.Pass | scripts/render-cli-pty.py:206-210 | Consuming a match leaves the buffer sufficient for the next marker |
| MarkerMatcher.GreedyIsBest | scripts/render-cli-pty.py:196-217 | Greedy matching places as many markers as any in-order placement can, each no later |
| MarkerMatcher.AdvanceGoesOn | scripts/render-cli-pty.py:197-210 | What greedy matching found in a prefix stands when the stream grows |
| MarkerMatcher.BufferFinds | scripts/render-cli-pty.py:200 | Searching the trimmed buffer is searching the stream from the end of the last match |
| MarkerMatcher.CoversTrimmed | scripts/render-cli-pty.py:202-204 | A trimmed buffer can still contain every future match of the marker |
| MarkerMatcher.Run | scripts/render-cli-pty.py:160-251 | The loop ends on its own only with a collected child and finished output; status 0 means exit 0 and every marker found by greedy matching; a timeout names the first marker not found |
| MarkerMatcher.Absorb | scripts/render-cli-pty.py:186-217 | One turn: the chunk read, and the deadline brought forward by the last match |
| Reconcile.Compare | scripts/stripe_billing_reconcile.py:38-166 | For all inputs: it succeeds exactly when every decimal it needs can be read; the problems are exactly the faults of the input, the dimensions cover every event of either side, and ok holds exactly when the audit does |
| Reconcile.NoProblemIsAudit | scripts/stripe_billing_reconcile.py:38-166 | Nothing is reported exactly when no row is refused, transaction ids and lookup keys are distinct, every total equals the provider summary, and every emitted event has a line with truncated quantity and half-up amount |
| Reconcile.ReadRows | scripts/stripe_billing_reconcile.py:45-63 | The row loop: states, transaction counts, expected totals and refusals |
| Reconcile.CheckTransactions | scripts/stripe_billing_reconcile.py:65-74 | Exactly the ids used more than once are reported |
| Reconcile.CheckDimensions | scripts/stripe_billing_reconcile.py:76-97 | One dimension for each event of either side, with a problem exactly where the two differ |
| Reconcile.CheckLookupKeys | scripts/stripe_billing_reconcile.py:99-109 | Exactly the keys used more than once are reported |
| Reconcile.BuildByKey | scripts/stripe_billing_reconcile.py:111 | The loop over the lines builds the dictionary that ByKeyIsLast is about |
| Reconcile.ByKeyIsLast | scripts/stripe_billing_reconcile.py:111 | The line looked up for a key is the last one that has it, and there is one for exactly the non-empty keys of the invoice |
| Reconcile.CheckLine | scripts/stripe_billing_reconcile.py:113-155 | The four problems of one event, each exactly when it holds, and the error for an unreadable line |
| Reconcile.CheckInvoice | scripts/stripe_billing_reconcile.py:112-155 | The line loop: it fails exactly on an unreadable looked-up line |
| Reconcile.ExpectedIsTotal | scripts/stripe_billing_reconcile.py:59-63 | The accumulated dictionary holds exactly the fed events, each with its total |
| Reconcile.CountedOnce | scripts/stripe_billing_reconcile.py:65-67 | Counting finds a repetition exactly when two places hold the same name |
| Reconcile.TheLine | scripts/stripe_billing_reconcile.py:111-113 | With distinct keys the line looked up is the one that has the key |
| BillingMoney.AuditIgnoresOrder | scripts/stripe_billing_reconcile.py:38-166 | The audit is the same for every order of the rows and of the lines |
| BillingMoney.ReadingIgnoresOrder | scripts/stripe_billing_reconcile.py:45-63 | Whether the comparison can be made is the same for every order of the rows |
| BillingMoney.TotalIsClose | scripts/stripe_billing_reconcile.py:29-35 | The emitted total of n rows is within n half steps of 1e-12 of the raw total in billed units |
| BillingMoney.AcceptedInvoiceIsFair | scripts/stripe_billing_reconcile.py:112-155 | An accepted amount is within half a cent plus the rounding slack of 100 times rate times raw usage, and the provider total is the local one |
| Rounding.HalfUpMeans | scripts/stripe_billing_reconcile.py:29-34 | Half-up rounding is the nearest integer, away from zero half-way |
| Rounding.TruncateMeans | scripts/stripe_billing_reconcile.py:125 | Rounding down is towards zero |
| Emission.FaithfulProviderMatchesUnless | lego/backend/internal/billing/stripe.go:473-537 | Against a provider that adds up exactly what the emitter sent, the comparison reports no quantity mismatch exactly when no emitted row is disk usage and the summed Key Value cost equals the summed Key Value seconds |
| Emission.AnySuchUsageMismatches | lego/backend/internal/billing/stripe.go:473-537 | Where every Key Value rate exceeds one millionth of a dollar a second, exactly when there is neither disk usage nor Key Value usage |
| Emission.TotalsAgreeUnless | lego/backend/internal/billing/stripe.go:473-537 | Sent less expected, for every event: cost less seconds for the Key Value meter; for disk nothing or less, and nothing exactly without disk usage; nothing for every other |
| Emission.RowsAgreeUnless | lego/backend/internal/billing/stripe.go:473-537 | A row of any kind is sent as it is expected, except disk usage, of which less is sent, and paid Key Value usage, sent as its cost and expected as its seconds |
| Emission.DiskHourMismatches | lego/backend/internal/billing/stripe.go:503-506 | One GB-hour of disk is sent as 1 and expected as 3600 |
| Emission.KeyValueHourMismatches | lego/backend/internal/billing/stripe.go:481-488 | One hour of the starter tier is sent as 9589.041096 and expected as 3600 |
| Emission.CostIsMore | lego/backend/internal/pricing/pricing.go:119-133 | At a rate of more than one millionth of a dollar a second the rounded cost exceeds the seconds, whatever the number of seconds but none |
| BillingMoney.MoneyIsConserved | scripts/stripe-billing-setup.py:94-96 | Emitted total times catalog price differs from 100 times rate times raw usage by at most n half steps at the price plus half a step per billed unit, for every kind but disk |
| BillingMoney.SheetSellsAtCatalogPrice | scripts/stripe-billing-setup.py:154-163 | The price sheet sells the re-based units at exactly the price of the bound |
| Rounding.HalfEvenMeans | scripts/stripe-billing-setup.py:94-96 | Default quantization is the nearest integer, the even one half-way |
| Rounding.Q12IsClose | scripts/stripe-billing-setup.py:94-96 | A catalog price is within half a step of the exact one |
| PriceSheet.ParsePricing | scripts/stripe-billing-setup.py:117-166 | For every text: it fails exactly on an unreadable rate that counts, and else gives in order what each line prices in the nearest section and tier above it, Key Value once |
| SheetText.WrittenIsRead | scripts/stripe-billing-setup.py:122-139 | Headings, tiers and rates, at any indentation, are read for what they are |
| SheetText.CommentsSayNothing | scripts/stripe-billing-setup.py:122 | A comment changes nothing in what a line says |
| PriceSheet.NeverSuperseded | scripts/stripe-billing-setup.py:117-166 | No dimension uses a superseded meter |
| PriceSheet.KeyValueOnce | scripts/stripe-billing-setup.py:144-147 | The Key Value cost meter is named at most once |
| ProvisioningRuns.RunningTwiceIsRunningOnce | scripts/stripe-billing-setup.py:442-499 | A successful run leaves every dimension with its active compatible meter and its one matching active price, superseded entries inactive, the coupon valid and the endpoint pinned; a second run with the same arguments succeeds and changes nothing |
| ProvisioningRuns.ShadowsEscape | scripts/stripe-billing-setup.py:200-204 | Every superseded meter ends inactive, and every dimension has exactly one active meter, exactly when no active meter of that name was listed before another |
| ProvisioningRuns.ShadowedMeterStaysActive | scripts/stripe-billing-setup.py:465-472 | A successful run that leaves a superseded meter active |
| ProvisioningRuns.SheetIsProvisionable | scripts/stripe-billing-setup.py:455 | The dimensions of every price sheet meet what the run needs |
| ProvisioningRuns.NoEventIsTaken | scripts/stripe-billing-setup.py:383-439 | In both modes and whether or not the run raises, no endpoint loses an event |
| ProvisioningRuns.RepairIsFixed | scripts/stripe-billing-setup.py:446-453 | The repair changes endpoints only, leaves one pinned endpoint for the URL, and is final |
| ProvisioningRuns.WebhookIsEnsured | scripts/stripe-billing-setup.py:383-439 | A successful endpoint step leaves exactly one enabled pinned endpoint for the URL and then does nothing |
| ProvisioningRuns.PortalIsFixed | scripts/stripe-billing-setup.py:340-372 | Overwriting the tagged configuration is idempotent |
| ProvisioningProofs.MeterIsEnsured | scripts/stripe-billing-setup.py:207-232 | A meter step leaves a ready meter, touches no other name and does nothing to a ready one |
| ProvisioningProofs.PriceIsEnsured | scripts/stripe-billing-setup.py:252-296 | A price step leaves exactly the wanted price, keeps settled prices of other keys, and does nothing where it was settled |
| ProvisioningProofs.TaxIsEnsured | scripts/stripe-billing-setup.py:267-280 | The tax part of an existing price: what it sets, what it keeps, and that it is idempotent |
| ProvisioningProofs.SettledStays | scripts/stripe-billing-setup.py:460-462 | What one dimension settled survives the steps of the others |
| ProvisioningProofs.AllAreEnsured | scripts/stripe-billing-setup.py:460-462 | After the loop every dimension is settled, or the run has raised |
| ProvisioningProofs.SettledIsFixed | scripts/stripe-billing-setup.py:460-462 | The loop does nothing where every dimension is settled |
| ProvisioningProofs.RetiredAll | scripts/stripe-billing-setup.py:465-472 | Exactly the entries of the superseded names become inactive |
| ProvisioningProofs.EntryIsLast | scripts/stripe-billing-setup.py:200-204 | Of several meters with one name the dictionary holds the last one listed |
| BillingSetup.Setup.Provision | scripts/stripe-billing-setup.py:454-499 | The run as it executes computes the specified state and outcome |
| BillingSetup.Setup.ReadMeters | scripts/stripe-billing-setup.py:200-204 | The listing read into the dictionary |
| BillingSetup.Setup.EnsureMeter | scripts/stripe-billing-setup.py:207-232 | Reuse, reactivation, creation or refusal of a meter, in provider and dictionary |
| BillingSetup.Setup.EnsurePrice | scripts/stripe-billing-setup.py:252-296 | Reuse, tax update, creation or refusal of a price |
| BillingSetup.Setup.EnsureProductTax | scripts/stripe-billing-setup.py:244-249 | A product gets the tax code unless it has it |
| BillingSetup.Setup.EnsureDimensions | scripts/stripe-billing-setup.py:460-462 | The loop over the dimensions; it stops where a step raises |
| BillingSetup.Setup.RetireSuperseded | scripts/stripe-billing-setup.py:465-472 | The loop over the superseded names |
| BillingSetup.Setup.EnsureCompCoupon | scripts/stripe-billing-setup.py:303-320 | The coupon is created, or accepted only if valid, full and perpetual |
| TestPool.SchedulesKeep | mobile/scripts/jest-lite-runner.js:45-111 | For every schedule of reports and endings: files start once each in order, never more children than workers, the pool full while files remain, and at most one resolution |
| TestPool.ResolvesAtTheEnd | mobile/scripts/jest-lite-runner.js:80-102 | The promise resolves exactly at the last ending; before it some child is live |
| TestPool.EndingsMakeProgress | mobile/scripts/jest-lite-runner.js:80-102 | Twice the unstarted files plus the running children falls at every ending |
| TestPool.QuietMeansDone | mobile/scripts/jest-lite-runner.js:50-111 | With no child left the run has resolved, except under a setting between zero and one |
| TestPool.ResultsAddUp | mobile/scripts/jest-lite-runner.js:66-84 | The totals are the sums of all reports, and the run fails exactly when some child did |
| TestPool.FallbackIsUnused | mobile/scripts/jest-lite-runner.js:113-121 | The fallback for the skipped count never changes what children report |
| TestPool.Orchestrator.constructor | mobile/scripts/jest-lite-runner.js:106-110 | The initial children |
| TestPool.Orchestrator.StartChild | mobile/scripts/jest-lite-runner.js:49-58 | Starting the next file, or resolving |
| TestPool.Orchestrator.OnEnd | mobile/scripts/jest-lite-runner.js:80-102 | The exit and error handlers |
| TestPool.Orchestrator.OnMessage | mobile/scripts/jest-lite-runner.js:68-78 | The summary handler |
| TestTree.FilteringMeansTheMarks | mobile/scripts/jest-lite-runner.js:338-444 | For every tree, the tests attempted after filtering are exactly those with no skip on their path and, if there is any only, one on it, depth first and with the hooks of their path |
| TestTree.AppliedPlan | mobile/scripts/jest-lite-runner.js:418-444 | The same for a subtree under or outside a focused suite |
| TestTree.UnrunnableIsUnwanted | mobile/scripts/jest-lite-runner.js:430-441 | A subtree that the filter reports as not runnable holds no focused test |
| TestRun.RunsTheSelectedTests | mobile/scripts/jest-lite-runner.js:348-384 | In every run each body called belongs to a selected test and has its beforeEach hooks right before it, outer to inner, and its afterEach hooks right after it, inner to outer, up to the first that throws; without a beforeEach throw the bodies called are exactly the selected tests in order |
| TestRun.SummaryIsExact | mobile/scripts/jest-lite-runner.js:446-503 | Passed plus failed is the number attempted plus the throws of beforeAll, afterAll and afterEach hooks; the reported skipped number is right, and the parts add up, exactly under the stated conditions |
| TestRun.TreeHooksHold | mobile/scripts/jest-lite-runner.js:348-384 | The hooks around bodies, for any subtree at any point of a run |
| TestRun.TestIsDecidedOnce | mobile/scripts/jest-lite-runner.js:458-503 | Attempting a test gives exactly one outcome |
| TestRun.TreeCallsItsPlan | mobile/scripts/jest-lite-runner.js:348-384 | A subtree calls the bodies of its plan in order when no beforeEach hook throws |
| TestRun.CallUntilThrow | mobile/scripts/jest-lite-runner.js:470-502 | The hooks around a test are called in order and the first throw ends them |
| TestRun.CallEach | mobile/scripts/jest-lite-runner.js:446-456 | Suite hooks are all called, whatever they throw |
| TestNodes.FindOnlyNodes | mobile/scripts/jest-lite-runner.js:398-414 | Exactly the nodes below that are marked only, none if there are none |
| TestNodes.ApplyOnlyMode | mobile/scripts/jest-lite-runner.js:418-444 | Changing modes in place gives the filtered tree and returns whether anything runs |
| TestNodes.ApplyToChildren | mobile/scripts/jest-lite-runner.js:430-433 | The loop over the children, each changed alone |
| TestNodes.Runner.RunTests | mobile/scripts/jest-lite-runner.js:338-346 | On mutable nodes the whole run makes the specified calls and the counters count them |
| TestNodes.Runner.RunSuite | mobile/scripts/jest-lite-runner.js:348-384 | A suite: its hooks and its children, in order |
| TestNodes.Runner.RunTest | mobile/scripts/jest-lite-runner.js:458-503 | A test: its hooks, its body and the early returns |
| TestNodes.Runner.RunHooksSequentially | mobile/scripts/jest-lite-runner.js:446-456 | Suite hooks, each throw counted as a failure |
| ScriptJson.ParseUndoesSerialize | dashboard/src/i18n/client-bootstrap.ts:13-18 | For every catalog, reading the script-safe text as JSON gives the value back |
| ScriptJson.SerializedIsSafe | dashboard/src/i18n/client-bootstrap.ts:13-18 | The text never holds `<`, U+2028 or U+2029 |
| ScriptJson.ClientSeesTheServersCatalog | dashboard/src/i18n/client-bootstrap.ts:46-59 | The client is seeded with the language and catalog the server rendered, without members named `__proto__` and so whole exactly when there are none; with nothing for the default language or a missing catalog; and the script holds none of the three characters |
| ScriptJson.MakeSafeIsSafe | dashboard/src/i18n/client-bootstrap.ts:15-17 | After the three replacements none of the three characters is left, in any text |
| ScriptJson.UnsafeIsEscaped | dashboard/src/i18n/client-bootstrap.ts:15-17 | Each of the three becomes its escape and no later replacement touches it |
| ScriptJson.CharacterIsRead | dashboard/src/i18n/client-bootstrap.ts:14-17 | Every unit of a string, however written, is read back: short escapes, control characters, lone surrogates and the three |
| ScriptJson.StringIsRead | dashboard/src/i18n/client-bootstrap.ts:14-17 | String literals are read back up to their closing quote |
| ScriptJson.MembersAreRead | dashboard/src/i18n/client-bootstrap.ts:14 | Objects are read back member by member |
| NodeFinderPatch.PatchPlaces | deploy/native-common/prepare-node14-tools.py:24-37 | A successful patch is the clean text with the check put in once, after the three explicit selections and before the first default anchor |
| NodeFinderPatch.PatchIsIdempotent | deploy/native-common/prepare-node14-tools.py:24-37 | Patching a patched source, or its clean text, gives the same result |
| NodeFinderPatch.Migrates | deploy/native-common/prepare-node14-tools.py:24-37 | A source with the check in either wording, anywhere, is patched like the clean text |
| NodeFinderPatch.CleanOfChecked | deploy/native-common/prepare-node14-tools.py:27-28 | Removing either wording gives the clean text, and the anchors are counted there |
| NodeFinderPatch.ChecksClash | deploy/native-common/prepare-node14-tools.py:15-21 | The two wordings differ wherever they could overlap |
| KubeNames.NamesAreBounded | lego/types/k8sname/k8sname.go:41-76 | Bounded names never exceed the limit, and a CronJob name leaves room for an 11-character Job suffix |
| KubeNames.FitKeepsWhatFits | lego/types/k8sname/k8sname.go:60-76 | A name is kept up to case exactly when it fits, and fitting is idempotent |
| KubeNames.StableBindsTheHash | lego/types/k8sname/k8sname.go:45-56 | Two bounded names are equal exactly when their readable parts and truncated hashes are |
| KubeNames.StableBindsTheIdentity | lego/types/k8sname/k8sname.go:35-56 | With a hash that tells the two identities apart, equal names mean equal identity tuples |
| KubeNames.JoinInjective | lego/types/k8sname/k8sname.go:48 | Joining NUL-free parts is injective but for the empty tuple and one empty part |
| KubeNames.LongNamesStayApart | lego/types/k8sname/k8sname.go:70-76 | With a hash that tells two over-limit names apart they never share a name |
| KubeNames.ShapelessNamesAreSafe | lego/types/k8sname/k8sname.go:70-76 | Under every hash, a name within the limit that does not end in a dash and twelve lower-case hexadecimal digits (or has a separator before that dash) shares its name with no other |
| KubeNames.ShapedNamesAreShared | lego/types/k8sname/k8sname.go:70-76 | For every name of that shape there is an over-limit one that shares its name exactly under the hashes with the right value on it |
| KubeNames.BoundedNameIsTaken | lego/types/k8sname/k8sname.go:70-76 | Under every hash, the bounded form of every over-limit name is a different name of that shape with the same result |
| KubeNames.StableIsLabel | lego/types/k8sname/k8sname.go:45-56 | The result is a valid label exactly when the text begins with a letter or digit and its readable part holds label characters |
| KubeNames.LabelsStayLabels | lego/types/k8sname/k8sname.go:60-76 | A valid label, of any length and case, stays one |
| KubeNames.JobNamesAreLabels | lego/types/k8sname/k8sname.go:31-33 | The Job of a CronJob has a valid name |
| KubeNames.SeparatorsGiveNoLabel | lego/types/k8sname/k8sname.go:45-56 | At any limit, a text that begins with separators up to the cut gives a name that begins with a dash, which is no label |
| KubeNames.BaseIsReadable | lego/types/k8sname/k8sname.go:50-54 | The readable part is the longest prefix within the cut that does not end in a separator |

## Left out

- Inventory: the pending list is a set, so its final sort and a doubled entry of one object are not modelled; remembered lifetimes are looked up in any order.
- CleanupPipeline: a line is its receipt's state and whether it is too long; the App's watch is composed with the observer no further than its drains.
- Observer: one inspection sample is one receipt whose content is an input; the clock decides only whether a turn samples and when the run expires.
- The field-by-field guards of `scripts/disk_fixture.py` (proof, binding, CronJob, Pod and geometry checks) enter as one input each.
- Owners are triples of kind, name and UID instead of the joined text.
- ReplayedWatch: responses that are malformed, oversized or of an unknown type are one failing step; bytes are not modelled.
- ObserverChannel: file replacement, process groups and reaping are steps that succeed or fail; a status file is read whole and its age enters as one input.
- MarkerMatcher.Run: a failed read ends the run with the internal error status; failures while answering a marker and the keyboard interrupt are not modelled.
- Reconcile.Compare: decimals are exact (no 28-digit context, no NaN or infinity); names are visited in any order instead of sorted; a row without kind or quantity counts as unreadable; the provider requests around the comparison are left out.
- Emission: quantities are whole and never negative, the meters and rates are those of one price sheet, and every row marked emitted has been sent once; provisioning of customers, retries and rejections are left out.
- SheetText: the text comes split into lines, the reading of a decimal number is any function, and the display names are left out.
- Provisioning: API errors other than a missing product, the signing-secret file, URL syntax and printed text are left out; a created object has the fields the request asks for and listings show the newest first.
- BillingSetup.Setup.Provision: the portal and webhook steps are called as functions of their lists, because the source only builds one request for each.
- TestPool: a child ends once; a child that emits both an error and an exit is not modelled, and file collection is left out.
- TestNodes.Node.Suite: trees are built from finished subtrees; the registration of tests while a file loads is left out, and so are printed names.
- TestRun: a hook or body is one call that returns or throws; waiting is left out.
- ScriptJson: values are strings and objects of members in order; an object has each key once; numbers, arrays and the reordering of integer-like keys are left out.
- NodeFinderPatch: reading and writing the file and running the tools is left out.
- KubeNames: names are ASCII, and the hash is any function to six bytes; collisions are excluded pairwise, never for all inputs.
- Dashboard routes, mobile screens, GraphQL types, HTTP clients and the other scripts would only add easy members.
