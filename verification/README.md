# Verified models of the storefront, admin panel and back-office scripts

This project models the stateful parts of the repository in Dafny and proves what they are meant to guarantee.
`dafny verify dfyconfig.toml` checks everything.

Each component has two sides. One is a value-level description: a state, the steps it can take, and what a run of
steps does. The other is the code's own form, where the code works by updating things: a class with the code's
fields, or a method with the code's loop, proved to take exactly those steps. The properties are proved of all runs.

| files | component |
|---|---|
| `CategoryPaths`, `CategoryTable`, `CategoryMerge`, `CategoryQuotient` | the script that merges categories by normalised path, write by write, over tables with a unique index and foreign keys |
| `EffectivePrices` | the batching of price requests: debounce timer, overlapping batches, bounded retries |
| `AdminSession` | token refresh in one browser tab with any number of concurrent calls, against a server that rotates refresh tokens |
| `RichText` | the mini-markdown of the popups: scanners for the two patterns, the renderer, and printing back |
| `DealerPricing`, `ProductPrice`, `Cart`, `CartSplit` | the cart, the prices charged and shown, and the split into one package per supplier |
| `Watchdog` | the uptime watchdog's counters against a reading of the whole probe history |
| `TierEditor` | the editor of price tiers: rows, derived tiers, warning |
| `DealerNumbers`, `DealerNumberRuns` | dealer numbers from a shared sequence, the script that fills the gaps in a block, and every interleaving of its statements with those of lazy assignments |
| `Receipts` | the chronological receipt backfill and its final check |
| `CategoryTree` | the catalogue sidebar: path to the active category, and the tree search |
| `PermissionMatrix` | the buffer of permission changes, and what saving it does on the server |

`Options`, `Sequences`, `Products` and `JsStrings` hold the types, list properties and JavaScript string operations that
several components use.

On some inputs the code does not do what its comments or its neighbours promise; each is proved, with its exact
condition where there is one:

- `key.split('::')` loses part of a path that contains `::` (`CategoryPaths.KeyPathRoundTrip`).
- A category merged with its own parent becomes its own parent (`CategoryQuotient.SelfParentWhenMergedWithParent`,
  `CategoryQuotient.SelfParentHappens`), and longer cycles arise alike (`CategoryQuotient.AcyclicExactly`).
- After the fourth retry has failed, waiting slugs stay without a price until something else wakes the queue
  (`EffectivePrices.StallsExactlyOnLastFailure`, `EffectivePrices.SlugCanBeLeftBehind`). The comment at
  `apps/frontend/components/EffectivePricesProvider.tsx:66-67` says a temporary error never loses a price for good.
- A refresh whose answer is lost, or lacks one of the two tokens, leaves the tab holding a token it will replay
  (`AdminSession.RotatedTokenKeptExactlyWhenAnswerIsLost`, `AdminSession.ReplayIsReachable`).
- The number script reads the sequence before its transaction. A number drawn in between makes it late: it reserves numbers
  again, is refused exactly when one of them is held, gives a deleted customer's number to another one otherwise, and can
  set the sequence back (`DealerNumberRuns.TakesAgainExactly`, `DealerNumbers.RefusedExactlyWhenHeld`,
  `DealerNumberRuns.LateScriptReissues`, `DealerNumberRuns.GoesBackExactly`). The comment at
  `apps/backend/scripts/backfill-bayi-no.ts:15-19` says its numbers are all above the existing ones.
- A lazy assignment reads the customer first and updates by id alone later: it replaces a number given in between, by
  another call or by the script (`DealerNumberRuns.TextChangesExactly`, `DealerNumberRuns.SecondCallOverwrites`,
  `DealerNumberRuns.CallOverwritesScript`). The comments at `apps/backend/src/receipts/bayi-number.service.ts:34-42` call it
  idempotent.
- From one million on, `LPAD` cuts dealer numbers; three customers waiting there are always refused
  (`DealerNumbers.RefusedExactlyPastSixDigits`, `DealerNumbers.ThreePastAMillionAreRefused`).
- The receipt service swallows every clash with a unique index, also of another column than the receipt's: the script then
  counts a paid record as skipped, not as failed. Its check notices (`Receipts.FullRunPassesExactly`), its dry run does
  not foresee it (`Receipts.DryRunForetells`).
- A permission toggled while a save is on its way is dropped by the answer (`PermissionMatrix.SaveKeepsShownExactlyWhenUntouched`).

Other conditions matter only for inputs that the code's types admit and the stored data do not supply:

- A discount percentage of plus infinity, which the page shows as a full discount and the cart ignores
  (`ProductPrice.ShownIsCharged`): both columns are integers (`apps/backend/prisma/schema.prisma:896`, `:1082`).
- A discount row under an empty supplier id, which the cart alone applies (`ProductPrice.SameRawExactly`,
  `ProductPrice.EmptySupplierIdDiffers`): the column is a foreign key to a supplier (`apps/backend/prisma/schema.prisma:1098`).
- A list price with a fraction of a kuruş, which a discount can raise (`DealerPricing.UnitPriceWithinListExactly`,
  `DealerPricing.DiscountCanRaiseFractionalPrice`): list prices have two decimals (`apps/backend/prisma/schema.prisma:414`).
- A receipt on a record without customer, which can hide a missing receipt from the check and is counted twice by the dry run
  (`Receipts.GapIsMissingLessStray`, `Receipts.StrayReceiptHidesMissingOne`): the service issues none, and deleting a
  customer deletes the receipt (`apps/backend/prisma/schema.prisma:749`, `:1931`).

## Model

| member | source | states |
|---|---|---|
| CategoryPaths.OneSegmentPath | apps/backend/scripts/normalize-categories.ts:17-23 | a path without `>` is normalised as its one name is |
| CategoryPaths.PathBelowPath | apps/backend/scripts/normalize-categories.ts:17-23 | the normalised form of two paths with `>` between them is the first form, ` > `, and the second form; an empty form leaves the other alone |
| CategoryPaths.SplitJoin | apps/backend/scripts/normalize-categories.ts:55 | splitting undoes joining by ` > ` for parts without `>` |
| CategoryPaths.LastSegmentIsName | apps/backend/scripts/normalize-categories.ts:55-57 | the last segment of a normalised path is the name of the last segment that has a name |
| CategoryPaths.PathBecomes | apps/backend/scripts/normalize-categories.ts:17-57 | name and path of every category follow from its original path by these laws |
| JsStrings.JoinSplit | apps/backend/scripts/normalize-categories.ts:18-22 | joining by a separator undoes splitting by it |
| JsStrings.PartsAreWhole | apps/backend/scripts/normalize-categories.ts:18-22 | no part of a split holds the separator |
| CategoryPaths.KeyPathRoundTrip | apps/backend/scripts/normalize-categories.ts:46-56 | the path read back from a group's key is the path put in exactly when it contains no `::` |
| CategoryPaths.GroupKeyInjective | apps/backend/scripts/normalize-categories.ts:46 | two rows share a group key exactly when they share tenant and normalised path |
| CategoryTable.Database.Commit | apps/backend/prisma/schema.prisma:358-375 | a write is executed and recorded in the history, or rejected with the tables unchanged; consistent results keep the history consistent |
| CategoryMerge.BucketMembers | apps/backend/scripts/normalize-categories.ts:43-50 | a group holds exactly the rows with its key, each once |
| CategoryMerge.GroupRows | apps/backend/scripts/normalize-categories.ts:43-50 | the loop's map holds every key met, in order of first appearance, each with its rows in listing order |
| CategoryMerge.PlanIsGood | apps/backend/scripts/normalize-categories.ts:43-60 | keepers are rows of the same tenant and keep themselves, and two rows share a keeper exactly when tenant and normalised path agree |
| CategoryMerge.MergeSteps | apps/backend/scripts/normalize-categories.ts:61-72 | each of the three writes that merge a duplicate succeeds, and the tables are consistent after each of them |
| CategoryMerge.MovedProducts | apps/backend/scripts/normalize-categories.ts:62-65 | re-pointing products takes one intermediate state of the run to the next |
| CategoryMerge.MovedChildren | apps/backend/scripts/normalize-categories.ts:66-69 | re-pointing children takes one intermediate state of the run to the next |
| CategoryMerge.DeletedDuplicate | apps/backend/scripts/normalize-categories.ts:70 | deleting a duplicate after both re-pointings clears no reference although the foreign keys are ON DELETE SET NULL |
| CategoryMerge.StampedKeeper | apps/backend/scripts/normalize-categories.ts:79-82 | writing the temporary path never violates the unique index |
| CategoryMerge.FinishedKeeper | apps/backend/scripts/normalize-categories.ts:87-91 | writing a final path never violates the unique index, in whatever order the keepers come |
| CategoryMerge.MergeDuplicate | apps/backend/scripts/normalize-categories.ts:61-72 | merging one duplicate succeeds and passes through consistent states only |
| CategoryMerge.MergeGroup | apps/backend/scripts/normalize-categories.ts:60-72 | merges every row of a group but the first, counting them |
| CategoryMerge.StampKeeper | apps/backend/scripts/normalize-categories.ts:79-83 | the keeper moves to its temporary path and is entered once in the list of final writes |
| CategoryMerge.VisitGroup | apps/backend/scripts/normalize-categories.ts:55-84 | one turn of the first loop: the group is merged, then stamped, or skipped exactly when it is in place |
| CategoryMerge.MergeGroups | apps/backend/scripts/normalize-categories.ts:52-84 | the first loop merges, counts, and stamps or skips every group, never failing |
| CategoryMerge.WriteFinals | apps/backend/scripts/normalize-categories.ts:86-93 | the second loop moves exactly the stamped keepers to their final name and path, never failing |
| CategoryMerge.LastStageIsQuotient | apps/backend/scripts/normalize-categories.ts:54-93 | the state after all writes is the quotient of the tables by tenant and normalised path |
| CategoryMerge.CountsAddUp | apps/backend/scripts/normalize-categories.ts:95 | merged, updated and skipped add up to the number of rows |
| CategoryMerge.Normalize | apps/backend/scripts/normalize-categories.ts:25-97 | the script never fails, every state it writes has unique paths and no dangling reference, it ends in the quotient, every surviving row has the name and path its original path becomes, and total = merged + updated + skipped |
| CategoryQuotient.FinalConsistent | apps/backend/scripts/normalize-categories.ts:86-93 | the final tables have unique paths and no dangling reference |
| CategoryQuotient.FinalPaths | apps/backend/scripts/normalize-categories.ts:41-93 | a tenant's final paths are exactly the normalised paths of its original rows |
| CategoryQuotient.ProductsFollowTheirCategory | apps/backend/scripts/normalize-categories.ts:61-65 | every product ends in a live category whose path is the normalised path of its original one |
| CategoryQuotient.ChildrenFollowTheirParent | apps/backend/scripts/normalize-categories.ts:66-69 | every survivor's parent is the live row carrying the normalised path of its old parent |
| CategoryQuotient.MergeKeepsTreeAcyclic | apps/backend/scripts/normalize-categories.ts:54-93 | when each child's normalised path extends its parent's, the final parent relation has no cycle |
| CategoryQuotient.SelfParentWhenMergedWithParent | apps/backend/scripts/normalize-categories.ts:66-69 | a survivor ends as its own parent exactly when its old parent normalises to its own path |
| CategoryQuotient.SelfParentHappens | apps/backend/scripts/normalize-categories.ts:66-69 | two categories, one filed below another spelling of its own name, that meet every assumption of the run and end with a category that is its own parent |
| CategoryQuotient.SurvivorsAreFirst | apps/backend/scripts/normalize-categories.ts:60 | the surviving rows are exactly those that come first in the listing among the rows of their tenant and normalised path |
| CategoryQuotient.AcyclicExactly | apps/backend/scripts/normalize-categories.ts:66-69 | the final parent relation has no cycle exactly when no closed walk leads over original rows that are first in the listing of their group, whose old parents normalise each to the next one's path |
| CategoryQuotient.ParentExactly | apps/backend/scripts/normalize-categories.ts:66-69 | one survivor ends as the parent of another exactly when the other's old parent normalises to its path |
| CategoryQuotient.SecondRunChangesNothing | apps/backend/scripts/normalize-categories.ts:25-97 | a run over tables whose paths are already normal changes nothing, in any listing order |
| CategoryQuotient.SecondRunChangesNothingExactly | apps/backend/scripts/normalize-categories.ts:25-97 | a second run changes nothing exactly when no original path changes further when it is normalised twice |
| EffectivePrices.ExactlyOnePlace | apps/frontend/components/EffectivePricesProvider.tsx:91-155 | a registered slug is in exactly one of pending, one batch in flight, or answered; an unregistered one in none |
| EffectivePrices.StepKeepsValid | apps/frontend/components/EffectivePricesProvider.tsx:91-155 | registering, a timer, a success and a failure each keep the invariant: places, one timer at most, at most four retries, positive prices |
| EffectivePrices.RunKeepsValid | apps/frontend/components/EffectivePricesProvider.tsx:91-155 | the invariant holds after every possible run, with overlapping batches |
| EffectivePrices.RequestsAreFresh | apps/frontend/components/EffectivePricesProvider.tsx:97-108 | a request asks only for registered slugs that are neither answered nor in another request |
| EffectivePrices.AnsweredIsNeverRequestedAgain | apps/frontend/components/EffectivePricesProvider.tsx:97-155 | no continuation of a run requests a slug that has been answered |
| EffectivePrices.StepSpendsPotential | apps/frontend/components/EffectivePricesProvider.tsx:98-138 | every step but a registration lowers a measure of unanswered slugs, retries left, timers and batches |
| EffectivePrices.RunsWithoutRegistrationsEnd | apps/frontend/components/EffectivePricesProvider.tsx:98-154 | once registrations stop, the number of further steps is bounded whatever succeeds or fails |
| EffectivePrices.StallsExactlyOnLastFailure | apps/frontend/components/EffectivePricesProvider.tsx:129-136 | slugs come to wait without a timer exactly when a batch fails with four retries used and no timer armed |
| EffectivePrices.RevivedOnlyBy | apps/frontend/components/EffectivePricesProvider.tsx:110-155 | a stalled queue is revived exactly by a new slug or by another batch's failure with retries left |
| EffectivePrices.QuietMeansAnswered | apps/frontend/components/EffectivePricesProvider.tsx:91-155 | with nothing armed or in flight, all registered slugs are answered exactly when the queue has not stalled |
| EffectivePrices.PriceIsLastQuote | apps/frontend/components/EffectivePricesProvider.tsx:112-121 | after a response a slug has its last positive quote, and keeps its price when the response has none |
| EffectivePrices.LastQuoteIsLast | apps/frontend/components/EffectivePricesProvider.tsx:114-119 | what counts of a response for a slug is its last item with a positive finite price, if there is one |
| EffectivePrices.RunPrices | apps/frontend/components/EffectivePricesProvider.tsx:110-121 | after every run a slug has the last positive quote of any response that arrived, and without one the price it had; registrations, timers and failures change no price |
| EffectivePrices.RunSees | apps/frontend/components/EffectivePricesProvider.tsx:144-155 | after every run the slugs taken in are exactly those registered, but for the empty one |
| EffectivePrices.StepKeepsAnswers | apps/frontend/components/EffectivePricesProvider.tsx:100-112 | the slugs of a batch count as answered when its response arrives, and no others |
| EffectivePrices.RetriesAreCounted | apps/frontend/components/EffectivePricesProvider.tsx:111-131 | a response resets the retries, a failure counts one up to the limit of four, and nothing else touches them |
| EffectivePrices.ArmedDelay | apps/frontend/components/EffectivePricesProvider.tsx:129-154 | a registration arms 30 ms, and a failure 250, 500, 1000 or 2000 ms as the retries go |
| EffectivePrices.FailuresStall | apps/frontend/components/EffectivePricesProvider.tsx:122-137 | persistent failure stalls any waiting queue after one request for each retry left and one more, losing no slug |
| EffectivePrices.SlugCanBeLeftBehind | apps/frontend/components/EffectivePricesProvider.tsx:122-155 | a concrete run in which a registered slug stays unanswered with nothing left to send it |
| EffectivePrices.EffectivePricesProvider.RegisterSlug | apps/frontend/components/EffectivePricesProvider.tsx:144-155 | updates the refs as the registration step says and keeps the invariant |
| EffectivePrices.EffectivePricesProvider.Flush | apps/frontend/components/EffectivePricesProvider.tsx:91-99 | disarms, empties the pending set into a request unless it was empty, and keeps the invariant |
| EffectivePrices.EffectivePricesProvider.RequestSucceeds | apps/frontend/components/EffectivePricesProvider.tsx:110-121 | afterwards every slug has its last positive quote of the response, or else its old price, the retries are reset, and the invariant is kept |
| EffectivePrices.EffectivePricesProvider.RequestFails | apps/frontend/components/EffectivePricesProvider.tsx:122-137 | queues the slugs again, counts the retry, arms a timer if none is armed, and keeps the invariant |
| AdminSession.AtMostOneRefresh | apps/admin/src/lib/auth.ts:195-204 | the tab waits for at most one refresh request |
| AdminSession.StepKeepsOrder | apps/admin/src/lib/auth.ts:157-304 | every step keeps single flight, waiting calls wait for a promise that will settle, each call sends once or twice, and clears the session exactly when its last response is a 401 |
| AdminSession.RunKeepsOrder | apps/admin/src/lib/auth.ts:157-304 | the same holds after every run, whatever requests are given up on before the server handles them and whatever answers are lost |
| AdminSession.InitIsOrderlyAndSafe | apps/admin/src/lib/auth.ts:157-195 | both invariants hold in a fresh tab |
| AdminSession.NoReplay | apps/backend/src/auth/auth.service.ts:479-527 | when no refresh is given up on and accepted ones are delivered with both tokens, no interleaving makes the server see a rotated token |
| AdminSession.RequestsPresentValidTokens | apps/admin/src/lib/auth.ts:206-218 | a refresh is sent with a token that has not been rotated, and only when none is on the wire |
| AdminSession.RotatedTokenKeptExactlyWhenAnswerIsLost | apps/admin/src/lib/auth.ts:219-228 | after an accepted refresh the tab still holds the rotated token exactly when the answer does not arrive with both tokens |
| AdminSession.RotatedTokenIsReplayed | apps/admin/src/lib/auth.ts:206-218 | a tab that holds a rotated token trips the server's reuse detection at its next refresh |
| AdminSession.ReplayIsReachable | apps/backend/src/auth/auth.service.ts:493-500 | from every fresh tab with a refresh token some run trips the server's reuse detection |
| AdminSession.AdriftRotatesStoredExactly | apps/admin/src/lib/auth.ts:210-228 | a refresh the tab gave up on leaves it with a rotated token exactly when the server accepts it later and the tab still holds that token |
| AdminSession.AbandonedIsStillHandled | apps/backend/src/auth/auth.service.ts:479-527 | a refresh the tab gave up on can still reach the server, which detects a replay exactly when its token has been rotated |
| AdminSession.StepSpends | apps/admin/src/lib/auth.ts:261-304 | every step that is not a new call or login lowers the work that remains |
| AdminSession.CallsSettleInBoundedSteps | apps/admin/src/lib/auth.ts:261-304 | without new calls or logins only boundedly many steps can follow, so the 401 loop ends |
| AdminSession.UnfinishedCallCanAdvance | apps/admin/src/lib/auth.ts:284-304 | while some call is unfinished a step other than a new call or login is possible |
| AdminSession.CallsCanFinish | apps/admin/src/lib/auth.ts:261-304 | from every state some run without new calls or logins, of bounded length, finishes all calls: none waits for ever |
| AdminSession.SessionLostExactlyOnUnauthorized | apps/admin/src/lib/auth.ts:299-303 | the stored tokens vanish exactly on a step in which a call ends with a 401 |
| AdminSession.ResumedExactlyWithNewToken | apps/admin/src/lib/auth.ts:168-229 | waiting calls are resumed to send again exactly when an access token has arrived, and it is stored by then; otherwise the stored tokens stay |
| AdminSession.SendsAgainExactly | apps/admin/src/lib/auth.ts:257-297 | in every run from a fresh tab, a call that is out or over has sent twice exactly when an access token arrived while it waited |
| AdminSession.GivesUpExactly | apps/admin/src/lib/auth.ts:284-304 | in every run a call ends on a 401 after one send, other than at a credential endpoint, exactly when it waited for a refresh and an auto-login and neither brought an access token |
| AdminSession.AdminTab.StartRefresh | apps/admin/src/lib/auth.ts:195-208 | joins the refresh under way or starts one with the stored token |
| AdminSession.AdminTab.ApiFetch | apps/admin/src/lib/auth.ts:257-282 | adds a call that has sent once and leaves the others alone |
| AdminSession.AdminTab.OnResponse | apps/admin/src/lib/auth.ts:284-304 | takes a call from its response to its end or to the shared refresh, keeping the invariant |
| AdminSession.AdminTab.OnRefreshAnswer | apps/admin/src/lib/auth.ts:219-229 | stores what arrived, settles the promise and wakes every waiting call |
| AdminSession.AdminTab.OnRefreshGivenUp | apps/admin/src/lib/auth.ts:210-228 | a refresh whose request fails settles to false and wakes every waiting call, while the server may still handle it |
| AdminSession.AdminTab.OnNothingToRefresh | apps/admin/src/lib/auth.ts:206-208 | without a stored refresh token the promise settles to false |
| AdminSession.AdminTab.OnAutoLoginAnswer | apps/admin/src/lib/auth.ts:168-187 | stores what arrived, settles the auto-login and wakes every waiting call |
| AdminSession.AdminTab.ContinueAfterRefresh | apps/admin/src/lib/auth.ts:290-294 | sends again, counted, after a refresh that worked, otherwise waits for the auto-login |
| AdminSession.AdminTab.ContinueAfterAutoLogin | apps/admin/src/lib/auth.ts:294-300 | sends again with the tokens kept after a login that worked, otherwise ends and clears the session |
| AdminSession.AdminTab.ApplyTokens | apps/admin/src/lib/auth.ts:91-98 | writes the access token, and the refresh token only if there is one |
| AdminSession.AdminTab.ClearTokens | apps/admin/src/lib/auth.ts:100-106 | forgets both tokens |
| AdminSession.AdminTab.WakeRefreshWaiters | apps/admin/src/lib/auth.ts:197-204 | exactly the calls that wait for the refresh are resumed |
| RichText.LinkAtMeansIsLink | apps/frontend/components/PopupBlocks.tsx:25 | the link scanner finds a link with a label and url at a position exactly when the pattern matches there with these groups |
| RichText.NextLinkIsLink | apps/frontend/components/PopupBlocks.tsx:58 | what the search returns is a link at its start |
| RichText.NextLinkIsLeftmost | apps/frontend/components/PopupBlocks.tsx:58 | no link starts before the one the search returns |
| RichText.BoldAtMeansIsBold | apps/frontend/components/PopupBlocks.tsx:38-40 | the bold scanner finds bold text at a position exactly when the pattern matches there |
| RichText.NextBoldIsLeftmost | apps/frontend/components/PopupBlocks.tsx:38 | no bold text starts before the one the search returns |
| RichText.BoldPartsAreLeftmost | apps/frontend/components/PopupBlocks.tsx:38 | each bold part is the leftmost bold text in what is left of the text before it is cut out |
| RichText.SafeMeansHttpOrLocal | apps/frontend/components/PopupBlocks.tsx:20-23 | an address is safe exactly when it starts with `http://` or `https://`, in capitals or not, or with a single slash |
| RichText.BoldPartsTile | apps/frontend/components/PopupBlocks.tsx:38 | the parts of the bold split put together give the text |
| RichText.BoldPartsAlternate | apps/frontend/components/PopupBlocks.tsx:38-44 | the parts are in turn without bold text and bold from end to end, so testing each part again finds the same |
| RichText.TokensTile | apps/frontend/components/PopupBlocks.tsx:57-82 | plain slices and link matches tile the text |
| RichText.PrintNodes | apps/frontend/components/PopupBlocks.tsx:52-84 | printing the nodes back gives the text with unsafe links reduced to their labels |
| RichText.RoundTripExactlyWhenLinksSafe | apps/frontend/components/PopupBlocks.tsx:52-84 | printing the nodes back gives the very text exactly when every link is safe, for every text |
| RichText.NodesAnchorsAreSafe | apps/frontend/components/PopupBlocks.tsx:62-78 | every anchor has a safe address, is marked external exactly when it is, and holds no other anchor |
| RichText.RichIsParsed | apps/frontend/components/PopupBlocks.tsx:27-84 | whatever the text, no text node holds a line break, a link or bold text, none is empty, and no bold or link node is empty or nested in bold |
| RichText.WithBreaks | apps/frontend/components/PopupBlocks.tsx:27-34 | the loop gives the lines' texts with a break between any two lines |
| RichText.WithBold | apps/frontend/components/PopupBlocks.tsx:36-49 | the loop gives the nodes of all parts in order; they print back as the text, and when it holds no link nothing in them is left unparsed |
| RichText.RenderTurn | apps/frontend/components/PopupBlocks.tsx:59-78 | one turn gives the nodes of the text up to the link, then those of the link |
| RichText.TakeTurn | apps/frontend/components/PopupBlocks.tsx:79-80 | a turn moves the cursor forward to the end of the link, and the nodes so far stay the image of the text before it |
| RichText.RenderAll | apps/frontend/components/PopupBlocks.tsx:52-84 | the cursor loop ends and its result is the image of the whole text |
| RichText.RenderRich | apps/frontend/components/PopupBlocks.tsx:52-84 | nothing is left unparsed, anchors are safe, and printing back restores the text exactly when all links are safe |
| DealerPricing.EffectiveDiscountPercent | apps/frontend/lib/dealer-pricing.ts:24-49 | the percentage is between 0 and 100 for every customer and table, numbers or not |
| DealerPricing.SupplierRowDecides | apps/frontend/lib/dealer-pricing.ts:33-41 | a supplier's first row decides alone: it gives its list discount, held between 0 and 100 and 0 when it is no number, or none when it has a profit discount |
| DealerPricing.OwnDiscountDecides | apps/frontend/lib/dealer-pricing.ts:42-46 | without a row of the supplier the customer's own discounts decide alike |
| DealerPricing.Round2IsNearest | apps/frontend/lib/dealer-pricing.ts:5-7 | an amount is the rounded one exactly when it is a whole number of kuruş within half a kuruş, the upper one of two |
| DealerPricing.UnitPriceIsQuoted | apps/frontend/lib/dealer-pricing.ts:80-88 | a positive finite entry of the map, rounded, is the unit price |
| DealerPricing.UnitPriceIsDiscounted | apps/frontend/lib/dealer-pricing.ts:90-92 | without such an entry it is the list price, less the percentage and then rounded when there is a percentage |
| DealerPricing.SubtotalAddsUp | apps/frontend/lib/dealer-pricing.ts:99-109 | an empty cart costs nothing, a line its unit price times its quantity, and two carts together what they cost apart; the list total alike |
| DealerPricing.UnitPriceNearExact | apps/frontend/lib/dealer-pricing.ts:72-93 | a unit price is within half a kuruş of the exact quoted or discounted price |
| DealerPricing.SubtotalNearExact | apps/frontend/lib/dealer-pricing.ts:99-109 | the subtotal is within 0.005 times the total quantity of the exact discounted total |
| DealerPricing.UnitPriceWithinListExactly | apps/frontend/lib/dealer-pricing.ts:90-92 | a unit price is at most the list price exactly when there is no discount or the discounted price rounds within the list price |
| DealerPricing.UnitPriceFallsExactly | apps/frontend/lib/dealer-pricing.ts:90-92 | a higher percentage gives no higher unit price exactly when the lower one is a discount, neither is, or the higher one rounds within the list price |
| DealerPricing.UnitPriceFallsWithDiscount | apps/frontend/lib/dealer-pricing.ts:90-92 | for whole-kuruş list prices a higher percentage gives no higher unit price, and none above the list price |
| DealerPricing.SubtotalFallsWithDiscount | apps/frontend/lib/dealer-pricing.ts:99-109 | the same for the subtotal and the list total, over all lines |
| DealerPricing.DiscountCanRaiseFractionalPrice | apps/frontend/lib/dealer-pricing.ts:90-92 | a cart line with a fraction of a kuruş in its list price and a customer whose discount raises its unit price |
| ProductPrice.PrintedAfterRounding | apps/frontend/lib/api.ts:329-340 | an amount prints the same before and after rounding exactly when it is not negative or not half way between two kuruş |
| ProductPrice.SameRawExactly | apps/frontend/components/ProductPrice.tsx:121-132 | page and cart read the same percentage exactly when the supplier id is not empty, no row is filed under it, or the row says what the customer's own discounts say |
| ProductPrice.ShownIsCharged | apps/frontend/components/ProductPrice.tsx:87-135 | where page and cart read the same percentage, the price shown and the unit price charged print the same, with the exact condition on quoted price, percentage and sign |
| ProductPrice.EmptySupplierIdDiffers | apps/frontend/components/ProductPrice.tsx:121-123 | a discount row under an empty supplier id is applied by the cart and not by the page |
| Cart.SafeQty | apps/frontend/lib/cart.ts:104 | a quantity below 1 becomes 1, one above 99 becomes 99, and any other only loses its fraction |
| Cart.CartStore.Add | apps/frontend/lib/cart.ts:103-118 | the slug's quantity grows by the safe quantity up to 99, a new slug is appended, everything else stays, and slugs stay distinct |
| Cart.CartStore.Remove | apps/frontend/lib/cart.ts:119-122 | exactly the slug's line is cut out, and the order of the others stays |
| Cart.CartStore.SetQty | apps/frontend/lib/cart.ts:123-130 | a line of the cart gets the safe quantity, an absent slug changes nothing |
| Cart.CartStore.Clear | apps/frontend/lib/cart.ts:131 | the cart is empty |
| Cart.CartStore.Total | apps/frontend/lib/cart.ts:132-133 | the loop computes the list total |
| Cart.CartStore.Count | apps/frontend/lib/cart.ts:134 | the loop computes the total quantity |
| Cart.UpdateQty | apps/frontend/lib/cart.ts:107-114 | rewriting a slug's quantity keeps the cart valid, its lines, and every other quantity |
| Cart.AppendLine | apps/frontend/lib/cart.ts:116 | appending a new slug keeps the cart valid and every other quantity |
| Cart.RemoveLine | apps/frontend/lib/cart.ts:119-122 | filtering a slug out keeps the cart valid and every other quantity |
| Cart.WithoutIsCut | apps/frontend/lib/cart.ts:119-122 | filtering a slug out cuts its one line out of the cart |
| CartSplit.SamePackageExactly | apps/frontend/lib/cart-split.ts:47 | two lines have one key exactly when they have one supplier, none counting as the unknown one |
| CartSplit.BucketLines | apps/frontend/lib/cart-split.ts:45-54 | the grouping loop's map holds, under each key, the lines with that key in cart order |
| CartSplit.NumberGroups | apps/frontend/lib/cart-split.ts:60-76 | groups are numbered from one in key order, with the quantity and subtotal of their own lines |
| CartSplit.SplitCartBySupplier | apps/frontend/lib/cart-split.ts:38-77 | the result is the numbered split of the cart along its sorted keys |
| CartSplit.CountDistinctSuppliers | apps/frontend/lib/cart-split.ts:83-89 | the loop counts the distinct keys |
| CartSplit.SplitIsPartition | apps/frontend/lib/cart-split.ts:45-76 | there are as many groups as distinct suppliers, numbered from one, with distinct keys, and each line is as often in its supplier's group as in the cart and in no other |
| CartSplit.GroupsSeparateSuppliers | apps/frontend/lib/cart-split.ts:45-54 | two lines of a cart lie in one group exactly when they have one key |
| CartSplit.LinesInCartOrder | apps/frontend/lib/cart-split.ts:45-54 | the lines of a group are in cart order |
| CartSplit.GroupCountsItsLines | apps/frontend/lib/cart-split.ts:60-76 | a group's quantity and subtotal are those of a cart of its lines alone |
| CartSplit.SplitPreservesTotals | apps/frontend/lib/cart-split.ts:60-67 | group quantities sum to the cart's count and group subtotals to the cart's subtotal |
| CartSplit.GroupsSumToWhole | apps/frontend/lib/cart-split.ts:62-67 | any sum over lines equals the sum of its values over the groups |
| CartSplit.SumOfPermuted | apps/frontend/lib/dealer-pricing.ts:104-108 | a sum over the lines does not depend on their order |
| CartSplit.SortedIsUnique | apps/frontend/lib/cart-split.ts:56-58 | a set of keys has one sorted listing |
| CartSplit.SplitIgnoresOrder | apps/frontend/lib/cart-split.ts:38-77 | reordering the cart changes no supplier's package number, quantity or subtotal |
| Watchdog.CountersAreRuns | infra/watchdog/watchdog.js:113-143 | the two counters are the lengths of the current runs of failures and of successes |
| Watchdog.FindLastIsLast | infra/watchdog/watchdog.js:116-151 | the search finds the last probe that completes a run of the given length |
| Watchdog.DownMeansFailuresCameLast | infra/watchdog/watchdog.js:109-165 | the site counts as down exactly when the last completed run of failures is later than the last completed run of successes |
| Watchdog.DownMeansLaterCompletion | infra/watchdog/watchdog.js:109-165 | the same for any two probes with the declarative property of being the last completions |
| Watchdog.AlertsNeedProbes | infra/watchdog/watchdog.js:148-163 | n down alerts need at least n F + (n - 1) R probes |
| Watchdog.AlertBoundIsTight | infra/watchdog/watchdog.js:148-163 | for every n some history of exactly that length raises n alerts |
| Watchdog.Process.Tick | infra/watchdog/watchdog.js:109-165 | after a probe the state agrees with the whole history, an alert goes out exactly on a fall from up to down, and the time of the fall is kept while down |
| TierEditor.DerivedTiersAreContiguous | apps/admin/src/components/KademeliKarEditor.tsx:23-33 | whatever the rows, tiers start at zero, are adjacent, end unbounded, and carry positive extra costs only |
| TierEditor.TierOfRow | apps/admin/src/components/KademeliKarEditor.tsx:23-33 | a tier has its row's rate and positive costs, and the row's limit unless it is the last |
| TierEditor.CostIsKeptOrDropped | apps/admin/src/components/KademeliKarEditor.tsx:29-31 | a positive cost is kept in its place, any other is dropped |
| TierEditor.TiersRoundTrip | apps/admin/src/components/KademeliKarEditor.tsx:18-45 | tiers survive the trip through rows exactly when they are contiguous with positive extra costs |
| TierEditor.OnePassIsEnough | apps/admin/src/components/KademeliKarEditor.tsx:18-45 | one pass through both functions is already a fixed point |
| TierEditor.EveryCostInOneTier | apps/admin/src/components/KademeliKarEditor.tsx:23-33 | every cost from zero up lies in exactly one tier exactly when the limits never fall |
| TierEditor.WarningsMeanEmptyTiers | apps/admin/src/components/KademeliKarEditor.tsx:110-120 | no row warns exactly when no tier is empty |
| TierEditor.FindWarning | apps/admin/src/components/KademeliKarEditor.tsx:110-120 | the loop warns of the first empty tier, saying whether its limit is missing or not above the one before, and does not warn exactly when no tier is empty; then each cost has one tier |
| TierEditor.Editor.Update | apps/admin/src/components/KademeliKarEditor.tsx:71-74 | the form receives the contiguous tiers of the new rows |
| TierEditor.Editor.SetRow | apps/admin/src/components/KademeliKarEditor.tsx:76-78 | exactly the one row changes, and the form receives contiguous tiers |
| TierEditor.Editor.AddRow | apps/admin/src/components/KademeliKarEditor.tsx:80-90 | a row like the last, without limit and extra costs, goes before the last; the rest stays |
| TierEditor.Editor.RemoveRow | apps/admin/src/components/KademeliKarEditor.tsx:92-95 | exactly the one row goes, unless it is the only one |
| TierEditor.Editor.Warn | apps/admin/src/components/KademeliKarEditor.tsx:110-120 | no warning exactly when no tier the form holds is empty, and then each cost has one tier |
| DealerNumbers.ValueOfDigits | apps/backend/scripts/backfill-bayi-no.ts:47-49 | a number is read back from its decimal digits |
| DealerNumbers.PadStartInjective | apps/backend/src/receipts/bayi-number.service.ts:22-31 | numbers padded by the service print alike exactly when they are equal, whatever their length |
| DealerNumbers.LpadInjectiveExactlyToSixDigits | apps/backend/scripts/backfill-bayi-no.ts:97-98 | numbers padded by the script's SQL are all different exactly while the last is at most 999999 |
| DealerNumbers.RanksDiffer | apps/backend/scripts/backfill-bayi-no.ts:91-96 | different customers have different row numbers |
| DealerNumbers.RankIsTaken | apps/backend/scripts/backfill-bayi-no.ts:91-96 | every row number from one to the count belongs to some customer |
| DealerNumbers.LpadPrintsLeading | apps/backend/scripts/backfill-bayi-no.ts:97-98 | the script's SQL prints the first six digits of a number, whatever its length |
| DealerNumbers.TextIsPrinted | apps/backend/scripts/backfill-bayi-no.ts:97-98 | two stored texts are alike exactly when they can be read as the same number |
| DealerNumbers.TextForm | apps/backend/scripts/backfill-bayi-no.ts:97-98 | what is stored is `BAYI-` and digits that read as the number: exactly six up to 999999, more without a leading zero beyond |
| DealerNumbers.UniqueMeansDiffer | apps/backend/scripts/backfill-bayi-no.ts:19 | the unique index lets two customers share a number only past six digits, printed differently |
| DealerNumbers.PutRefusedExactly | apps/backend/src/receipts/bayi-number.service.ts:56-59 | a lazy update is refused exactly when another customer's number prints like the one to be written |
| DealerNumbers.PutChangesTextExactly | apps/backend/src/receipts/bayi-number.service.ts:56-59 | a lazy update changes the text of a customer who has one exactly when nobody's number prints like the new one |
| DealerNumbers.LongNumberCanBeShared | apps/backend/scripts/backfill-bayi-no.ts:97-98 | past six digits a late script can give a number that is held |
| DealerNumberRuns.StepKeepsValid | apps/backend/scripts/backfill-bayi-no.ts:55-101 | every statement of lazy assignments, creations, deletions and any number of scripts keeps printed numbers unique and all numbers held, pending or reserved within those taken |
| DealerNumberRuns.RunKeepsValid | apps/backend/scripts/backfill-bayi-no.ts:55-101 | the same after every interleaving of these statements |
| DealerNumberRuns.RunKeepsDiffer | apps/backend/scripts/backfill-bayi-no.ts:15-19 | in every interleaving no two customers share a number while all have at most six digits |
| DealerNumberRuns.TextChangesExactly | apps/backend/src/receipts/bayi-number.service.ts:49-59 | a step that does not delete a customer changes the stored text exactly when it is a lazy update for a customer numbered since its read, and nobody's number prints like the drawn one |
| DealerNumberRuns.NumbersNeverChange | apps/backend/scripts/backfill-bayi-no.ts:22-23 | in every interleaving in which no lazy update comes for a customer numbered since its read, a customer who is not deleted keeps the number |
| DealerNumberRuns.TakesAgainExactly | apps/backend/scripts/backfill-bayi-no.ts:66-101 | in every state a number taken before is taken again exactly when a script moves the sequence from a base read too early, or a single number is drawn while the sequence stands below the highest one taken |
| DealerNumberRuns.GoesBackExactly | apps/backend/scripts/backfill-bayi-no.ts:85-87 | in every state the sequence goes back exactly when a script moves it to a base and count below where it stands |
| DealerNumberRuns.BlockIsNewExactly | apps/backend/scripts/backfill-bayi-no.ts:66-87 | with the sequence at the highest number taken, a script's block is above all of them exactly when its base is still the sequence's position |
| DealerNumberRuns.OnTimeRunKeeps | apps/backend/scripts/backfill-bayi-no.ts:66-101 | in runs without a late script the sequence stands at the highest number taken, no number of any length is claimed by two customers, pending calls or reserved blocks, and a held number stays its holder's or nobody's |
| DealerNumberRuns.NeverReissued | apps/backend/scripts/backfill-bayi-no.ts:15-19 | in runs without a late script a number once held is never held by another customer, not after a deletion and not after it was overwritten |
| DealerNumberRuns.LateScriptReissues | apps/backend/scripts/backfill-bayi-no.ts:66-101 | from every orderly state, a customer created and deleted between the script's read and its writes passes the number on to a waiting customer |
| DealerNumberRuns.LateCallOverwrites | apps/backend/src/receipts/bayi-number.service.ts:49-59 | from every orderly state, a call that looked before its customer got a number gives another one |
| DealerNumberRuns.SecondCallOverwrites | apps/backend/src/receipts/bayi-number.service.ts:49-59 | from every orderly state, two calls that look at one waiting customer give two numbers in turn, the second replacing the first |
| DealerNumberRuns.CallOverwritesScript | apps/backend/src/receipts/bayi-number.service.ts:49-59 | from every orderly state, a call that looked before the script served its customer replaces the script's number |
| DealerNumberRuns.ServeIsUndisturbed | apps/backend/scripts/backfill-bayi-no.ts:55-101 | the script's four statements in one go are the undisturbed script, and keep the state orderly |
| DealerNumberRuns.CallProceedsExactly | apps/backend/src/receipts/bayi-number.service.ts:49-55 | after its read a call goes on to draw exactly when its customer exists and has no number |
| DealerNumberRuns.CallIsUndisturbed | apps/backend/src/receipts/bayi-number.service.ts:44-61 | a call's three statements in one go are the undisturbed call |
| DealerNumbers.RefusedExactlyOnClash | apps/backend/scripts/backfill-bayi-no.ts:89-101 | a block is refused, leaving every customer as before, exactly when one of its numbers prints like another of them or like a number held |
| DealerNumbers.RefusedExactlyWhenHeld | apps/backend/scripts/backfill-bayi-no.ts:89-101 | up to six digits a block is refused exactly when one of its numbers is held |
| DealerNumbers.RefusedExactlyPastSixDigits | apps/backend/scripts/backfill-bayi-no.ts:97-98 | a script on time is refused exactly when a number past six digits prints like another of its block or like one held |
| DealerNumbers.ThreePastAMillionAreRefused | apps/backend/scripts/backfill-bayi-no.ts:97-98 | past a million three waiting customers are always refused |
| DealerNumbers.CreationRefusedExactly | apps/backend/prisma/migrations/20260812203507_init/migration.sql:520 | a new customer's row is refused exactly when the number its default draws prints like one held |
| DealerNumbers.BackfillCompletes | apps/backend/scripts/backfill-bayi-no.ts:85-101 | undisturbed and up to six digits, the script leaves nobody without number, keeps the numbers unique, and the sequence goes on behind the block |
| DealerNumbers.BackfillGives | apps/backend/scripts/backfill-bayi-no.ts:89-100 | it gives a waiting customer base plus rank and leaves every other customer as before |
| DealerNumbers.BackfillFollowsCreation | apps/backend/scripts/backfill-bayi-no.ts:89-100 | new numbers ascend exactly with creation time, and with the id at one time |
| DealerNumbers.BackfillLeavesNoGap | apps/backend/scripts/backfill-bayi-no.ts:86-100 | every number of the reserved block goes to some customer |
| DealerNumbers.Registry.NextValue | apps/backend/src/receipts/bayi-number.service.ts:22-31 | takes the number after the highest handed out, called or not before |
| DealerNumbers.Registry.ReadNumber | apps/backend/src/receipts/bayi-number.service.ts:49-54 | tells a missing customer, one without number, and one with it |
| DealerNumbers.Registry.WriteNumber | apps/backend/src/receipts/bayi-number.service.ts:56-59 | writes the number whatever is stored, unless the customer is missing or the index refuses it |
| DealerNumbers.Registry.EnsureForCustomer | apps/backend/src/receipts/bayi-number.service.ts:44-61 | undisturbed, a missing customer gets no answer, a numbered one the stored text without using the sequence, another one the next number, or a refusal; the answer is `BAYI-` with at least six digits that read as the number |
| DealerNumbers.Registry.CountNulls | apps/backend/scripts/backfill-bayi-no.ts:55 | reads how many customers wait |
| DealerNumbers.Registry.ReadPosition | apps/backend/scripts/backfill-bayi-no.ts:66-73 | reads the highest number handed out, called or not before |
| DealerNumbers.Registry.SetPosition | apps/backend/scripts/backfill-bayi-no.ts:86-87 | moves the sequence to the end of the block, wherever it stands |
| DealerNumbers.Registry.WriteBlock | apps/backend/scripts/backfill-bayi-no.ts:89-101 | serves all customers who wait at that moment, storing `BAYI-` with the six leading digits of base plus rank, or none, and the index holds |
| DealerNumbers.Registry.Backfill | apps/backend/scripts/backfill-bayi-no.ts:51-107 | undisturbed, the run is the whole script, or nothing on a dry run, and reports how many customers it served |
| Receipts.ChronologicalSorts | apps/backend/scripts/backfill-receipts.ts:259-276 | the queue ascends by collection time and keeps the order of records of the same time |
| Receipts.ChronologicalKeepsRecords | apps/backend/scripts/backfill-receipts.ts:259-276 | the queue holds exactly the records of both tables, each once |
| Receipts.QueueInCollectionOrder | apps/backend/scripts/backfill-receipts.ts:259-276 | the queue never goes back in payment or decision time, for which the creation time stands in where there is none |
| Receipts.TiesKeepTheirOrder | apps/backend/scripts/backfill-receipts.ts:259-276 | of records collected at one moment the orders come first, then the top-ups, as they were read |
| Receipts.QueueIsEarliest | apps/backend/scripts/backfill-receipts.ts:278 | the queue is the whole list, or the earliest records up to a limit other than zero |
| Receipts.CountsAddUp | apps/backend/scripts/backfill-receipts.ts:307-332 | created, existed, skipped and failures add up to the queue's length, whatever throws |
| Receipts.CreatedAreNew | apps/backend/scripts/backfill-receipts.ts:312-326 | the receipts counted as created are as many as have been added |
| Receipts.NumbersAreAccountedFor | apps/backend/src/receipts/receipts.service.ts:127-347 | every number the run takes from the counter goes to a receipt counted as created, or is lost to trouble after it was taken |
| Receipts.RunExtends | apps/backend/src/receipts/receipts.service.ts:173-254 | a run changes no receipt, and new ones carry numbers from the counter's value up |
| Receipts.IssuedInTurn | apps/backend/scripts/backfill-receipts.ts:312-326 | a record's new receipt has the number that was next at its turn |
| Receipts.IssuedExactlyWhenDue | apps/backend/src/receipts/receipts.service.ts:135-347 | a record gets a new receipt exactly when it had none, passes the guards on card, customer and tenant, and its call neither throws nor runs into a unique index |
| Receipts.NumbersFollowTheQueue | apps/backend/scripts/backfill-receipts.ts:306-326 | new numbers are above all old ones and ascend exactly with the place in the queue |
| Receipts.NumbersFollowCollection | apps/backend/scripts/backfill-receipts.ts:258-326 | receipts issued in one run are numbered by payment or decision time, or else creation time, orders and top-ups together |
| Receipts.GapIsMissingLessStray | apps/backend/scripts/backfill-receipts.ts:335-357 | the gap the check computes is the missing receipts less the receipts on records without customer |
| Receipts.GapClosedMeansComplete | apps/backend/scripts/backfill-receipts.ts:355-360 | with no receipt on a record without customer, the gap is closed exactly when every record with a customer has a receipt |
| Receipts.StrayReceiptHidesMissingOne | apps/backend/scripts/backfill-receipts.ts:355-358 | a receipt on a record without customer hides a missing one from the check |
| Receipts.RunIssuesNoStray | apps/backend/src/receipts/receipts.service.ts:214-221 | a run never issues a receipt for a record without customer |
| Receipts.ReceiptAfterRun | apps/backend/src/receipts/receipts.service.ts:135-347 | after a run a record has a receipt exactly when it had one, or passes the guards and nothing goes wrong in its call |
| Receipts.SecondRunIsIdleExactly | apps/backend/src/receipts/receipts.service.ts:127-134 | a second run without trouble changes nothing exactly when nothing went wrong in the first for a record due a receipt |
| Receipts.FullRunPassesExactly | apps/backend/scripts/backfill-receipts.ts:306-360 | given no stray receipt, a full run passes exactly when nothing throws and every record with a customer had a receipt or passes the guards without a swallowed clash |
| Receipts.UnservedKeepsGapOpen | apps/backend/scripts/backfill-receipts.ts:355-358 | given no stray receipt, any record with a customer left without a receipt keeps its table's gap open |
| Receipts.ProjectionCounts | apps/backend/scripts/backfill-receipts.ts:294-303 | the dry run's counts are those of the records with a customer and no receipt, with a receipt, and without customer |
| Receipts.DryRunForetells | apps/backend/scripts/backfill-receipts.ts:293-304 | against a run in which nothing throws, the dry run's first count exceeds the created receipts by the records with a customer left without one, and its counts overlap by the stray receipts |
| Receipts.ReceiptStore.CreateFor | apps/backend/src/receipts/receipts.service.ts:135-347 | an existing receipt is returned unchanged first; otherwise a receipt with the next number is issued exactly for a card record with a customer, and a tenant if it is a top-up, when nothing goes wrong; any other answer leaves receipts alone |
| Receipts.ReceiptStore.Apply | apps/backend/scripts/backfill-receipts.ts:306-332 | the loop's database and counters are those of the calls in queue order |
| Receipts.ReceiptStore.RunBackfill | apps/backend/scripts/backfill-receipts.ts:136-371 | stops exactly above the row limit, writes nothing on a dry run, counts every record once, computes both gaps and the verdict, and PASS means every record with a customer has a receipt unless a stray one exists |
| CategoryTree.PathIsFirstInPreorder | apps/frontend/components/CatalogSidebar.tsx:32-47 | the path returned is that of the first node in preorder with the slug |
| CategoryTree.SlugsAreOfNodes | apps/frontend/components/CatalogSidebar.tsx:32-47 | the slugs looked among are those of the nodes at whatever depth |
| CategoryTree.NoPathMeansNoNode | apps/frontend/components/CatalogSidebar.tsx:32-47 | there is no path exactly when the slug is absent, empty, or no node's |
| CategoryTree.PathLeadsToActive | apps/frontend/components/CatalogSidebar.tsx:32-47 | a path found leads from a root of the tree, child by child, to a node with the slug |
| CategoryTree.FilterKeepsHits | apps/frontend/components/CatalogSidebar.tsx:173-186 | the search keeps every matching node, in order |
| CategoryTree.HitsAreMatches | apps/frontend/components/CatalogSidebar.tsx:173-186 | the hits are exactly the nodes, at whatever depth, whose name matches |
| CategoryTree.ShownExactlyWhenHit | apps/frontend/components/CatalogSidebar.tsx:178 | something is shown exactly when something matches |
| CategoryTree.FilterPrunes | apps/frontend/components/CatalogSidebar.tsx:173-186 | the search shows exactly the tree pruned to the subtrees that hold a match, with all children kept below a node that alone matches |
| CategoryTree.FilterIsJustified | apps/frontend/components/CatalogSidebar.tsx:173-186 | every node shown matches, or an ancestor or a descendant does |
| CategoryTree.FilterTwice | apps/frontend/components/CatalogSidebar.tsx:173-186 | searching again changes nothing |
| CategoryTree.FilterNodes | apps/frontend/components/CatalogSidebar.tsx:173-186 | the recursive loop computes the search |
| CategoryTree.Search | apps/frontend/components/CatalogSidebar.tsx:170-188 | an empty term shows everything; otherwise the pruned, justified tree with all matches |
| PermissionMatrix.ChoicesNeverStoreBase | apps/admin/src/components/PermissionMatrix.tsx:124-178 | after any toggles, bulk choices and resets the buffer stores no decision the server has anyway |
| PermissionMatrix.ShownIsLastDecision | apps/admin/src/components/PermissionMatrix.tsx:119-178 | what is shown for a page is the last choice that concerned it |
| PermissionMatrix.PendingCountsChangedPages | apps/admin/src/components/PermissionMatrix.tsx:138 | the pending count is the number of pages whose shown decision is not the server's |
| PermissionMatrix.SavingMakesItSo | apps/backend/src/permissions/permissions.service.ts:196-219 | applying the saved updates, in any order, gives exactly the shown decision on every page |
| PermissionMatrix.NoUpdateIsWasted | apps/admin/src/components/PermissionMatrix.tsx:128-130 | no shorter list of updates gives the shown decisions |
| PermissionMatrix.SaveKeepsShownExactlyWhenUntouched | apps/admin/src/components/PermissionMatrix.tsx:68-72 | the answer to a save leaves what is shown unchanged exactly when the buffer is still the one that was sent |
| PermissionMatrix.AnnouncedIsEffective | apps/backend/src/permissions/permissions.service.ts:83-94 | the server's effective permissions are those the result column announces for its decisions |
| PermissionMatrix.SavedIsEffective | apps/admin/src/components/PermissionMatrix.tsx:206-213 | after a save the user holds exactly the permissions the result column showed before it |
| PermissionMatrix.BaseTri | apps/admin/src/components/PermissionMatrix.tsx:109-117 | the loops give every page the server's decision, a later override winning |
| PermissionMatrix.Matrix.SetTri | apps/admin/src/components/PermissionMatrix.tsx:124-136 | records a decision, or drops it when it is the server's own |
| PermissionMatrix.Matrix.HandleBulk | apps/admin/src/components/PermissionMatrix.tsx:168-178 | replaces the buffer by the one decision on every page where it differs from the server's |
| PermissionMatrix.Matrix.HandleReset | apps/admin/src/components/PermissionMatrix.tsx:155-157 | empties the buffer |
| PermissionMatrix.Matrix.HandleSave | apps/admin/src/components/PermissionMatrix.tsx:143-153 | one update for each entry, in any order, that together make the server decide what is shown |
| PermissionMatrix.Matrix.SaveSucceeds | apps/admin/src/components/PermissionMatrix.tsx:68-70 | the new base decides what the buffer sent showed, and nothing is pending |

## Left out

- Network, database, storage and Telegram calls: only their effect on tables, tokens, timers and response events.
- Rendering, styles, routing, focus, modals, and React's keys and re-rendering; `buildHref` and the price filters of the sidebar.
- Floating-point rounding and the `Number.EPSILON` nudge before rounding: amounts are exact and rounded half up; tier limits and rates are integers of a smallest unit.
- `normalizeName`, Turkish casing and the suffix pattern: a parameter, any function from text to text, not assumed idempotent; for the names it is assumed to make no `>` of other text (`CleanNames`).
- UTF-16: a character is one unit of text; matching of `http` ignores case for the 26 letters.
- The hypotheses of the category merge, named `Ready`: unique ids and paths, no dangling reference, no `::` in a key, no path equal to the temporary path of a row; the other writers of the tables during a run.
- `CategoryQuotient.MergeKeepsTreeAcyclic`: needs each child's normalised path to extend its parent's; `CategoryQuotient.AcyclicExactly` has the exact condition.
- The price provider's reset on a change of customer, which does not cancel requests in flight, and its answer when no special prices apply; one customer with special prices is fixed.
- `AdminSession.NoReplay`: needs that no refresh is given up on and accepted ones are delivered with both tokens; `AdminSession.RotatedTokenKeptExactlyWhenAnswerIsLost` and `AdminSession.AdriftRotatesStoredExactly` say what happens otherwise.
- Logout, messages between tabs, the migration from `sessionStorage`, redirects, and token expiry other than as a rejected request.
- Quantities that are not finite numbers in the cart store: its callers pass whole numbers; the copying of product details into a line; carts restored from the browser's storage.
- `localeCompare` is a total order without ties; labels shown on packages are not modelled.
- The watchdog's messages: with recovery messages on, resetting the time of the fall waits for the message to be sent; the overlap of two ticks.
- The sub-editors of a row's extra costs are `TierEditor.Editor.SetRow` with another list; parsing and printing of numbers are a parameter with a round trip.
- In the dealer numbers every SQL statement is one step, seen by all at once: row locks, the isolation of longer transactions, and a conflict within one statement.
- Dealer numbers beyond the exact integers of JavaScript; the throw when the sequence returns no value.
- In the receipts: amounts, labels, years, the PDF, and `tally`; the dealer and top-up numbers taken along the way appear only as clashes; records deleted and receipts issued by live payments during a run.
- Saving permissions: the server's checks of actor, target and page keys, its audit log and its cache; the loading states of the matrix.
- `MAX_SAFE_BACKFILL_ROWS` is compared with the records read, which the script counts by a query of its own.
