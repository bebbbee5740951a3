# Kurul: verified models

Kurul is a Kanban server (`apps/api`) with a web client (`apps/web`). This project models the parts of
it that carry state or arithmetic worth proving, and proves what they promise.

| file | what it models |
|---|---|
| `Columns.dfy`, `ColumnTransactions.dfy` | column ordering by fractional positions, and the board-row lock protocol around it |
| `AccountDeletion.dfy`, `Erasure.dfy`, `Redaction.dfy` | erasing an account in one transaction, what that leaves row by row, and rewriting its mentions page by page |
| `TrelloExport.dfy`, `ImportSkip.dfy`, `ImportPhases.dfy`, `ImportPlanner.dfy`, `ImportMeaning.dfy`, `ImportWrite.dfy` | the Trello import: tolerant reader, skip report, planner, what a plan means for the export, chunked write |
| `DueSoon.dfy` | the due-soon scan, and runs of scans with readers in between |
| `RateLimit.dfy` | the fixed-window limiter's script and its bounds over timed runs |
| `Realtime.dfy` | socket rooms, the record each socket keeps of them, and eviction |
| `Mentions.dfy`, `TaskQuery.dfy`, `CursorDrain.dfy` | mention markup, filter query strings, and the cursor walk |
| `Rows.dfy`, `Keyset.dfy`, `Text.dfy`, `Wrappers.dfy` | tables as sequences, keyset pages, trimming, and two result types |

`dafny verify dfyconfig.toml` checks all of it.

Conventions. Code that updates state is a class or a method with a loop, proved against a
specification function; what the source promises is proved of that function. A request that throws is
an `Err`, and a transaction that throws leaves its tables as they were. Identifiers the code only
compares are integers; those it looks into (user ids in comment text, Trello ids, room names) are
strings. Positions are reals. `Date.now()`, the Redis clock and generated ids are parameters.

## What the models found

- The limiter lets at most 2·max − 1 requests through in an interval shorter than its window when the
  key starts absent, and that is reached for every rule.
- Whether a refused caller's wait is long enough rests on how the remaining time is turned into whole
  seconds. Redis rounds to the nearest second, and then the wait falls short exactly when at least 500 ms
  are left and the milliseconds beyond the whole second are 1 to 499: the caller is early by those and is
  refused again. With less than 500 ms left the answer is 0 and the service falls back to a whole window.
- `redactMentionsOf` is not idempotent: shortening a name can bring an earlier unclosed `@[` within
  reach of the pattern. The exact condition is `Redaction.Crowded`.
- The comment filter of the account deletion compares case-sensitively and the rewrite does not, so a
  mention that spells the id in upper case keeps the name.
- A `delete` decision that also names a new owner is accepted and the name is ignored, although the
  DTO's comment says it is refused; the model follows the code.
- Two due-soon scanners that overlap can repeat a reminder within 24 hours if the first one is read
  in between. `DueSoon.SpacedIff` says exactly when the spacing holds. At most one unread reminder exists
  in any case.
- A workspace deleted along with an account evicts nobody from its rooms: eviction runs over the
  surviving workspaces only.
- With the position as the cursor, a walk can lose rows that never left the list; with the id it cannot.

## Model

| member | source | states |
|---|---|---|
| ColumnTransactions.Serializable | apps/api/src/board/column.service.ts:97-265 | for every interleaving of creates, moves, seedings and deletions (the last take no board lock), the requests that are over stand once each in a log that, run one request at a time, gives the same outcomes and the same table; those that held the board lock stand in the order it was granted |
| ColumnTransactions.BoardFollowsList | apps/api/src/board/column.service.ts:97-436 | in every reachable state the board lists what inserting, moving and deleting in a plain list gives for that log, and no two columns are closer than half the rebalance threshold if none were at the start |
| ColumnTransactions.NeverDoublySeeded | apps/api/src/board/column.service.ts:199-217 | default columns are never doubled: over every run, of two seedings that both went through one had each of its columns deleted by requests of that run |
| ColumnTransactions.SeededAgainOnlyWhenEmptied | apps/api/src/board/column.service.ts:199-217 | the same of any log of requests run one at a time, and the deletions stand between the two seedings |
| ColumnTransactions.LogCommutes | apps/api/src/board/column.service.ts:317-359 | deletions and refused moves that slip in between another transaction's read and its commit give the same board and the same outcomes as when they come after it |
| ColumnTransactions.CommitReplays | apps/api/src/board/column.service.ts:408-431 | a commit turns the pending transaction into an entry at the point of its read; a move whose column vanished becomes a not-found entry at the end |
| ColumnTransactions.NotedReplays | apps/api/src/board/column.service.ts:317-345 | a request that never held the lock can be put before or after the pending transaction so that its own outcome is the sequential one |
| ColumnTransactions.StepKeeps | apps/api/src/board/column.service.ts:105-153 | each step (begin, lock, read, commit, delete) keeps ids, lock, log, ledger and grant order consistent |
| ColumnTransactions.LogRefines | apps/api/src/board/column.service.ts:112-152 | a log of requests run one by one refines the same log on a list of ids, and keeps the gaps |
| Columns.CreateRefines | apps/api/src/board/column.service.ts:97-153 | a create is list insertion right behind the named column (last when none is named), on the midpoint path and on the rebalance path, and it fails exactly when the named column is missing |
| Columns.MoveRefines | apps/api/src/board/column.service.ts:361-436 | a move takes the column out of the list and puts it back between the named neighbours; it fails exactly for a missing column, a column named as its own neighbour, a missing or non-adjacent neighbour |
| Columns.RemoveRefines | apps/api/src/board/column.service.ts:321-359 | a deletion takes one column out of the list, and is refused for a missing column or one with tasks |
| Columns.DefaultsRefines | apps/api/src/board/column.service.ts:199-233 | seeding an empty board lists the three default columns in order; a board with columns refuses |
| Columns.CreateSlot | apps/api/src/common/position/apply-insertion.ts:69-89 | the create slot is the one position that lands behind the named sibling |
| Columns.MoveSlot | apps/api/src/common/position/apply-insertion.ts:34-60 | the move slot is the one position that lands right behind the one neighbour and right before the other |
| Columns.MidpointSorts | apps/api/src/common/position/fractional-index.ts:8-15 | while the gap is open the midpoint sorts strictly between its neighbours |
| Columns.MidpointGaps | apps/api/src/common/position/fractional-index.ts:8-19 | a midpoint taken while no rebalance is needed leaves at least half the threshold to every other column |
| Columns.LandedGapped | apps/api/src/board/column.service.ts:126-152 | whichever path ran, gaps of half the threshold stay |
| Columns.MoveGapped | apps/api/src/board/column.service.ts:408-431 | a move keeps the gaps of the board |
| Columns.CreateGapped | apps/api/src/board/column.service.ts:126-152 | a create keeps the gaps of the board |
| Columns.CreateWrites | apps/api/src/common/position/fractional-index.ts:8-19 | the rows a create writes: when a neighbour is missing or the two are at least 0.000001 apart every other row is unchanged and the new column stands halfway (1000 beyond the only neighbour, at 1000 on an empty board); when they are closer the k-th listed column stands at (k + 1) · 1000; the slot is right behind the named column, else the end |
| Columns.MoveWrites | apps/api/src/common/position/fractional-index.ts:8-19 | the same of a move, over the board without the moved column, and its slot lies between the named neighbours |
| Columns.RemoveWrites | apps/api/src/board/column.service.ts:321-359 | a deletion goes through exactly for a column that is there and has no tasks, and takes out that row and no other |
| Columns.SeedingWrites | apps/api/src/board/column.service.ts:199-217 | seeding goes through exactly on an empty board and writes three columns at 1000, 2000 and 3000 |
| Columns.ListingOrder | apps/api/src/board/column.service.ts:113-117 | a board is listed by position, equal positions by id, each row once |
| Columns.RewritingReordered | apps/api/src/common/position/rebalance-sql.ts:32-46 | a position update by id over a permutation of the ids writes exactly the given rows |
| Columns.TwoUpdates | apps/api/src/board/column.service.ts:408-418 | updating the moved row first and the others in one statement is the whole renumbering |
| Columns.ColumnService.CreateColumn | apps/api/src/board/column.service.ts:105-153 | the transaction's steps compute the specified create, or leave the table as it was |
| Columns.ColumnService.MoveColumn | apps/api/src/board/column.service.ts:361-436 | the transaction's steps compute the specified move, or leave the table as it was |
| Columns.ColumnService.CreateDefaults | apps/api/src/board/column.service.ts:199-256 | the transaction's steps compute the specified seeding and answer the listed rows |
| Columns.ColumnService.RemoveColumn | apps/api/src/board/column.service.ts:321-359 | the transaction's steps compute the specified deletion |
| AccountDeletion.DeletionKeepsSound | apps/api/src/account/account-deletion.service.ts:333-461 | if every workspace has an OWNER and no tombstone is a member anywhere, both hold after every deletion that goes through |
| AccountDeletion.DeleteAccountKeepsSound | apps/api/src/account/account-deletion.service.ts:311-461 | from a database in which every workspace has an OWNER and no tombstone is a member, the whole request fails or leads to another such database |
| AccountDeletion.DeletionGoesThroughIff | apps/api/src/account/account-deletion.service.ts:311-461 | a deletion goes through exactly when the account is live, the address matches, the decisions name each sole-owned workspace once and no other, and each transfer names another, live member |
| AccountDeletion.SettleAllInOnePass | apps/api/src/account/account-deletion.service.ts:352-381 | the loop over the sole-owned workspaces equals one pass: doomed workspaces dropped with all they own, heirs promoted, one audit row for each promotion |
| Erasure.GoesThroughExactly | apps/api/src/account/account-deletion.service.ts:311-461 | a request goes through exactly when a live user row with the id has the confirmed address up to case and outer space, the decisions name each solely owned workspace once and no other, and each transfer names another member whose user row is live |
| Erasure.FailsInOrder | apps/api/src/account/account-deletion.service.ts:318-330 | no live account is not-found, a wrong address is forbidden, decisions that do not match are a conflict, checked in this order |
| Erasure.FirstTransferFails | apps/api/src/account/account-deletion.service.ts:352-381 | otherwise the decision for the smallest workspace that cannot be carried out decides: a conflict for a transfer to nobody or to a tombstone, not-found for one to a stranger or to oneself |
| Erasure.RowsLeft | apps/api/src/account/account-deletion.service.ts:411-451 | by the fields: an assignment, notification or usage ping is left, in place and unchanged, exactly when it is not the user's and its workspace is not dropped; an invitation exactly when it is not both theirs and pending and its workspace is not dropped; a session or sign-in method exactly when it is not the user's; a workspace exactly when it is not dropped |
| Erasure.MembersLeft | apps/api/src/account/account-deletion.service.ts:352-456 | other users stay members of every workspace that is left, in order, and only the members the decisions name change: they become OWNER |
| Erasure.UsersLeft | apps/api/src/account/account-deletion.service.ts:453-456 | the account's row becomes the tombstone "Deleted user" with the address deleted-<id>@deleted.invalid and the time, and every other user row is as it was |
| Erasure.AuditLeft | apps/api/src/account/account-deletion.service.ts:387-425 | the audit rows of remaining workspaces stay in place; exactly those about the user that carry a name now carry "Deleted user", the others are unchanged; behind them stand, once each, one farewell for every membership left and one promotion for every workspace handed over |
| Erasure.CommentsLeft | apps/api/src/account/account-deletion.service.ts:596-628 | the comments of remaining workspaces stay in order, each what one redaction run makes of its row |
| Erasure.VerificationsLeft | apps/api/src/account/account-deletion.service.ts:444-448 | exactly the verification rows go whose identifier contains the account's address |
| Erasure.SoleOwnerExactly | apps/api/src/account/account-deletion.service.ts:196-200 | a membership needs a decision exactly when its role is OWNER and no other member of the workspace is an OWNER |
| Erasure.SurvivingAre | apps/api/src/account/account-deletion.service.ts:387-409 | farewells and evictions are for the user's memberships whose workspace is not dropped, one each |
| Erasure.FiguresAre | apps/api/src/account/account-deletion.service.ts:411-451 | the figures of the answer count the user's own rows in workspaces that are left, table by table |
| AccountDeletion.TransfersTo | apps/api/src/account/account-deletion.service.ts:490-539 | a transferred workspace ends up owned by the live member named, who is not the departing user |
| AccountDeletion.NothingLeftOfThem | apps/api/src/account/account-deletion.service.ts:411-456 | afterwards the user's row is the tombstone (deleted-<id>@deleted.invalid, "Deleted user", deletion time) with no membership, assignment, notification, usage ping, session or sign-in method, no pending invitation from them is left, and no verification row names their address |
| Erasure.OthersUntouched | apps/api/src/account/account-deletion.service.ts:352-451 | a workspace the user was not in keeps its members and the assignments of others row for row, and its audit rows too: where one is about the user its name is "Deleted user" and nothing else changes |
| AccountDeletion.CountsAddUp | apps/api/src/account/account-deletion.service.ts:352-451 | transferred + deleted = sole-owned workspaces; memberships removed = all memberships − deleted workspaces = surviving workspaces |
| AccountDeletion.OneFarewellEach | apps/api/src/account/account-deletion.service.ts:387-409 | exactly one `account.deleted` row is added for each surviving workspace |
| AccountDeletion.AnotherOwner | apps/api/src/account/account-deletion.service.ts:164-203 | an OWNER who needs no decision leaves another OWNER behind |
| AccountDeletion.AccountDeletionService.PartitionMemberships | apps/api/src/account/account-deletion.service.ts:164-203 | the loop splits the memberships into sole-owned ones and the rest, in order |
| AccountDeletion.AccountDeletionService.MatchDispositions | apps/api/src/account/account-deletion.service.ts:271-301 | succeeds exactly when the decisions name each sole-owned workspace once and nothing else; every refusal is a conflict |
| AccountDeletion.AccountDeletionService.SettleWorkspaces | apps/api/src/account/account-deletion.service.ts:352-381 | the first loop of the transaction and its two counters |
| AccountDeletion.AccountDeletionService.Delete | apps/api/src/account/account-deletion.service.ts:311-487 | the whole request: a failure leaves every table as it was and evicts nobody; a success leaves the specified tables, evicts from exactly the surviving workspaces, and each figure of its answer is the number of rows that statement removed or rewrote |
| Redaction.CommentTable.RedactCommentMentions | apps/api/src/account/account-deletion.service.ts:596-628 | the paged rewrite equals one pass over all rows for any page size, visits no row twice although rewritten bodies still match, counts the changed bodies and ends |
| Redaction.RewriteFromTheLeft | apps/api/src/common/mentions/redact-mentions.ts:44-54 | read by its characters: the leftmost mention of the user (a name of at most 200 characters without a bracket, the id in any case) becomes @[Deleted user](id), the text left of it stays, and the rewrite goes on behind it |
| Redaction.NothingToRewrite | apps/api/src/common/mentions/redact-mentions.ts:44-54 | a body in which no mention of the user stands is left alone |
| Redaction.RowRewritten | apps/api/src/account/account-deletion.service.ts:604-622 | a row is rewritten exactly when the id occurs verbatim in its body, and keeps its id and workspace |
| Redaction.RedactionKeepsIds | apps/api/src/common/mentions/redact-mentions.ts:44-54 | rewriting keeps who is mentioned, in order, apart from the spelling of the departing id |
| Redaction.SecondPass | apps/api/src/common/mentions/redact-mentions.ts:44-54 | a second rewrite changes nothing exactly when the body is not crowded: no unclosed opener close enough in front of the first mention for the shorter name to be taken into it |
| Redaction.SecondPassCanChange | apps/api/src/common/mentions/redact-mentions.ts:44-54 | for every user id there is a body on which the rewrite is not idempotent |
| Redaction.RunIsCompleteIff | apps/api/src/account/account-deletion.service.ts:604-622 | a body is left as it was although the rewrite would change it exactly when it mentions the user without spelling the id verbatim |
| Redaction.UpperCaseIdIsMissed | apps/api/src/account/account-deletion.service.ts:604-622 | any id with a letter, written in upper case, is mentioned and not redacted |
| Redaction.SecondRunIsQuietIff | apps/api/src/account/account-deletion.service.ts:596-628 | a second run finds nothing to change exactly when no body the filter finds was crowded |
| DueSoon.DueSoonWorker.RunScan | apps/api/src/notification/due-soon.worker.ts:132-193 | run alone, for any batch size of at least one, a scan ends, creates exactly one reminder for each pair of an assignee and a task with now < dueDate <= now + 24 h that has no due-soon row unread or of the last 24 h, and signals each (workspace, user) that got one exactly once |
| DueSoon.ScanTellsExactly | apps/api/src/notification/due-soon.worker.ts:132-226 | by the fields: a (workspace, user, task) is told exactly when a task with that id and workspace has the user among its assignees and now < dueDate <= now + 24 h, and no due-soon row of that user and task is unread or has createdAt >= now - 24 h; every new row is an unread due-soon row created at now or later, and no (user, task) comes twice |
| DueSoon.ScanTellsInOrder | apps/api/src/notification/due-soon.worker.ts:146-168 | new reminders stand in the order of their tasks, earlier due dates first, equal ones by task id |
| DueSoon.InsertedExactly | apps/api/prisma/migrations/20260809180000_due_soon_perf_indexes/migration.sql:5-7 | of rows with different pairs an insert adds, new and unread, exactly those whose user has no unread due-soon row of the task, and touches no other row |
| DueSoon.NextPage | apps/api/src/notification/due-soon.worker.ts:146-183 | the page behind the cursor is the next stretch of the due tasks; a short page is the last |
| DueSoon.NextBatch | apps/api/src/notification/due-soon.worker.ts:228-282 | batches inserted earlier in the scan do not change what a later batch skips |
| DueSoon.DueSoonWorker.FindAlreadyNotified | apps/api/src/notification/due-soon.worker.ts:209-226 | the skip set is exactly the pairs of the batch with a due-soon row of that user and task that is unread or created at the cutoff or later |
| DueSoon.DueSoonWorker.NotifyBatch | apps/api/src/notification/due-soon.worker.ts:228-282 | one batch: rows for the pairs not skipped, inserted without duplicates, recipients only when something was inserted |
| DueSoon.DueSoonWorker.CreateMany | apps/api/prisma/migrations/20260809180000_due_soon_perf_indexes/migration.sql:5-7 | an insert that skips what the partial unique index rejects |
| DueSoon.NeverTwoUnread | apps/api/src/notification/notification.service.ts:165-177 | over every run of any number of scanners with readers in between, nobody has two unread reminders of one task |
| DueSoon.SequentialScansAreSpaced | apps/api/src/notification/notification.service.ts:207-247 | over every run whose scans do not overlap, two reminders of one pair are more than 24 hours apart, whatever is marked read in between |
| DueSoon.SpacedIff | apps/api/src/notification/due-soon.worker.ts:239-282 | over every run, overlapping scanners included: reminders of a pair are more than 24 hours apart exactly when every inserted row found an unread reminder of its pair or none younger than 24 hours |
| DueSoon.SpacedUnlessOvertaken | apps/api/src/notification/due-soon.worker.ts:209-273 | the same in terms of the interleaving: the spacing holds exactly when no scanner is overtaken, that is, when no pair a scanner holds is told by another one between its check and its insert, within 24 hours, and read before that insert |
| DueSoon.InsertSpacedIff | apps/api/src/notification/due-soon.worker.ts:239-273 | the same of one insert of any rows into any reminders that were spaced |
| DueSoon.TwoScannersRepeat | apps/api/src/notification/due-soon.worker.ts:239-273 | from every reachable state in which two scanners hold a pair nobody has unread, one inserts, the reader reads, the other inserts, and the spacing is broken |
| DueSoon.TwoScannersMeet | apps/api/src/notification/due-soon.worker.ts:209-226 | such a state is reached by two checks in a row |
| RateLimit.IntervalBound | apps/api/src/auth/auth-rate-limit.ts:29-40 | over any timed run at most 2·max − 1 requests pass in an interval shorter than the window from an absent key, and at most 2·max from any stored counter |
| RateLimit.IntervalBoundIsTight | apps/api/src/auth/auth-rate-limit.ts:29-40 | 2·max − 1 is reached for every rule |
| RateLimit.WindowIsExact | apps/api/src/auth/auth-rate-limit.ts:29-40 | inside one window the n-th request passes exactly while n is at most max |
| RateLimit.NeverRefusedForever | apps/api/src/auth/auth-rate-limit.ts:32-35 | a key found without an expiry is given one by the next request, so refusals end |
| RateLimit.WaitIsEnoughIff | apps/api/src/auth/auth-rate-limit.ts:99-111 | a refused caller that waits the returned seconds and is first in the new window, whoever asked in between, is let through exactly when the rule admits anyone and, for a window that was already open, the whole seconds TTL answers for the rest of it cover that rest; a window just repaired is always covered |
| RateLimit.BackAfterRefusal | apps/api/src/auth/auth-rate-limit.ts:29-40 | after a refusal nobody passes before the window ends, and whoever comes first afterwards does |
| RateLimit.NearestSecondIff | apps/api/src/auth/auth-rate-limit.ts:31-38 | with TTL rounded to the nearest second the wait is enough exactly unless 500 ms or more are left and the part beyond the whole second is 1 to 499 ms (for a window of at least a second) |
| RateLimit.NearestSecondFallsShort | apps/api/src/auth/auth-rate-limit.ts:31-38 | on every such rest, under every rule, the caller comes back too early by exactly that part and is refused again |
| RateLimit.Store.Script | apps/api/src/auth/auth-rate-limit.ts:29-40 | the script's steps compute the specified counter and answer |
| RateLimit.Store.Consume | apps/api/src/auth/auth-rate-limit.ts:99-111 | the decision and the retry time taken from the script's answer |
| Realtime.RecordsAgree | apps/api/src/realtime/realtime.gateway.ts:80-188 | over every run, a socket is in a board room exactly when its record says so, and in its own notification room likewise |
| Realtime.BoardEventsStayInside | apps/api/src/realtime/realtime.service.ts:57-94 | if every removal of a membership is followed by eviction before the next event, a board event reaches only sockets of members of the board's workspace |
| Realtime.UserEventsStayPrivate | apps/api/src/realtime/realtime.service.ts:57-111 | under the same discipline a user event reaches only that user's sockets, while they are members |
| Realtime.SitsExactlyWhenJoined | apps/api/src/realtime/realtime.gateway.ts:80-127 | over every run a socket is in a board's room exactly when a join of it was let through and no leave, disconnect or eviction followed |
| Realtime.InInboxExactlyWhenSubscribed | apps/api/src/realtime/realtime.gateway.ts:141-188 | over every run a socket is in its user's room for a workspace exactly when a join for that workspace was let through (authenticated, a workspace named, a member at that moment) and no leave, disconnect or eviction from that workspace followed |
| Realtime.UserEventReachesIff | apps/api/src/realtime/realtime.service.ts:100-111 | a user's event reaches a socket exactly when the socket is that user's and is subscribed in this sense |
| Realtime.NonMemberReachedIff | apps/api/src/realtime/realtime.service.ts:49-94 | a board event reaches a socket exactly in that case; it reaches a non-member exactly when such a join outlived the membership, and then the eviction is still owed |
| Realtime.RemovalAloneLeaks | apps/api/src/realtime/realtime.service.ts:49-56 | from every reachable world in which a user's socket sits on a board, taking their membership away and nothing more leaves it reached |
| Realtime.MemberSits | apps/api/src/realtime/realtime.gateway.ts:80-112 | such worlds there are, for every workspace, user and board |
| Realtime.UsersRoomsDiffer | apps/api/src/realtime/realtime.service.ts:23-25 | room names of different users or workspaces differ as long as user ids hold no colon |
| Realtime.Gateway.OnBoardJoin | apps/api/src/realtime/realtime.gateway.ts:80-112 | joins the room and writes the record only for a member of the board's workspace |
| Realtime.Gateway.OnBoardLeave | apps/api/src/realtime/realtime.gateway.ts:114-127 | leaves the room and drops the record |
| Realtime.Gateway.OnNotificationsJoin | apps/api/src/realtime/realtime.gateway.ts:141-170 | a join that is let through puts the socket in the caller's own room and records the workspace once; a refused one changes nothing |
| Realtime.Gateway.OnNotificationsLeave | apps/api/src/realtime/realtime.gateway.ts:172-188 | leaves the room and drops the workspace from the record |
| Realtime.Gateway.EvictUserFromWorkspace | apps/api/src/realtime/realtime.service.ts:57-82 | every socket of the user leaves the notification room and each board room recorded for the workspace; other sockets are untouched |
| Mentions.TokenizeMentions | apps/web/lib/mentions.ts:79-94 | tokens print back to the body, none is empty text, no two texts are adjacent, and the mentions are the matches in order |
| Mentions.ParseMentions | apps/web/lib/mentions.ts:25-31 | the mentioned ids, each where it is first mentioned |
| Mentions.MatchesAreMentions | apps/web/lib/mentions.ts:13-31 | by the characters: every match is a mention that stands in the body (at most 200 name characters, none a bracket), matches do not overlap, and every mention in the body is matched or begins inside an earlier match |
| Mentions.QueryIff | apps/web/lib/mentions.ts:41-56 | a query is active exactly when an @ stands before the caret, at the start or behind a blank or an opening bracket, with no [ right after it and neither a blank nor an @ up to the caret; it reads the text in between |
| Mentions.MarkupRoundTrip | apps/web/lib/mentions.ts:33-36 | formatted markup reads back as its one mention exactly when the name can be bound and the id is a UUIDv7 |
| Mentions.InsertionClosesQuery | apps/web/lib/mentions.ts:61-76 | the markup and a blank replace the selection and, exactly when the caret stands in a query, that query with its @; the text left and right stays, the caret is just past the markup and in no query |
| Mentions.InsertionIsParsed | apps/web/lib/mentions.ts:61-76 | an inserted member is found by the parser next to everyone mentioned around it |
| Mentions.IdsAround | apps/web/lib/mentions.ts:13-16 | well-formed markup adds exactly its id to those found before and after it, whatever stands before it |
| TaskQuery.NormalForm | apps/web/lib/task-query.ts:42-98 | parse(serialize(parse(p))) = parse(p) for every query string |
| TaskQuery.RoundTripIff | apps/web/lib/task-query.ts:42-98 | parse(serialize(f)) = f exactly for the states a query string can carry |
| TaskQuery.MergeFacts | apps/web/lib/task-query.ts:124-137 | merging keeps unrelated entries in order, replaces earlier filters, is idempotent, and parses as the new filter alone |
| TaskQuery.ActiveIffSerialized | apps/web/lib/task-query.ts:100-110 | filters are active exactly when they serialize to something |
| TaskQuery.ParseFiltersFromSearchParams | apps/web/lib/task-query.ts:42-70 | the field-by-field parser computes the specified state |
| TaskQuery.SerializeFiltersToSearchParams | apps/web/lib/task-query.ts:73-98 | the setters write the specified entries in order |
| TaskQuery.MergeFiltersIntoSearchParams | apps/web/lib/task-query.ts:124-137 | the delete and append loops compute the specified merge |
| TaskQuery.CollectList | apps/web/lib/task-query.ts:29-39 | the nested loops collect the trimmed non-blank pieces of every value of a key |
| TaskQuery.CollectedAppend | apps/web/lib/task-query.ts:29-39 | the pieces of two stretches of entries are those of the first and then those of the second: no value of a repeated key is lost |
| TaskQuery.CollectedFromOne | apps/web/lib/task-query.ts:29-39 | an entry under another key adds nothing, a value without a comma its trimmed text unless blank, and a value with one what its two sides add, left first |
| TaskQuery.PrioritiesKept | apps/web/lib/task-query.ts:48-51 | of the collected priorities exactly LOW, MEDIUM, HIGH and URGENT are kept |
| TaskQuery.QueryRead | apps/web/lib/task-query.ts:45-46 | the text query is the first value of its key, trimmed, unless that leaves nothing |
| TaskQuery.DueDateRead | apps/web/lib/task-query.ts:59-61 | the no-due-date flag is set exactly when the first value of its key is null |
| TaskQuery.BoundsRead | apps/web/lib/task-query.ts:63-67 | each date bound is the first value of its key unless empty |
| CursorDrain.DrainIsExact | apps/web/lib/task-query.ts:171-205 | whatever is inserted, deleted or moved between requests, a finished walk is in id order and shows every row present throughout exactly once |
| CursorDrain.DrainEnds | apps/web/lib/member-query.ts:34-46 | the walk ends within as many requests as there are ids that ever appear, and one more |
| CursorDrain.DrainInFullPages | apps/api/src/common/pagination/cursor-page.ts:18-34 | every page but the last is full |
| CursorDrain.DrainMissesNothing | apps/api/src/comment/comment.service.ts:54-66 | a row listed at every request is delivered |
| CursorDrain.DrainAscends | apps/api/src/comment/comment.service.ts:54-66 | ids rise over the whole walk, so no row comes twice |
| CursorDrain.PositionCursorLosesRows | apps/api/src/common/pagination/cursor-page.ts:11-13 | with the position as the cursor a row that never left the list can be lost |
| CursorDrain.DrainCursorPages | apps/web/lib/member-query.ts:30-49 | the loop computes the specified walk |
| Keyset.PageIsPage | apps/api/src/comment/comment.service.ts:56-64 | a keyset query answers the smallest selected rows past the cursor, in key order, and no others |
| Keyset.PageIsSlice | apps/api/src/notification/due-soon.worker.ts:146-168 | pages are consecutive stretches of the one listing |
| ImportPlanner.NothingIsLost | apps/api/src/import/trello-import-planner.ts:227-493 | from the raw file to the report: raw lists = columns + list skips, raw cards = tasks + card skips, raw checklists = checklists + checklist skips (for sections that are arrays), attachments of imported cards = attachments + attachment skips |
| ImportPlanner.NoLineIsLost | apps/api/src/import/trello-import-planner.ts:437-472 | items + item skips = lines read of the imported checklists + unreadable lines of all raw checklists; each imported checklist is the reading of a raw one |
| TrelloExport.LinesConserved | apps/api/src/import/trello-export.ts:270-301 | raw lines of a readable checklist = lines read + lines reported as unreadable |
| ImportPlanner.PlanConserves | apps/api/src/import/trello-import-planner.ts:227-493 | the same from what was read, reader issues included |
| ImportPlanner.EveryIdOnce | apps/api/src/import/trello-import-planner.ts:235-472 | every generated id of all eight tables is different |
| ImportPlanner.PlanIsWellFormed | apps/api/src/import/trello-import-planner.ts:253-472 | every reference resolves inside the plan, the column a task names is on the task's own board, and no (task, label) pair repeats, whatever ids the export repeats |
| ImportPlanner.ColumnsFollowLists | apps/api/src/import/trello-import-planner.ts:253-270 | columns are the live lists in Trello's order, evenly spaced |
| ImportPlanner.ColumnsHoldTheirCards | apps/api/src/import/trello-import-planner.ts:349-405 | the planner's buckets: a column's tasks are the cards its phase put there, in order, evenly spaced, each with its card's contents (ImportMeaning.TasksOfColumn says which cards these are) |
| ImportPlanner.TasksHoldTheirChecklists | apps/api/src/import/trello-import-planner.ts:439-450 | a task's checklists are those that hang off its card, in order, evenly spaced |
| ImportPlanner.ChecklistsHoldTheirItems | apps/api/src/import/trello-import-planner.ts:439-470 | a checklist row has the title and task of a checklist of the export, and its items are that checklist's named lines, in order, evenly spaced, done exactly when Trello says complete |
| ImportPlanner.PlanTrelloImport | apps/api/src/import/trello-import-planner.ts:227-493 | the planner's phases run in order on one id counter and one skip collector, and the report is that collector's |
| ImportMeaning.TasksOfColumn | apps/api/src/import/trello-import-planner.ts:311-405 | of the export: the tasks of the k-th column are exactly the open, named cards whose idList is an id that the k-th listed list is the last to bear, in order, at (i + 1) · 1000, each reading its card: title, description unless blank, due date, labels and links |
| ImportMeaning.TasksAreCards | apps/api/src/import/trello-import-planner.ts:344-405 | the i-th task reads the i-th card of that listing, list by list |
| ImportMeaning.ColumnsAre | apps/api/src/import/trello-import-planner.ts:237-270 | the k-th column is the k-th list that is neither closed nor blank, at (k + 1) · 1000 |
| ImportMeaning.EntriesInOrder | apps/api/src/import/trello-import-planner.ts:102-114 | lists, cards, checklists and lines are ordered by position, those without one last, equal ones by id |
| ImportMeaning.LabelsReadHold | apps/api/src/import/trello-import-planner.ts:371-383 | the label rows of a task are those of the last labels bearing the ids the card names, each once |
| ImportMeaning.LinksReadHold | apps/api/src/import/trello-import-planner.ts:385-404 | the links of a task are the card's attachments with a storable URL, in order, named after the URL when their name is blank |
| ImportMeaning.LabelsAre | apps/api/src/import/trello-import-planner.ts:278-303 | every label becomes a row, named by itself, else by its colour, else Label, with the colour table's slot |
| ImportMeaning.BoardIs | apps/api/src/import/trello-import-planner.ts:478-483 | the board's name, or Imported board when it is blank, and its description unless blank |
| ImportMeaning.ChecklistsOfTask | apps/api/src/import/trello-import-planner.ts:409-472 | the checklists of the i-th task are exactly the named ones with lines whose idCard is an id that the i-th card is the last to bear, in order, evenly spaced; their items are their named lines in order, done exactly when complete |
| ImportMeaning.CardsReported | apps/api/src/import/trello-import-planner.ts:311-337 | under each reason the report counts exactly the cards left behind for it: archived when closed, or named with a list known only among the closed ones; malformed when unnamed or without a known list |
| ImportMeaning.SkippedOrFiled | apps/api/src/import/trello-import-planner.ts:311-341 | a card is left behind exactly when it is filed under no list |
| ImportMeaning.ListsReported | apps/api/src/import/trello-import-planner.ts:239-251 | lists are reported as archived when closed and as malformed when open and blank |
| ImportMeaning.ChecklistsReported | apps/api/src/import/trello-import-planner.ts:409-435 | under each reason the report counts exactly the checklists left behind for it: the reason of the last skipped card with their card's id when no card with it was kept, else malformed when blank or empty |
| ImportMeaning.AttachmentsReported | apps/api/src/import/trello-import-planner.ts:385-390 | attachments of imported cards are reported under the reason their URL was refused for |
| ImportMeaning.LabelsReported | apps/api/src/import/trello-import-planner.ts:290-301 | labels whose colour or name is made up are reported as defaulted, label ids without a label as malformed |
| ImportMeaning.ColumnsReported | apps/api/src/import/trello-import-planner.ts:271-276 | all columns are reported as defaulted |
| ImportMeaning.MembersAndCommentsReported | apps/api/src/import/trello-import-planner.ts:474-476 | members and comments are counted under their own reasons |
| ImportPhases.OrderIsCanonical | apps/api/src/import/trello-import-planner.ts:102-114 | the order is a sorted permutation, and independent of the input's arrangement exactly when no two different entries share position and id |
| ImportPhases.ChecklistFateExact | apps/api/src/import/trello-import-planner.ts:409-426 | whatever card ids repeat: a checklist has a task exactly when some card with its card's id was kept; otherwise it is skipped for the reason of the last skipped card with that id, or as malformed |
| ImportPhases.ChecklistInheritsReason | apps/api/src/import/trello-import-planner.ts:414-426 | with card ids unique, a checklist of a skipped card is skipped for the card's own reason |
| ImportPhases.PlacedCount | apps/api/src/import/trello-import-planner.ts:311-350 | the placed cards number as many as land in each column, column by column |
| ImportPhases.HomesCount | apps/api/src/import/trello-import-planner.ts:339-341 | rows gathered under distinct homes are counted once each |
| ImportPhases.AttachedFacts | apps/api/src/import/trello-import-planner.ts:371-383 | a card's attached labels are known ones, each once |
| ImportPhases.PlanLists | apps/api/src/import/trello-import-planner.ts:237-276 | lists to columns, with the archived ids and the skips |
| ImportPhases.PlanLabels | apps/api/src/import/trello-import-planner.ts:278-303 | labels to rows, each kept, renamed or recoloured ones reported once |
| ImportPhases.PlanCards | apps/api/src/import/trello-import-planner.ts:305-342 | each card goes into its column's bucket or into the report with its reason |
| ImportPhases.PlanTask | apps/api/src/import/trello-import-planner.ts:353-405 | one task with its labels and links, and what of them is skipped |
| ImportPhases.PlanTasks | apps/api/src/import/trello-import-planner.ts:344-407 | tasks column by column in order |
| ImportPhases.PlanChecklists | apps/api/src/import/trello-import-planner.ts:409-435 | each checklist goes to its task or into the report with the inherited reason |
| ImportPhases.PlanChecklistRows | apps/api/src/import/trello-import-planner.ts:437-472 | checklists and items task by task in order |
| TrelloExport.ReadingConserves | apps/api/src/import/trello-export.ts:312-337 | in a section that is an array, raw entries = rows + issues of the section's scope |
| TrelloExport.ParseTrelloExport | apps/api/src/import/trello-export.ts:390-421 | two things are errors, no JSON and no board; anything else gives what is readable and an issue for the rest |
| TrelloExport.ReadSection | apps/api/src/import/trello-export.ts:312-337 | entry by entry: a row, or one issue with the entry's name |
| TrelloExport.ReadCard | apps/api/src/import/trello-export.ts:209-235 | a card is read whole or not at all |
| TrelloExport.CardReadsBack | apps/api/src/import/trello-export.ts:209-235 | a card written out reads back unchanged, or not at all exactly when its id or the URL of one of its attachments is empty |
| TrelloExport.CardReadable | apps/api/src/import/trello-export.ts:209-235 | a card is readable exactly when it has an id, its other fields are absent, null or of their own type, and each of its attachments is readable |
| TrelloExport.CardReads | apps/api/src/import/trello-export.ts:209-235 | what a readable card is read as, field by field, absent fields and attachments included |
| TrelloExport.ChecklistReadsBack | apps/api/src/import/trello-export.ts:270-301 | a checklist written out reads back without the lines that have no id, each of them one issue |
| TrelloExport.ListReadsBack | apps/api/src/import/trello-export.ts:176-189 | a list written out reads back unchanged exactly when it has an id |
| TrelloExport.LabelReadsBack | apps/api/src/import/trello-export.ts:237-253 | a label written out reads back unchanged exactly when it has an id |
| TrelloExport.AttachmentReadsBack | apps/api/src/import/trello-export.ts:191-207 | an attachment written out reads back unchanged exactly when it has a URL |
| TrelloExport.ReadChecklist | apps/api/src/import/trello-export.ts:270-301 | unreadable lines are reported one by one and the checklist survives them |
| TrelloExport.ReadList | apps/api/src/import/trello-export.ts:176-189 | one list entry |
| TrelloExport.ReadAttachment | apps/api/src/import/trello-export.ts:191-207 | one attachment entry, identified by its URL |
| TrelloExport.ReadLabel | apps/api/src/import/trello-export.ts:237-253 | one label entry |
| TrelloExport.ReadCheckItem | apps/api/src/import/trello-export.ts:255-268 | one checklist line |
| TrelloExport.EntryFields.StringArray | apps/api/src/import/trello-export.ts:138-147 | keeps the strings and marks the entry when anything else was in the array |
| ImportSkip.GroupsTellTheTruth | apps/api/src/import/import-skip.ts:47-86 | each group counts exactly the items added to it and quotes the first twenty of their non-blank trimmed names; no group is empty or doubled |
| ImportSkip.QuotesFirstTwenty | apps/api/src/import/import-skip.ts:62-86 | a group of the report quotes the first twenty of the names its calls gave, trimmed, without the blank ones |
| ImportSkip.ReportFacts | apps/api/src/import/import-skip.ts:88-102 | the report lists the groups strictly in vocabulary order and misses none |
| ImportSkip.ReportIgnoresOrder | apps/api/src/import/import-skip.ts:88-102 | the same skips in any order give the same groups with the same counts in the same order |
| ImportSkip.TotalReported | apps/api/src/import/import-skip.ts:62-76 | the counts of a scope add up to the items added under it |
| ImportSkip.SkipCollector.AddMany | apps/api/src/import/import-skip.ts:62-86 | the mutable groups follow the calls; zero or negative counts add nothing |
| ImportSkip.SkipCollector.ToReport | apps/api/src/import/import-skip.ts:89-102 | the sorted groups |
| ImportWrite.ImportBoard | apps/api/src/import/trello-import.service.ts:49-132 | a file that is not a board writes nothing; a board is read, planned and written whole through inserts of which every prefix leaves all keys and foreign keys intact, and the answer is the plan's report |
| ImportWrite.WritePlan | apps/api/src/import/trello-import.service.ts:60-117 | the inserts run are those of the plan in order; ids and (task, label) pairs are unique and every foreign key resolves before the first insert and after each chunk; in the end the tables grew by exactly the plan and one audit row |
| ImportWrite.PlanIsAccepted | apps/api/src/import/trello-import.service.ts:60-117 | no insert of the sequence is refused: each chunk's keys are new and its foreign keys, the composite (board, column) one among them, resolve in the rows written before it |
| ImportWrite.EveryPrefixSound | apps/api/prisma/schema.prisma:239-322 | after any number of accepted inserts the whole database satisfies its keys |
| ImportWrite.AcceptedExactlyWhenSound | apps/api/prisma/schema.prisma:239-322 | what is checked of the new rows alone is exactly what keeps the whole database sound |
| ImportWrite.ChunksAccepted | apps/api/src/import/import-config.ts:75-81 | a list that may be inserted at once may be inserted in chunks, to the same end |
| ImportWrite.TasksAccepted | apps/api/src/import/trello-import.service.ts:80-88 | tasks after columns and labels: the composite (board, column) key and both keys of a task label resolve, and no pair repeats, at every chunk |
| ImportWrite.ContentsAccepted | apps/api/src/import/trello-import.service.ts:89-97 | checklists, items and attachments after their parents, at every chunk |
| ImportWrite.Database.CreateAll | apps/api/src/import/trello-import.service.ts:74-97 | the loop over the chunks of one list runs exactly that list's inserts, each against the rows there are |
| ImportWrite.Chunked | apps/api/src/import/import-config.ts:75-81 | runs of at most the given size, all full but the last, none empty, joining to the input |
| ImportWrite.PairsStayDistinct | apps/api/src/import/trello-import-planner.ts:371-383 | no (task, label) pair repeats in the table after the write |
| Rows.CanonicalExactlyWithoutTies | apps/api/src/import/trello-import-planner.ts:102-114 | a stable comparator sort gives one answer for every arrangement of its input exactly when rows that tie are equal |

## Left out

- Columns.MidpointSorts: positions are reals, so a midpoint that a double would round onto a neighbour is not modelled; the rebalance threshold is far above that at the positions the service issues.
- ColumnTransactions.Serializable: a column's id stands for a UUID; ties between equal positions are broken by the integer order instead of the database collation. Activity rows and socket events of a column request are not part of the table.
- AccountDeletion.AccountDeletionService.Delete: the partition is read in the same state the transaction starts from; columns no statement reads or writes are not part of the tables, among them the link of a notification to a deleted audit row.
- AccountDeletion.DeletionGoesThroughIff: lower-casing is an uninterpreted function; the two log lines are not modelled.
- DueSoon.DueSoonWorker.RunScan: the tasks do not change during one scan; the order in which recipients of different workspaces are signalled is not fixed. A pair of ids stands for the `user:task` key string.
- RateLimit.Store.Consume: a Redis failure, on which the limiter lets the request through, is not modelled. A counter is taken to be gone at its expiry, while Redis drops a key once its clock is past it, so every bound on waiting is a millisecond sharper here. The rounding of TTL is a parameter.
- Realtime.RecordsAgree: the room Socket.io gives each socket under its own id is not among its rooms here; one node, handlers as single steps; a socket that leaves between the fetch and the eviction loop, the Redis adapter and the handshake's session lookup are not modelled.
- Mentions.TokenizeMentions: characters are Dafny characters, not UTF-16 code units; the pattern's greedy name run is modelled by the first closing bracket, which is the only one it can stop at.
- TaskQuery.NormalForm: percent-encoding of the query string is not modelled, entries are pairs of strings.
- CursorDrain.DrainIsExact: an aborted fetch, which ends a walk early, and the page callback are not modelled.
- ImportPhases.PlanTask: URL parsing, date parsing and the colour table are parameters; the importing user, which every row records, is left out.
- ImportWrite.WritePlan: the transaction's time limit and the foreign keys to the workspace and the importing user are not modelled; ids come off a counter above all ids in use, in place of UUIDv7.
- TrelloExport.ParseTrelloExport: decoding and parsing the bytes is outside; a parsed value or its absence is the input.
- NestJS controllers, guards, OpenAPI and Swagger wiring: calls into libraries.
- The web pages, hooks and rigs: user interface and I/O.
- Dashboard and activation SQL: executed by the database.
- Mail, storage, environment parsing, locale lookups, permission predicates: one-branch rules or foreign calls.
- Task moves and creates: the same position arithmetic as columns, on a task's column.
