# eSIM server: verified model

This project models the part of the eSIM assistant server that decides whether money may move, and
proves what it promises. The server prepares quotes, confirms them against the user's wallet, opens
hosted card pages, checks card payments, tops up eSIMs and keeps login sessions. Calls run
concurrently: each holds a lock of its own across its request to the platform, works on copies of
records taken before that request, and may find on return that a logout has dropped them.

The three routes to a charge are state machines whose steps are the stretches of code between two
suspension points. `World` puts them together with preparing, cancelling and ending sessions, and
`Guarantees` states what holds of every run of that machine: any sequence of events, any
interleaving, any clock readings, a platform that may answer late, never, or unreadably.

## Reading order

- `Guarantees.dfy`: the results over whole runs. `World.dfy`: the combined machine and its invariant.
- `WalletPurchase.dfy`, `CardCheckout.dfy`, `TopUp.dfy`: what each stretch of a call decides, as
  functions. `WalletSafety.dfy`, `CardSafety.dfy`, `TopUpSafety.dfy`: the machines, their invariants,
  and proofs that every step keeps them. An invariant is split by quote: a step changes one quote's
  part, and one lemma carries all the others over. `Refusals.dfy`, `TopUpRefusals.dfy`: exactly which
  recorded refusals prove that nothing was charged.
- `QuoteService.dfy`, `WalletService.dfy`, `CardService.dfy`, `TopUpService.dfy`,
  `SessionService.dfy`, `Stores.dfy`: the classes that update dictionaries in place, each method
  proved to do what the functions say.
- `Quotes.dfy`, `Ledgers.dfy`, `Outcomes.dfy`, `WalletAnswers.dfy`: quotes and their limits, the
  platform as seen from here, answers and errors.
- `Departures.dfy`: the combined machine together with the login sessions, and whose session each
  request goes out with.
- `Sessions.dfy`, `Transport.dfy`, `RouteGuard.dfy`: token rotation, retries and the single replay, the
  allowlist of routes. `Money.dfy`, `Pricing.dfy`, `Selection.dfy`, `Resolution.dfy`,
  `Strings.dfy`: exact amounts, numbered listings, destination names, and the string functions used.

`dafny verify dfyconfig.toml` checks everything.

## What is assumed

- Between two suspension points a call runs alone: the stores never wait while holding their guard.
  Ending a session is one step; its listeners may also run one at a time with anything in between,
  on the condition that none drops records while a quote of the session is active.
- Quote ids, idempotency keys and tokens, being random, are new when drawn.
- The platform (`Ledgers`) comes to one final verdict per key if it honours keys, per request if it
  does not. Its answers may be anything at all; every one is handled as the code handles it. Where a
  result rests on the platform's word, the promise is stated of the answer itself and noted quote by
  quote, and the result about a quote takes only the promise it needs, of that quote alone. The first:
  a purchase or top-up is reported completed only if made (`overclaimed` holds the quotes of which that
  was broken). The second: a readable 400 or 422, and for a top-up also 401, 403, 404, 409 and 429,
  comes only for a request refused, and a readable conflict over a purchase only where its key was sent
  with something else (`misrefused`). Of any other answer nothing is promised. The bounds on requests,
  keys, reads and debits hold in every run.
- In `Departures` the platform answers a rotation with a session of the same user; owners' references
  are the users themselves.

## Where the code and its documentation part

The model follows the code.

- The repository's README.md (lines 158-161) says the platform replays a stored answer for a repeated
  key; settings.py (lines 104-109) says it does not honour the key. Both platforms are modelled.
- purchase/service.py (lines 86-87) says re-preparing a held choice never trips the limit. It can only
  where the wall clock went back, or a caller passed an earlier moment, since an earlier preparation:
  `Guarantees.HeldChoicesAreFiledAgain`, `Guarantees.HeldChoiceIsRefusedAfterTheClockWentBack`.
- tools/purchase_execution.py (lines 304-308) files a refusal where the platform refused before spending
  anything and keeps the rest unresolved. Its classifier never asks whether a 4xx could be read (lines
  401-405 and 417-418): an unread 400 or 408 is filed too. `Refusals.RefusalIsProofExactlyWhen` and
  `WalletPurchase.UnreadAnswersAreUnresolvedExactlyWhen` say exactly what a refusal is worth.
- tools/esim_topup.py (lines 1209-1213) claims a refusal only on a readable answer. 401, 403, 404 and 429
  are taken for refusals unread: `TopUpRefusals.RefusalIsProofExactlyWhen`.
- purchase/execution.py (lines 242-244) says a stored record never replays as a different error. Two
  codes are missing from its table, three from the card's: `ReplayKeepsMessageNotAlwaysCode`,
  `ReplayedRefusals`, and for answers on which one is lost `WalletUnavailableIsReplayedAsUnknown`,
  `ConflictIsReplayedAsRejected`, `SoldOutIsReplayedAsRejected`.
- topup/service.py (lines 261-262) makes the same claim, and it fails for every code outside two:
  `TopUp.ReplayNeverClaimsARefusal`, for example on any 429, `TopUp.RateLimitIsReplayedAsUnknown`.
- catalog/resolution.py (line 14) says several matches ask the user to choose. Five are named, in the
  order listed, so beyond five the choice depends on that order: `Resolution.NamesAreFixedExactlyWhen`,
  `Resolution.SixNamesakesDependOnOrder`. It says to ask again with the exact name (lines 92 and 149);
  where the names are shared that gives the same answer: `Resolution.SharedNamesAreOfferedAgain`.
- session/manager.py (lines 252-259) calls local removal on logout unconditional. A rotation in flight
  saves the session back: `EndedSessionsAreGoneIffNotRotating`.
- session/manager.py (lines 149-155) says concurrent callers produce a single rotation. That holds
  unless the rotating task is itself cut off: `AbandonmentRepeatsAToken`, `OnceExactlyWithoutCuts`.
- tools/purchase_execution.py (lines 144-147) says a quote can only be confirmed by the client and user
  that prepared it. The user is looked at before the gates, the token after them: a login of somebody
  else in between sends the request as them. `Departures.RequestsGoOutAsOwnerExactlyWhen`,
  `Departures.AlwaysAsOwnersExactlyWhen`.
- client/base.py (line 133) means to admit plain segments only; its pattern tolerates one trailing
  newline (`NewlineSegmentIsAdmitted`), and client/consumption.py (line 53) admits digits of every
  script, which the guard then refuses (`SomeAcceptedIccidIsRefused`).
- purchase/card.py (lines 354-356) counts each status read before it is sent. The session is refreshed
  in between, so a check may be counted and never sent: `Guarantees.SomeCheckIsNeverRead`. Reads are as
  many as checks exactly where none was: `Guarantees.ReadsMatchChecksExactlyWhen`.

## Model

| member | source | states |
|---|---|---|
| Guarantees.PurchaseRequestsAreOne | src/esim_mcp/tools/purchase_execution.py:155-239 | in every run, all requests ever sent for one quote are equal (one key, one payload), at most three of them, and any two requests under one key are equal; so at most one debit where keys are honoured and three where they are not |
| Guarantees.ChargedIsTrue | src/esim_mcp/tools/purchase_execution.py:253-284 | in every run, a caller is told of a purchase, and a record says so, only if the platform committed a request for that quote, or itself reported a purchase for that very quote that it had not made |
| Guarantees.FailedIsNeverCharged | src/esim_mcp/tools/purchase_execution.py:310-319 | in every run a recorded refusal rests on an answer of the statuses that are filed; unless the platform reported a refusal or conflict of that quote there was not, never on a conflict; and then, if it was explained by a 400 or 422, no money has moved for the quote and none moves in any continuation, if keys are honoured or it was the only attempt |
| Guarantees.TerminalAnswersAreStable | src/esim_mcp/tools/purchase_execution.py:178-190 | once a terminal answer is recorded, in every continuation nothing more is sent, every confirmation is settled on the spot, and it is the recorded answer or, if the record went with its session, a refusal |
| Guarantees.CardWorkIsBounded | src/esim_mcp/tools/card_checkout.py:264-299 | in every run, at most three requests for a page under one key and twenty status reads per quote, and any two links handed out for a quote are the same link |
| Guarantees.ReadsMatchChecksExactlyWhen | src/esim_mcp/purchase/card.py:354-356 | in every run, the status reads of a payment that is not being checked are as many as the checks on its record if and only if no check of it ended before its read; what is missing is exactly those |
| Guarantees.SomeCheckIsNeverRead | src/esim_mcp/tools/card_checkout.py:462-475 | a run of six events after which a check is counted and no read was sent |
| Guarantees.NoCardUpdateIsLost | src/esim_mcp/tools/card_checkout.py:264-299 | in every run, a used record is the copy every suspended call on it will write back from, and an opening and a check of one quote are never suspended together |
| Guarantees.StatusesAreThePlatforms | src/esim_mcp/models/card.py:67-73 | in every run, a status told of a quote was said by the platform, in a successful answer about the one payment opened for that quote |
| Guarantees.SettledPaymentsAreReplayed | src/esim_mcp/tools/card_checkout.py:455-457 | in every run and every continuation that does not end its session, a settled payment keeps its record, is not read again, and is answered with the recorded word, which the platform said of it |
| Guarantees.AmbiguityEndsTheMatter | src/esim_mcp/tools/card_checkout.py:458-514 | after an ambiguous status, in every continuation, neither a status nor a page is asked for again for that quote |
| Guarantees.OneRoutePerQuote | src/esim_mcp/purchase/card.py:445-454 | in every run, no quote is sent both as a wallet purchase and as a card checkout |
| Guarantees.TopUpsHappenOnce | src/esim_mcp/tools/esim_topup.py:664-710 | in every run and its continuations, one top-up request and one debit at most per quote; a sent one rested on the echoed amount and on facts that stood; success is told only of top-ups made, unless the platform reported one for that quote that it had not; a recorded refusal rests on an answer that is filed, and if explained, and the platform meant its refusals of that quote, means no debit ever |
| Guarantees.SentTopUpsAreAnsweredLocally | src/esim_mcp/tools/esim_topup.py:691-710 | in every run, once a request went out and its call is over, every confirmation, whoever makes it and whenever, is settled at once |
| Guarantees.SwitchedOffMeansNoTopUps | src/esim_mcp/tools/esim_topup.py:660-662 | in every run in which no confirmation finds execution switched on, no top-up is ever sent or recorded |
| Guarantees.LimitsHold | src/esim_mcp/purchase/service.py:89-125 | in every run, at any clock reading not before the creations, each owner has at most the configured number of usable quotes and never two for one choice |
| Guarantees.HeldChoicesAreFiledAgain | src/esim_mcp/purchase/service.py:84-109 | after every run, preparing a choice still held is refused only if some quote was prepared before at a later reading of the clock; purchases and top-ups alike |
| Guarantees.HeldChoiceIsRefusedAfterTheClockWentBack | src/esim_mcp/purchase/service.py:89-109 | with the default lifetime of 300 and a limit of one, a run in which it is refused, the clock having gone back by two seconds |
| Guarantees.QuotesOnlyMoveForward | src/esim_mcp/purchase/store.py:141-160 | between any two points of a run no quote is lost, its owner, terms, creation and expiry are unchanged, what was not active is not active, and what was consumed is consumed |
| Guarantees.BoughtQuotesAreConsumed | src/esim_mcp/purchase/service.py:185-199 | what is recorded as bought, by wallet, card or top-up, has its quote consumed, there and in every continuation |
| Guarantees.RecordsBelongToTheirQuotes | src/esim_mcp/purchase/execution.py:296-318 | in every run, each wallet, card and top-up record has the owner of its quote, so a record an owner cannot see is never overwritten by one acquired for them |
| World.StepKeepsInv | src/esim_mcp/tools/purchase_execution.py:155-239 | every event of the combined machine, in any state satisfying the invariant, keeps the invariants of all three routes and the limits of both books, and moves the books forward |
| World.SessionEndIsItsListeners | src/esim_mcp/server.py:540-550 | ending a session in one step comes to its listeners run one by one in the order registered, quotes before records |
| World.ListenerKeepsInv | src/esim_mcp/session/manager.py:54-66 | each listener on its own, with other calls running before and after it, keeps the invariant, records being dropped only while no quote of the session is active |
| WalletPurchase.SendsExactlyWhen | src/esim_mcp/tools/purchase_execution.py:155-176 | a confirmation goes on to send if and only if the quote is owned, active, unexpired, a covered wallet quote, with no terminal record and attempts left |
| WalletPurchase.RecordedAnswersWin | src/esim_mcp/tools/purchase_execution.py:178-190 | a recorded success is handed back whatever became of the quote since; a recorded refusal is raised with its message; nothing is written |
| WalletPurchase.RefusalsNameTheObstacle | src/esim_mcp/purchase/execution.py:392-410 | where nothing terminal is recorded, the refusal names the first obstacle: missing, cancelled, consumed, expired, wrong method, not covered, attempts used up |
| WalletPurchase.AnswersTouchOneRecord | src/esim_mcp/tools/purchase_execution.py:253-331 | an answer changes one record and one quote at most; the quote is consumed exactly on completion; key and attempts never change; each kind of answer leaves its own status |
| WalletSafety.ConfirmKeepsInv | src/esim_mcp/tools/purchase_execution.py:155-211 | taking the lock, gating and counting an attempt keeps the invariant over every quote, with any other call suspended anywhere |
| WalletSafety.SendKeepsInv | src/esim_mcp/tools/purchase_execution.py:223-233 | sending keeps it: the attempt was already counted and the key is the quote's only key |
| WalletSafety.AnswerKeepsInv | src/esim_mcp/tools/purchase_execution.py:234-331 | any answer at all, read as the code reads it and saved over whatever is stored by then from the copy taken before the request, keeps it; which promises the platform kept in it is only noted, quote by quote |
| WalletSafety.ReadingsAreBacked | src/esim_mcp/tools/purchase_execution.py:363-418 | what the code takes each kept promise to mean is so: read as completed, the request was committed, by the first; filed on an explained refusal, it was refused, and never filed on a conflict, by the second |
| WalletSafety.SessionKeepsInv | src/esim_mcp/purchase/execution.py:212-221 | once none of a session's quotes is active, dropping its records keeps it while calls are in flight |
| WalletSafety.SendsAndDebitsAreBounded | src/esim_mcp/purchase/execution.py:406-410 | under the invariant: three requests, one key, and the bound on debits for either kind of platform |
| WalletSafety.NoKeyConflict | src/esim_mcp/tools/purchase_execution.py:223-233 | under the invariant, requests with one key are identical, so a platform that binds a key to its payload has no conflict to report |
| WalletSafety.NoFalsePurchase | src/esim_mcp/tools/purchase_execution.py:253-284 | under the invariant, success replies and success records have a commitment behind them, for every quote of which the platform reported no purchase it had not made |
| WalletSafety.FailedMeansNoDebit | src/esim_mcp/tools/purchase_execution.py:310-319 | a refusal recorded on an explained answer, of a quote whose refusals the platform meant, excludes any debit, now or as long as nothing more is sent, if keys are honoured or it was the only attempt |
| WalletSafety.ConflictsNeverCome | src/esim_mcp/tools/purchase_execution.py:394-399 | no refusal on file rests on a readable key conflict, unless the platform made one up for that quote: the requests under one key being equal, there is none to report |
| Refusals.RefusalIsProofExactlyWhen | src/esim_mcp/tools/purchase_execution.py:394-418 | for every answer, either kind of platform and any number of attempts: in all runs over all books in which the platform means its refusals of the quote, a refusal recorded on that answer means no charge if and only if no refusal is ever recorded on it, or it is a readable conflict, or it is a readable 400 or 422 and keys are honoured or it was the only attempt |
| Refusals.ChargedRun | src/esim_mcp/settings.py:104-109 | for every other answer that is filed, a run against a platform that keeps both promises of every quote which ends recorded as refused and charged |
| Refusals.TimeoutsProveNothing | src/esim_mcp/tools/purchase_execution.py:401-418 | an unread 400 or 408 is filed as a refusal and proves nothing, on either platform |
| TopUpRefusals.RefusalIsProofExactlyWhen | src/esim_mcp/tools/esim_topup.py:1206-1242 | for every answer: in all runs over all books in which the platform means its refusals of the quote, a top-up refusal recorded on it means no charge if and only if no refusal is ever recorded on it, or it could be read |
| TopUpRefusals.UnreadStatusesProveNothing | src/esim_mcp/tools/esim_topup.py:1217-1234 | an unread 401, 403, 404 or 429 is filed as a known refusal and proves nothing |
| WalletPurchase.UnreadAnswersAreUnresolvedExactlyWhen | src/esim_mcp/tools/purchase_execution.py:234-268 | of the answers that tell nothing: a lost one and a success without a purchase leave the record unresolved; an unread one does if and only if its status is of success or at least 500 and not 503; five statuses leave the record alone, 424 escalates, and every other is filed as a refusal. Always the key is kept, and the next request carries it |
| WalletPurchase.UnreadRefusalsAreFinal | src/esim_mcp/tools/purchase_execution.py:401-418 | an unread 400 and an unread 408 are filed as refusals |
| WalletSafety.ClosedStaysClosed | src/esim_mcp/tools/purchase_execution.py:178-190 | every wallet event leaves a closed quote closed under the same record and sends nothing for it |
| WalletSafety.ClosedQuotesAreAnsweredLocally | src/esim_mcp/tools/purchase_execution.py:168-176 | a confirmation of a closed quote is settled without sending, by the stored answer or a refusal |
| WalletAnswers.ReadingsFollowTheAnswer | src/esim_mcp/tools/purchase_execution.py:363-418 | which answers complete, escalate, refuse for good, stay unsure or leave the record alone, read off status, label and readability, both directions |
| WalletAnswers.RefusalsAreFiledExactlyWhen | src/esim_mcp/tools/purchase_execution.py:373-418 | the exact answers on which a refusal is filed for good |
| WalletAnswers.FailuresAreNamed | src/esim_mcp/tools/purchase_execution.py:354-418 | under what code each failure is reported, labels first match first |
| WalletAnswers.ReplayKeepsMessageNotAlwaysCode | src/esim_mcp/purchase/execution.py:245-271 | every terminal refusal is replayed with its message, and with its code unless that code is one of exactly two |
| WalletAnswers.WalletUnavailableIsReplayedAsUnknown | src/esim_mcp/purchase/execution.py:245-271 | an answer whose recorded code is replayed as another code |
| Ledgers.OneKeyDebitsOnce | src/esim_mcp/purchase/execution.py:296-318 | where keys are honoured, requests under one key lead to one debit at most |
| Ledgers.RefusedMeansNoDebit | src/esim_mcp/tools/purchase_execution.py:310-319 | where keys are honoured and a quote's one key was refused, no debit exists for the quote |
| Ledgers.EqualPayloadsAgree | src/esim_mcp/client/purchase.py:39-111 | two quotes are sent alike if and only if they agree on plan, SIM, locale, currency and, where it is complete, on the whole search context and its kind |
| CardCheckout.AsksExactlyWhen | src/esim_mcp/tools/card_checkout.py:264-285 | a page is asked for if and only if the quote is owned, active, unexpired, a card quote, with no page and no final refusal on record and attempts left |
| CardCheckout.OpenPagesAreReplayed | src/esim_mcp/tools/card_checkout.py:287-299 | an open page is handed back whatever became of the quote since, and nothing is written |
| CardCheckout.PageAnswersTouchOneRecord | src/esim_mcp/tools/card_checkout.py:342-438 | an answer about a page changes one record, neither its key nor its counts, and each kind of answer leaves its own status and reply |
| CardCheckout.ReadsExactlyWhen | src/esim_mcp/tools/card_checkout.py:450-463 | a status is read if and only if the payment is the caller's, unsettled, not ambiguous and has checks left; the check is counted first |
| CardCheckout.StatusesTouchOneRecord | src/esim_mcp/tools/card_checkout.py:496-539 | a status changes one record; only completion consumes the quote, only a final word is kept, an ambiguous one fails the record and is raised |
| CardCheckout.WordsRoundTrip | src/esim_mcp/models/card.py:85-95 | a status text stands for a word if and only if, trimmed and upper-cased, it is that word |
| CardCheckout.StatusIsReadOnlyFromTheWord | src/esim_mcp/tools/card_checkout.py:477-508 | a status is reported if and only if a successful answer carried that word |
| CardCheckout.PagesAreUsable | src/esim_mcp/tools/card_checkout.py:360-404 | a page is handed over if and only if the answer succeeded with a safe link and a plain reference |
| CardCheckout.FailuresAreSorted | src/esim_mcp/tools/card_checkout.py:568-620 | which failures to open a page are final, which may still turn into one and which left nothing behind |
| CardCheckout.FailuresAreNamed | src/esim_mcp/tools/card_checkout.py:561-641 | under what code each failure to open a page or read a status is reported |
| CardCheckout.WordsMeanWhatTheySay | src/esim_mcp/models/card.py:56-73 | which words are final and which say money arrived; only completion is both |
| CardCheckout.RefusalsNameTheObstacle | src/esim_mcp/purchase/card.py:445-461 | where neither page nor final refusal is recorded, the refusal names the first obstacle |
| CardCheckout.ReplayedRefusals | src/esim_mcp/purchase/card.py:261-285 | a recorded refusal is replayed with its message, and with its code unless that code is one of exactly three |
| CardCheckout.ConflictIsReplayedAsRejected | src/esim_mcp/purchase/card.py:257-285 | an unlabelled 409 is recorded as a key conflict and replayed as a plain rejection |
| CardCheckout.SoldOutIsReplayedAsRejected | src/esim_mcp/purchase/card.py:257-285 | a 400 labelled as a plan no longer sold is recorded as such and replayed as a plain rejection |
| CardSafety.CreateKeepsInv | src/esim_mcp/tools/card_checkout.py:264-312 | beginning to open a page keeps the invariant |
| CardSafety.OpenedKeepsInv | src/esim_mcp/tools/card_checkout.py:360-438 | recording any answer about a page, or none, keeps the invariant |
| CardSafety.CheckKeepsInv | src/esim_mcp/tools/card_checkout.py:445-463 | beginning a status check under the payment's own lock keeps the invariant |
| CardSafety.StatusKeepsInv | src/esim_mcp/tools/card_checkout.py:496-539 | recording any answer to a status read, or none, from the copy taken before the read keeps the invariant; so no more is reported than the answer says |
| CardSafety.SessionKeepsInv | src/esim_mcp/purchase/card.py:228-237 | once none of a session's quotes is active, dropping its checkouts keeps it while openings and checks are in flight |
| CardSafety.RequestsAreBounded | src/esim_mcp/purchase/card.py:457-468 | under the invariant: three requests, one key, twenty reads |
| CardSafety.OneLinkPerQuote | src/esim_mcp/tools/card_checkout.py:287-299 | under the invariant, two links handed out for one quote are equal, whether from a checkout, a replay or a pending status |
| CardSafety.AmbiguityIsFinal | src/esim_mcp/tools/card_checkout.py:458-460 | no event asks anything about a quote whose payment turned out ambiguous |
| CardSafety.SettledStays | src/esim_mcp/tools/card_checkout.py:455-457 | every card event leaves a settled record unchanged and reads nothing for it |
| TopUp.BeginsExactlyWhen | src/esim_mcp/tools/esim_topup.py:636-689 | a confirmation goes on to revalidation if and only if execution is on, the quote is owned, active, unexpired and a wallet quote, the echo is its amount, and nothing was ever sent |
| TopUp.AttemptsAreAnsweredFirst | src/esim_mcp/tools/esim_topup.py:691-710 | an attempt is answered before any gate: the receipt, the recorded failure, or unknown where none was recorded |
| TopUp.AnswersCloseTheRecord | src/esim_mcp/tools/esim_topup.py:824-922 | every answer leaves a terminal record: succeeded with the quote's own facts, failed on a known refusal, unresolved otherwise; only completion consumes the quote |
| TopUp.RevalidationPassesIffFactsStand | src/esim_mcp/tools/esim_topup.py:712-783 | revalidation passes if and only if the SIM is the caller's and takes top-ups, the plan is still offered at the same amount and currency, and the balance covers it |
| TopUp.SimPassesIffItStands | src/esim_mcp/tools/esim_topup.py:331-376 | the SIM check passes if and only if the first SIM with the identifier, or the only one, may be topped up |
| TopUp.OfferPassesIffItStands | src/esim_mcp/tools/esim_topup.py:745-766 | the offer check passes if and only if the first offer of the plan has the quoted amount, numerically, and the quoted currency |
| TopUp.ReadingsFollowTheAnswer | src/esim_mcp/tools/esim_topup.py:1206-1242 | which answers are a success, a known refusal or unknown, both directions |
| TopUp.RefusalsAreFiledExactlyWhen | src/esim_mcp/tools/esim_topup.py:1206-1242 | a refusal is filed exactly on an explained one and on four statuses that cannot be read |
| TopUp.FailuresAreNamed | src/esim_mcp/tools/esim_topup.py:1198-1242 | under what code each failure is reported, labels first match first |
| TopUp.RefusalsNameTheObstacle | src/esim_mcp/tools/esim_topup.py:673-682 | where nothing was attempted, the refusal names the first obstacle |
| TopUp.ReplayNeverClaimsARefusal | src/esim_mcp/topup/service.py:263-285 | a recorded failure is replayed with its message; a code that cannot be rebuilt becomes unknown, never a refusal |
| TopUp.RateLimitIsReplayedAsUnknown | src/esim_mcp/topup/service.py:261-285 | every 429 is recorded as a rate limit and replayed as an unknown outcome |
| TopUpSafety.AtMostOneRequest | src/esim_mcp/tools/esim_topup.py:785-798 | under the invariant: one request, one debit, and what it rested on stood |
| TopUpSafety.RecordsAreTrue | src/esim_mcp/tools/esim_topup.py:846-922 | quote by quote, each under its own promise: success replies have a commitment behind them, and a refusal recorded on an explained answer excludes a debit for good |
| TopUpSafety.ReadingsAreBacked | src/esim_mcp/tools/esim_topup.py:1206-1242 | what the code takes each kept promise to mean is so: read as done, the top-up was made; filed on an explained refusal, it was refused |
| TopUpSafety.EventKeepsInv | src/esim_mcp/tools/esim_topup.py:636-922 | every event of a top-up, including one suspended in revalidation across a logout, keeps the invariant |
| TopUpSafety.EventKeepsVouched | src/esim_mcp/tools/esim_topup.py:712-783 | every event keeps it true that what is sent was echoed exactly and revalidated |
| Quotes.PrepareKeepsLimits | src/esim_mcp/purchase/service.py:71-125 | preparing keeps the limits whatever moment it read, even one earlier than the newest quote |
| Quotes.RefusedExactlyAtTheLimit | src/esim_mcp/purchase/service.py:103-109 | preparing is refused if and only if, at the moment read, the owner holds the maximum of usable quotes for other choices |
| Quotes.RepreparingIsNeverRefused | src/esim_mcp/purchase/service.py:84-88 | at a moment no earlier than any creation, preparing a choice already held is never refused |
| Quotes.PreparingEvolves | src/esim_mcp/purchase/service.py:92-125 | preparing moves the book forward and touches no quote of another owner |
| Quotes.PreparingSupersedes | src/esim_mcp/purchase/service.py:92-125 | preparing cancels exactly the owner's usable quotes for the same choice, even when it is then refused, and files at most the new one |
| Quotes.CancellingEvolves | src/esim_mcp/purchase/service.py:168-183 | so does cancelling, which changes the one owned quote if it is usable and nothing otherwise |
| Quotes.ConsumingEvolves | src/esim_mcp/purchase/service.py:185-199 | so does consuming, which changes the one owned quote whatever its state |
| Quotes.SessionEndEvolves | src/esim_mcp/purchase/store.py:150-160 | ending a session cancels exactly that session's active quotes |
| QuoteService.QuoteStore.InvalidateSession | src/esim_mcp/purchase/store.py:150-160 | the sweep leaves the book as specified and counts exactly the quotes it cancelled |
| QuoteService.QuoteStore.SetTo | src/esim_mcp/purchase/store.py:141-148 | one owned quote changes status; anything else is left and answered with nothing |
| QuoteService.QuoteStore.Get | src/esim_mcp/purchase/store.py:118-130 | a quote of another owner is not found |
| QuoteService.QuoteStore.ListActive | src/esim_mcp/purchase/store.py:132-139 | exactly the owner's usable quotes |
| QuoteService.PurchaseQuoteService.Create | src/esim_mcp/purchase/service.py:71-125 | the loop of supersessions, the limit and the filing end in the specified book and verdict |
| QuoteService.PurchaseQuoteService.CancelQuote | src/esim_mcp/purchase/service.py:168-183 | cancelling ends in the specified book and gives back a quote no longer usable, or not found |
| QuoteService.PurchaseQuoteService.ConsumeQuote | src/esim_mcp/purchase/service.py:185-199 | consuming ends in the specified book and gives back a consumed quote, or not found |
| Stores.OwnedStore.Get | src/esim_mcp/purchase/execution.py:194-206 | a record of another owner is not found |
| Stores.OwnedStore.InvalidateSession | src/esim_mcp/purchase/execution.py:212-221 | exactly the session's records are deleted, and their number returned |
| WalletService.PurchaseExecutionService.AcquireRecord | src/esim_mcp/purchase/execution.py:296-318 | the stored record or a new one with the minted key, and the store as specified |
| WalletService.PurchaseConfirmation.BeginConfirm | src/esim_mcp/tools/purchase_execution.py:155-211 | the code up to the request does to the stores what the specification says |
| WalletService.PurchaseConfirmation.FinishConfirm | src/esim_mcp/tools/purchase_execution.py:234-331 | the code after the answer does to the stores what the specification says |
| CardService.CardCheckoutService.GetByReference | src/esim_mcp/purchase/card.py:209-222 | the lookup loop ends at a record carrying the reference if any does; the owner is checked only then |
| CardService.CardPayments.BeginOpening | src/esim_mcp/tools/card_checkout.py:264-312 | the code up to the page request does what the specification says |
| CardService.CardPayments.FinishOpening | src/esim_mcp/tools/card_checkout.py:342-438 | the code after the page answer does what the specification says |
| CardService.CardPayments.BeginChecking | src/esim_mcp/tools/card_checkout.py:445-463 | the code up to the status read does what the specification says |
| CardService.CardPayments.FinishChecking | src/esim_mcp/tools/card_checkout.py:485-539 | the code after the status answer does what the specification says |
| TopUpService.TopUpConfirmation.BeginConfirm | src/esim_mcp/tools/esim_topup.py:660-683 | the code up to the first read does what the specification says |
| TopUpService.TopUpConfirmation.CountAttempt | src/esim_mcp/tools/esim_topup.py:684-798 | the attempt is counted, before the request, exactly when the facts stand |
| TopUpService.TopUpConfirmation.FinishConfirm | src/esim_mcp/tools/esim_topup.py:824-922 | the code after the answer does what the specification says |
| Sessions.PresentationsAreCounted | src/esim_mcp/session/manager.py:156-197 | in every run the presentations of a refresh token, and the rotations away from an access token, are exactly those abandoned halfway, the one answered and the one in flight, the last two together at most one |
| Sessions.PresentedOnceExactlyWhen | src/esim_mcp/session/manager.py:149-155 | in every run a token was presented once at most if and only if no rotation of it was abandoned, or one was and it was not presented since |
| Sessions.OnceExactlyWithoutCuts | src/esim_mcp/session/manager.py:139-155 | tokens are presented once at most in all runs with up to so many rotations cut off if and only if that number is zero |
| Sessions.AbandonmentRepeatsAToken | src/esim_mcp/session/manager.py:166-181 | a run in which a rotation cut off before its answer makes the next caller present the same token |
| Sessions.StaleTokensAreNotReturned | src/esim_mcp/session/manager.py:161-164 | a forced refresh never returns the refused token; it rotates if and only if that token is still the stored one |
| Sessions.EndedSessionsAreGoneIffNotRotating | src/esim_mcp/session/manager.py:166-195 | an ended session stays gone until the next login, in every continuation, if and only if no rotation was in flight |
| Departures.RequestsGoOutAsOwnerExactlyWhen | src/esim_mcp/session/manager.py:199-211 | at any point of any run of the server with its sessions at which a wallet, card or top-up request of an owner is about to be sent: it and every later request for that owner's quotes goes out under a session of theirs, in every continuation, if and only if the stored session is theirs, none of somebody else's is being rotated, and nobody else logs in under the key |
| Departures.AlwaysAsOwnersExactlyWhen | src/esim_mcp/tools/purchase_execution.py:141-151 | in all runs in which given users may log in under given keys, every request in the three ledgers went out under a session of its quote's owner, if and only if no key has two users |
| SessionService.Records.Notify | src/esim_mcp/session/manager.py:54-66 | every listener that does not fail clears its store, in whatever order and however others fare |
| SessionService.SessionManager.Invalidate | src/esim_mcp/session/manager.py:130-135 | the session goes and with it, in one step, everything the combined machine drops or cancels |
| SessionService.SessionManager.BeginRotation | src/esim_mcp/session/manager.py:156-164 | inside the lock the decision is taken anew from what is stored |
| SessionService.SessionManager.FinishRotation | src/esim_mcp/session/manager.py:182-197 | the rotated session is saved over whatever is stored |
| SessionService.TableStepsAreSessionSteps | src/esim_mcp/session/store.py:68-79 | on the table of sessions each step is the step of the session it names, and of no other |
| Transport.Request | src/esim_mcp/client/base.py:349-389 | at most three sends for a read that may be retried and one otherwise; all but the last were inconclusive; the result is the last arrival's |
| Transport.LoopSendsAsManyAs | src/esim_mcp/client/base.py:353-387 | the loop sends exactly as many requests as it takes to reach the first conclusive arrival, or all it is allowed |
| Transport.Call | src/esim_mcp/client/base.py:345-348 | nothing is sent on a route that is not permitted, and only then |
| Transport.RunAuthenticated | src/esim_mcp/session/manager.py:213-248 | at most two runs of the operation and two rotations; which token each run carries, the second never the refused one; the result is the last run's; a second refusal, or a first that may not be replayed, ends the session |
| Transport.EnsureFresh | src/esim_mcp/session/manager.py:199-211 | the session the first run goes out with, after at most one rotation: one with more life left than the window when it was looked at, or one renewed because the stored one had less |
| Transport.RefreshRefused | src/esim_mcp/session/manager.py:235-242 | the session for the second run, after at most one rotation, never with the refused token |
| Transport.RunOnce | src/esim_mcp/client/base.py:353-389 | the retry loop carries out one run of a read, with the specified result and number of requests |
| Transport.AuthenticatedRead | src/esim_mcp/session/manager.py:228-248 | whatever the network does: eight requests at most, four without replay, one per run without retry |
| Transport.FailuresAreNamed | src/esim_mcp/client/base.py:634-664 | under what code a failed answer is raised: a recognised label decides, then the status, both directions |
| Transport.GivingUpTakesEveryAttempt | src/esim_mcp/client/base.py:366-385 | a request ends without a usable answer if and only if every attempt allowed met a timeout, a broken connection or a 502 to 504; otherwise with the first usable one, all before it unusable |
| Outcomes.LabelCodeIsTheFirst | src/esim_mcp/client/base.py:653-655 | a label gives a code if and only if some matcher recognises it, and then the first one's |
| Outcomes.SuccessTakesEverySignal | src/esim_mcp/models/common.py:35-42 | an answer is a success if and only if no signal reports failure and the envelope gives at least one |
| Transport.EverySignalMustAgree | src/esim_mcp/client/base.py:488-524 | an answer counts as data if and only if every signal it carries says so; and both ways of reading a failure agree on its status |
| RouteGuard.EnforceRoute | src/esim_mcp/client/base.py:553-608 | the early-exit loops decide the policy's own definition of permitted |
| RouteGuard.VerdictIsInvariant | src/esim_mcp/client/base.py:571-577 | the verdict does not depend on case, leading slashes or surrounding white space |
| RouteGuard.QaFlagAddsOneRoute | src/esim_mcp/client/base.py:581-586 | the flag adds one method and path, and takes none away |
| RouteGuard.MarkedPathsAreListedOrReferences | src/esim_mcp/client/base.py:588-608 | an accepted path holding a forbidden marker is listed exactly, or is a reference read with the right number of segments |
| RouteGuard.NewlineSegmentIsAdmitted | src/esim_mcp/client/base.py:133-133 | a segment ending in a newline is admitted too |
| RouteGuard.BuiltPathVerdict | src/esim_mcp/client/base.py:611-622 | a path built from a family's prefix and any segments is accepted if and only if every segment matches and their number is right |
| RouteGuard.AcceptedReferencesPass | src/esim_mcp/client/card.py:53-66 | every path built from an accepted payment reference passes the guard |
| RouteGuard.AcceptedIccidsPassIffAscii | src/esim_mcp/client/consumption.py:56-70 | a path built from an accepted ICCID, with or without an accepted plan code, passes if and only if its digits are ASCII |
| RouteGuard.SomeAcceptedIccidIsRefused | src/esim_mcp/client/consumption.py:53-56 | an ICCID the validator accepts and the guard refuses |
| RouteGuard.ShippedPolicyIsWellFormed | src/esim_mcp/client/base.py:77-177 | the lists as shipped meet what the other guarantees ask of a policy |
| Money.MoneyTextRoundTrip | src/esim_mcp/purchase/models.py:39-41 | reading back a rendered amount gives the amount rounded to cents |
| Money.RoundingIsNearest | src/esim_mcp/purchase/models.py:39-41 | rounding is to the nearest cent, ties away from zero, and nothing else is |
| Money.RoundingKeepsValueIffWholeCents | src/esim_mcp/purchase/models.py:39-41 | rendering keeps the value if and only if it is a whole number of cents |
| Money.EchoIsAcceptedIffWholeCents | src/esim_mcp/tools/esim_topup.py:1255-1281 | echoing the amount a quote asks to have confirmed is accepted if and only if the price is a whole number of cents |
| Money.ConfirmationStatesTheAmount | src/esim_mcp/tools/esim_topup.py:1263-1277 | what is accepted as a confirmation is numerically the quoted amount |
| Pricing.CoverAddsUp | src/esim_mcp/purchase/validation.py:100-116 | what is left and the price make the balance, or what is lacking and the balance make the price, exactly |
| Pricing.MethodsRoundTrip | src/esim_mcp/purchase/validation.py:44-60 | a payment method is understood if and only if, trimmed and in any case, it is that word |
| Selection.NumbersAreOneToN | src/esim_mcp/selection/service.py:49-67 | the numbers recorded are exactly 1 to n, in the order shown, each standing for its own eSIM |
| Selection.ShownNumbersResolve | src/esim_mcp/tools/account.py:240-266 | every eSIM with an identifier is shown a number that resolves to that identifier, listed twice or not; others are shown none |
| Selection.NumbersMeanTheLastListing | src/esim_mcp/selection/service.py:79-110 | over any run a number resolves if and only if it is in the list last shown to this client, shown to the same user, with no end of session since |
| Selection.SelectionStore.Get | src/esim_mcp/selection/store.py:80-90 | a listing of another user on the same client is not handed out |
| Selection.SelectionStore.InvalidateSession | src/esim_mcp/selection/store.py:92-93 | the client's listing goes, and one or none is counted |
| Selection.Record | src/esim_mcp/tools/account.py:246-247 | what is stored and what is shown come from one numbering |
| Selection.ResolveNumber | src/esim_mcp/selection/service.py:79-110 | the lookup loop decides the specified answer |
| Resolution.UniqueLoop | src/esim_mcp/catalog/resolution.py:181-191 | the loop with its set of markers keeps the first of each |
| Resolution.UniqueKeepsIdentities | src/esim_mcp/catalog/resolution.py:181-191 | deduplication keeps every marker, once |
| Resolution.OrderDoesNotMatter | src/esim_mcp/catalog/resolution.py:68-95 | the kind of verdict and the destination found depend only on which records the catalogue holds, not on their order or repetition; so do those named, where at most five are hit |
| Resolution.NamesAreFixedExactlyWhen | src/esim_mcp/catalog/resolution.py:87-95 | which destinations are named is the same in every order of the list if and only if at most five are hit on the field that decides, or nothing was asked for |
| Resolution.SixNamesakesDependOnOrder | src/esim_mcp/catalog/resolution.py:144-151 | of any six regions under one name the last is not offered, and is when it is listed first |
| Resolution.SixNamesakes | src/esim_mcp/catalog/resolution.py:136-151 | six such regions |
| Resolution.AskingAgainFindsItExactlyWhen | src/esim_mcp/catalog/resolution.py:89-95 | asked again by the name of a destination offered, it is found if and only if that name hits it alone on the first field it hits anything on |
| Resolution.SharedNamesAreOfferedAgain | src/esim_mcp/catalog/resolution.py:89-95 | countries and regions that were hit by name: asking again with any name offered gives the same offer |
| Resolution.FirstMatchingFieldDecides | src/esim_mcp/catalog/resolution.py:75-95 | the first field anything matches on decides: one destination hit there is found; of several as many are named as there are, five at most, all of them hits, and all hits if and only if there are no more than five |
| Resolution.FoundCarriesTheQuery | src/esim_mcp/catalog/resolution.py:127-158 | what is found is in the catalogue and carries the whole query in one of its fields |
| Resolution.NormalizeIgnoresCase | src/esim_mcp/catalog/resolution.py:44-46 | names differing in case only are one name |
| Resolution.NormalizeTwice | src/esim_mcp/catalog/resolution.py:44-46 | normalising is done after one pass |

## Left out

- Finer interleaving: steps below one suspension point, and listeners that drop records while a quote prepared meanwhile is active.
- Process restart, closing of stores, multiple instances: the in-memory guarantees end there.
- HTTP, TLS, JSON and schema parsing, timeouts as durations and backoff waits: their results are inputs to the model.
- Identity resolution, digests, token contents: taken as given. Whose session a status read or a revalidation read carries is not recorded; of purchases, pages and top-ups it is (`Departures`).
- Logging, masking, guidance texts, `details` payloads and result prose; of an error only its code and which message it carries are kept.
- The check that a checkout link is a plain https address: whether a link is safe is an input of `CardCheckout.ReadCheckout`.
- The wallet top-up tool and its services; the quoting tools' reading of prices; catalogue browsing, order history, consumption.
- The order of a dictionary's entries: the first record carrying a payment reference may be any record carrying it.
- Letter case beyond ASCII, and case folding other than lower-casing.
- Amounts that are not finite, digits of other scripts in an echoed amount, and rounding of differences beyond 28 digits.
- The separate reads of a top-up's revalidation: they are one event with the facts they bring; a read that fails drops the call.
- The error a dropped call raises: its caller is answered nothing in the model.
- Suggestions for an unknown destination: for a country a library sort over names, for a region the first five listed, in the order listed.
- Sorting of the active quotes newest first: a library sort.
- Of several destinations offered, one without a name is passed over where the names are written out.
- `PurchaseQuoteService` also serves top-up quotes here; the source has a second service of the same shape, whose equivalence is plan and SIM.
- Resolution.OrderDoesNotMatter: says which destinations are found or named, not which of two records for one destination stands for it; that one is the first listed.
- CardCheckout.WordsRoundTrip: letters are raised within ASCII, where the source's casing covers Unicode.
- RouteGuard.VerdictIsInvariant: likewise for ASCII letters only.
- Pricing.MethodsRoundTrip: likewise for ASCII letters only.
- SessionService.Records.Notify: two of the registered listeners, those of the wallet top-up's stores, are left out, and a failing listener is taken to leave its own store untouched.
- SessionService.SessionManager.Invalidate: pending login challenges and the wallet top-up's stores are not among what goes.
- CardCheckout.PagesAreUsable: whether a link is safe is an input, so only the use made of that answer is stated.
- Resolution.NormalizeIgnoresCase: letters are lowered within ASCII, where the source folds all of Unicode.
- Resolution.NormalizeTwice: likewise for ASCII lowering only.
