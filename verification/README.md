# Exactly once, or within a limit

A Dafny model of the parts of the repository that promise to do something exactly once, or
within a limit, despite retries, crashes and races, with proofs that they do, or exactly
when they do.

| files | what they model |
|---|---|
| `runs.dfy`, `wrappers.dfy` | runs of a state machine, and what one call's steps in them are |
| `ledger.dfy` | the spend ledger of an agent: reserve, then settle, under a monthly cap |
| `domains.dfy`, `domain_code.dfy` | buying a domain and setting it up |
| `sms.dfy`, `sms_code.dfy`, `numbers.dfy`, `number_code.dfy` | texts, and buying phone numbers |
| `channels.dfy` | these three purchase protocols together on one ledger |
| `email.dfy`, `email_code.dfy` | sending email under a provider's idempotency key |
| `inbound.dfy`, `reports.dfy` | webhooks: delivery reports and inbound messages, and reports that overlap |
| `dns.dfy` | the DNS records of a domain |
| `barrier.dfy` | the shutdown barrier of the business tools, under pid reuse |
| `bus.dfy`, `bus_code.dfy` | the workspace message bus: sequences, threads, guards, inboxes, receipts, cursors |
| `ingest.dfy` | engagement event batches |
| `keycache.dfy` | the public key cache of the AI gateway |

`dafny verify dfyconfig.toml` checks all of it.

## How the model is built

**Protocols.** A call is cut at every database write and provider call. A state holds the
tables, the calls with their program counters and local copies, and what really happened at
the provider. An action is one step of one call; `Run` executes any list of actions, so the
theorems are about every interleaving, with a call stopping before any step. The `*_code`
files hold the code: classes whose fields are the tables and whose methods write them in
place. Each method with one write is proved to take exactly one step of its machine, and
the functions of the source are composed of these, with other calls moving in between. In
the classes for domains, texts, numbers and email a ghost list of all actions says that the
tables are those of a run; the contracts name the steps that the call itself has taken.

**Providers.** A connection error or an error that cannot be retried means that nothing
happened; a timeout, network error or server error leaves the outcome open; an answer is
true, and a registration that succeeded or failed stays so. A number lookup by label sees
exactly the completed purchases. The email provider makes at most one email per idempotency
key. Digests are taken to be injective.

**Transactions.** A transaction's reads and checks are one step and its writes another;
row locks, unique constraints and rollbacks are as in the source. Answers of access checks,
validators, regular expressions and host hooks are parameters.

**Processes.** A process has an identity; pids are reused after a process is reaped. The
environment may fork, end, reap and move processes between any two system calls, any call
may fail, and poll may report anything a descriptor can truthfully report.

## Where the code does less than it says

Each of these is a lemma with a run that shows it, or an exact condition:

- `mark_read` says that it never moves a cursor back. It does when the cursor was moved between its read and its save (`Bus.StaleReadMovesBack`, `Bus.CursorMovesBackIff`), and otherwise it does not (`Bus.CursorNeverFalls`).
- The hourly message limit is exceeded by posts that overlap on several channels: k at once reach hourly + k - 1, and no more (`Bus.OverlapReachesTheBound`, `Bus.HourlyLimit`).
- Retrying `buy_number` after its entry was released buys a number that no entry covers (`Numbers.RetryAfterReleaseIsUncovered`, `Numbers.CoveredIffReservedAtBuy`), and any retry may pay more than its entry (`Numbers.RetryMayCostMore`). Two overlapping calls under one key that both go on to buy can buy two numbers (`Numbers.OverlappingCallsBuyTwice`), and otherwise none is bought twice (`Numbers.BoughtAtMostOnce`, `Numbers.OneBuyerIsNeeded`).
- Overlapping approvals send one text twice: whenever two are about to approve it at once they can, and otherwise they cannot (`Sms.OverlappingApprovalsSendTwice`, `Sms.SentAtMostOnce`).
- What overlapping calls give back, another may have used. A number bought on a reserved entry loses its cover when another call under the key is refused or finds none available (`Numbers.OverlapLeavesUncovered`, `Numbers.CoverLostIff`); an accepted text ends on a released entry when another approval of it is refused (`Sms.OverlapLeavesUncovered`). The ledger then counts less than the provider took (`Channels.OverlapLeavesUncovered`, `Channels.OverlapUndercounts`).
- An approval and a rejection that overlap can leave an emailed row REJECTED, and only they can (`Email.DisagreementRejectsEmailed`, `Email.HeldIsNotEmailed`).
- Overlapping callers of `advance_domain` can move a row's status back (`Domains.StaleSaveMovesBack`, `Domains.ForwardFailsIff`). After a refusal the code marks the row FAILED where its comment says that it drops the row.
- A reused key is refused for another body or subject only: another list of recipients, or another thread, is accepted and ignored (`Email.OtherRecipientsAreAccepted`, `Email.KeyAcceptedIff`).
- A FAILED email may have been sent (`Email.FailedMayBeEmailed`, `Email.KnownUnsentIff`).
- Blind copies are shown by an approval, by a retry that leaves the copies out, and by a reply to a message without provider id (`Email.ApprovalShowsEverybody`, `Email.RetryShowsEverybody`, `Email.BlankParentShowsCopies`, `Email.BlindCopyShownIff`).
- A status that webhooks only move forward goes back when two reports of one message are handled at once, or two deliveries of one row overlap (`Reports.OverlapLowersRank`, `Reports.RankFallsIff`, `Email.SecondSaveMovesBack`).
- A delivery report that comes before the provider id is saved is lost for good (`Inbound.EarlyReportIsLost`).
- DNS records that conflict over a single-value name replace each other at every pass (`Dns.ConflictsNeverSettle`).

## Model

| member | source | states |
|---|---|---|
| `Ledger.CapNeverExceeded` | packages/python/django_agent_channels/src/django_agent_channels/policy.py:81-139 | over every interleaving of reservations (check, stamp and commit apart), settlements, limit changes, rollbacks and clock steps, what an agent has reserved and charged in the calendar month is at most the limit its latest reservation was checked against, even when it was summed in one month and stamped in the next; and one (agent, dedupe key) has one row |
| `Ledger.NoLimitIsExceeded` | packages/python/django_agent_channels/src/django_agent_channels/policy.py:81-113 | so in no month does an agent spend more than the highest limit it was ever given, and without a limit nothing |
| `Ledger.SpentIsMonthSum` | packages/python/django_agent_channels/src/django_agent_channels/policy.py:81-89 | what `spent_this_month` adds up is what was created in that calendar month of UTC, or later, and not released |
| `Ledger.CommitKeepsCap` | packages/python/django_agent_channels/src/django_agent_channels/policy.py:107-123 | committing a checked reservation keeps every agent's sum of the calendar month within the limit it was checked against |
| `Ledger.SpentShrinks` | packages/python/django_agent_channels/src/django_agent_channels/policy.py:86-89 | settling entries, or a later start of month, never raises the monthly sum |
| `Ledger.ReserveIsARun` | packages/python/django_agent_channels/src/django_agent_channels/policy.py:92-128 | an undisturbed `reserve` that finds room is the run clock, check, clock, stamp, commit of the concurrent ledger |
| `Ledger.SpendLedger.Reserve` | packages/python/django_agent_channels/src/django_agent_channels/policy.py:92-128 | a new key that the host allows and that fits the limit of the calendar month adds exactly one reserved entry, and no other does; a known key returns its entry and changes nothing, or is refused if it was for another kind; a refusal leaves neither entry nor audit row, and is given only for its reason |
| `Ledger.SpendLedger.Settle` | packages/python/django_agent_channels/src/django_agent_channels/policy.py:131-139 | a reserved entry becomes charged or released as told, any other stays as it is, and so do all other entries; one audit row per change |
| `Domains.RegisteredAtMostOnce` | packages/python/django_agent_channels/src/django_agent_channels/domains.py:58-108 | `registrar.register` is called at most once per domain name, over any calls, agents, keys, retries, races and crashes |
| `Domains.LoserGivesBack` | packages/python/django_agent_channels/src/django_agent_channels/domains.py:85-92 | a call that lost the race for the row, and did not crash, has released its own reservation, which no row uses |
| `Domains.OrdersAreCovered` | packages/python/django_agent_channels/src/django_agent_channels/domains.py:77-132 | an order not finally failed has a row, with an entry of its own, at the quoted price, for the owner, not released |
| `Domains.StatusMatchesLedger` | packages/python/django_agent_channels/src/django_agent_channels/domains.py:95-189 | in every reachable state REGISTERING means purchased with an entry; a purchased row in DNS, VERIFYING or READY is charged and was really registered; a purchased FAILED row is released and not registered |
| `Domains.PollRestoresThePair` | packages/python/django_agent_channels/src/django_agent_channels/domains.py:118-152 | after a crash between `settle` and `save`, the next poll that gets the final answer saves the status that matches the entry |
| `Domains.RefusedNameStaysRefused` | packages/python/django_agent_channels/src/django_agent_channels/domains.py:95-102 | a refused registration is never tried again: whatever follows, the name is never ordered and its row never reaches DNS, VERIFYING or READY |
| `Domains.StatusMovesForward` | packages/python/django_agent_channels/src/django_agent_channels/domains.py:147-189 | with one call at a time per row, every step moves a row's status forward or not at all |
| `Domains.StaleSaveMovesBack` | packages/python/django_agent_channels/src/django_agent_channels/domains.py:118-132 | two callers on one row can move it back from DNS to REGISTERING |
| `Domains.ForwardFailsIff` | packages/python/django_agent_channels/src/django_agent_channels/domains.py:95-189 | however calls overlap, a row's status fails to move forward exactly when a save, a configuration, a finish or a mark of failure is written over a status that it does not lead on from |
| `Domains.StepKeepsInv` | packages/python/django_agent_channels/src/django_agent_channels/domains.py:52-189 | every step of every call keeps rows, calls, registrar and ledger in agreement |
| `DomainCode.DomainService.BuyDomain` | packages/python/django_agent_channels/src/django_agent_channels/domains.py:52-108 | the code of one call goes on in a run of the protocol, from its own begin, and takes just the steps of its branch; ending as loser it has released its own reservation; undisturbed, a name of another owner is a conflict that changes nothing, an own name is advanced as by `AdvanceDomain`, and it calls the registrar exactly when the name is not managed, is offered and the key is new, and then once |
| `DomainCode.DomainService.Purchase` | packages/python/django_agent_channels/src/django_agent_channels/domains.py:77-94 | reserve, then claim the name, or find the purchase of a replayed key, in just those steps; undisturbed the registrar is called exactly for a free name and a new key |
| `DomainCode.DomainService.ReserveMoney` | packages/python/django_agent_channels/src/django_agent_channels/domains.py:77-84 | one step of the protocol: a new reservation, or the replay of the one under this key |
| `DomainCode.DomainService.InsertRow` | packages/python/django_agent_channels/src/django_agent_channels/domains.py:85-92 | one step: the unique name decides who wins, and the winner's row is the agent's, bought, REGISTERING, at the reserved price, with its entry |
| `DomainCode.DomainService.Claim` | packages/python/django_agent_channels/src/django_agent_channels/domains.py:85-108 | the winner of the insert calls the registrar, the loser gives its reservation back, in just those steps |
| `DomainCode.DomainService.CallRegistrar` | packages/python/django_agent_channels/src/django_agent_channels/domains.py:95-108 | calls the registrar once, and goes on in just the steps of its answer; a definite refusal ends with the reservation released and the row FAILED; an unknown outcome leaves row and reservation as they are; undisturbed, an answer gives the row its status and the set-up takes it from there |
| `DomainCode.DomainService.FindPurchase` | packages/python/django_agent_channels/src/django_agent_channels/domains.py:80-84 | a replayed key is a conflict exactly when no row holds its entry, and then nothing changes; otherwise the row that holds it is advanced, by just those steps |
| `DomainCode.DomainService.ApplyRegistration` | packages/python/django_agent_channels/src/django_agent_channels/domains.py:118-132 | settles first and then saves: whatever others do, the entry ends charged if the registration succeeded and released if it was rejected; a success gives DNS, a rejection FAILED, a need for action ACTION_REQUIRED, and anything else leaves REGISTERING; undisturbed the row has that status |
| `DomainCode.DomainService.AdvanceDomain` | packages/python/django_agent_channels/src/django_agent_channels/domains.py:147-177 | takes just the steps that the row's status, the registrar's truthful answer and the email provider call for; undisturbed a row in REGISTERING gets the status of the answer, a row in DNS goes to VERIFYING with the email provider's id, one in VERIFYING to READY once it is verified, and any other stays |
| `DomainCode.AdvancedBecomes` | packages/python/django_agent_channels/src/django_agent_channels/domains.py:118-177 | the same as a table, for every row, answer and reply of the email provider |
| `DomainCode.DomainService.SetUp` | packages/python/django_agent_channels/src/django_agent_channels/domains.py:154-177 | a row in DNS is configured and checked, one in VERIFYING is checked, any other is returned, in just those steps; undisturbed the row has the status they come to and nothing else changes |
| `DomainCode.DomainService.Verify` | packages/python/django_agent_channels/src/django_agent_channels/domains.py:170-177 | the row becomes READY when the provider says verified, and is not written otherwise |
| `DomainCode.DomainService.MarkVerified` | packages/python/django_agent_channels/src/django_agent_channels/domains.py:180-189 | a row that is not READY becomes READY |
| `DomainCode.DomainService.Fail` | packages/python/django_agent_channels/src/django_agent_channels/domains.py:111-115 | one step: the row is FAILED |
| `Sms.SentAtMostOnce` | packages/python/django_agent_channels/src/django_agent_channels/sms.py:92-151 | if no two calls are about to approve one message at once, the provider is called at most once per row; and one (endpoint, key) has one row, over any sends, retries, approvals, rejections and crashes |
| `Sms.AcceptedIsCovered` | packages/python/django_agent_channels/src/django_agent_channels/sms.py:123-151 | in every state reached without two calls being about to approve one message at once, a text the provider accepted has a ledger entry of its own, for its agent, not released, at the price the provider took |
| `Sms.OverlappingApprovalsSendTwice` | packages/python/django_agent_channels/src/django_agent_channels/email.py:201-220 | in any run, two calls that are about to approve one message at once send it twice in six steps, at any price and with any replies |
| `Sms.OverlapLeavesUncovered` | packages/python/django_agent_channels/src/django_agent_channels/sms.py:123-151 | from every state of every run, two approvals of one text that both saw it pending, and whose entry is not charged yet, can leave it accepted at any price on a released entry, while the ledger counts no more than before |
| `Sms.TwoApproversRead` | packages/python/django_agent_channels/src/django_agent_channels/email.py:201-220 | two approvals can come to that point |
| `Sms.StepKeepsInv` | packages/python/django_agent_channels/src/django_agent_channels/sms.py:92-151 | every step keeps rows, calls, provider and ledger in agreement |
| `SmsCode.SmsService.SendSms` | packages/python/django_agent_channels/src/django_agent_channels/sms.py:92-120 | a known key changes nothing and returns its row, or is refused for another text or recipient; a new one is held for approval, or ends as its one delivery does; in just those steps of the protocol, under any interference |
| `SmsCode.SmsService.Deliver` | packages/python/django_agent_channels/src/django_agent_channels/sms.py:123-151 | takes just the steps that its reservation and the provider's reply call for: SENT if accepted, FAILED if refused, unknown otherwise |
| `SmsCode.SmsService.CreateRow` | packages/python/django_agent_channels/src/django_agent_channels/sms.py:105-119 | one step: the insert, or the row of the same (endpoint, key) |
| `SmsCode.SmsService.ReserveMoney` | packages/python/django_agent_channels/src/django_agent_channels/sms.py:127-130 | one step: a new reservation under the row's own key, or the entry of an earlier delivery of the row |
| `SmsCode.SmsService.ProviderSend` | packages/python/django_agent_channels/src/django_agent_channels/sms.py:132-134 | one step: one call of the provider, the only one for this row if approvals did not overlap |
| `SmsCode.SmsService.Approve` | packages/python/django_agent_channels/src/django_agent_channels/email.py:201-220 | not found unless the row awaits approval; then it is decided, and if approved it ends as its delivery does, also while other approvals of it are under way |
| `Numbers.BoughtAtMostOnce` | packages/python/django_agent_channels/src/django_agent_channels/sms.py:43-85 | if no two calls at once go on to buy on one entry (whatever is releasing it), no retries, overlaps or crashes buy a second number for an (agent, key) |
| `Numbers.CoveredIffReservedAtBuy` | packages/python/django_agent_channels/src/django_agent_channels/sms.py:50-74 | if no call buys on an entry while another shops on it, a bought number's entry is not released exactly when it was still reserved at the buying call |
| `Numbers.SettledAtBuyStays` | packages/python/django_agent_channels/src/django_agent_channels/policy.py:131-139 | in every run, however calls overlap, a number bought on a settled entry leaves it as it was settled: bought on a released entry, it stays uncovered |
| `Numbers.CoverLostIff` | packages/python/django_agent_channels/src/django_agent_channels/sms.py:61-74 | however calls overlap, a bought number loses its cover exactly at a step in which a call that was refused, or found none available, gives back the entry while it is reserved |
| `Numbers.OverlapLeavesUncovered` | packages/python/django_agent_channels/src/django_agent_channels/sms.py:57-74 | in any run, a call that goes on to buy on a reserved entry, beside another that shops on it, can leave a number bought on that reserved entry uncovered, in at most six steps |
| `Numbers.RetryAfterReleaseIsUncovered` | packages/python/django_agent_channels/src/django_agent_channels/sms.py:57-74 | a retry after the entry was released buys a number that no entry covers |
| `Numbers.OwnReservationIsThePrice` | packages/python/django_agent_channels/src/django_agent_channels/sms.py:49-69 | over every run, however calls overlap, a number bought by the call that made the reservation costs exactly what was reserved |
| `Numbers.RetryMayCostMore` | packages/python/django_agent_channels/src/django_agent_channels/sms.py:49-69 | in any run, a retry that found nothing bought can buy at the price of the day, whatever that is, and charges its entry as first reserved |
| `Numbers.RetryIsQuotedAnew` | packages/python/django_agent_channels/src/django_agent_channels/sms.py:49-60 | a retry comes to that point with any price of the day on an entry of any other price |
| `Numbers.OverlappingCallsBuyTwice` | packages/python/django_agent_channels/src/django_agent_channels/sms.py:57-74 | in any run, two calls that go on to buy on one entry (looking, choosing or buying, with nothing bought found) can buy two numbers on it in at most six steps |
| `Numbers.OneBuyerIsNeeded` | packages/python/django_agent_channels/src/django_agent_channels/sms.py:57-74 | the condition of `Numbers.BoughtAtMostOnce` cannot be weakened: at the first point of any run at which it fails, two numbers can be bought on one entry |
| `Numbers.TwoCallsChoose` | packages/python/django_agent_channels/src/django_agent_channels/sms.py:43-60 | two calls with one key can come to that point, on a reserved entry |
| `NumberCode.NumberService.BuyNumber` | packages/python/django_agent_channels/src/django_agent_channels/sms.py:43-74 | a call that returns leaves the (agent, key) with an entry whose number was bought or is recorded; under a new key it undisturbed buys the wanted number, or else the available one, at the quoted price on its own entry; it takes just the steps of its branch, also while other calls under the key are under way |
| `NumberCode.NumberService.Recover` | packages/python/django_agent_channels/src/django_agent_channels/sms.py:57-60 | a replay finds a purchase exactly when one was made under its label; it is then charged and recorded, and nothing is bought; otherwise it chooses and buys |
| `NumberCode.NumberService.ChooseAndBuy` | packages/python/django_agent_channels/src/django_agent_channels/sms.py:61-74 | buys the wanted number, or else the available one, at its price; returns exactly when there was a number to choose and it was bought; when none is available, or the provider refuses, the entry is settled, and released if no other call shopped on it |
| `NumberCode.NumberService.BuyChosen` | packages/python/django_agent_channels/src/django_agent_channels/sms.py:68-74 | a refusal settles the entry, as released if no other call shopped on it; an unknown outcome leaves it to a retry; a purchase is charged and recorded; in just those steps |
| `NumberCode.NumberService.RecordNumber` | packages/python/django_agent_channels/src/django_agent_channels/sms.py:77-85 | charges the entry unless it was settled before, then records the number unless it is recorded already |
| `Channels.EveryChargeIsCovered` | packages/python/django_agent_channels/src/django_agent_channels/policy.py:92-139 | domain purchases, texts and numbers interleaved on one ledger, if no two calls are about to approve one text, and no call buys on an entry while another shops on it: every charge made (a number bought on a reserved entry) has an entry of its own, not released |
| `Channels.LedgerNeverUndercounts` | packages/python/django_agent_channels/src/django_agent_channels/policy.py:86-89 | if no two calls are about to approve one text, and no call buys on an entry while another shops on it: the prices that providers took from an agent, for any set of charges on entries since a moment, add up to at most what the ledger says it spent since then, and what retried number purchases paid above their entries |
| `Channels.NoRetryNoExtra` | packages/python/django_agent_channels/src/django_agent_channels/sms.py:49-69 | without numbers bought by retries nothing is added to what the ledger says |
| `Channels.OverlapLeavesUncovered` | packages/python/django_agent_channels/src/django_agent_channels/policy.py:86-89 | in any run of all three, two calls that are about to approve one text, whose entry is not charged yet, can bring the provider to take any price while the ledger counts no more than before |
| `Channels.OverlapUndercounts` | packages/python/django_agent_channels/src/django_agent_channels/policy.py:86-89 | so without its condition `Channels.LedgerNeverUndercounts` fails at every price: a run in which the price is taken and the ledger says that nothing was spent |
| `Channels.PriceIsReserved` | packages/python/django_agent_channels/src/django_agent_channels/policy.py:92-139 | in every state reached with the same conditions, the price taken for a domain, a text, or a number bought by the call that reserved, is at most its entry |
| `Channels.StepKeepsInv` | packages/python/django_agent_channels/src/django_agent_channels/policy.py:92-139 | a step of one protocol, with the same conditions, keeps the invariants of all three |
| `Email.EmailedAtMostOnce` | packages/python/django_agent_channels/src/django_agent_channels/email.py:143-198 | with a provider that honours its idempotency key, one (endpoint, key) yields at most one email, over any concurrent retries, timeouts, approvals and crashes |
| `Email.EmailSaysWhatWasAsked` | packages/python/django_agent_channels/src/django_agent_channels/email.py:169-181 | every email is a reply to its row's parent with its body, or has its subject and body, the copies of a caller whose key, body and subject were those of the row (none after an approval), and as To the recorded recipients who are not copied, or all of them if everybody is |
| `Email.RowsAreAskedFor` | packages/python/django_agent_channels/src/django_agent_channels/email.py:143-152 | every row is, field by field, a request that some call of send_email made |
| `Email.KeyAcceptedIff` | packages/python/django_agent_channels/src/django_agent_channels/email.py:154-165 | a key is accepted again exactly when body and subject are those of its row; the caller is then given that row |
| `Email.OtherRecipientsAreAccepted` | packages/python/django_agent_channels/src/django_agent_channels/email.py:154-160 | a request under a used key for other recipients, or in another thread, is answered with the first request's email, and nothing is sent to the recipients it names |
| `Email.SentWasEmailed` | packages/python/django_agent_channels/src/django_agent_channels/email.py:191-195 | SENT, DELIVERED and BOUNCED rows were really emailed |
| `Email.HeldIsNotEmailed` | packages/python/django_agent_channels/src/django_agent_channels/email.py:201-220 | unless an approval and a rejection of one message overlap, a row that waits for approval, or was rejected, was not emailed |
| `Email.DisagreementRejectsEmailed` | packages/python/django_agent_channels/src/django_agent_channels/email.py:201-220 | in any run, an approval and a rejection of one message that overlap can leave an emailed row REJECTED in three steps |
| `Email.TwoOwnersDisagree` | packages/python/django_agent_channels/src/django_agent_channels/email.py:201-220 | two owners come to that point with any request |
| `Email.FailedMayBeEmailed` | packages/python/django_agent_channels/src/django_agent_channels/email.py:182-190 | FAILED does not mean unsent: a lost reply and then a refused retry, one call at a time, mark a sent email FAILED |
| `Email.KnownUnsentIff` | packages/python/django_agent_channels/src/django_agent_channels/email.py:169-198 | for every run and row, FAILED or not: that it was not emailed follows from the tables, the callers' answers and which calls reached the provider (the last in no table) exactly when every call that reached it for the row was refused or did not get through; otherwise a run that is the same in all of these has emailed it |
| `Email.RecipientsExactIff` | packages/python/django_agent_channels/src/django_agent_channels/email.py:178-181 | an email goes to exactly the recorded recipients exactly when the copies of the delivering call are recorded recipients |
| `Email.ToHeaderIff` | packages/python/django_agent_channels/src/django_agent_channels/email.py:178-181 | a delivery with the request's own copies has exactly the requested To header exactly when nobody on it is also copied, and it is not empty beside copies, as in a reply |
| `Email.ApprovalShowsEverybody` | packages/python/django_agent_channels/src/django_agent_channels/email.py:178-220 | a request that is held and approved goes out without its copies: its run ends with all recorded recipients, blind copies included, in the To header |
| `Email.BlindCopyShownIff` | packages/python/django_agent_channels/src/django_agent_channels/email.py:178-181 | in every run a blind copy of the request that made the row is in To or Cc of its email exactly when the delivering call copies it openly, does not copy it blind, or copies everybody the row records |
| `Email.RetryShowsEverybody` | packages/python/django_agent_channels/src/django_agent_channels/email.py:159-181 | so does a retry, after the provider was not reached, that leaves the copies out |
| `Email.BlankParentShowsCopies` | packages/python/django_agent_channels/src/django_agent_channels/email.py:122-181 | and a reply to a message that has no provider id: its To header is its copies |
| `Email.SecondSaveMovesBack` | packages/python/django_agent_channels/src/django_agent_channels/email.py:191-195 | two deliveries of one queued row: the second saves SENT over the DELIVERED reported after the first |
| `Email.RankNeverFalls` | packages/python/django_agent_channels/src/django_agent_channels/email.py:169-220 | if neither deliveries nor approvals of a row overlap, no step of a run lowers its rank |
| `Email.StatusNeverGoesBack` | packages/python/django_agent_channels/src/django_agent_channels/email.py:169-220 | so bounced and failed stay so, delivered does not go back to sent, nor sent to anything before |
| `Email.WebhookIff` | packages/python/django_agent_channels/src/django_agent_channels/inbound.py:78-91 | a webhook may mark an email whose provider id is saved delivered unless it bounced or failed, and bounced or failed always |
| `Email.StepKeepsInv` | packages/python/django_agent_channels/src/django_agent_channels/email.py:118-220 | every step keeps rows, emails and calls in agreement |
| `EmailCode.EmailService.SendEmail` | packages/python/django_agent_channels/src/django_agent_channels/email.py:118-166 | a known key is refused for another body or subject, and sends again only while its row is QUEUED, otherwise nothing changes; a new one is held for approval, or ends as its delivery does; in just those steps of the protocol, under any interference |
| `EmailCode.EmailService.Deliver` | packages/python/django_agent_channels/src/django_agent_channels/email.py:169-198 | SENT and emailed if accepted, FAILED if refused, left QUEUED if the provider was not reached or the outcome is unknown; in just those steps |
| `EmailCode.EmailService.CreateRow` | packages/python/django_agent_channels/src/django_agent_channels/email.py:143-165 | one step: the insert, or the row of the same (endpoint, key) |
| `EmailCode.EmailService.Approve` | packages/python/django_agent_channels/src/django_agent_channels/email.py:201-220 | not found unless the row awaits approval; then it is decided, and delivered if approved |
| `Inbound.ReportsEndAtHighest` | packages/python/django_agent_channels/src/django_agent_channels/inbound.py:20-91 | requests that do not overlap: for a message whose provider id is saved, reports in any order, with any redelivery, end at the highest of the starting rank and the reported ranks |
| `Inbound.RankNeverFalls` | packages/python/django_agent_channels/src/django_agent_channels/inbound.py:78-91 | requests that do not overlap: no report moves a message to a lower rank |
| `Inbound.FinalStatusStays` | packages/python/django_agent_channels/src/django_agent_channels/inbound.py:20-91 | the same by name: bounced and failed stay so, delivered does not go back to sent, nor sent to anything before |
| `Inbound.LaterStatusIsTaken` | packages/python/django_agent_channels/src/django_agent_channels/inbound.py:78-91 | a first report of a later status (queued, sent, delivered, then bounced or failed) is written and counted |
| `Reports.RankFallsIff` | packages/python/django_agent_channels/src/django_agent_channels/inbound.py:78-91 | requests that overlap: the rank of a message falls exactly when a report is saved that was compared with a lower rank than the row has by then, or a delivery saves SENT over a report |
| `Reports.OverlapLowersRank` | packages/python/django_agent_channels/src/django_agent_channels/inbound.py:78-91 | from any state, two reports of one message, neither behind its status, handled at once: the earlier one is saved over the later in four steps |
| `Reports.SerialReportsEndAtHighest` | packages/python/django_agent_channels/src/django_agent_channels/inbound.py:78-91 | over every run in which no two requests are about to save one message, and it is delivered already, its rank ends at the highest of its first rank and the reports committed for it |
| `Reports.SerialRankNeverFalls` | packages/python/django_agent_channels/src/django_agent_channels/inbound.py:78-91 | and at no point of such a run is its rank above the one at the end, so it never falls |
| `Reports.EventIsSavedOnce` | packages/python/django_agent_channels/src/django_agent_channels/inbound.py:23-45 | however requests overlap, no two of them save reports of one event id |
| `Reports.AloneIsHandled` | packages/python/django_agent_channels/src/django_agent_channels/inbound.py:34-45 | a request that nothing comes between is the serial handling of its event, receipt included |
| `Inbound.OrderDoesNotMatter` | packages/python/django_agent_channels/src/django_agent_channels/inbound.py:34-45 | two lists of the same reports, reordered and repeated, leave a message at the same rank |
| `Inbound.LastOfEqualRankStays` | packages/python/django_agent_channels/src/django_agent_channels/inbound.py:20-91 | within the top rank order does matter: the last of bounced and failed stays |
| `Inbound.CallsCompose` | packages/python/django_agent_channels/src/django_agent_channels/inbound.py:34-45 | several webhook calls do and count what one call with all their events does |
| `Inbound.EarlierStatusIsIgnored` | packages/python/django_agent_channels/src/django_agent_channels/inbound.py:78-91 | a report of an earlier status, of an unknown message, or seen before changes no message and is not counted |
| `Inbound.RedeliveryIsNoOp` | packages/python/django_agent_channels/src/django_agent_channels/inbound.py:23-45 | redelivering events that carry ids changes nothing and counts nothing |
| `Inbound.SeenIff` | packages/python/django_agent_channels/src/django_agent_channels/inbound.py:23-31 | an event counts as seen exactly when an earlier one had an id with the same first 256 characters |
| `Inbound.EarlyReportIsLost` | packages/python/django_agent_channels/src/django_agent_channels/inbound.py:39-84 | a report that arrives before the provider id of its message is saved changes no message, nor does its redelivery after the id is saved and any other events were processed |
| `Inbound.ReportTakesEffectIff` | packages/python/django_agent_channels/src/django_agent_channels/inbound.py:78-91 | a report of a higher rank is taken exactly when its event was not seen before |
| `Inbound.ReceivedOnce` | packages/python/django_agent_channels/src/django_agent_channels/inbound.py:48-75 | a stored inbound message is never changed by later deliveries |
| `Inbound.MessageIsStored` | packages/python/django_agent_channels/src/django_agent_channels/inbound.py:48-75 | a new message to an active address, email addresses in lower case, is stored field by field under its key, unless that is used |
| `Inbound.OnlyMessagesAreStored` | packages/python/django_agent_channels/src/django_agent_channels/inbound.py:48-75 | and nothing else is stored: every new row holds a message of the list which is no keyword, at its endpoint and key |
| `Inbound.LastKeywordCounts` | packages/python/django_agent_channels/src/django_agent_channels/sms.py:154-165 | after any list of new messages a phone number is opted out exactly by the last STOP or START word it sent to an active number; email changes no opt-out |
| `Inbound.CountCoversNewRows` | packages/python/django_agent_channels/src/django_agent_channels/inbound.py:34-45 | the returned count covers every new inbound row and is at most the number of events |
| `Inbound.WebhookProcessor.ProcessAll` | packages/python/django_agent_channels/src/django_agent_channels/inbound.py:34-45 | the loop leaves the tables and returns the count of `Process` |
| `Inbound.WebhookProcessor.FirstTime` | packages/python/django_agent_channels/src/django_agent_channels/inbound.py:23-31 | true exactly when the event has no receipt yet; it then has one, unless its id is blank |
| `Inbound.WebhookProcessor.Status` | packages/python/django_agent_channels/src/django_agent_channels/inbound.py:78-91 | the code of `Reported` |
| `Inbound.WebhookProcessor.Inbound` | packages/python/django_agent_channels/src/django_agent_channels/inbound.py:48-75 | the code of `Arrived` |
| `Dns.AlwaysPresentIff` | packages/python/django_agent_channels/src/django_agent_channels/providers/cloudflare.py:106-133 | one pass over any zone leaves every wanted record present exactly when no two wanted records conflict over a single-value name |
| `Dns.SingletonIff` | packages/python/django_agent_channels/src/django_agent_channels/providers/cloudflare.py:121-122 | a name holds a single value exactly for a CNAME, for _dmarc or a name under it, and for a name with ._domainkey in it |
| `Dns.OneStaysOne` | packages/python/django_agent_channels/src/django_agent_channels/providers/cloudflare.py:113-126 | no pass adds a second entry to such a name |
| `Dns.OthersStay` | packages/python/django_agent_channels/src/django_agent_channels/providers/cloudflare.py:113-126 | every other entry stays as it is: what differs is added next to it |
| `Dns.OnlyRecordsAreWritten` | packages/python/django_agent_channels/src/django_agent_channels/providers/cloudflare.py:118-126 | whatever a pass writes is a wanted record, with its type, name, value and priority |
| `Dns.QuotedIsSame` | packages/python/django_agent_channels/src/django_agent_channels/providers/cloudflare.py:129-133 | a value that the zone shows split into quoted parts is the same as the value |
| `Dns.SameIff` | packages/python/django_agent_channels/src/django_agent_channels/providers/cloudflare.py:129-133 | without quotes two values are the same exactly when they agree but for case and final dots |
| `Dns.RerunCompletes` | packages/python/django_agent_channels/src/django_agent_channels/providers/cloudflare.py:106-126 | a pass that stopped anywhere is completed by the next as if it had not stopped, and a further pass changes nothing |
| `Dns.ConflictsNeverSettle` | packages/python/django_agent_channels/src/django_agent_channels/providers/cloudflare.py:121-126 | two conflicting records replace each other at every pass |
| `Dns.OtherNamesStay` | packages/python/django_agent_channels/src/django_agent_channels/providers/cloudflare.py:106-126 | entries under other names are untouched and no entry is removed |
| `Dns.FqdnTwiceIff` | packages/python/django_agent_channels/src/django_agent_channels/domains.py:192-199 | making a name absolute twice is making it absolute once, for every name, exactly when the zone is not written with a final dot |
| `Dns.FqdnIsInside` | packages/python/django_agent_channels/src/django_agent_channels/domains.py:192-199 | the absolute name is the zone or under it; a name under it stays, and any other gets the zone appended |
| `Dns.DnsZone.UpsertRecords` | packages/python/django_agent_channels/src/django_agent_channels/providers/cloudflare.py:106-126 | the loop turns the zone into `UpsertAll` of it |
| `Barrier.Helper.StopUnit` | infrastructure/business-tools/runtime/stop.py:118-141 | on every path the commands issued are the first few of: stop the ingress, stop all, down, list the containers; with exit code 0 all four, and no call failed. Whenever `down` was issued, every unit process of the first inventory other than the helper had exited, and the inventory just before held only the helper. It fails only for a reason that the kernel's answers show. Every descriptor opened during the call, and no other, is closed exactly once |
| `Barrier.Helper.Capture` | infrastructure/business-tools/runtime/stop.py:57-86 | every process of the first inventory has exited or is behind an open descriptor, although pids may be reused between any two reads; it fails only if a call failed, an inventory lacked the helper, the second had a newcomer, an opened process was not in it, or poll misreported |
| `Barrier.Helper.Confirm` | infrastructure/business-tools/runtime/stop.py:72-85 | a descriptor stands for the captured member itself, or its process has exited |
| `Barrier.Helper.OpenAll` | infrastructure/business-tools/runtime/stop.py:64-71 | the loop over the inventory opens a descriptor per pid, or the process is gone |
| `Barrier.Helper.WaitForExit` | infrastructure/business-tools/runtime/stop.py:101-115 | returns normally only when every awaited process has exited, and gives up only if a call failed, poll misreported, or 4200 seconds have passed |
| `Barrier.Helper.ReadyPidfds` | infrastructure/business-tools/runtime/stop.py:91-98 | reports only pending descriptors, and only of processes that have exited |
| `Barrier.Helper.ClosePidfds` | infrastructure/business-tools/runtime/stop.py:46-54 | closes each descriptor once, whatever single closes return |
| `Barrier.Helper.UnitPids` | infrastructure/business-tools/runtime/stop.py:34-43 | the pids of the unit at that moment, the helper's included, or a failure |
| `Barrier.Helper.StopAndAwait` | infrastructure/business-tools/runtime/stop.py:129-131 | the ingress is stopped before the rest, and nothing is taken down; on success everything captured has exited, and it fails only if a call failed, poll misreported, or 4200 seconds have passed |
| `Barrier.OpenedHolder` | infrastructure/business-tools/runtime/stop.py:64-71 | whoever holds a listed pid when it is opened is the listed member, or the member has exited |
| `Barrier.StillTheMember` | infrastructure/business-tools/runtime/stop.py:72-85 | a live process whose pid the second inventory lists is itself a member of the unit |
| `Bus.SeqsHaveNoGaps` | packages/python/django_agent_workspace/src/django_agent_workspace/messaging.py:170-197 | in every reachable state a channel's sequence numbers are exactly 1 to last_seq, without gap or repeat, in posting order |
| `Bus.NamesAreUnique` | packages/python/django_agent_workspace/src/django_agent_workspace/messaging.py:104-109 | in every reachable state no two channels of a workspace share a name, direct channels apart |
| `Bus.ThreadsAreOneLevel` | packages/python/django_agent_workspace/src/django_agent_workspace/messaging.py:184-199 | a thread root is an earlier top-level message of the same channel, and reply_count is its number of replies |
| `Bus.NoLongAgentStreak` | packages/python/django_agent_workspace/src/django_agent_workspace/messaging.py:66-79 | for a fixed limit, between any two points of the message table, if all messages of a thread, or of the top level, are by agents, there are at most as many as the limit |
| `Bus.StreakIff` | packages/python/django_agent_workspace/src/django_agent_workspace/messaging.py:75-79 | the guard stops a post exactly when the newest messages of its thread, as many as the limit, are all by agents |
| `Bus.HourlyLimit` | packages/python/django_agent_workspace/src/django_agent_workspace/messaging.py:66-74 | an agent with at most k posts under way at once has at most hourly + k - 1 messages in any closed interval of 3600 seconds, over all channels; one at a time keeps the promised limit |
| `Bus.OverlapReachesTheBound` | packages/python/django_agent_workspace/src/django_agent_workspace/messaging.py:66-74 | under any limits that let an agent post, for every k, k posts at once bring it to hourly + k - 1 messages in one hour, so the bound of `Bus.HourlyLimit` is exact |
| `Bus.OneEffectPerKey` | packages/python/django_agent_workspace/src/django_agent_workspace/services.py:81-106 | across create_workspace, create_channel and post_message one (actor, key) makes at most one row; every successful return under it, first or replayed, is for the same request and names that row, which holds what was asked for, a message also in the thread it answers |
| `Bus.InboxIsExact` | packages/python/django_agent_workspace/src/django_agent_workspace/messaging.py:213-239 | at any time after a post its inbox items are exactly one per active reader of the workspace, other than the author, who is a member of the channel unless that is public, and is mentioned, in the direct channel, or wrote in the thread (its root included), by the tables at the post; with mention over direct over reply |
| `Bus.CursorsStayInside` | packages/python/django_agent_workspace/src/django_agent_workspace/messaging.py:200-202 | every read cursor is at most its channel's last_seq |
| `Bus.CursorMovesBackIff` | packages/python/django_agent_workspace/src/django_agent_workspace/messaging.py:263-275 | while its row exists a cursor moves back exactly when mark_read saves over a value newer than the one it compared with |
| `Bus.CursorNeverFalls` | packages/python/django_agent_workspace/src/django_agent_workspace/messaging.py:263-275 | over any run, as long as nothing else moves the cursor of a row between the read and the save of a mark_read on it, the cursor never falls |
| `Bus.StaleReadMovesBack` | packages/python/django_agent_workspace/src/django_agent_workspace/messaging.py:263-275 | a user who posts while its mark_read is under way has its cursor taken back from 2 to 1 |
| `Bus.UndisturbedRead` | packages/python/django_agent_workspace/src/django_agent_workspace/messaging.py:263-275 | mark_read alone moves the cursor to the larger of its value and the wanted one, and nobody else's; what it covers is read, and every other item stays as it is |
| `Bus.StepKeepsInv` | packages/python/django_agent_workspace/src/django_agent_workspace/messaging.py:170-275 | every step of every transaction keeps the tables consistent |
| `Bus.CommitPostKeepsInv` | packages/python/django_agent_workspace/src/django_agent_workspace/messaging.py:193-207 | message, sequence number, reply count, cursor, inbox items and receipt appear together and keep the tables consistent |
| `BusCode.MessageBus.PostMessage` | packages/python/django_agent_workspace/src/django_agent_workspace/messaging.py:170-210 | a message is made only if, and undisturbed exactly if, body and key have text and at most 20000 and 128 characters, access is granted, the key is new, the thread is of this channel, and for an agent the workspace is not paused and neither limit is reached; the message is the newest of its channel, read by its author, and under its receipt; a replay changes no message, item or receipt |
| `BusCode.MessageBus.CheckPost` | packages/python/django_agent_workspace/src/django_agent_workspace/messaging.py:171-192 | goes on exactly when body, access, key, thread, pause and guards allow; a replay returns the earlier result; a refusal is that of the first check that fails, and changes nothing |
| `BusCode.MessageBus.WritePost` | packages/python/django_agent_workspace/src/django_agent_workspace/messaging.py:193-207 | all the writes of a post, or none of them if another transaction stored its receipt first |
| `BusCode.MessageBus.Deliver` | packages/python/django_agent_workspace/src/django_agent_workspace/messaging.py:213-239 | the new inbox items are those of `NewItems` |
| `BusCode.MessageBus.Reasons` | packages/python/django_agent_workspace/src/django_agent_workspace/messaging.py:215-233 | the loops give each principal its first reason: mention, then direct, then reply; never the author |
| `BusCode.MessageBus.CheckReceipt` | packages/python/django_agent_workspace/src/django_agent_workspace/services.py:81-94 | a new key, the earlier result, or a refusal for a bad key or another request |
| `BusCode.MessageBus.StoreReceipt` | packages/python/django_agent_workspace/src/django_agent_workspace/services.py:97-106 | succeeds exactly when the actor has no receipt under the key |
| `BusCode.MessageBus.CreateWorkspace` | packages/python/django_agent_workspace/src/django_agent_workspace/services.py:122-140 | undisturbed, an allowed request under a new key is made; a made workspace is as requested, under its receipt; a replay changes nothing |
| `BusCode.MessageBus.CreateChannel` | packages/python/django_agent_workspace/src/django_agent_workspace/messaging.py:84-115 | undisturbed, an allowed request under a new key with a free name is made; a made channel is as requested, empty, joined by its creator, under its receipt; a replay changes nothing |
| `BusCode.MessageBus.MarkRead` | packages/python/django_agent_workspace/src/django_agent_workspace/messaging.py:263-275 | undisturbed it is exactly `Bus.UndisturbedRead` and returns the cursor; it is not found without access or channel |
| `Ingest.EngagementStore.IngestEvents` | infrastructure/raise-crm/backend/engagement/services.py:108-150 | whatever others insert between check and insert: either no row of the batch stays, or it has at most 100 events, each well formed, of version 1 and with the consent its website requires, and every event is stored, `accepted` of them as own new rows, and accepted + duplicates is the batch size; old rows are untouched; undisturbed it is taken exactly as in `TakenIff` |
| `Ingest.EngagementStore.InsertAll` | infrastructure/raise-crm/backend/engagement/services.py:119-149 | the loop with its counters, under any arrivals |
| `Ingest.EngagementStore.InsertOne` | infrastructure/raise-crm/backend/engagement/services.py:130-149 | one event is inserted, found, or clashes, and after a failed insert it is checked again |
| `Ingest.EngagementStore.BindVisitor` | infrastructure/raise-crm/backend/engagement/services.py:153-183 | the first binding of a visitor stays, also when another request makes it in between; a different contact is refused |
| `Ingest.AddedIff` | infrastructure/raise-crm/backend/engagement/services.py:99-149 | a batch goes in exactly when each event's id is free or holds the same event of the same charity and website, field by field and with the same consent, and no two events disagree about an id |
| `Ingest.TakenIff` | infrastructure/raise-crm/backend/engagement/services.py:63-150 | an undisturbed batch is taken exactly when it has at most 100 events, each well formed, of version 1 and with the consent that the website requires, and each fits the stored rows and the other events |
| `Ingest.ConsentIsKept` | infrastructure/raise-crm/backend/engagement/services.py:68-71 | over any sequence of batches, while a website requires consent every row of it has consent, and stored rows stay |
| `Ingest.ResubmitIsDuplicate` | infrastructure/raise-crm/backend/engagement/services.py:99-150 | submitting a batch again, at any time after all of it is stored, whoever stored it, adds nothing and reports all of it as duplicates |
| `Ingest.BatchIsSumOfParts` | infrastructure/raise-crm/backend/engagement/services.py:108-150 | a batch a + b goes in exactly when a and then b do, with the same rows and added counts; otherwise not even a's part stays |
| `Ingest.BatchAddsExactlyAccepted` | infrastructure/raise-crm/backend/engagement/services.py:119-150 | an undisturbed batch changes nothing, or adds exactly `accepted` rows, each that of one of its events, by this user, with the visitor's verified contact if that still exists |
| `Keys.AttemptsAreSpaced` | infrastructure/ai-gateway/runtime/iap-auth.py:132-155 | over any run two fetch attempts start at least 60 seconds apart, failed ones included, so a span of T seconds holds at most T / 60 + 1 |
| `Keys.AnswersComeFromLatestFetch` | infrastructure/ai-gateway/runtime/iap-auth.py:132-154 | every key returned is that of the latest successful fetch, and served from the cache less than 3600 seconds after it; an assertion is called invalid only if that fetch lacks the id and none failed since |
| `Keys.LookupIs` | infrastructure/ai-gateway/runtime/iap-auth.py:132-154 | what a lookup does by the attempts before it: a key of a success less than an hour old is served without a fetch; otherwise, within a minute of the last attempt, nothing is fetched and it fails, as invalid only if that attempt worked; otherwise it fetches once and answers with what that brings |
| `Keys.FailuresKeepKeys` | infrastructure/ai-gateway/runtime/iap-auth.py:144-148 | however many refreshes fail, keys and expiry stay, and a cached key is still served |
| `Keys.StepKeepsInv` | infrastructure/ai-gateway/runtime/iap-auth.py:132-154 | a lookup keeps keys, expiry, last attempt and failure flag in line with the attempts made |
| `Keys.KeyCache.Find` | infrastructure/ai-gateway/runtime/iap-auth.py:132-154 | the code of `Get`, field by field |

## Left out

- Numbers.BoughtAtMostOnce: assumes that no two calls at once go on to buy on one entry, because two such calls can buy twice (`Numbers.OverlappingCallsBuyTwice`, `Numbers.OneBuyerIsNeeded`).
- Numbers.CoveredIffReservedAtBuy: assumes that no call buys on an entry while another shops on it, because otherwise it fails (`Numbers.OverlapLeavesUncovered`); `Numbers.SettledAtBuyStays` is the half that holds in every run.
- Sms.AcceptedIsCovered: is about states reached without overlapping approvals of one text, because otherwise it fails (`Sms.OverlapLeavesUncovered`).
- Email.HeldIsNotEmailed: assumes that no approval and rejection of one message overlap, because such a pair can leave it REJECTED and emailed (`Email.DisagreementRejectsEmailed`).
- Sms.SentAtMostOnce: assumes that no two calls are about to approve one message at once, because two such calls do send twice (`Sms.OverlappingApprovalsSendTwice`).
- Inbound.RankNeverFalls: is about requests that do not overlap, as are the other results of `Inbound`; `Reports` has those that do, for delivery reports. Inbound messages are stored in one step.
- Email.RankNeverFalls: a webhook of an email is one step here; its own overlaps are in `Reports`.
- Domains.StatusMovesForward: assumes that no two calls hold one row, because then it is false (`Domains.StaleSaveMovesBack`); `Domains.ForwardFailsIff` says when.
- Channels.EveryChargeIsCovered: assumes that no two calls are about to approve one text, and that no call buys a number on an entry while another shops on it, because otherwise it fails (`Channels.OverlapLeavesUncovered`, `Numbers.OverlapLeavesUncovered`); and it counts a bought number only if its entry was still reserved at the buying call, because one bought on a released entry stays uncovered in every run (`Numbers.SettledAtBuyStays`).
- Channels.PriceIsReserved: is about states reached with these conditions.
- Channels.LedgerNeverUndercounts: has the same conditions, without which it fails (`Channels.OverlapUndercounts`). The registrar takes the price it quoted to the call that registered; renewals and monthly fees are not part of this model.
- Bus.HourlyLimit: the limits are fixed and not negative; a negative hourly limit acts like 0, and a negative streak limit makes the post fail.
- DomainCode.DomainService.BuyDomain: prices, availability, currency and the policy's own rules are one yes or no before the reservation.
- Ingest.EngagementStore.InsertOne: an insert that fails for another reason than a used id, which rolls back like a clash, has no branch of its own.
- In the purchase machines a reservation may be refused at any time, which allows more runs than the limit does; the limit itself is proved in `Ledger`. Audit texts, `detail` texts, zone ids and warm-up dates are not kept.
- Domain names, phone numbers, mentions, handles and channel names are taken as already cleaned; `word` of an inbound message is its body stripped and lower-cased. Lower-casing and blank text are ASCII.
- `domain_verified` is modelled for a nonblank provider id, which is what tells the domains apart.
- Email warm-up caps, attachments, inbox creation and opt-out over whole runs: a message held before STOP is approved without a second check.
- `open_direct` may be repeated for a pair, and `create_channel` does not wait for the workspace lock: the bus allows more runs than the code. Workspace roles, `set_member` apart from the lost channel membership, the activity log and the inbox listing are not part of this model.
- `mark_read` that finds no row creates one; the model lets it do so at its save.
- A zone holds what was written to it; a provider that rewrites a value is covered only if the comparison still finds it the same. Names and types are compared exactly. Records that differ only in priority are left alone, as in the code.
- The shutdown barrier opens, awaits and closes descriptors in any order where the code sorts them; the text of the cgroup file and of the container list are read without errors of their own, and a failed read is a failure.
- Times of the key cache are real numbers, so rounding of the clock is not modelled; fetching, parsing and checking the keys are its parameter.
- HTTP, signatures, JSON, the ORM, settings, migrations, commands, user interfaces and the rest of the repository.
