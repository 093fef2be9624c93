# Verification of the Arcus operations back end

This project models the parts of the Arcus API where a wrong step costs money or lets the wrong
person act, and proves what the code and its comments promise about them. It is written for
Dafny 4.11; `dafny verify dfyconfig.toml` covers the whole project.

Six parts of the system are modelled.

- **Maker-checker approvals.** `Approvals` is a state machine with one event per database
  statement: gates, votes, resubmissions and rule edits interleave freely, and handlers may be cut
  off between any two statements. `ApprovalSafety` holds the invariant, `ApprovalTheorems` what it
  gives over every run, `ApprovalHandlers` a class whose methods update the tables in place and
  are each shown to be one run of the machine, and `ApprovalCalls` what whole calls do, in the fields
  of the tables, and where every request's demands come from. `ApprovalOpposition` says exactly when
  an approval can end up beside a rejecting vote, `ApprovalAtomic` gives the calls that never let it
  and an interleaving that does, and `ApprovalRejection` says exactly what can get round a rejection.
- **Largest-remainder apportionment.** `Apportionment` states the split as a function of total and
  weights and proves its properties; `LandedCost` is the computation on arrays (stable sort,
  hand-out loop, weights overwritten when all are zero), proved to compute that function.
- **Purchasing.** `Purchasing` is the order, receipt, landed-cost and recosting machine on top of
  the approval engine and the stock ledger; `PurchaseSafety` its invariant, `PurchaseCalls` what each
  call does and how every receipt is costed, in the fields of the tables, `PurchaseTheorems`,
  `PurchaseHolds`, `PurchaseDrafts` and `PurchaseCosting` what follows for status, numbers,
  authority, quantities, drafts and cost, `LateCharges` what sequences of late charges are worth in
  any order and beside the delivery, `PurchaseOverlap` what becomes of all this when handlers that
  load, check and write overlap, and `PurchaseHandlers` the handlers with their loops over rows.
- **Stock.** `Stock` has the ledger, counter sales, stock counts and the opening backfill;
  `StockTransactions` the same check under concurrent transactions with row locks; `JobCosting`
  deal costing at weighted average.
- **Sessions.** `Sessions`, `SessionSafety`, `SessionTheorems` and `SessionHandlers` do for refresh
  families, token versions and password resets what the approval modules do for approvals;
  `SessionRevocation` says exactly what a revocation ends and which handlers under way outlive it,
  and `SessionResets` exactly when a user comes to have two reset links that work.
- **Roles and accounts.** `Roles` models the role table, the accounts, and any number of replicas
  each answering from its own cached grants; `RoleCalls` says what each call does in the fields of
  the tables, `RoleTheorems` is the closure argument, `RoleSeeding` repeats it for boots that seed row
  by row beside everything else, `RoleOverlap` looks at handlers that overlap between check and write,
  and `RoleHandlers` has the handlers.

Conventions. Money is exact (`real` in kwacha, `int` in ngwee): rounding is modelled where the code
rounds, at `toNgwee` and the weight conversions, and nowhere else. Rows are numbered in order of
creation, which is what `created_at` orders by. A unique index is a refused insert, a conditional
UPDATE one atomic step. Hashes and tokens are ids. A run is a finite sequence of events from the
empty (or seeded) system, so a lemma about `Run(Empty, es)` is about every reachable state. In the
approval and session machines a step is one database statement; in the purchasing and role machines
it is a whole handler, and `PurchaseOverlap` and `RoleOverlap` open the handlers up again.

Where the code and its comments disagree, the model follows the code:

- `internal/models/purchase_models.go:15` says only an approved order may be issued. The handler
  issues drafts and orders pending approval, through the gate, and nothing ever sets `approved`
  (or `closed`); `PurchaseTheorems.StatusIsExact` proves neither is reached.
- Received quantity is meant to stay within what was ordered. Each receipt line is compared alone
  with what was outstanding before the receipt, so a receipt naming a line twice can exceed it:
  `PurchaseTheorems.SameLineTwiceOverReceives` is such a run, `WithinExactly` says for every
  recorded receipt exactly when the bound survives, and `ReceivedWithinOrdered` proves it for all
  runs whose receipts name each line once.
- Raising a total can lower one line's share by a ngwee (`Apportionment.RaisingTotalCanLower`),
  never by more (`RaisingTotal`), and exactly when `LoweredExactly` says.
- Revoking a family can miss a rotation that has claimed and not yet appended:
  `SessionTheorems.RevocationCanMiss` is such a run, and `SessionRevocation.KillExactly` and
  `LogoutExactly` say that a live token of the family can follow if and only if one is under way.
- A redeemed reset and sign-out everywhere are meant to end every session. A rotation past its
  claim, or a sign-in past its password check, outlives both: `SessionRevocation.ResetExactly` and
  `SignOutExactly` are the two-way statements, and `ResetCanMiss` follows such a survivor to an
  access token that is accepted.
- An approved request can carry a rejecting vote when votes interleave: `ApprovalAtomic.CrossingVotes`
  is such a run, `ApprovalOpposition.ApprovalExactly` the exact condition at the approving statement,
  and served one call at a time it never happens (`ApprovedUnopposed`).
- A rejection is meant to hold until it is explicitly resubmitted. A gate call that looked before it
  spends or raises regardless: `ApprovalRejection.RejectionRound` is such a run, and
  `RejectionExactly` says that a rejection can be got round if and only if one is under way.
- Asking for a reset link again is meant not to leave two that work. Superseding and inserting are
  two statements with nothing to keep a second request out: `SessionResets.TwoRequestsTwoLinks` is
  the run, `InsertExactly`, `WindowExactly` and `DoublesExactly` the exact conditions, and requests
  that do not overlap do leave one (`OneLinkAlone`).
- Purchase order numbers are meant to run unbroken. They are counted and written in separate
  statements and the column is not unique: two orders issued at once get one number
  (`PurchaseOverlap.OneNumberTwice`), and `CountingExactly` says exactly when the sequence survives.
- An issued order is meant to be the one that was approved, an order with goods in not to be
  cancelled, and received to stay within ordered; each is checked on the order as loaded and not
  again at the write. `PurchaseOverlap.UndisturbedIsSerial` proves that runs in which no write comes
  upon an order that has moved on are runs of whole handlers, and `EditExactly`, `AuthorityExactly`,
  `CancelExactly` and `DeliveryExactly` say exactly when the others do harm.
- Nobody may remove himself, and only a super_admin another super_admin, so one should remain. Two
  who delete each other at once leave none (`RoleOverlap.MutualRemoval`); `LastSeatExactly` is the
  condition at the write.
- Late charges are meant to be worth the same in any order and beside the delivery. What is booked
  is; but at a negative exchange rate one order can be accepted and another refused
  (`LateCharges.CreditMustComeLater`). `AcceptedExactly` and `TakenLateExactly` say which sequences
  are, and at non-negative rates the order does not matter (`ChargesConfluent`).
- Built-in grants are meant to be immutable. Seeding rewrites them row by row outside a
  transaction, so a replica refreshing meanwhile publishes what is there
  (`RoleSeeding.InterruptedExactly`); no role ever exceeds its shipped grants, and super_admin keeps
  the users resource throughout (`BuiltInsNeverExceed`).

## Model

| member | source | states |
|---|---|---|
| ApprovalTheorems.ApprovedIsSignedOff | internal/handlers/approvals.go:478-583 | Under any interleaving, an approved or consumed request has at least its own required count (at least one) of distinct approving people, none the requester, every vote cast in the role it was raised with |
| ApprovalTheorems.CountIsPeople | internal/models/approval_models.go:172-173 | With one vote per request and approver, the row count the handler compares with the requirement is the number of different people |
| ApprovalTheorems.DemandsNeverChange | internal/handlers/approvals.go:143-187 | Required count, role, amount and subject of a request are fixed when it is raised, whatever happens to the rules; votes are only added and statuses only move forward |
| ApprovalTheorems.RejectedIsExplained | internal/handlers/approvals.go:591-632 | A rejected request has a rejecting vote with a reason on record |
| ApprovalTheorems.NothingStuck | internal/handlers/approvals.go:541-583 | Once no handler is deciding it, a pending request has no rejecting vote and fewer approvals than required, so simultaneous approvers cannot leave a fully voted request stuck; the one exception is a request on which a handler was itself cut off between vote and settlement |
| ApprovalTheorems.CutOffLeavesSettled | internal/handlers/approvals.go:526-583 | What such a cut-off leaves behind: the request still pending, the votes that settle it on record, and nobody at work on it if nobody else was |
| ApprovalTheorems.PassesMatchConsumed | internal/handlers/approvals.go:66-141 | Admitted actions and spent requests correspond one to one: same action, entity and requester, approved for at least the amount admitted, no request spent twice, as many as are consumed; any other pass was made while no rule covered it |
| ApprovalTheorems.OneOpenRequest | internal/models/approval_models.go:144 | pending_key is set exactly while a request is pending, so a triple has at most one open request |
| ApprovalTheorems.ResubmissionChain | internal/handlers/approvals.go:638-687 | Chains of superseded requests run strictly backwards in time through rejected requests with the same action, entity, requester and amount |
| ApprovalTheorems.RejectionBars | internal/handlers/approvals.go:526-534 | The statement that rejects a request opens the barred period, if no gate call of the triple is then past its look-up |
| ApprovalTheorems.RejectionHolds | internal/handlers/approvals.go:82-115 | From then until a resubmission raises a request for the triple, no interleaving of gate calls spends an approval of it or raises a request for it |
| ApprovalTheorems.BarredGateBlocked | internal/handlers/approvals.go:94-100 | In that period the gate finds the rejected request and turns its caller away with it |
| ApprovalRejection.RejectionExactly | internal/handlers/approvals.go:526-534 | As the rejecting statement runs: some continuation in which no resubmission raises anything spends an approval of the triple or raises a request for it if and only if a gate call of it is between look-up and what follows |
| ApprovalRejection.StandingExactly | internal/handlers/approvals.go:82-115 | The same at any later moment, while the rejected request is the newest of its triple |
| ApprovalRejection.ResubmissionExactly | internal/handlers/approvals.go:638-687 | Beside a standing rejection, a resubmission under way can still raise its request if and only if it has loaded a rejected request already or is about to load one that is its caller's own |
| ApprovalRejection.RejectionRound | internal/handlers/approvals.go:82-127 | A run in which a request is rejected and the first of two gate calls of one requester then raises another |
| ApprovalTheorems.HighestFloorGoverns | internal/handlers/approvals.go:34-47 | In the fields of a rule: none is matched exactly when no rule has the action, is active and has its floor reached; otherwise the one matched is such a rule, no other such rule has a higher floor, and of those with its floor it has the lowest primary key |
| ApprovalCalls.DemandsFromRule | internal/handlers/approvals.go:143-187 | Under any interleaving, every request on record was raised under a rule that at some point of the run was the highest floor reached for its action at its amount, and demands that rule's count (one at least) from that rule's role |
| ApprovalCalls.ApprovedAsRuled | internal/handlers/approvals.go:541-583 | So an approved or consumed request has at least as many different approvers as the rule it was raised under called for, all its votes cast in that rule's role |
| ApprovalCalls.GateUngoverned | internal/handlers/approvals.go:66-73 | A whole gate call where no rule is reached: it goes ahead, touching no request, and the log keeps the rules it went ahead under |
| ApprovalCalls.GateAnonymous | internal/handlers/approvals.go:75-80 | Where one is reached and nobody is signed in: refused, nothing touched |
| ApprovalCalls.GateBlocked | internal/handlers/approvals.go:82-100 | Where the caller's newest unspent request of the triple is pending or rejected: blocked by it, nothing touched |
| ApprovalCalls.GateSpends | internal/handlers/approvals.go:101-141 | Where it is approved for at least the amount: that row becomes consumed, the action goes ahead, and nothing else changes |
| ApprovalCalls.GateRaises | internal/handlers/approvals.go:108-187 | Where there is none, or an approval for less: one pending row more, with the call's triple and amount and the count (one at least) and role of the highest rule reached |
| ApprovalCalls.VoteRefused | internal/handlers/approvals.go:478-518 | A whole decision by somebody unknown, the requester, in another role, a second time, on a request not pending, or rejecting without a reason: nothing is written |
| ApprovalCalls.VoteTaken | internal/handlers/approvals.go:506-632 | Any other decision adds its vote; the request is rejected by one rejecting vote, approved once as many different people as it calls for have voted for it, and pending otherwise |
| ApprovalCalls.ResubmitRefused | internal/handlers/approvals.go:638-687 | A resubmission of a request that is not the caller's own, not rejected, covered by no rule now, or beside a pending one: nothing is written |
| ApprovalCalls.ResubmitTaken | internal/handlers/approvals.go:638-687 | Any other raises the same triple and amount under the rule that governs now, linked to the request it replaces |
| ApprovalSafety.ApplyKeepsInv | internal/handlers/approvals.go:66-687 | Every event keeps the invariant: votes back decided statuses, a settled pending request has a handler at work on it, passes are accounted for; and tables only grow |
| ApprovalOpposition.ApprovalExactly | internal/handlers/approvals.go:526-583 | As the approving statement runs: no continuation ever has a rejecting vote on the request if and only if none is on record and no handler is about to cast one for a person who has not voted |
| ApprovalOpposition.DecidedExactly | internal/handlers/approvals.go:541-632 | The same for every request already decided, since a handler that loads it later refuses to vote |
| ApprovalAtomic.ApprovedUnopposed | internal/handlers/approvals.go:541-632 | Served one call at a time, no approved or consumed request has a rejecting vote; the exact condition under interleaving is ApprovalOpposition.ApprovalExactly |
| ApprovalAtomic.CrossingVotes | internal/handlers/approvals.go:526-534 | A ten-event interleaving of one approval and one rejection that ends with the request approved and the rejection on record |
| ApprovalAtomic.AwaitingReached | internal/handlers/approvals.go:146-187 | The state that interleaving starts from is reached by one rule and one gate call |
| ApprovalHandlers.ServeIsRun | internal/handlers/approvals.go:66-687 | Serving one call alone is a run of the statement-level machine, so every theorem about runs applies to the class |
| ApprovalHandlers.GateServed | internal/handlers/approvals.go:66-116 | What a whole gate call does: let through ungated, refuse without a caller, report the live request, spend the approval if it covers the amount, else raise a request |
| ApprovalHandlers.VoteServed | internal/handlers/approvals.go:541-632 | What a whole decision does: refuse the ineligible, the unexplained and the second vote; otherwise record and settle |
| ApprovalHandlers.ResubmitServed | internal/handlers/approvals.go:638-687 | What a whole resubmission does: only the requester, only a rejected request, under the rule that covers it now, linked to the one it replaces |
| ApprovalHandlers.Handler.Gate | internal/handlers/approvals.go:66-116 | The method leaves the state the machine reaches, which the Gate rows of ApprovalCalls describe field by field; it proceeds exactly when one pass is logged |
| ApprovalHandlers.Handler.Consume | internal/handlers/approvals.go:130-141 | Spends the request exactly if it is approved for at least the amount, and changes nothing otherwise |
| ApprovalHandlers.Handler.Raise | internal/handlers/approvals.go:146-187 | Adds one pending row with the rule's count (one at least) and role, the asked triple and amount and its key in the index, unless the triple's slot is taken |
| ApprovalHandlers.Handler.RecordDecision | internal/handlers/approvals.go:506-518 | Adds the vote unless this approver has one on this request |
| ApprovalHandlers.Handler.FinaliseRequest | internal/handlers/approvals.go:526-535 | Settles a pending request and leaves any other alone |
| ApprovalHandlers.Handler.Decide | internal/handlers/approvals.go:541-632 | The decision handlers as one run of the machine; a refusal changes no table |
| ApprovalHandlers.Handler.Resubmit | internal/handlers/approvals.go:638-687 | The resubmission handler as one run of the machine; a refusal raises nothing |
| ApprovalHandlers.Handler.CreateRule | internal/handlers/approvals.go:279-306 | A rule is added exactly if its action is known, its floor not negative, its count at least one and its role able to decide |
| ApprovalHandlers.Handler.UpdateRule | internal/handlers/approvals.go:311-364 | The edited rule is stored exactly if it would be acceptable; requests and votes on record are not touched |
| Apportionment.SharesExact | internal/services/landedcost.go:83-109 | Shares add up to the total, each is its floor or one more, none is negative, a weightless line gets nothing |
| Apportionment.LeftOverFits | internal/services/landedcost.go:83-106 | The left-over is less than the number of lines with a remainder, so the hand-out loop's length guard never cuts it short |
| Apportionment.SharesOptimal | internal/services/landedcost.go:83-106 | No vector of integers with the same total is closer, in summed absolute deviation, to exact proportion |
| Apportionment.SharesFollowWeights | internal/services/landedcost.go:83-106 | A heavier line gets at least as much; of equal weights the earlier line does |
| Apportionment.SharesScaleFree | internal/services/landedcost.go:83-106 | Multiplying every weight by the same positive constant changes no share |
| Apportionment.EvenSplit | internal/services/landedcost.go:76-81 | With all weights zero the split is even to within one ngwee, earlier lines first |
| Apportionment.RaisingTotal | internal/services/landedcost.go:83-106 | A larger total lowers no line's share by more than one ngwee |
| Apportionment.RaisingTotalCanLower | internal/services/landedcost.go:83-106 | And it can lower one: 10 and 11 ngwee over weights 6, 6 and 2 |
| Apportionment.LoweredExactly | internal/services/landedcost.go:83-106 | Exactly when it does: the line keeps its floor, was served from the left-over before, and is now ranked behind the last line served |
| Apportionment.NoOverflow | internal/services/landedcost.go:67-96 | If total times weight sum is below 2^63, so is every product and running total computed on the way |
| LandedCost.SortByRemainder | internal/services/landedcost.go:98-103 | Leaves the slots in descending order of remainder, equal ones in line order |
| LandedCost.ApportionNgwee | internal/services/landedcost.go:54-109 | Returns the specified shares or the specified error; overwrites the weights with ones exactly when all were zero, and nothing else |
| LandedCost.FloorShares | internal/services/landedcost.go:83-96 | The first pass writes every floor share and remainder and totals what it placed |
| LandedCost.HandOut | internal/services/landedcost.go:98-106 | The second pass turns floors into the specified shares |
| LandedCost.BasisWeights | internal/services/landedcost.go:125-140 | The lines' values in ngwee, their quantities or their weights in grams, as the basis says; an unknown basis is an error as soon as there is a line |
| LandedCost.ApportionReceipt | internal/services/landedcost.go:147-161 | The kwacha shares are the ngwee shares of the rounded charge, or the error of the step that failed |
| LandedCost.ReceiptSharesExact | internal/services/landedcost.go:147-161 | A successful split places the whole charge, rounded to the ngwee, in non-negative parts |
| LandedCost.SplitOnBasis | internal/services/landedcost.go:125-161 | By value the rounded charge is apportioned over the lines' ngwee, by quantity over their units, by weight over their grams |
| LandedCost.MoreBearsMore | internal/services/landedcost.go:125-161 | So on each basis a line with more ngwee, units or grams bears at least as much of the charge |
| LandedCost.ReceiptCostable | internal/services/landedcost.go:125-161 | Exactly which receipts can be costed: some line, a known basis, a charge not below zero, and no negative weight unless the charge is zero |
| LandedCost.NgweeRoundTrip | internal/services/landedcost.go:33-39 | Whole ngwee survive the trip through kwacha; rounding moves a figure by at most half a ngwee |
| LandedCost.HalvesAway | internal/services/landedcost.go:33-39 | Half a ngwee is rounded away from zero, and rounding commutes with the sign |
| PurchaseTheorems.StatusIsExact | internal/handlers/purchasing.go:779-809 | With whole handlers as steps: received exactly when every line is full, partly received exactly when something but not everything is in, otherwise nothing is; editable and cancelled orders have no receipts; approved and closed are never reached |
| PurchaseTheorems.StepFrozen | internal/handlers/purchasing.go:294-365 | With whole handlers as steps: once issued, nothing about an order but its status can change, and it never becomes editable again |
| PurchaseTheorems.RunFrozen | internal/handlers/purchasing.go:294-365 | The same over every run |
| PurchaseTheorems.IssuedIsAuthorised | internal/handlers/purchasing.go:389-455 | In every reachable state of whole handlers each issued order, worth the sum over its lines of quantity times unit price, times its rate, was either reached by the floor of no active rule for issuing when its gate answered, or spent a request for that order raised by the issuer for at least that value, signed off by enough other people |
| PurchaseTheorems.ValueExactly | internal/models/purchase_models.go:142-155 | The value the gate is asked for is the order's lines added up one by one, quantity times unit price, times its rate, and no other |
| PurchaseCalls.CostedThroughout | internal/handlers/purchasing.go:698-980 | In every reachable state each receipt's charges, amount times rate, are apportioned by its own basis over its lines' value at the order's prices and its rate, their units or their grams, and each line's units are carried at goods plus share, in the ledger as on the receipt |
| PurchaseCalls.CreateInFull | internal/handlers/purchasing.go:241-287 | Which drafts are taken, and that one is stored as it came, at rate one if it names none; or nothing happens |
| PurchaseCalls.UpdateInFull | internal/handlers/purchasing.go:294-365 | Which edits are taken, and that one replaces lines and rate and makes the order a draft again; or nothing happens |
| PurchaseCalls.IssueRefused | internal/handlers/purchasing.go:389-415 | An order without lines, or past its draft, is refused before the gate is asked |
| PurchaseCalls.IssueInFull | internal/handlers/purchasing.go:416-462 | Any other is put to the gate under its own id at its lines' total times its rate: let through, it is issued with the number it has or the next of the year; blocked, it is held or refused as the request stands; and nothing else about any order changes |
| PurchaseCalls.ReceivedCounts | internal/handlers/purchasing.go:37-56 | The quantity received on an order line is the sum over the receipt lines for it, of that order and no other |
| PurchaseCalls.CancelInFull | internal/handlers/purchasing.go:465-495 | An order becomes cancelled exactly when nothing has been received on any of its lines, and nothing else changes |
| PurchaseCalls.DeliveryAccepted | internal/handlers/purchasing.go:536-690 | In every reachable state, which delivery notes are recorded, in the fields of the note, the order and the catalogue |
| PurchaseCalls.DeliveryInFull | internal/handlers/purchasing.go:603-809 | A recorded one adds a receipt with the note's lines and charges, costed, ledger rows behind those already there, and moves the order to received or partly received; one that is refused changes nothing |
| PurchaseCalls.DeliveryRows | internal/handlers/purchasing.go:730-773 | It adds one ledger row for each line that brings in a catalogue product |
| PurchaseCalls.ChargeAccepted | internal/handlers/purchasing.go:850-912 | In every reachable state, which late charges are booked, in the fields of the charge and the receipt |
| PurchaseCalls.ChargeInFull | internal/handlers/purchasing.go:850-980 | One that is adds itself to the receipt, whose lines are costed anew, and changes nothing in the ledger but unit costs; a refused one changes nothing |
| PurchaseHolds.HeldOrdersExplained | internal/handlers/purchasing.go:425-436 | In every reachable state a rejected order has a rejected request for its issue, with the rejecting vote, on record, and an order pending approval a request for its issue |
| PurchaseHolds.HeldByOwnRequest | internal/handlers/approvals.go:66-116 | Whatever else is in flight, the request a blocked issue is answered with is one for the issue of that order |
| PurchaseTheorems.GateEnds | internal/handlers/approvals.go:66-116 | Whatever else is in flight, a gate call run to its end is answered, and an answer of proceed logs exactly one pass, for its own action, entity, caller and amount |
| PurchaseTheorems.NumbersUnbroken | internal/handlers/purchasing.go:371-380 | Where issues do not overlap, the numbers issued in a year are exactly 1 to n, each on one order, and exactly issued orders carry one |
| PurchaseTheorems.WithinExactly | internal/handlers/purchasing.go:582-601 | A recorded delivery keeps received within ordered exactly when its quantities, added up per order line, fit what was outstanding |
| PurchaseTheorems.ReceivedWithinOrdered | internal/handlers/purchasing.go:582-601 | In every run of whole handlers whose delivery notes name each line at most once, no line ever receives more than was ordered |
| PurchaseTheorems.SameLineTwiceOverReceives | internal/handlers/purchasing.go:588-601 | A run in which one unit is ordered and two are received |
| PurchaseTheorems.DeliveryAcceptedExactly | internal/handlers/purchasing.go:536-690 | Exactly which deliveries are recorded, in terms of the order, the request, the charge total, the weights and the catalogue |
| PurchaseCosting.CostsConserved | internal/handlers/purchasing.go:698-773 | In every reachable state a receipt's units are carried at goods value plus all charges booked so far, to the ngwee |
| PurchaseCosting.LedgerAgrees | internal/handlers/purchasing.go:743-768 | Each linked ledger row has its receipt line's product, quantity and unit cost; only lines without a product have none |
| PurchaseCosting.ChargeMovesNoGoods | internal/handlers/purchasing.go:914-980 | A late charge changes no balance at any point of the ledger and no received quantity |
| PurchaseCosting.ChargeAcceptedExactly | internal/handlers/purchasing.go:850-912 | Exactly which late charges are booked |
| PurchaseCosting.ChargesAtOnce | internal/handlers/purchasing.go:922-980 | Charges booked one after another leave the receipt and ledger that one costing with all of them would |
| LateCharges.ChargesConfluent | internal/handlers/purchasing.go:922-980 | A sequence of late charges is accepted exactly when each is in order and each running total can be spread; two orders both accepted give the same shares, unit costs and ledger; at non-negative rates one order is accepted if and only if the other is |
| LateCharges.LateEqualsUpFront | internal/handlers/purchasing.go:698-980 | A delivery followed by late charges ends in the very state of a delivery that had those charges on it, and is accepted if and only if that delivery is and every shorter total spreads, which at non-negative rates is always so |
| LateCharges.AcceptedExactly | internal/handlers/purchasing.go:850-980 | From every sound state, which sequences of late charges are accepted: each charge in order, each running total rounding to no less than zero and to zero or over non-negative weights |
| LateCharges.ForwardAccepted | internal/handlers/purchasing.go:850-980 | At non-negative rates only the charges and the final total matter |
| LateCharges.TakenLateExactly | internal/handlers/purchasing.go:536-980 | Exactly which deliveries with which late charges are taken, in terms of the order, the request, the catalogue and the running totals |
| LateCharges.CreditMustComeLater | internal/handlers/purchasing.go:850-912 | A receipt on which freight and then a credit at a negative rate are both booked, and the credit first is refused |
| PurchaseSafety.ApplyKeepsInv | internal/handlers/purchasing.go:241-980 | Every event keeps orders, statuses, receipts, costs, links and ledger in step |
| PurchaseSafety.PostExactly | internal/handlers/purchasing.go:730-773 | Posting succeeds exactly when every product exists, and then every line is costed and linked to a new row of its own |
| PurchaseSafety.RecostedExactly | internal/handlers/purchasing.go:956-973 | Recosting rewrites the unit cost of each linked row and leaves every other row and field alone |
| PurchaseOverlap.UndisturbedIsSerial | internal/handlers/purchasing.go:294-690 | With edits, cancellations and deliveries split into look and write and everything else in between: a run in which each write finds its order and the quantities received as loaded ends in the state of a run of whole handlers |
| PurchaseOverlap.EditExactly | internal/handlers/purchasing.go:294-365 | An edit written on an order that has moved on leaves it in order if and only if it has been neither issued nor received against since |
| PurchaseOverlap.CancelExactly | internal/handlers/purchasing.go:465-495 | A cancellation does, if and only if nothing has been received since |
| PurchaseOverlap.DeliveryExactly | internal/handlers/purchasing.go:536-690 | A recorded delivery keeps received within ordered if and only if its quantities per line fit what is outstanding as it is written |
| PurchaseOverlap.TwoDeliveriesOverReceive | internal/handlers/purchasing.go:582-601 | Two deliveries checked against the same order, each of all that is outstanding on a line, over-receive |
| PurchaseOverlap.AuthorityExactly | internal/handlers/purchasing.go:422-455 | The pass the gate logged for the order as loaded authorises it as issued if and only if its lines, quantity times unit price added up and multiplied by its rate, still come to the same |
| PurchaseOverlap.NumberExactly | internal/handlers/purchasing.go:371-380 | A number written on an order that has none keeps the numbers unbroken if and only if it is the next of its year |
| PurchaseOverlap.RenumberExactly | internal/handlers/purchasing.go:438-455 | One written over another of the same year does if and only if it is the same number |
| PurchaseOverlap.CountingExactly | internal/handlers/purchasing.go:371-455 | So an issue keeps them unbroken if and only if no number of the year was written between its count and its write |
| PurchaseOverlap.OneNumberTwice | internal/handlers/purchasing.go:371-455 | Two orders counted for before either is written bear the same number |
| PurchaseDrafts.CreatingCommitsNothing | internal/handlers/purchasing.go:238-287 | Raising an order takes no number, promises and moves no goods and touches no approval or other order; withdrawing it leaves every count of numbers as it was |
| PurchaseDrafts.EditIsFresh | internal/handlers/purchasing.go:294-365 | A draft or rejected order accepts exactly the requests that would raise a new one, and becomes the order that request would have raised; other orders accept none |
| PurchaseDrafts.EditKeepsRate | internal/handlers/purchasing.go:294-365 | An edit that omits the exchange rate is the edit that names the order's own |
| PurchaseHandlers.Desk.IssuePurchaseOrder | internal/handlers/purchasing.go:389-462 | The order and the approval engine end as specified, which PurchaseCalls.IssueInFull states in their fields: issued with the next number, held, or refused |
| PurchaseHandlers.Desk.CancelOrder | internal/handlers/purchasing.go:465-495 | Cancels exactly when nothing has been received |
| PurchaseHandlers.Desk.ReceiveGoods | internal/handlers/purchasing.go:536-690 | The checks line by line, then the transaction: everything recorded or nothing |
| PurchaseHandlers.Desk.ApportionAndPost | internal/handlers/purchasing.go:698-773 | The loop computes the specified posting, or leaves the ledger as it was |
| PurchaseHandlers.Progress | internal/handlers/purchasing.go:787-800 | The loop finds whether all lines are full and whether anything is in |
| PurchaseHandlers.Desk.AddLandedCostComponent | internal/handlers/purchasing.go:850-912 | The charge is booked and the receipt recosted, or neither |
| PurchaseHandlers.Desk.RecostReceipt | internal/handlers/purchasing.go:922-980 | The loop over lines and movements computes the specified recosting in place |
| PurchaseHandlers.Subtotal | internal/models/purchase_models.go:142-148 | The loop adds up the line totals |
| PurchaseHandlers.TotalComponentsZMW | internal/models/landed_cost_models.go:185-191 | The loop adds up the charges in kwacha |
| Stock.RecordKeepsSound | internal/services/stock.go:97-106 | The balance check is exactly what keeps a sound ledger sound |
| Stock.Store.RecordMovement | internal/services/stock.go:89-108 | Appends exactly if the product exists and its balance stays non-negative |
| Stock.ValidExactly | internal/services/stock.go:57-82 | Which movements are valid: a kind that exists, its sign, and a reason where one is asked for |
| Stock.Store.StockLevels | internal/services/stock.go:24-39 | The map holds the balance of every product that has movements, and of no other |
| Stock.Store.CreateCounterSale | internal/handlers/counter.go:234-345 | A sale goes through exactly when the request is in order and, per product, the quantities of all its lines together are on hand; otherwise nothing is written |
| Stock.SaleRequestInFull | internal/handlers/counter.go:234-305 | Which sale requests are in order: lines of positive quantity at no negative price, an open till, a method of payment that is known, and for cash enough tendered for the lines added up with 16 per cent VAT where it applies |
| Stock.SaleWrites | internal/handlers/counter.go:317-338 | Each catalogue line writes one movement of minus its quantity, in line order; the others write none |
| Stock.Store.PostLines | internal/handlers/counter.go:317-338 | One movement per catalogue line, all or none |
| Stock.OpenTillOf | internal/handlers/counter.go:44-56 | The caller's most recently opened till that is still open |
| Stock.TillInFull | internal/handlers/counter.go:44-56 | A named till is taken exactly if it is open; with none named, the caller's latest that is open |
| Stock.Store.CountStock | internal/handlers/handlers.go:1316-1342 | Served alone, a stock count makes the balance the count by one adjustment and touches no other product |
| Stock.CountLands | internal/handlers/handlers.go:1309-1342 | The balance ends at the count if and only if it has not moved between being read and the adjustment being recorded |
| Stock.Store.Backfill | internal/handlers/stock.go:147-179 | Products without movements take their legacy figure, others keep theirs; non-negative figures keep the ledger sound |
| StockTransactions.NeverOversold | internal/services/stock.go:89-108 | However locked transactions interleave, no committed balance is ever negative, at any point of the ledger |
| StockTransactions.SerialReplay | internal/services/stock.go:89-108 | Committed transactions replay one at a time, in commit order, with every balance check succeeding and the same ledger |
| StockTransactions.AllOrNothing | internal/handlers/counter.go:317-338 | A transaction commits at most once, and then exactly the movements it began with |
| StockTransactions.LocksExactly | internal/services/stock.go:89-108 | In every reachable state a product is locked by a transaction exactly if that is under way and has posted a movement of it or is about to, so nothing stays locked once all are over |
| StockTransactions.CarriedInFull | internal/handlers/stock.go:147-179 | A figure carried in beside them becomes the opening movement of its product and counts in full |
| StockTransactions.UnhinderedExactly | internal/services/stock.go:89-108 | A transaction whose products nobody holds locked commits exactly if they exist and each of its movements in turn leaves no negative balance; then the ledger grows by just these, and otherwise it is as it was |
| JobCosting.CostDeal | internal/services/jobcosting.go:75-123 | The loops compute goods at average cost, unknown units, expenses, lost VAT and the margin left; what the average is, AverageIsMoneyOverUnits says |
| JobCosting.CostGoods | internal/services/jobcosting.go:78-104 | The loop values every issued unit or counts it as of unknown cost |
| JobCosting.WeightedAverageCost | internal/services/jobcosting.go:48-72 | Gives an average to exactly the asked products that have inbound units of positive value, and to each the one of AverageIsMoneyOverUnits |
| JobCosting.AverageIsMoneyOverUnits | internal/services/jobcosting.go:48-72 | In the fields of the rows: the average is known exactly if the units and the quantity times unit cost of the product's opening, receipt and return rows both add up to more than nothing, and times the units it is that money |
| JobCosting.AverageBetween | internal/services/jobcosting.go:48-72 | It lies between the least and the greatest unit cost the product came in at; where that was one positive cost, it is known and is that |
| JobCosting.ValuedAtOneCost | internal/services/jobcosting.go:94-104 | A deal whose products average one cost carries that for every unit issued to it |
| JobCosting.LostIsUnclaimed | internal/services/jobcosting.go:108-116 | The VAT a deal carries is what was paid on its expenses less what can be claimed back |
| JobCosting.UnitsAccounted | internal/services/jobcosting.go:94-104 | Units valued and units of unknown cost together are the units issued to the deal |
| JobCosting.ValuedIsUnits | internal/services/jobcosting.go:94-104 | What a deal carries for a product is the units it was issued times the average |
| JobCosting.CostOfSalesConserved | internal/services/jobcosting.go:48-104 | Over all deals a product's cost of goods never exceeds its landed value (AverageIsMoneyOverUnits: quantity times unit cost over its inbound rows), and equals it once every unit that came in is issued |
| JobCosting.ValidatedArrivals | internal/services/stock.go:57-82 | Validated movements with no upward count raise a balance only by arrivals |
| SessionTheorems.OneLiveToken | internal/services/refresh.go:78-126 | Under any interleaving, live tokens and claimed-but-not-appended rotations of a family number at most one |
| SessionTheorems.FamilyIsChain | internal/services/refresh.go:52-69 | Every token but the first directly follows the spent token it replaced; no token has two successors or is exchanged twice |
| SessionTheorems.ReplayKillsFamily | internal/services/refresh.go:88-96 | Presenting a spent token ends its family and leaves every other family alone, if no rotation of it is under way |
| SessionTheorems.DeadForever | internal/services/refresh.go:130-143 | A revoked family with no rotation under way never rotates or gains a token again |
| SessionTheorems.RevocationCanMiss | internal/services/refresh.go:98-126 | A run in which revocation falls between claim and append and a live token remains |
| SessionRevocation.RevocationExactly | internal/services/refresh.go:128-134 | Once every token of a family is revoked, some continuation has a live token of it if and only if a rotation of it is past its claim and its account still there to append for |
| SessionRevocation.KillExactly | internal/services/refresh.go:88-134 | The same just before the statement by which a replay revokes the family |
| SessionRevocation.LogoutExactly | internal/handlers/session.go:95-103 | And just before signing out revokes it |
| SessionTheorems.RevokedForever | internal/services/refresh.go:78-126 | A revoked refresh token is refused in every later state |
| SessionTheorems.StaleForever | internal/middleware/auth.go:41-54 | An access token behind its account's version is refused in every later state |
| SessionTheorems.ResetEvicts | internal/services/password_reset.go:99-119 | Every refresh token in the table and every access token issued when a redeemed reset commits is refused in every later state; what is only on its way is ResetExactly's subject |
| SessionTheorems.LogoutEverywhereEvicts | internal/handlers/session.go:178-191 | The same at sign-out everywhere, for the refresh tokens that exist at its first statement and the access tokens that exist at its second |
| SessionTheorems.SwitchedOffRefused | internal/middleware/auth.go:41-54 | No access token of a switched-off account is accepted; of one switched on, exactly those at its version |
| SessionTheorems.DeletedRefused | internal/middleware/auth.go:41-47 | None of a deleted account |
| SessionTheorems.SignInExactly | internal/services/auth.go:32-47 | A sign-in with the right password on an active account hands out one access token, which is accepted; any other hands out nothing and starts no family |
| SessionTheorems.MovingOnRefuses | internal/handlers/session.go:178-191 | Signing out everywhere cuts off every access token of that person handed out so far, and nobody else's |
| SessionTheorems.MovedOnByOne | internal/services/password_reset.go:99-119 | It and a redeemed reset move the one person's version on by one, a reset sets his password too, and nothing else about any account changes |
| SessionRevocation.EvictionExactly | internal/services/refresh.go:128-143 | With all of a user's tokens revoked, some continuation in which he does not manage to sign in, whatever passwords are tried, has a live token of his if and only if a rotation of his is past its claim or a sign-in past its password check, with the account there to append for |
| SessionRevocation.ResetExactly | internal/services/password_reset.go:99-119 | A redeemed reset evicts its user for good if and only if no such handler is in flight at its commit; each of his families is dead for ever if and only if no rotation of it is in flight |
| SessionRevocation.SignOutExactly | internal/handlers/session.go:178-191 | Sign-out everywhere evicts on the same condition, at its revoking statement |
| SessionRevocation.ResetCanMiss | internal/services/password_reset.go:99-119 | With such a handler about to append at the commit, a live token of the user follows, and presenting it yields an access token that is accepted |
| SessionRevocation.LiveTokenWorks | internal/services/refresh.go:78-126 | Any live, unexpired token of an active account can be exchanged for an accepted access token |
| SessionTheorems.ResetOnce | internal/services/password_reset.go:76-124 | Under any interleaving a link is redeemed at most once and stays used |
| SessionResets.InsertExactly | internal/services/password_reset.go:41-63 | A user with one unused link at most comes to have two at an inserting statement and nowhere else, if and only if some link of his is unused as it runs |
| SessionResets.WindowExactly | internal/services/password_reset.go:41-63 | From a request's own superseding statement to its insertion, whatever runs in between: the new link stands beside another that works if and only if one was inserted in between and still does |
| SessionResets.DoublesExactly | internal/services/password_reset.go:41-63 | Without further superseding, a user can come to have two unused links if and only if two insertions of his are on their way, or one while a link of his is unused |
| SessionResets.OneLinkAlone | internal/services/password_reset.go:30-66 | In every run in which requests for a user's links do not overlap past superseding, he has one unused link at most, whatever else interleaves |
| SessionResets.TwoRequestsTwoLinks | internal/services/password_reset.go:30-66 | From any state, two overlapping requests of an active account end in two links that work |
| SessionResets.BothRedeemed | internal/services/password_reset.go:69-124 | And two links that work can both be redeemed, one after the other |
| SessionHandlers.ServeIsRun | internal/services/refresh.go:78-126 | Serving one session call alone is a run of the statement-level machine |
| SessionHandlers.RefreshServed | internal/services/refresh.go:78-126 | What a whole rotation does in each case: refuse, kill the family, or hand over a successor |
| SessionHandlers.SessionStore.Refresh | internal/handlers/session.go:66-90 | The method leaves the state the machine reaches |
| SessionHandlers.SessionStore.Login | internal/services/auth.go:32-47 | A correct password on an active account, and nothing else, yields a token at the current version and a family of its own |
| SessionHandlers.SessionStore.LogoutEverywhere | internal/handlers/session.go:178-191 | Revokes every refresh token of the user and moves the version on; refused, with nothing changed, when there is no such account |
| SessionHandlers.SessionStore.Logout | internal/handlers/session.go:95-103 | Ends the family of the presented token |
| SessionHandlers.SessionStore.ConsumePasswordReset | internal/services/password_reset.go:69-124 | Claims the link, sets the password and ends every session, or changes nothing |
| SessionHandlers.SessionStore.CreatePasswordReset | internal/services/password_reset.go:30-66 | For active accounts only: the two statements as one run of the machine, after which the new link is the only one of the user that can be used |
| RoleTheorems.GrantsNeverGrow | internal/handlers/handlers.go:3787-4053 | In every run, no role in the database, in a replica's cache or in any map a loader still holds has an action that no shipped role has |
| RoleTheorems.GrantedExactly | internal/authz/authz.go:162-192 | Those actions are exactly six, such as deleting approvals; super_admin holds all others |
| RoleTheorems.BuiltInsNeverChange | internal/handlers/handlers.go:3914-3922 | No edit, refresh or restart changes what a shipped role holds, in the database or on any replica; seeding is one step here and row by row in RoleSeeding |
| RoleTheorems.RefreshAgrees | internal/authz/authz.go:232-261 | From a seeded state a refresh always passes the sanity check, and then the replica answers exactly as the role table does |
| RoleTheorems.SeedingIsIdempotent | internal/seed/roles.go:35-74 | Seeding again changes no role |
| RoleTheorems.VetExactly | internal/handlers/handlers.go:3811-3863 | Requested permissions are accepted exactly when every entry is well formed, distinct and held by the caller, and then grant exactly what was asked |
| RoleCalls.CreateRoleInFull | internal/handlers/handlers.go:3787-3891 | A new role is custom, has the title sent and holds just the actions and scopes asked for; or nothing happens |
| RoleCalls.UpdateRoleInFull | internal/handlers/handlers.go:3899-4019 | An edit that sends permissions leaves the role holding just those, whatever it held; one that sends none leaves them alone; the title is the new one if one is sent; every other role is as it was, and a refusal changes nothing |
| RoleCalls.ShippedInFull | internal/authz/authz.go:162-192 | Action by action, what each shipped role holds and in which scope |
| RoleCalls.SeededInFull | internal/seed/roles.go:35-74 | Seeding gives the shipped roles their shipped grants, leaves custom rows and the titles of rows it finds, and adds the rows that are missing |
| RoleCalls.DeleteRoleInFull | internal/handlers/handlers.go:4021-4053 | Exactly a custom role that no account has is deleted, and nothing else changes |
| RoleCalls.CreateUserInFull | internal/handlers/handlers.go:983-1038 | Who may be given an account and with which role, and that one active account more is all that changes |
| RoleCalls.UpdateUserInFull | internal/handlers/handlers.go:1064-1117 | Which edits of an account are taken; it gets the role and status sent and keeps the rest, and no other account changes |
| RoleCalls.DeleteUserInFull | internal/handlers/handlers.go:1119-1170 | An account is removed exactly if it is not the caller's own and, where it is a super_admin's, the caller is one |
| RoleCalls.TurnedAway | internal/middleware/auth.go:23-115 | Whoever is unknown, switched off, a student, or without the permission by the grants his replica has is turned away with nothing changed; anybody else reaches the handler |
| RoleCalls.CacheFollows | internal/handlers/handlers.go:3787-4053 | A replica's grants change only after a role edit that went through, and then to the whole role table, provided super_admin can read users in it |
| RoleTheorems.NoAmplification | internal/handlers/handlers.go:3841-3853 | After any request, an action a role holds is one it held before or one the caller holds in the consulted grants |
| RoleTheorems.SuperAdminRemains | internal/handlers/handlers.go:1064-1170 | With whole handlers as steps, once there is an active super_admin, every later state has one |
| RoleTheorems.OnlySuperAdminsMovePrivilege | internal/handlers/handlers.go:974-1145 | Any other caller gives nobody a role its replica sees as privileged, and can at most reactivate a privileged account or delete one that is not super_admin |
| RoleTheorems.EveryAccountHasARole | internal/handlers/handlers.go:968-972 | With whole handlers as steps, every account's role is shipped or in the role table |
| RoleTheorems.DeleteUndoesCreate | internal/handlers/handlers.go:3787-4053 | In every reachable state, deleting a role just created succeeds and gives back the tables it was created in |
| RoleTheorems.DeletionIsClean | internal/handlers/handlers.go:4021-4053 | With whole handlers as steps, a role that could be deleted was nobody's; once a replica refreshes nobody can act through it, and every other role can do exactly what it could |
| RoleTheorems.EmailFreedByDeletion | internal/handlers/handlers.go:1119-1170 | An address is taken while its account exists, and free again, with all other accounts as they were, once a super_admin deletes it |
| RoleOverlap.PutIsWhole | internal/handlers/handlers.go:983-1170 | A write whose checks would still pass as it runs is the handler served whole |
| RoleOverlap.LastSeatExactly | internal/handlers/handlers.go:1064-1170 | A write that unseats a super_admin leaves none if and only if nobody else is one as it runs; its caller then has lost his seat since he was let in |
| RoleOverlap.MutualRemoval | internal/handlers/handlers.go:1123-1170 | Two super_admins who delete each other, both checked before either writes, leave none |
| RoleOverlap.GivenExactly | internal/handlers/handlers.go:983-1117 | An account written with a role leaves every account with one if and only if the role has not been deleted since it was checked |
| RoleOverlap.DroppedExactly | internal/handlers/handlers.go:4021-4053 | Deleting a role does if and only if no account has it as the row is deleted |
| RoleOverlap.OrphanedAccount | internal/handlers/handlers.go:983-1038 | A role given out and deleted at once: both checks pass and the account is left without one |
| RoleSeeding.NothingBeyondShipped | internal/seed/roles.go:35-74 | From an empty database, with boots writing row by row, interleaving and stopping half-way beside every request and refresh: nobody anywhere holds an action no shipped role holds |
| RoleSeeding.BuiltInsNeverExceed | internal/authz/authz.go:253-258 | From a seeded one, in every such run, a shipped role holds at most its shipped grants on every replica, and super_admin always holds the users resource in full |
| RoleSeeding.SuperAdminStays | internal/handlers/handlers.go:1064-1170 | So in every such run, too, an active super_admin once present remains |
| RoleSeeding.InterruptedExactly | internal/seed/roles.go:53-70 | Where a boot has written only some of a role's permissions, a refresh publishes exactly those, unless super_admin's own users permission is missing, when the replica keeps what it had |
| RoleSeeding.BootMends | internal/seed/roles.go:35-74 | A boot that runs undisturbed to its end, in any order of roles and permissions, comes to one atomic seeding whatever it found |
| RoleHandlers.VetPermissions | internal/handlers/handlers.go:3811-3863 | The one-pass loop with its seen set accepts and grants as specified |
| RoleHandlers.RoleHasPrivilegedAccess | internal/handlers/handlers.go:974-981 | True exactly if the role may create, update or delete users or roles |
| RoleHandlers.Server.LoadFromDB | internal/authz/authz.go:232-261 | The loop builds the grants of the role table and publishes them exactly if super_admin can read users |
| RoleHandlers.Server.SeedGrants | internal/seed/roles.go:35-74 | Whatever order the roles are visited in, the result is the specified seeding |
| RoleHandlers.Server.CreateRole | internal/handlers/handlers.go:3787-3891 | Table, cache and reply end as specified; a role created holds an action exactly if it was asked for |
| RoleHandlers.Server.UpdateRole | internal/handlers/handlers.go:3899-4019 | Table, cache and reply end as specified; with permissions sent, the role holds an action exactly if it was asked for, and with none what it held; the title is the one sent, if any, and no other role changes |
| RoleHandlers.Server.UpdateUser | internal/handlers/handlers.go:1064-1117 | Checking and applying the status and then the role comes to one edit in which both are judged by the account as it was found, and a refusal at either changes nothing |
| RoleHandlers.Server.Handle | internal/middleware/auth.go:23-115 | The authentication and permission chain followed by the handler is one step of the machine |

## Left out

- HTTP, JSON, routing beyond the role and user routes, rate limiting, cookies, mail, notifications, audit rows and every displayed text: none of them decides what is allowed or what things cost.
- IEEE floating point: amounts are exact, so a sum that rounds differently in binary is not seen.
- LateCharges.LateEqualsUpFront: takes a receipt's lines in one fixed order, where the code reloads them without asking for an order, so a tie between equal remainders could fall differently.
- ApprovalTheorems.RejectionBars: requires that no gate call of the triple is past its look-up, because such a call gets round the rejection; ApprovalRejection.RejectionExactly is the statement without that condition, both ways.
- SessionTheorems.ReplayKillsFamily: requires that no rotation of the family is between claim and append, because with one the revocation can miss the token it appends; SessionRevocation.KillExactly is the statement without that condition, both ways.
- PurchaseTheorems.ReceivedWithinOrdered: is about runs whose deliveries name each line once, because the check in the code compares arrivals singly.
- PurchaseTheorems.NumbersUnbroken: takes each purchasing handler as one step, because the code counts numbers outside a lock; PurchaseOverlap.CountingExactly is the statement for issues that overlap.
- PurchaseTheorems.StatusIsExact: and StepFrozen, RunFrozen, WithinExactly, HeldOrdersExplained and CostsConserved take each purchasing handler as one step, because the code does not look at an order again when it writes; PurchaseOverlap has the writes apart.
- PurchaseOverlap.UndisturbedIsSerial: keeps issuing whole, because its gate moves on with the approval engine; the write of an issue is in AuthorityExactly, NumberExactly and CountingExactly.
- PurchaseOverlap.EditExactly: does not model the receipt lines left pointing at replaced order lines when the condition fails.
- PurchaseTheorems.IssuedIsAuthorised: takes the gate and the issuing statement as one step, which PurchaseOverlap.AuthorityExactly takes apart, and does not model a server failure between the gate and the update that issues the order, which would leave a spent request and an unissued order.
- RoleTheorems.BuiltInsNeverChange: takes seeding as one step, because the code rewrites permissions row by row and RoleSeeding.InterruptedExactly shows that a refresh in between publishes a part of them.
- RoleSeeding.InterruptedExactly: is about one boot that stops; which of two interleaved boots is refused by the unique index first, and so what both leave behind, is bounded by RoleSeeding.BuiltInsNeverExceed and mended by RoleSeeding.BootMends.
- RoleTheorems.SuperAdminRemains: takes each handler as one step, because two super_admins can remove each other at the same moment; RoleOverlap.LastSeatExactly has the write apart from its checks.
- RoleTheorems.EveryAccountHasARole: takes each handler as one step, because a role can be deleted between an account's check and its insertion; RoleOverlap.GivenExactly says when that matters.
- RoleTheorems.DeletionIsClean: takes each handler as one step, because an account can get the role between the count and the deletion; RoleOverlap.DroppedExactly says when that matters.
- RoleOverlap.LastSeatExactly: and the rest of RoleOverlap are about one write at a time, each on an arbitrary state, and not about runs of overlapping handlers.
- RoleTheorems.RefreshAgrees: reads roles and their permissions in one step, where the code uses two queries.
- ApprovalSafety.ApplyKeepsInv: over-approximates administration: any rule table and any user table may replace the current one at any moment.
- ApprovalHandlers.Handler.CreateRule: the set of roles able to decide is a parameter, because whether a role may approve is the role table's business.
- Stock.Store.CountStock: reads the balance and records the adjustment in one step, because it is the method for a call served alone; Stock.CountLands says when the two may be apart.
- SessionHandlers.SessionStore.ConsumePasswordReset: password length is not modelled.
- RoleHandlers.Server.DeleteUser: the profile, enrolment and invitation rows cleared with an account are not modelled.
- Stock.Store.CreateCounterSale: opening, closing and reconciling tills is not modelled, only finding the open one.
- The `cancelled` approval status exists in the source and is set by nothing; it has no constructor here.
- Receipts, payments, expenses, quotes, events, the student hub, contract signing and PDF stamping: thin records or foreign libraries.
- JWT signing, bcrypt and SHA-256: tokens are records and hashes are injective ids.
- Access-token expiry by the clock: only refresh tokens and reset links expire, since expiry only ever refuses more.
- Trimming and case folding of names, currencies and addresses: requests are taken as already trimmed, except that blank ones are refused where the code refuses them.
