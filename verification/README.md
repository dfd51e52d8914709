# A model of the payment protocol

Nodes sell carriage to one another. A provider holds, for each payer, the channels it pays on and one budget
of units with a deadline and a reserved rate; a payer buys by signing higher totals on its channels, and keeps
its own count of the budget it bought. A node is both at once, toward every peer it has. This project models
that core, the two wire formats it speaks, and the bucket that rations mint quotes, and proves what they are for.

The layout follows the program:

- `numbers.dfy`, `wire.dfy`: 64-bit saturating arithmetic, identifiers and messages.
- `limits.dfy`, `grant.dfy`, `grant_state.dfy`: rate arithmetic, the open second, the provider's record of a
  payer as a value, and `GrantState`, the mutable record that refines it. `limits_properties.dfy`,
  `grant_channels.dfy`, `grant_properties.dfy`: the one rule, reading granularity, admission, conservation.
- `buyer.dfy`, `buyer_state.dfy`: the payer, as a value and as the mutable `BuyerState`. `polls.dfy`: what it buys, when and
  at what rate. `lockstep.dfy`: payer and provider agree, as two records. `conversations.dfy`, `session_exchanges.dfy`,
  `session_lockstep.dfy`, `session_meetings.dfy`, `session_readings.dfy`: and as two sessions that hear what the other says. `purchases.dfy`: every purchase is honored, and refusals are recovered from.
- `session.dfy`, `node.dfy`: one session, and every session at once, as functions from state to state and
  actions. `sessions.dfy`: `Sessions`, the mutable core that refines them, with one loop wherever the program
  has one. `session_frames.dfy`, `session_purchases.dfy`, `node_frames.dfy`: what each turn keeps.
- `session_answers.dfy`, `session_streams.dfy`: what is answered to a TopUp that does not verify, and what a stream of
  them grants over a link that loses, repeats and reorders. `node_ticks.dfy`, `node_links.dfy`: what a tick and winding
  down leave behind, how two nodes meet and how long a live link may be quiet. `session_views.dfy`, `node_views.dfy`: what the
  host and the peer have been told.
- `node_earnings.dfy`, `node_settlements.dfy`, `node_closings.dfy`, `node_capacity.dfy`, `node_checks.dfy`, `node_budgets.dfy` with `budget_records.dfy`,
  `node_funding.dfy` with `session_requests.dfy`: safety over whole runs of the node. `node_runs.dfy`: the runs that
  reach what breaks three of those promises.
- `cbor.dfy`, `fields.dfy`, `mapcodec.dfy`, `codec.dfy`, `enforcer.dfy`, `defaults.dfy`, `coder.dfy`, `frame.dfy`: the CBOR subset
  (RFC 8949, sections 3 and 4.2.1), typed fields, messages as maps, the two protocols, the encoder and decoder as
  they run, and framing.
- `bucket.dfy`: the token bucket.

The thirteen decoders of the wire and the six of the enforcer protocol are the same loop over different fields, so
here they are one loop over a table of field shapes, and one function a message type to put the fields together.

Each mutable object (`GrantState`, `BuyerState`, `Sessions`, `Decoder`, `Encoder`, `FrameReader`, `Bucket`, `Limits`)
has methods whose contracts equate its new state and results with functions on a value; the laws are then
proved of those functions, over every input and every run.

Thirteen promises hold only on a condition, and each is proved with that condition exactly, and with a case that
fails it:

- A stream of TopUps on one channel that a link repeats or reorders comes to what full delivery does only on a
  condition, where the comment on the message says a reordered one is discarded: a total no higher than one read is
  counted a failure, the third in a row settles the channel, and one inside the gap is not read
  (`SessionStreams.StreamGrantsIff`, `SessionStreams.ThreeStaleHappen`). Loss alone does no harm.
- Payer and provider part if a purchase past a deadline that no reading has seen names the rate reserved
  before it: the payer keeps a stale open second (`Lockstep.PayerDecidesIff`, `Lockstep.StaleSecondParts`).
- They part if the link comes back on a drained count and the next purchase ends before the deadline the payer
  remembers and the provider has dropped (`Lockstep.PayerDecidesIff`, `Lockstep.ForgottenDeadlineParts`).
- They part if a purchase at another rate is refused part way through a second, or after more was drawn at its rate:
  undoing it puts neither back (`Lockstep.RefusalKeepsStepIff`, `Lockstep.RefusedRiseParts`).
- They part at a reading the provider does not carry the payer at, which the payer counts all the same
  (`Lockstep.UncarriedKeepsStepIff`, `Lockstep.UncarriedParts`).
- What a purchase grants is the rise of its channels only if that fits 64 bits (`GrantProperties.HappeningConserves`,
  `GrantProperties.SaturatedGrantFallsShort`).
- Core has let go of a channel by the time it asks for it to be settled, as the comment on settling says
  (`crates/tollgate-net/src/settle.rs:3`), unless it answers the peer's ChannelClose or CloseAck; then the channel stays in
  use, and more may be sold on it (`NodeClosings.SettledIsGoneIff`, `NodeRuns.SoldAfterSettled`).
- The order of a message's keys does not matter unless one that is read comes twice with different values
  (`MapCodec.OrderMattersIff`).
- A refused purchase is not undone if it filled its channel to the unit while a replacement waited, since the
  channel it would be matched by has already been retired (`Purchases.RefusalIsUndoneIff`, `Purchases.ExactFillHappens`).
- A payer's next channel is another than the one in use unless the peer confirms it under that one's id, which is
  the peer's to choose (`Purchases.ConfirmedKeepsInvIff`, `Purchases.NamingTheActiveSpoilsThePurchase`).
- An ending session brought back by a late verification or an opening Offer counts its reservation again, and
  fits exactly when that still fits (`NodeCapacity.ReservationsFitForever`, `NodeRuns.LateVerificationReached`).
- A peer was last sent the terms it is charged by unless an override was made for its session while that was ending and
  something brought it back (`NodeViews.OverrideIsLostIff`, `NodeViews.OverrideIsLost`).
- A peer that reconnects over a session that is ending is handed the record looked up before that session was
  saved, so its budget is covered exactly when nothing was drawn since (`NodeBudgets.ConnectCoversIff`,
  `NodeRuns.ReconnectionUncovers`).

And a wire frame longer than its prefix can say is not refused but cut (`Frames.FrameRoundTripsIff`), where the
comment beside it says no message comes close to the cap: an Accept or a RolloverInit carries any funding blob.

The host's part is a precondition where a law needs it: it asks `too_soon` before it checks signatures, hands back
the budget it was last asked to save, keeps the capacity of a channel a function of its id, and verifies no channel it
has settled a second time.

## Model

| member | source | states |
|---|---|---|
| `Limits.HighestBitBrackets` | crates/tollgate-core/src/grant/limits.rs:47-53 | the power of two the ceiling is rounded to is the highest bit of the rate |
| `LimitsProperties.OneRuleOverAStretch` | crates/tollgate-core/src/grant/limits.rs:80-119 | over any stretch at one reserved rate, in any reading pattern, units owed lie between max(moved, rate × time) and moved + rate × time, the floor exact to the unit |
| `LimitsProperties.OneRuleUntilPaused` | crates/tollgate-core/src/grant/limits.rs:115-118 | the same for a stretch closed at its last reading |
| `LimitsProperties.StretchFrom` | crates/tollgate-core/src/grant/limits.rs:99-111 | the same from any open second, part way through |
| `LimitsProperties.QuietReadingMerges` | crates/tollgate-core/src/grant/limits.rs:99-111 | a reading that completes no second, merged into the next, changes neither the units owed nor the open second |
| `LimitsProperties.FullReadingsMerge` | crates/tollgate-core/src/grant/limits.rs:99-111 | two readings that each complete a second, merged, owe no more and end in the same second |
| `LimitsProperties.MergeOnce` | crates/tollgate-core/src/grant/limits.rs:99-111 | either merge, anywhere in a sequence of readings |
| `LimitsProperties.CoarserReadingsOweNoMore` | crates/tollgate-core/src/grant/limits.rs:99-111 | any sequence of such merges never raises the total and ends in the same second |
| `LimitsProperties.CeilingIsLargestPower` | crates/tollgate-core/src/grant/limits.rs:47-53 | the per-tick ceiling is zero exactly when the exact rate is, and otherwise the largest power of two at most it |
| `LimitsProperties.CeilingMonotone` | crates/tollgate-core/src/grant/limits.rs:47-53 | the ceiling is monotone in the budget |
| `LimitsProperties.CeilingNeverOverruns` | crates/tollgate-core/src/grant/limits.rs:47-53 | at the ceiling one tick moves no more than the units left |
| `LimitsProperties.UnitsInMonotone` | crates/tollgate-core/src/grant/limits.rs:28-31 | a higher rate draws no fewer units over the same time |
| `LimitsProperties.RateFromMonotone` | crates/tollgate-core/src/grant/limits.rs:17-23 | more units over the same time come to no lower a rate |
| `GrantStates.GrantState.constructor` | crates/tollgate-core/src/grant/state.rs:148-158 | a new record holds nothing |
| `GrantStates.GrantState.OpenChannel` | crates/tollgate-core/src/grant/state.rs:219-227 | a channel opened is added at the end, or its capacity and expiry are rewritten in place |
| `GrantStates.GrantState.CloseChannel` | crates/tollgate-core/src/grant/state.rs:234-237 | a channel closed is taken out and handed back |
| `GrantStates.GrantState.RecordFailure` | crates/tollgate-core/src/grant/state.rs:244-248 | a failure is counted against one channel, and the new count returned |
| `GrantStates.GrantState.Apply` | crates/tollgate-core/src/grant/state.rs:340-369 | a purchase turns its ratchets, expires what is due, splits the second at a changed rate and adds the grant, as the function on values does |
| `GrantStates.GrantState.Draw` | crates/tollgate-core/src/grant/state.rs:389-401 | a reading takes what the open second says is owed, or all that moved if none is open |
| `GrantStates.GrantState.Pause` | crates/tollgate-core/src/grant/state.rs:408-414 | a pause closes the open second at its last reading |
| `GrantStates.GrantState.Take` | crates/tollgate-core/src/grant/state.rs:418-425 | what is owed is taken, never past zero, and emptying the budget ends the reservation |
| `GrantStates.GrantState.ExpireIfDue` | crates/tollgate-core/src/grant/state.rs:432-442 | past its deadline the budget is consumed whole and the reservation ends |
| `GrantStates.GrantState.Restore` | crates/tollgate-core/src/grant/state.rs:189-196 | a saved budget is put back as far as it is still live |
| `GrantStates.GrantState.Restart` | crates/tollgate-core/src/grant/state.rs:173-185 | a new session keeps the channels, failures cleared, and the live budget |
| `GrantStates.GrantState.EndReservation` | crates/tollgate-core/src/grant/state.rs:210-213 | a session that ends closes its second and reserves nothing |
| `GrantStates.GrantState.TopupChecked` | crates/tollgate-core/src/grant/state.rs:321-323 | the time of the last TopUp checked is moved, and nothing else |
| `GrantStates.EvaluateTopup` | crates/tollgate-core/src/grant/core.rs:89-145 | the loop over updates decides as the recursive specification does, refusal by refusal |
| `GrantProperties.HonoredExactlyWhen` | crates/tollgate-core/src/grant/core.rs:89-145 | a purchase is honored exactly when it has updates, each ratchets its own channel within its capacity, its terms are the policy’s, and its rate is no higher or fits; and then all of it, for the combined increase |
| `GrantProperties.RefusedWhy` | crates/tollgate-core/src/grant/core.rs:89-145 | a purchase is refused for the first update at fault, unknown, not rising, past capacity or named twice; if none is, for terms out of range; and then only for a rate there is no room for; naming what is free |
| `GrantProperties.HappeningConserves` | crates/tollgate-core/src/grant/state.rs:173-442 | whatever happens to a payer, what is granted grows by no more than what is signed does, and by exactly that unless an honored purchase raises its channels by more than 64 bits together |
| `GrantProperties.GrantsAreTheRiseOfSigned` | crates/tollgate-core/src/grant/core.rs:106-144 | over any run the grants accepted sum to at most the total rise of signed over all channels, open and settled, and to exactly that if and only if the rise of each fits 64 bits |
| `GrantProperties.SaturatedGrantFallsShort` | crates/tollgate-core/src/grant/core.rs:106-144 | a concrete purchase of the most two channels can hold, granted half of what it signs |
| `GrantProperties.NeverSignedPastCapacity` | crates/tollgate-core/src/grant/core.rs:106-144 | over any run, whatever its purchases name, no channel is signed past its capacity, capacity being a function of the channel id |
| `GrantProperties.HappeningKeepsDistinct` | crates/tollgate-core/src/grant/state.rs:173-442 | whatever happens, no two channels of a payer have one id |
| `GrantProperties.RedeliveryGrantsNothing` | crates/tollgate-core/src/grant/core.rs:106-144 | an accepted TopUp delivered again, after anything at all, is refused and grants nothing; what the refusal costs is `SessionStreams.RefusedGrantsNothing` |
| `GrantProperties.DrawsAreOwed` | crates/tollgate-core/src/grant/state.rs:389-425 | while the budget lasts, readings draw exactly what the open second owes |
| `GrantProperties.CarriedIsOwed` | crates/tollgate-core/src/grant/state.rs:340-425 | and purchases at the same rate in between, before the deadline, take nothing and leave the open second as it is |
| `GrantProperties.PurchaseOpensASecond` | crates/tollgate-core/src/grant/state.rs:340-369 | any purchase closes what came before at the old rate, or consumes it whole past the deadline, and is drawn from its own moment, unless a second open at its rate goes on |
| `GrantProperties.ReadKeepsValid` | crates/tollgate-core/src/grant/limits.rs:99-111 | the open second never starts after its last reading |
| `GrantProperties.ReservationDrawsTheOneRule` | crates/tollgate-core/src/grant/state.rs:340-442 | any reservation, a first one or one past a deadline among them, with whatever is bought at the same rate while it lasts: until it is paused the budget loses between max(moved, rate × time) and their sum, over the time since it was bought or since the second kept began |
| `GrantProperties.ShapingNearEmpty` | crates/tollgate-core/src/grant/state.rs:461-478 | the shaping rate moves at most max(remaining, allowance) per tick, is never below the allowance, and for a live payer is the fastest it may be carried at: its reserved rate or the burst rate, the cap on those that reserved nothing or none, and never past the per-tick ceiling |
| `GrantChannels.PutReads` | crates/tollgate-core/src/grant/state.rs:219-248 | replacing one channel leaves every other as it reads |
| `GrantChannels.RemoveReads` | crates/tollgate-core/src/grant/state.rs:234-237 | closing one channel leaves every other as it reads |
| `GrantChannels.OpenedReads` | crates/tollgate-core/src/grant/state.rs:219-227 | a channel opened has its capacity and expiry, what was signed and counted on one already held, and leaves every other as it reads |
| `GrantChannels.TurnTotal` | crates/tollgate-core/src/grant/state.rs:340-345 | turning ratchets raises the total signed by exactly their rise |
| `BuyerStates.BuyerState.constructor` | crates/tollgate-core/src/buyer/state.rs:379-396 | a new buyer holds nothing |
| `BuyerStates.BuyerState.StartOver` | crates/tollgate-core/src/buyer/state.rs:458-463 | starting over keeps only the rate to resume |
| `BuyerStates.BuyerState.Restart` | crates/tollgate-core/src/buyer/state.rs:487-510 | a new session closes the open second, keeps channels, requests and count, and remembers the rate |
| `BuyerStates.BuyerState.Draw` | crates/tollgate-core/src/buyer/state.rs:518-529 | a reading draws the payer’s own count by the provider’s rule, and a passed deadline empties it |
| `BuyerStates.BuyerState.Take` | crates/tollgate-core/src/buyer/state.rs:533-538 | a count emptied reserves nothing |
| `BuyerStates.BuyerState.NoteBalance` | crates/tollgate-core/src/buyer/state.rs:548-556 | a balance is believed only before anything is bought, and only by an empty count |
| `BuyerStates.BuyerState.FundingRequested` | crates/tollgate-core/src/buyer/state.rs:577-584 | a request extends the open range to its id |
| `BuyerStates.BuyerState.FundingFailed` | crates/tollgate-core/src/buyer/state.rs:591-597 | a failure stops waiting on the latest request alone |
| `BuyerStates.BuyerState.FundedWith` | crates/tollgate-core/src/buyer/state.rs:624-627 | a channel taken waits for confirmation, and closes every open request |
| `BuyerStates.BuyerState.Confirmed` | crates/tollgate-core/src/buyer/state.rs:633-650 | a confirmed channel is used at once if the one in use is exhausted, and otherwise waits behind it |
| `BuyerStates.BuyerState.RetireExpiring` | crates/tollgate-core/src/buyer/state.rs:735-756 | a channel inside the margin gives way to the one behind it, or is given up at its settle point |
| `BuyerStates.BuyerState.RetireExhausted` | crates/tollgate-core/src/buyer/state.rs:812-824 | a channel filled gives way, and is named to be settled |
| `BuyerStates.BuyerState.SplitSecond` | crates/tollgate-core/src/buyer/state.rs:789-796 | a changed rate closes the second being drawn |
| `BuyerStates.BuyerState.Record` | crates/tollgate-core/src/buyer/state.rs:767-809 | a purchase is signed, counted and remembered for one undo, as the function on values does |
| `BuyerStates.BuyerState.RecordReject` | crates/tollgate-core/src/buyer/state.rs:841-874 | a refusal that names a total held is undone; one for capacity sets the cap |
| `Lockstep.PurchaseKeepsStepIff` | crates/tollgate-core/src/buyer/state.rs:767-809 | a purchase keeps payer and provider agreed exactly when their deadlines come to the same and the payer’s open second is one the provider has |
| `Lockstep.PurchaseAgreesIff` | crates/tollgate-core/src/buyer/state.rs:767-809 | of a purchase worth more than a second for more than a second: what the two count is the same at every later instant, whatever is read, exactly when those two conditions hold |
| `Lockstep.UnsteadyParts` | crates/tollgate-core/src/buyer/state.rs:791-797 | if they do not, two readings at most, within a second, part what the two count |
| `Lockstep.PayerDecidesIff` | crates/tollgate-core/src/buyer/state.rs:767-809 | all the payer need see: a purchase keeps it in step with every provider it may be facing exactly when it has units left or the purchase reaches its deadline, and its open second is not stale |
| `Lockstep.RefusalKeepsStepIff` | crates/tollgate-core/src/buyer/state.rs:855-874 | a purchase refused after any readings leaves the two agreed exactly when there was nothing left to draw, or the deadline passed first, or the payer drew as much at the new rate as it would have at the old and is left the same second or nothing reserved |
| `Lockstep.UncarriedKeepsStepIff` | crates/tollgate-core/src/session/core.rs:1146-1160 | a reading at which the provider does not carry the payer leaves them agreed exactly when nothing is left, nothing is reserved and nothing moved, or all that is left is owed either way |
| `Lockstep.BalanceKeepsStep` | crates/tollgate-core/src/buyer/state.rs:548-556 | a true Balance changes nothing for a payer in step |
| `Lockstep.BalanceRestoresStepIff` | crates/tollgate-core/src/buyer/state.rs:548-556 | and puts a payer that came back with no count in step exactly when it has no later deadline of its own |
| `Lockstep.ReadingKeepsStep` | crates/tollgate-core/src/buyer/state.rs:518-538 | the same weighted reading at the same instant keeps the two counts agreed |
| `Lockstep.ReconnectingKeepsStep` | crates/tollgate-core/src/buyer/state.rs:487-510 | a reconnection keeps the two counts agreed |
| `Lockstep.CountsAgreeForever` | crates/tollgate-core/src/grant/state.rs:340-442 | over any run of purchases, refusals after any readings, readings carried and not, balances, ticks and reconnections that meets those conditions, live remaining budget, deadline and reserved rate agree at every instant |
| `Lockstep.LinkInLockstep` | crates/tollgate-core/src/buyer/state.rs:767-809 | from the first purchase over a link, through any reconnections, the counts agree at every instant if the payer meets conditions on its own state alone |
| `Lockstep.ScheduleInLockstep` | crates/tollgate-core/src/buyer/state.rs:518-529 | and if, whatever the state, each purchase past a deadline comes after a reading at or past it, and the first after a reconnection reaches the deadline |
| `Lockstep.SessionInLockstep` | crates/tollgate-core/src/buyer/state.rs:767-809 | from an empty session on, if each purchase comes before the deadline or with no second open, the counts agree at every instant |
| `Conversations.PollSays` | crates/tollgate-core/src/session/core.rs:1239-1303 | a poll asks the host for exactly one TopUp when a purchase is decided on, with its totals in order, its window and its rate, records that one and settles the channel it filled with its own expiry; and asks for none when none is |
| `Conversations.PollSaysOnce` | crates/tollgate-core/src/session/core.rs:1279-1289 | so among all a turn asks for, a poll adds one TopUp or none, and no message |
| `Conversations.RetiresInTime` | crates/tollgate-core/src/buyer/state.rs:735-756 | inside the margin a channel gives way to the next, and within half of it nothing is signed on it |
| `Conversations.HearingEndsInAPoll` | crates/tollgate-core/src/session/core.rs:700-749 | a confirmation or a refusal is taken in and then a purchase looked for |
| `Conversations.EveryTopUpIsAnswered` | crates/tollgate-core/src/session/core.rs:1017-1207 | every TopUp is answered once and first: too soon, unverified, or refused, naming what it named and the rate still free, or with the budget it leaves |
| `Conversations.UnverifiedIsAnswered` | crates/tollgate-core/src/session/core.rs:1174-1207 | one whose signature does not verify is answered as one that does not ratchet |
| `Conversations.OutgoingFundedSays` | crates/tollgate-core/src/session/core.rs:937-946 | a payer with a channel in use announces its replacement by RolloverInit, and one with none its first by Accept |
| `Conversations.IncomingVerifiedSays` | crates/tollgate-core/src/session/core.rs:985-1011 | a provider confirms a channel that replaces one it holds by RolloverReady, naming both, and any other by ChannelReady |
| `Conversations.GreetSays` | crates/tollgate-core/src/session/core.rs:600-646 | a connection is told who we are, each channel still held, our terms, and what is left of a budget, in that order |
| `Conversations.AnnounceIsAnswered` | crates/tollgate-core/src/session/core.rs:791-813 | another version is rejected, another unit disconnected, and any other Announce taken in silence |
| `Conversations.OpeningOfferIsAnswered` | crates/tollgate-core/src/session/core.rs:849-922 | a weight above what we buy at is rejected and nothing bought; a channel both hold is carried on with; else a channel is asked for if anything is bought and there is a mint, and an empty Accept sent if not |
| `Conversations.RevisionKeepsWeight` | crates/tollgate-core/src/session/core.rs:815-847 | a revised Offer replaces every term but the weight |
| `Conversations.CloseIsAnswered` | crates/tollgate-core/src/session/core.rs:755-776 | a ChannelClose is acknowledged for the balance it names, and it or a CloseAck settles the channel with its own expiry |
| `Conversations.FundingRefusedIsAnswered` | crates/tollgate-core/src/session/core.rs:290-332 | funding found wanting, or in a mint not taken, ends the session for that reason, told and dropped |
| `Conversations.BuyingLeavesGrant` | crates/tollgate-core/src/session/core.rs:687-789 | what a provider hears that is no TopUp and no Accept leaves what it sells as it was |
| `Conversations.SellingLeavesBuyer` | crates/tollgate-core/src/session/core.rs:687-789 | what a payer hears of what it sells leaves what it buys as it was |
| `SessionExchanges.SentIsDecided` | crates/tollgate-core/src/session/core.rs:1279-1289 | the TopUp a host signs from what a payer’s poll asked for is the purchase decided on |
| `SessionExchanges.SentIsJudged` | crates/tollgate-core/src/session/core.rs:1017-1120 | whatever a payer in order and mirrored sends comes not too soon, and is honored for the grant counted on if there is room for its rate and refused for that alone if not |
| `SessionExchanges.BothTrade` | crates/tollgate-core/src/session/core.rs:1239-1303 | a purchase polled, signed, sent, heard and so honored is one step of the link between the payer’s session and the provider’s, and leaves the channels in order and mirrored |
| `SessionExchanges.RefusedRecords` | crates/tollgate-core/src/session/core.rs:1092-1120 | one there is no room for changes the time of the last check, and what is said to it first is the refusal naming what it named |
| `SessionExchanges.BothRefuse` | crates/tollgate-core/src/session/core.rs:713-726 | that refusal, heard after any readings, is one step of the link and puts the payer’s channels back, if the purchase did not fill its channel to the unit |
| `SessionExchanges.BothRead` | crates/tollgate-core/src/session/core.rs:1129-1161 | both ends reading the same counters draw the same units, each from its own record; one not carried is paused |
| `SessionExchanges.ProviderTicks` | crates/tollgate-core/src/session/core.rs:1435-1454 | a provider’s tick is one step of the link, and leaves mirrored what is not about to expire |
| `SessionExchanges.BothOpen` | crates/tollgate-core/src/session/core.rs:924-1011 | a channel funded, announced, heard, verified, confirmed and heard again, the first or a replacement: just that funding is asked to be verified, the channel in use goes on, and the counts and the mirror are kept |
| `SessionExchanges.BothComeBack` | crates/tollgate-core/src/session/core.rs:574-646 | a connection lost and made again, each end carrying on with what it kept and hearing what the other says, is one step of the link, and ends in the poll of the opening Offer |
| `SessionExchanges.OtherDirection` | crates/tollgate-core/src/session/core.rs:687-789 | what either end hears of the other direction of the link is no step of this one |
| `SessionLockstep.ExchangeKeepsJoined` | crates/tollgate-core/src/session/core.rs:687-1303 | whatever of all this passes between two sessions, they stay in step, on the same terms, mirrored and bounded by what was bought |
| `SessionLockstep.SessionsInLockstep` | crates/tollgate-core/src/session/core.rs:687-1303 | so over any run of two sessions, purchases honored and refused, readings carried and not, ticks, balances, channels opened, reconnections and the other direction, the payer’s count and the provider’s agree at every instant |
| `SessionLockstep.NewSessionsInLockstep` | crates/tollgate-core/src/session/core.rs:687-1303 | the same from two sessions that hold nothing but each other’s terms |
| `SessionLockstep.EveryPurchaseIsAnswered` | crates/tollgate-core/src/session/core.rs:1017-1120 | and after any such run whatever the payer sends is honored for its grant and answered with the budget left, or refused for want of room in what it named |
| `SessionLockstep.BalancesAreTrue` | crates/tollgate-core/src/session/core.rs:1083-1091 | a Balance says what is live, until when, and at what rate |
| `SessionMeetings.StrangersMeet` | crates/tollgate-core/src/session/core.rs:531-922 | two nodes that have never met are so joined by greeting: the payer holds the provider to its own terms, and has asked its host for a channel in a mint the provider takes |
| `SessionMeetings.StrangersInLockstep` | crates/tollgate-core/src/session/core.rs:531-1303 | and in lockstep from there on, over any run |
| `SessionMeetings.EventsAreExchanges` | crates/tollgate-core/src/session/core.rs:241-335 | what the host reports to a node is what is exchanged here |
| `SessionReadings.OneMoreUnit` | crates/tollgate-core/src/meter.rs:60-72 | nothing moved weighs nothing, one more unit to the payer one, and one more from it the weight, up to 64 bits |
| `SessionReadings.UnitsAreWeighed` | crates/tollgate-core/src/meter.rs:36-46 | a reading weighs what each counter rose by, and nothing for one that started again |
| `SessionReadings.DrawnForWhatRose` | crates/tollgate-core/src/session/core.rs:1129-1161 | while its budget lasts, a payer that reserved nothing is drawn over any readings for exactly what the counters rose by, weighted |
| `SessionReadings.WholeRise` | crates/tollgate-core/src/meter.rs:13-16 | which, if none starts again, is the rise from the first reading to the last, however often it is read |
| `SessionReadings.UploadIsMeasured` | crates/tollgate-core/src/session/core.rs:1129-1161 | the rate a payer sends at is the units it sent over the time since the last reading |
| `SessionReadings.OneMoreWanted` | crates/tollgate-core/src/session/core.rs:1255-1266 | what it wants of a link is what it pulls, and each unit it sends at the weight |
| `Lockstep.StaleSecondParts` | crates/tollgate-core/src/buyer/state.rs:791-797 | a concrete purchase past an unread deadline at the same rate puts the two counts 5000 units apart |
| `Lockstep.LapsedUnreadHappens` | crates/tollgate-core/src/buyer/state.rs:767-809 | which one purchase from a new link comes to |
| `Lockstep.ForgottenDeadlineParts` | crates/tollgate-core/src/grant/state.rs:189-196 | a concrete run with a reconnection on a drained count after which the two count one purchase to 100 s and to 15 s |
| `Lockstep.UncarriedParts` | crates/tollgate-core/src/session/core.rs:1146-1160 | a concrete reading not carried that leaves the two ten units apart |
| `Lockstep.RefusedRiseParts` | crates/tollgate-core/src/buyer/state.rs:789-796 | a concrete refusal of a higher rate half way through a second that leaves the two 500 units apart |
| `Purchases.PollFitsTerms` | crates/tollgate-core/src/buyer/core.rs:46-171 | a purchase decided on fits the Offer’s window and smallest rate, and any ceiling the provider named |
| `Purchases.PollSigns` | crates/tollgate-core/src/buyer/core.rs:46-171 | a purchase signs above what is signed and within capacity, fills the first channel before the second, and counts the combined increase |
| `Polls.PurchaseBringsBack` | crates/tollgate-core/src/buyer/core.rs:12-15 | each purchase brings the count back up to the size wanted, rate × window or the fixed budget, or to one more than was left, less what closing a second took; to all the room there is if the channels have too little; and never further |
| `Polls.PollBuysIff` | crates/tollgate-core/src/buyer/core.rs:16-22 | a payer buys exactly when it has a channel with room, something is wanted or to be reserved again, the gap has passed, a rate fits, and it has a reservation to raise or give up, or units or a deadline that run out within the lead |
| `Polls.FittedIff` | crates/tollgate-core/src/buyer/core.rs:198-223 | the rate reserved is the highest permitted up to the one sought, and there is none exactly when nothing so permitted is as high as the provider’s smallest |
| `Polls.TriggerTells` | crates/tollgate-core/src/buyer/core.rs:98-114 | why it bought: First, RateRose, Rebuy, StopReserving and Renewal each for its own case |
| `Polls.WindowIsNearest` | crates/tollgate-core/src/buyer/state.rs:165-170 | the window asked for is the operator’s, or the nearest the provider takes |
| `Polls.HoldsOnceBought` | crates/tollgate-core/src/buyer/state.rs:97-105 | a purchase with room leaves nothing more to buy: asked again at once, with no gap, the payer holds, however short the window |
| `Polls.ReservesAgain` | crates/tollgate-core/src/buyer/state.rs:442-453 | a payer that had a rate reserved when the link was lost, and a budget left, reserves again as soon as it is back |
| `Polls.ReservesAgainFromNothing` | crates/tollgate-core/src/buyer/state.rs:455-463 | and so does one that starts over, once a channel is open and the provider has said what it still holds |
| `Purchases.NextKeepsInv` | crates/tollgate-core/src/buyer/state.rs:577-874 | every buyer operation keeps the invariant that a next channel implies an unexhausted active one and nothing signed on next |
| `Purchases.ReachableKeepsInv` | crates/tollgate-core/src/buyer/state.rs:633-650 | every reachable buyer has it |
| `Purchases.ConfirmedKeepsInvIff` | crates/tollgate-core/src/buyer/state.rs:633-650 | a confirmation keeps it exactly unless the peer names, for the channel funded, the one in use |
| `Purchases.NamingTheActiveSpoilsThePurchase` | crates/tollgate-core/src/session/core.rs:746-750 | after one that does, a purchase that overflows names that channel twice, and no provider that has it honors that |
| `Purchases.PurchaseIsHonoredOrOverCapacity` | crates/tollgate-core/src/grant/core.rs:89-145 | judged by a mirroring provider with the Offer’s terms, a polled purchase is accepted for exactly its grant, or refused for capacity and nothing else, and which of the two is decided by the rate alone |
| `Purchases.HonoredPurchaseKeepsMirror` | crates/tollgate-core/src/buyer/state.rs:767-809 | applied and recorded, it leaves the two mirrored again |
| `Purchases.EveryPurchaseIsHonored` | crates/tollgate-core/src/buyer/core.rs:46-171 | the same from a payer’s first moment through any lawful run |
| `Purchases.EmptyReplacementSpoilsThePurchase` | crates/tollgate-core/src/buyer/core.rs:122-156 | a purchase that overflows onto a replacement of no capacity is refused in full |
| `Purchases.RefusalIsUndoneIff` | crates/tollgate-core/src/buyer/state.rs:841-874 | a refusal with nothing in between restores channels, deadline, reservation and start flags and takes the grant off the count, exactly unless the purchase filled the channel to the unit with a replacement waiting; then nothing is undone |
| `Purchases.ExactFillHappens` | crates/tollgate-core/src/buyer/core.rs:118-156 | such purchases are decided on: a fixed budget that is what the channel has left |
| `Purchases.RebuyAfterCapacityRefusal` | crates/tollgate-core/src/buyer/core.rs:198-223 | after a capacity refusal, whatever is polled within the hold is at or below the named rate, and accepted if the others’ reservations have not grown |
| `SessionsCore.Sessions.constructor` | crates/tollgate-core/src/session/core.rs:62-72 | a new core holds no one, and the first request id is 1 |
| `SessionsCore.Sessions.ReservedElsewhere` | crates/tollgate-core/src/session/core.rs:1222-1230 | the loop over sessions comes to the saturated total of every other session that is not ending |
| `SessionsCore.Sessions.TooSoon` | crates/tollgate-core/src/session/core.rs:201-217 | the refusal, with the rate still free, exactly when a session is held and its gap has not passed |
| `SessionsCore.Sessions.Forget` | crates/tollgate-core/src/session/core.rs:227-238 | both sessions of a peer go, their budgets saved and channels settled |
| `SessionsCore.Sessions.Handle` | crates/tollgate-core/src/session/core.rs:241-367 | every event changes the peers, the parked, the ids and the actions as one step of the node does |
| `SessionsCore.Sessions.NoteSent` | crates/tollgate-core/src/session/core.rs:375-384 | exactly the peers sent something have the time noted |
| `SessionsCore.Sessions.KeepAlive` | crates/tollgate-core/src/session/core.rs:402-419 | an Offer is repeated to each live peer sent nothing for the interval |
| `SessionsCore.Sessions.OnDisconnected` | crates/tollgate-core/src/session/core.rs:430-442 | an ending session is let go of and any other parked |
| `SessionsCore.Sessions.Park` | crates/tollgate-core/src/session/core.rs:445-465 | a parked session has its second closed, its reservation ended and its budget saved |
| `SessionsCore.Sessions.ExpireParked` | crates/tollgate-core/src/session/core.rs:468-492 | what is parked past the grace is settled and gone, and the rest settled near expiry |
| `SessionsCore.Sessions.OnConnected` | crates/tollgate-core/src/session/core.rs:531-647 | a connection carries on with what is kept, or starts from the saved budget |
| `SessionsCore.Sessions.TakeKept` | crates/tollgate-core/src/session/core.rs:555-573 | the session kept, and all others let go of |
| `SessionsCore.Sessions.BeginSession` | crates/tollgate-core/src/session/core.rs:574-596 | the session a connection starts: resumed and settled near expiry, or new over the saved budget |
| `SessionsCore.Sessions.GreetPeer` | crates/tollgate-core/src/session/core.rs:600-646 | a connection is told that nothing is carried, who we are, each channel still held, our terms and its budget |
| `SessionsCore.Sessions.WindDownPeer` | crates/tollgate-core/src/session/core.rs:160-189 | one session saved, settled and told |
| `SessionsCore.Sessions.OnSession` | crates/tollgate-core/src/session/core.rs:241-335 | each event about a held peer changes its session as the specification says |
| `SessionsCore.Sessions.SendOffer` | crates/tollgate-core/src/session/core.rs:651-659 | the Offer sent is the one remembered |
| `SessionsCore.Sessions.OnMessage` | crates/tollgate-core/src/session/core.rs:687-789 | each message changes the session as the specification says |
| `SessionsCore.Sessions.OnOffer` | crates/tollgate-core/src/session/core.rs:815-922 | a revision replaces the terms but the weight |
| `SessionsCore.Sessions.OnOpeningOffer` | crates/tollgate-core/src/session/core.rs:849-922 | an opening Offer resumes a channel both hold, or starts over |
| `SessionsCore.Sessions.OnAccept` | crates/tollgate-core/src/session/core.rs:950-970 | an Accept settles every channel held before it |
| `SessionsCore.Sessions.OnIncomingVerified` | crates/tollgate-core/src/session/core.rs:972-1011 | a verified channel is recognised and confirmed |
| `SessionsCore.Sessions.OnOutgoingFunded` | crates/tollgate-core/src/session/core.rs:257-289 | a funded channel is taken or handed back |
| `SessionsCore.Sessions.OnTopUp` | crates/tollgate-core/src/session/core.rs:1017-1120 | a TopUp is refused unread, refused, counted as a failure, or honored |
| `SessionsCore.Sessions.OnMetered` | crates/tollgate-core/src/session/core.rs:1129-1161 | a reading draws the payer only while it is carried, and the payer’s own count by the weight |
| `SessionsCore.Sessions.OnUnverified` | crates/tollgate-core/src/session/core.rs:1174-1209 | each named channel’s failures are counted, and the third in a row settles it |
| `SessionsCore.Sessions.PollBuyer` | crates/tollgate-core/src/session/core.rs:1239-1303 | a purchase decided on is recorded, sent, and what it drained settled |
| `SessionsCore.Sessions.PollRollover` | crates/tollgate-core/src/session/core.rs:1310-1343 | a channel filling up earns a larger successor, one running out of time the same |
| `SessionsCore.Sessions.PollOpening` | crates/tollgate-core/src/session/core.rs:1358-1384 | a first channel is asked for when there is none in any state |
| `SessionsCore.Sessions.RequestFunding` | crates/tollgate-core/src/session/core.rs:1393-1412 | a request takes the next id, which wraps |
| `SessionsCore.Sessions.Refresh` | crates/tollgate-core/src/session/core.rs:1476-1532 | access and speed are told only when they change, and a budget gone is told and saved |
| `SessionsCore.Sessions.OnPolicySet` | crates/tollgate-core/src/session/core.rs:94-122 | an override takes effect at once, with a revised Offer if it changes the one sent |
| `SessionsCore.Sessions.OnTick` | crates/tollgate-core/src/session/core.rs:336-361 | every live peer is visited once, then the parked, then the quiet links |
| `SessionsCore.Sessions.ShutDown` | crates/tollgate-core/src/session/core.rs:160-189 | every session is saved, settled and told |
| `SessionsCore.SettleChannels` | crates/tollgate-core/src/session/core.rs:499-512 | the loop settles each channel named, with its own expiry, and stops recognising it |
| `SessionsCore.Unraised` | crates/tollgate-core/src/session/core.rs:1552-1569 | the loop names each channel a purchase failed to ratchet, once |
| `SessionsCore.SaveBudgetOf` | crates/tollgate-core/src/session/core.rs:517-525 | only a charged peer’s budget is saved |
| `SessionFrames.SettleEachAccounts` | crates/tollgate-core/src/session/core.rs:499-512 | after settling, every channel is still held or was settled with its expiry |
| `SessionFrames.OnMessageIsOrdinary` | crates/tollgate-core/src/session/core.rs:687-789 | no message but a TopUp adds to a budget, raises a reservation, drops a channel unsettled, or saves a budget that is not gone |
| `SessionFrames.OnMeteredIsOrdinary` | crates/tollgate-core/src/session/core.rs:1129-1161 | nor does a reading |
| `SessionFrames.OnTickIsOrdinary` | crates/tollgate-core/src/session/core.rs:336-361 | nor a tick, and it leaves no channel near its expiry |
| `SessionFrames.ShownOnce` | crates/tollgate-core/src/session/core.rs:1476-1532 | a peer is metered exactly when it is charged and has a channel or a live budget, and showing it again at once asks for nothing |
| `SessionViews.SpeedIsTold` | crates/tollgate-core/src/session/core.rs:1515-1530 | the speed set for a peer, whenever it changes: none for one carried free, the allowance for one with nothing left, and else the fastest it may be carried at, by its own override or the node’s setting |
| `SessionViews.MessageTells` | crates/tollgate-core/src/session/core.rs:687-789 | whatever a session hears, the host is told all that it changed of gate and speed, and of a session that ends |
| `SessionViews.PolicyTells` | crates/tollgate-core/src/session/core.rs:94-122 | an override is told as it is made, unless the session is ending |
| `SessionViews.GreetTells` | crates/tollgate-core/src/session/core.rs:600-646 | a greeting tells gate, speed and terms anew, whatever was told before |
| `NodeViews.ToldFromTheStart` | crates/tollgate-core/src/session/core.rs:241-367 | over every run from an empty node, each peer connected is gated and shaped by its host as its session says, and holds the terms last sent |
| `NodeViews.ChargedAsTold` | crates/tollgate-core/src/session/core.rs:94-122 | which are the terms it is charged by, over every run with no override of a session that is ending |
| `NodeViews.OverrideIsLostIff` | crates/tollgate-core/src/session/core.rs:94-122 | an override leaves a peer charged as it was told, exactly unless its session is ending and the override changes whether it is charged |
| `NodeViews.OverrideIsLost` | crates/tollgate-core/src/session/core.rs:94-122 | the case that fails: an ending session overridden to be charged, and brought back by a late verification, is charged and was last told that it is not |
| `NodeViews.EndingIsTold` | crates/tollgate-core/src/session/core.rs:241-367 | a session that ends has its link dropped, unless the host ended it or was told that it had |
| `NodeViews.BlockedIsTurnedAway` | crates/tollgate-core/src/session/core.rs:537-553 | a peer that is blocked is disconnected and dropped, and no session of its begun or carried on |
| `SessionPurchases.AcceptedTopUp` | crates/tollgate-core/src/session/core.rs:1050-1091 | an accepted TopUp records before all else, saves the budget it leaves, and reserves only what is no higher or free |
| `SessionPurchases.RefusedTopUp` | crates/tollgate-core/src/session/core.rs:1092-1120 | one refused is an ordinary turn from the moment it was checked: nothing added to the budget or reserved, no channel dropped unsettled, no purchase recorded |
| `SessionStreams.StreamKeepsRatchet` | crates/tollgate-core/src/session/core.rs:1017-1207 | whatever a link makes of a stream of TopUps on one channel, the session keeps the ratchet of those outside the gap, one after another, and grants exactly what it rises by |
| `SessionStreams.StreamGrantsIff` | crates/tollgate-core/src/session/core.rs:1017-1207 | lost, repeated and reordered in any way, a stream grants at most the rise to its highest total, and all of it exactly when that total is read with no third stale one in a row before it, failures already held counted |
| `SessionStreams.InOrderGrantsToTheLastRead` | crates/tollgate-protocol/src/message.rs:104-112 | in order, whatever is lost, it grants the rise to the last total read, with no condition on what was lost; spaced by the gap, to the last that arrived |
| `SessionStreams.SameAsFullDeliveryIff` | crates/tollgate-protocol/src/message.rs:104-112 | against full delivery in order: any selection, repeated and reordered, grants as much exactly when the last total is reached |
| `SessionStreams.LossIsHarmless` | crates/tollgate-protocol/src/message.rs:104-112 | so any in-order part that has the last message, spaced, grants the same |
| `SessionStreams.ThreeStaleLoseTheRest` | crates/tollgate-core/src/session/core.rs:1174-1207 | the arrival that fails: 10, 20, 30, 40 read as 30, 10, 20, 10, 40 settles the channel at the third stale total and grants 30 |
| `SessionStreams.ThreeStaleHappen` | crates/tollgate-core/src/session/core.rs:1174-1207 | the events, at a session paid on one channel of 100: sent in order they grant 40, and so read 30 |
| `SessionStreams.RedeliveredGrantsNothing` | crates/tollgate-core/src/session/core.rs:1092-1102 | a purchase honored, and delivered again later in the stream, grants nothing |
| `SessionStreams.RefusedGrantsNothing` | crates/tollgate-core/src/session/core.rs:1092-1207 | all that a refused TopUp changes: the time of the last check, unless inside the gap, and one failure on each channel it failed to raise, the third settling it |
| `NodeFrames.EventMoves` | crates/tollgate-core/src/session/core.rs:241-367 | every event on a session is an honored purchase, or an ordinary turn from a stated basis |
| `NodeFrames.StepKeepsSettings` | crates/tollgate-core/src/session/core.rs:77-122 | no event changes the node’s policy, and what it buys by and its overrides each one event, to what it names |
| `SessionAnswers.NamesWhatFailed` | crates/tollgate-core/src/session/core.rs:1552-1569 | the channels a failed purchase is counted against are exactly those an update fails to raise or names again |
| `SessionAnswers.NamesOnce` | crates/tollgate-core/src/session/core.rs:1552-1569 | each named once |
| `SessionAnswers.InvalidNamesAChannel` | crates/tollgate-core/src/session/core.rs:1092-1102 | a purchase of something refused as invalid always has such a channel |
| `SessionAnswers.OneFailure` | crates/tollgate-core/src/session/core.rs:1193-1207 | a failure is counted, or is the third in a row and settles the channel with its expiry |
| `SessionAnswers.ThirdInARowSettles` | crates/tollgate-core/src/session/core.rs:1163-1173 | two failures in a row leave a channel open, and the third settles it |
| `SessionAnswers.HonoredStartsAgain` | crates/tollgate-core/src/grant/state.rs:340-345 | a purchase honored in between starts the count again |
| `NodeTicks.TickLeavesNoneSilent` | crates/tollgate-core/src/session/core.rs:336-352 | after a tick no live session has been silent past the timeout, in whatever order the peers are visited |
| `NodeTicks.TickLeavesNoneQuiet` | crates/tollgate-core/src/session/core.rs:375-419 | after a tick every live link has carried something of ours within the keepalive interval |
| `NodeLinks.StepSends` | crates/tollgate-core/src/session/core.rs:375-419 | after any event every live session has been sent an Offer, and no live peer was last sent something earlier than it had been; only a revival makes an ending session live |
| `NodeLinks.NeverQuietForLong` | crates/tollgate-core/src/session/core.rs:386-419 | over every run with ticks at most a period apart, in which an ending session is brought back by an Offer only while its link is fresh, no live session goes without something of ours for the keepalive interval and a period more |
| `NodeLinks.NodesMeetIff` | crates/tollgate-core/src/session/core.rs:600-620 | two nodes that connect each send an Announce, and hearing it both go on, or both end the session and drop the link: they go on exactly when they sell in one unit |
| `NodeLinks.AnnounceIsHeard` | crates/tollgate-core/src/session/core.rs:791-813 | an Announce in a new session ends it and drops the peer exactly when its version or unit is not ours |
| `NodeLinks.KeepaliveComesInTime` | crates/tollgate-core/src/session/core.rs:386-419 | so from an empty node on, if interval and period fit the timeout, no peer with the same one is left waiting it out |
| `NodeTicks.NothingIsLeft` | crates/tollgate-core/src/session/core.rs:160-189 | wound down, nothing is parked, no channel is held, and every peer is told and its budget saved |
| `NodeEarnings.NoEarningsDropped` | crates/tollgate-core/src/session/core.rs:333-512 | over every event an incoming channel is still held, live or parked, or is settled by it with its expiry; and no peer is both live and parked |
| `NodeEarnings.TickLeavesNoneNearExpiry` | crates/tollgate-core/src/session/core.rs:1435-1454 | after a tick no channel held for anyone is within half the safety margin of its expiry |
| `NodeEarnings.PurchaseIsRecordedFirst` | crates/tollgate-core/src/session/core.rs:1050-1083 | the state that filled a channel is recorded before anything is settled |
| `NodeEarnings.TickCarries` | crates/tollgate-core/src/session/core.rs:336-361 | a tick carries every channel through, in whatever order it visits the peers, and signs nothing |
| `NodeSettlements.StepSigns` | crates/tollgate-core/src/session/core.rs:241-367 | whatever happens, a channel is signed higher only by a purchase honored, to the total it names, and only that purchase is recorded |
| `NodeSettlements.SignedNeverFalls` | crates/tollgate-core/src/session/core.rs:241-367 | what is signed on a channel does not fall while it is held, and rises only with a RecordUpdates |
| `NodeSettlements.StepKeepsBacked` | crates/tollgate-core/src/session/core.rs:1050-1060 | after any event every channel held is signed to the last total recorded for it |
| `NodeSettlements.GrantsAreOnRecord` | crates/tollgate-core/src/session/core.rs:1017-1091 | over every run of the node, connections, failures, restarts and winding down among it, every channel held is signed to what the host has on record, and what was granted is no more than the record grew by, and exactly that if and only if the rise of each purchase fits 64 bits |
| `NodeSettlements.GrantsAreOnRecordFromTheStart` | crates/tollgate-core/src/session/core.rs:1017-1091 | the same of every run from an empty node |
| `NodeClosings.SettledIsGoneIff` | crates/tollgate-core/src/session/core.rs:755-776 | a channel the node is paid on and asks the host to settle is let go of with it, exactly unless that answers the peer’s own ChannelClose or CloseAck, which leaves it held |
| `NodeClosings.GoneForGood` | crates/tollgate-net/src/settle.rs:1-20 | over every run nothing is sold on a channel no longer held, nothing more is recorded for it, and only the peer’s own word has it settled again |
| `NodeClosings.SettledForGood` | crates/tollgate-net/src/settle.rs:1-20 | so once settled, but for that word, it is settled for what was sold on it |
| `NodeRuns.SoldAfterSettled` | crates/tollgate-core/src/session/core.rs:755-776 | the run, from an empty node, that fails: 50 bought, the channel said to be closed and settled, and 40 more sold on it |
| `NodeCapacity.StepStaysWithin` | crates/tollgate-core/src/session/core.rs:1017-1055 | no event but a revival takes the reservations of all sessions that are not ending past the capacity |
| `NodeCapacity.ReservationsFitForever` | crates/tollgate-core/src/session/core.rs:1222-1230 | so over every run they stay within it at every moment exactly when each session brought back from ending still fitted |
| `NodeCapacity.ReservationsFitFromTheStart` | crates/tollgate-core/src/session/core.rs:1222-1230 | from an empty node |
| `NodeCapacity.StepStaysWithinIff` | crates/tollgate-core/src/session/core.rs:1017-1055 | the same for each event |
| `NodeCapacity.PurchaseFits` | crates/tollgate-core/src/grant/core.rs:140-142 | admission against everyone else’s saturated total is enough |
| `NodeCapacity.RoomIff` | crates/tollgate-core/src/session/core.rs:1214-1230 | and no reservation is refused that fits beside the others |
| `NodeCapacity.RevivalStaysWithinIff` | crates/tollgate-core/src/session/core.rs:995-996 | a late verification, or an opening Offer, that brings an ending session back keeps within the capacity exactly when the reservation it still carries fits beside the others |
| `NodeCapacity.LateVerificationOversubscribes` | crates/tollgate-core/src/session/core.rs:995-996 | a concrete node of two peers that passes its capacity so |
| `NodeRuns.LateVerificationReached` | crates/tollgate-core/src/session/core.rs:995-996 | and the run from an empty node that reaches it |
| `NodeBudgets.RecordCoversForever` | crates/tollgate-core/src/session/core.rs:445-525 | over every run, for a payer charged throughout, the record covers the budget held: equal to it plus exactly what was drawn since, or both gone; and equal to it while parked |
| `NodeBudgets.RecordCoversFromTheStart` | crates/tollgate-core/src/session/core.rs:445-525 | from an empty node |
| `NodeBudgets.StepKeepsCovers` | crates/tollgate-core/src/session/core.rs:1083-1086 | the same for each event |
| `BudgetRecords.RecordIsWorth` | crates/tollgate-core/src/session/core.rs:517-525 | so the record is never worth less than the live budget, and more by no more than was drawn |
| `NodeBudgets.ConnectCoversIff` | crates/tollgate-core/src/session/core.rs:531-593 | a connection begins a budget the record covers, exactly unless it comes over an ending session with more drawn than the record handed over says |
| `NodeRuns.ReconnectionOverAnEnding` | crates/tollgate-core/src/session/core.rs:531-593 | the case that fails: any charged payer with some drawn since the save says Disconnect, connects again with its record, and is no longer covered |
| `NodeRuns.ReconnectionUncovers` | crates/tollgate-core/src/session/core.rs:531-593 | and the run from an empty node that reaches it |
| `NodeBudgets.SameBudgetEitherWay` | crates/tollgate-core/src/session/core.rs:555-592 | resuming within the grace and reconnecting from the record after it give the same budget |
| `NodeBudgets.CrashGivesBack` | crates/tollgate-core/src/session/core.rs:586-592 | a node started again gives a payer back what it held and what was drawn since it was saved |
| `NodeFunding.FundedIsTakenOrHandedBack` | crates/tollgate-core/src/session/core.rs:257-289 | a funded channel is taken exactly when its request is still open and none is waiting, and then every request is closed; otherwise all of it is handed back and the buyer is as it was |
| `NodeFunding.StepKeepsTracks` | crates/tollgate-core/src/buyer/state.rs:577-627 | whatever happens, the range a buyer keeps names exactly the requests asked for it and still open |
| `NodeFunding.RequestsTrackedForever` | crates/tollgate-core/src/buyer/state.rs:577-627 | so over every run in which the 64-bit id is not used up |
| `NodeFunding.RequestsTrackedFromTheStart` | crates/tollgate-core/src/buyer/state.rs:577-627 | from an empty node |
| `SessionRequests.LastIdIsAnsweredByNone` | crates/tollgate-core/src/session/core.rs:1393-1412 | the id used up: asked for under the last one and then again under 0, a session takes the answer to neither |
| `NodeFunding.ClosedStaysClosed` | crates/tollgate-core/src/buyer/state.rs:614-627 | a request once closed is never open again |
| `NodeFunding.SecondAnswerIsHandedBack` | crates/tollgate-core/src/session/core.rs:257-289 | however often and late the host answers, at most one answer to what was asked by then is taken |
| `SessionRequests.OneRequestAtATime` | crates/tollgate-core/src/session/core.rs:1310-1384 | a tick asks for at most one channel for a peer, in a mint it takes and within the operator’s bounds, and for none while an answer is waited on |
| `SessionRequests.OpeningAsksIff` | crates/tollgate-core/src/session/core.rs:1358-1384 | a first channel is asked for exactly when the payer buys and has none in any state, in the peer’s first mint, of the size nearest the one set |
| `SessionRequests.RolloverAsksIff` | crates/tollgate-core/src/session/core.rs:1310-1343 | a replacement exactly when the channel in use fills up or is about to expire with none coming; grown if it fills up and as large if it does not |
| `SessionRequests.TickLeavesNoneWithout` | crates/tollgate-core/src/session/core.rs:336-361 | so a tick leaves no payer that buys without a channel in use or coming, nor with one running out and none behind it |
| `SessionRequests.FailureIsHeard` | crates/tollgate-core/src/buyer/state.rs:586-597 | told that its latest request failed, a payer waits on it no longer; told so of an earlier one, it waits on |
| `SessionRequests.EventAsks` | crates/tollgate-core/src/session/core.rs:241-367 | every event extends the range a buyer keeps by exactly the requests it makes, and only a channel taken, or a start from nothing, closes it |
| `BudgetRecords.AccountsKeepsCovers` | crates/tollgate-core/src/session/core.rs:445-525 | a session only drawn from, saved as it stands, or saved as it leaves, keeps the record covering it |
| `NodeChecks.ChecksAreSpaced` | crates/tollgate-core/src/session/core.rs:201-217 | with the host asking first, the instants one session’s TopUps are checked at are pairwise the gap apart, valid or not |
| `NodeChecks.ChecksAreBounded` | crates/tollgate-core/src/session/core.rs:1017-1035 | so a session checked over T ms is checked at most 1 + T / gap times |
| `NodeChecks.OnlyDeliveryChecks` | crates/tollgate-core/src/session/core.rs:248-256 | only a TopUp checked, found good or bad, moves the time the gap is measured from |
| `NodeChecks.CoreAgreesWithHost` | crates/tollgate-core/src/grant/state.rs:314-317 | core finds no TopUp too soon that the host did not |
| `Cbor.HeadReadsBack` | crates/tollgate-protocol/src/codec.rs:116-238 | a head written in the preferred form of section 4.2.1 of RFC 8949 reads back |
| `Cbor.HeadIsShortest` | crates/tollgate-protocol/src/codec.rs:116-238 | and no head of the same meaning is shorter |
| `Cbor.SkipIsLocal` | crates/tollgate-protocol/src/codec.rs:279-290 | skipping an item takes the same bytes whatever follows it |
| `Fields.ShapeIsOneItem` | crates/tollgate-protocol/src/codec.rs:293-300 | every typed read consumes exactly the item skipping it would, and reads the same whatever follows |
| `Fields.ShapeReadsBack` | crates/tollgate-protocol/src/codec.rs:116-238 | a value of a field’s shape is read back as it was written |
| `Fields.ReadFits` | crates/tollgate-protocol/src/codec.rs:310-728 | a value read has the width, length and count its field allows |
| `MapCodec.OrderDoesNotMatter` | crates/tollgate-protocol/src/codec.rs:245-290 | a definite-length map in which the pairs under a key that is read agree where it comes twice, if it decodes, does so alike in every order of its pairs, and with any well-formed pairs under unknown keys put among them |
| `MapCodec.DecodableSplits` | crates/tollgate-protocol/src/codec.rs:245-290 | every input that decodes is a map of well-formed pairs |
| `MapCodec.OrderMattersIff` | crates/tollgate-protocol/src/codec.rs:245-290 | and such a map decodes alike in every order of its pairs exactly when, wherever a key that is read comes twice, its pairs agree |
| `MapCodec.EncodedDecodes` | crates/tollgate-protocol/src/codec.rs:245-267 | an encoded message decodes to its tag and its fields, whatever follows it |
| `MapCodec.EncodedIsUnknown` | crates/tollgate-protocol/src/codec.rs:245-247 | a message of a type not known is refused by its tag |
| `Codec.RoundTripsIff` | crates/tollgate-protocol/src/codec.rs:116-267 | any of the thirteen messages decodes back to itself exactly when an Offer lists a mint, a TopUp has one to eight updates and a TopUpReject at most eight |
| `Codec.DecodedIsAcceptable` | crates/tollgate-protocol/src/codec.rs:342-551 | nothing outside those bounds is ever decoded |
| `Defaults.LeftOutReads` | crates/tollgate-protocol/src/codec.rs:301-729 | any of the thirteen messages written without any of its fields is refused for the first it cannot do without, and otherwise read with the rest at their defaults |
| `Codec.EmptyListsAreRefused` | crates/tollgate-protocol/src/codec.rs:382-384 | an empty mint list, or list of updates, is refused as such |
| `Codec.MessageOrderDoesNotMatter` | crates/tollgate-protocol/src/codec.rs:245-290 | the order law for the wire’s messages |
| `Codec.EncodedInAnyOrder` | crates/tollgate-protocol/src/codec.rs:279-290 | an encoded message’s own pairs may come in any order, the tag’s not first |
| `Codec.ReasonsReadBack` | crates/tollgate-protocol/src/types.rs:191-206 | every reason code survives its byte |
| `Coders.EncodeMessage` | crates/tollgate-protocol/src/codec.rs:116-238 | the encoder appends exactly the specified bytes to the buffer |
| `Coders.DecodeMessage` | crates/tollgate-protocol/src/codec.rs:245-267 | the two-pass decoder with its cursor returns what the specification does, error by error |
| `Coders.ScanType` | crates/tollgate-protocol/src/codec.rs:279-290 | the first pass finds the tag under the first key 0 |
| `Coders.ReadFields` | crates/tollgate-protocol/src/codec.rs:310-728 | the second pass assigns each known field and skips each other |
| `Coders.Decoder.Skip` | crates/tollgate-protocol/src/codec.rs:283-287 | the cursor ends after exactly one item |
| `Coders.Decoder.Field` | crates/tollgate-protocol/src/codec.rs:293-300 | the cursor ends after the field, its value or its error as specified |
| `Enforcer.RoundTrips` | crates/tollgate-protocol/src/enforcer.rs:442-716 | each of the six enforcer messages that is encoded decodes back to itself, and only a Bind of more than eight is not encoded |
| `Enforcer.MessageOrderDoesNotMatter` | crates/tollgate-protocol/src/enforcer.rs:528-564 | the order law for the enforcer’s messages |
| `Enforcer.WireRefuses` | crates/tollgate-protocol/src/enforcer.rs:14-15 | an enforcer message on the wire’s socket is refused by its tag |
| `Enforcer.EnforcerRefuses` | crates/tollgate-protocol/src/enforcer.rs:14-15 | and a wire message on the enforcer’s |
| `Enforcer.EncodeMessage` | crates/tollgate-protocol/src/enforcer.rs:442-497 | what is refused appends nothing |
| `Enforcer.DecodeMessage` | crates/tollgate-protocol/src/enforcer.rs:528-543 | the decoder returns what the specification does |
| `Frames.FrameReader.Push` | crates/tollgate-protocol/src/frame.rs:52-54 | bytes are appended |
| `Frames.FrameReader.Next` | crates/tollgate-protocol/src/frame.rs:73-91 | a whole frame is consumed whether or not it decodes, and nothing otherwise |
| `Frames.FrameReader.Drain` | crates/tollgate-protocol/src/frame.rs:56-62 | reading until there is none returns every body that has arrived, and keeps the rest |
| `Frames.FrameReader.Pending` | crates/tollgate-protocol/src/frame.rs:95-97 | the bytes held are counted |
| `Frames.RunFollowsStream` | crates/tollgate-protocol/src/frame.rs:73-91 | over any run of arrivals and reads, what was returned and what is yet to be are together what the whole stream holds |
| `Frames.ChunksDoNotMatter` | crates/tollgate-protocol/src/frame.rs:73-91 | drained, two readers fed the same bytes in any pieces return the same |
| `Frames.EachBodyOnce` | crates/tollgate-protocol/src/frame.rs:73-91 | any concatenation of frames gives each body’s result once and in order with nothing pending, a bad body spoiling its own alone |
| `Frames.MessagesArrive` | crates/tollgate-protocol/src/frame.rs:23-97 | messages framed one after another arrive as they were sent |
| `Frames.EncodeFrame` | crates/tollgate-protocol/src/frame.rs:23-34 | the prefix is reserved and then filled in with the length cut to 16 bits |
| `Frames.FrameRoundTripsIff` | crates/tollgate-protocol/src/frame.rs:30-32 | a wire frame is taken back whole and alone exactly when the message is at most 65535 bytes |
| `Frames.TooLongLeavesMore` | crates/tollgate-protocol/src/frame.rs:30-32 | a longer one gives its first bytes and leaves the rest to be taken for the next frame |
| `Frames.EncodeEnforcerFrame` | crates/tollgate-protocol/src/enforcer.rs:501-517 | an enforcer frame too long, or refused, writes nothing |
| `Frames.EnforcerFramesRoundTrip` | crates/tollgate-protocol/src/enforcer.rs:501-517 | every enforcer frame written reads back as its message |
| `Buckets.Bucket.Refill` | crates/tollgate-net/src/mint.rs:443-450 | the level rises by exactly the elapsed time, saturating, and never past the brim |
| `Buckets.Bucket.Take` | crates/tollgate-net/src/mint.rs:456-460 | tokens are taken |
| `Buckets.Limits.constructor` | crates/tollgate-net/src/mint.rs:389-400 | no quotes a minute is no limit |
| `Buckets.Limits.Admit` | crates/tollgate-net/src/mint.rs:403-413 | one quote is taken, or nothing |
| `Buckets.RefillIsExact` | crates/tollgate-net/src/mint.rs:443-450 | saturation does no harm |
| `Buckets.NeverPastTheRate` | crates/tollgate-net/src/mint.rs:384-461 | between any two instants admits × period never pass capacity plus elapsed × rate |
| `Buckets.NothingFromNowhere` | crates/tollgate-net/src/mint.rs:384-461 | the same with what is left in the bucket, whatever order the clock is read in |
| `Buckets.AtMostTwiceAMinute` | crates/tollgate-net/src/mint.rs:389-413 | so over any minute at most twice the quotes of one |
| `Buckets.ExtraRefillsChangeNothing` | crates/tollgate-net/src/mint.rs:443-450 | refilling at any instants in between changes no answer |
| `Buckets.PacedIsNeverRefused` | crates/tollgate-net/src/mint.rs:403-413 | a caller a token apart from a full start is never refused |
| `Buckets.NewLimitNeverRefusesPaced` | crates/tollgate-net/src/mint.rs:389-413 | the same for a new limit |

## Left out

- Signatures, keys, hashing, channel backends, settlement and funding themselves: events carry what the host found.
- The tokio tasks, sockets, timers, logs, configuration and user interfaces around the core, prices, wallets and the mint but for its limit.
- The file the host keeps budgets in and its rebasing of clocks: a record of one budget a payer stands for both.
- `BTreeMap` key order: a tick, and winding down, visit the peers in any order at all, and every law holds for each.
- Sessions held in maps are values that `Sessions` replaces; the aliasing of a `&mut PeerSession` is not modelled, and none of the program's borrows overlap.
- NodeFunding.RequestsTrackedForever: assumes that the last 64-bit request id is never asked for, after which the program starts again from zero and `SessionRequests.LastIdIsAnsweredByNone` holds.
- NodeBudgets.RecordCoversForever: assumes the condition of `NodeBudgets.ConnectCoversIff` at each reconnection over an ending session, without which it is false.
- Lockstep.SessionInLockstep: counts that saturate 64 bits, and purchases of nothing or for no time, are outside it; `Lockstep.LinkInLockstep` covers reconnections.
- LimitsProperties.OneRuleOverAStretch: assumes that neither the units moved nor the rate for the whole stretch saturate 64 bits.
- Purchases.EveryPurchaseIsHonored: assumes the host funds channels of some capacity, and that the peer does not confirm one under the id of the channel in use, without which `Purchases.ConfirmedKeepsInvIff` fails.
- SessionStreams.StreamGrantsIff: the stream is of one channel, within its capacity, the policy’s terms and the rate still free; what passes between its messages leaves the channels and the time of the last check alone.
- NodeSettlements.GrantsAreOnRecord: assumes that the host verifies no channel again once it is settled.
- NodeClosings.SettledForGood: assumes the same, and one channel under an id among a peer's sessions.
- Lockstep.RefusalKeepsStepIff: assumes that the purchase refused does not saturate the payer's 64-bit count.
- Lockstep.PurchaseAgreesIff: a purchase of a second's worth or less, or for a second or less, may be drained or over before a stale second shows; `Lockstep.PurchaseKeepsStepIff` covers it.
- SessionLockstep.SessionsInLockstep: a message takes no time on the way, but for a refusal and a Balance; a channel is opened in one exchange, so none waits unconfirmed at a reconnection; and a reconnection is one both ends carry on over, the others being `Lockstep.BalanceRestoresStepIff`.
- NodeLinks.NeverQuietForLong: an ending session brought back by an opening Offer after its link has gone quiet stays as quiet until the next tick.
- Tags, floats and negative integers are skipped by their heads under unknown keys; an indefinite length inside a skipped value is refused, skipped text must be UTF-8, and minicbor, whose reader may pass over one, is not part of this model.
- The allocation of a list's announced length before its elements are read, and 32-bit platforms, where a count is cut to `usize`.
- Enforcer.Identity: parsing it from a configuration, and making a subject from an IP address.
- `price_of`, `budget_for`, `lead_is_thin`, `avoidable_from_offer` and the read-only accessors: nothing is decided by them that a reader would not see.
