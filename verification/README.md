# Order protocol, bookings and signal logic of wliq, verified

wliq trades intraday reversals. A per-symbol state machine turns features into signals, a session engine sizes
them into orders, an order manager and a (simulated) venue exchange those orders' acknowledgements, fills and
cancels, and positions, risk totals and journals record what came of it. This project models that stack and two
numerical kernels next to it, and proves what they keep over whole sessions.

Where the original updates state in place, a class here does the same with the same branches, and its methods are
proved equal to functions on values; the theorems are about those functions, over all inputs and all runs.

## What is proved

* **One session, all parts** (`Engine`, `EngineRuns`, `EngineSessions`). The engine's handlers for quotes, trades,
  ticks, fills, order ends, entries and exits, composed as the runtime composes them. In every session, however far
  apart its ticks are and whatever handlers raised, signals are pending for exactly the open entries, no symbol has
  two open entries or exits, entry sizes stay within the budgets, the position log would rebuild the live positions,
  and both risk layers and the ledger hold the total of the closed trades. In every session whose ticks are close
  enough together no handler raises and both books of orders agree share for share.
* **What is accepted, and how positions end** (`Acceptance`, `Exits`). In every session: exactly when an exit or a
  signal becomes an order, and which; exits oppose their positions, never exceed them, and end only by being filled.
* **Restart** (`Recovery`, `Restored`, `Booking`, `PositionLog`, `Journal`, `OrderIds`, `Drawdown`). What a fresh
  process reads from the files is what the live one knew, and what becomes of the orders it restores.
* **Order manager** (`Orders`, `OrderManagement`, `OrderRuns`, `Revisions`). Legal and bounded histories,
  reservations, averages, revisions, the cap, one open entry per symbol, one report per ended order.
* **Venue** (`Venue`, `VenueRuns`, `Executions`, `PaperBroker`). Fill soundness over any life of an order, exactly
  when, at what price and for how much it is executed, and dominance of the
  older queue model over the newer one.
* **Protocol** (`Protocol`, `Agreement`, `SessionRuns`, `Deadlines`). Manager against venue with acknowledgement,
  activation and cancel latencies; which overdue orders end, with ticks at any times, and which are lost.
* **Positions and risk** (`Positions`, `Booking`, `Drawdown`, `Sizing`). Cash conservation, the drawdown governor
  against the batch definition, sizing budgets, and what drawdown and volatility do to a size.
* **Signals** (`Fsm`, `FsmRuns`, `Evidence`, `Retests`). Direction, evidence, shape, age and spacing of signals, their
  price levels, and which of them follow a retest.
* **Calibration and regression** (`Isotonic`, `Regression`). The pooled fit is the unique least-squares projection;
  the streaming slope minimises the weighted squared error.

## Where the code does less than it says

Each has a theorem that gives the exact condition or an input.

* The fill that completes an entry order is never booked: the callback drops the signal first
  (src/wliq/runtime.py:185, read at :155). `EngineSessions.EntryFillBookedIffOpen`. An entry filled in one piece
  leaves its symbol in ENTRY for good: `Stranding.FillStrandsIffComplete`, `Stranding.StrandedForever`, and
  `Stranding.StrandingSession` for a session that gets there.
* A late fill is announced as accepted (src/wliq/execution/order_manager.py:181-184), yet a completing one after a
  local expiry is refused: `Deadlines.LateTickBreaksAgreement`. A refusal abandons the other reports of its pass, and
  orders whose end was among them stay open for good: `Deadlines.RefusalLoses`, `Deadlines.LostForever`.
* Restored orders carry no deadline, the paper venue does not know them, and nothing else ends them. A restored exit
  keeps its position from being closed, a restored entry keeps its symbol from being entered, for every session of the
  new process: `Restored.RestoredNeverEnds`, `Restored.RestoredExitHoldsPosition`. They also lose their reservations:
  `OrderRuns.LimitsSurviveRestarts`.
* The state machine wants a retest in every episode, but never clears the flag that says so. A signal has its own
  retest if the flag was clear at the impulse; otherwise it need not: `Retests.SignalHasRetest`,
  `Retests.SignalIffFlagCarried`, `Retests.SignalWithoutRetest`.
* The reason of an exit never reaches its trade: it is dropped (src/wliq/runtime.py:186) before the closing fill is
  booked (:168), so every trade is recorded with the default. `Exits.ReasonsLost`.
* A restored order starts over at revision zero, whatever its journal says: `Revisions.RestartRepeatsRevisions`.
* A fill between two partial states is not journaled, so replay lags by it: `OrderRuns.ReplayLagsOnPartials`.
* A filled fill-or-kill order stays in the venue's book: `VenueRuns.FilledFokLingers`.
* Calibrated predictions take each step one training score early: `Isotonic.ReproducesFitIffFlat`.
* The rearm edge of the state machine cannot be taken: `Fsm.RearmUnreachable`.
* A restart forgets the day's high, and counts losing streaks differently: `Drawdown.RestartForgetsHigh`,
  `Drawdown.StreakRestored`.
* A stop or target of zero is replaced by the average price on rebuild: `PositionLog.RebuildExact`.
* The two simulators use different tolerances for a trade-through: `PaperBroker.BandBreaksDominance`.

## How the model reads

Prices, quantities and P&L are reals with the original's thresholds (1e-9, 1e-12, 1e-18) as constants; times are
reals in milliseconds. A clock reading is an argument `now`, one per handler. The venue's random draws are the set of
orders that get an accepting one; the sort order of the calibration scores is an argument that may be any sorting
permutation. Dictionaries are maps beside a sequence of keys in insertion order. Files are sequences of well-formed
records. An exception is a result `raised`, and what it leaves half done stays half done.

A session (`EngineSessions.Session`) is any sequence of quotes, trades and timer calls at any times, in which a handler
that raises leaves what it has done. It assumes that feature prices are positive and a target is less than the whole
price away, that the smallest partial fill is more than 1e-9 shares, that the configured budgets are not negative,
and that plans are day or immediate-or-cancel orders, as src/wliq/execution/adaptive.py:53-60 makes them. A timely
session (`EngineSessions.TimelySession`) further assumes that time does not run backwards, that successive ticks are
at most `gap` apart, and that an entry's time to live exceeds `gap` and leaves room for the acknowledgement latency
and one `gap`. `SessionRuns` and `Deadlines` cover fill-or-kill orders as well, with orders of more than 1e-9 shares,
which is all the engine submits. `Restored.GoesOn` assumes nothing.

## Model

| member | source | states |
|---|---|---|
| `Orders.ApplyKeepsPath` | src/wliq/execution/order_manager.py:53-66 | Every operation leaves the history a path of the transition table that ends in the order's state, no longer than the state's rank plus two per fill |
| `Orders.PathLength` | src/wliq/execution/order_manager.py:84 | An order with k fills has at most 4 + 2k recorded transitions |
| `Orders.TerminalAbsorbs` | src/wliq/execution/order_manager.py:151-163 | Once an order is filled, cancelled, rejected or expired, no operation changes its state or history or reports it again |
| `Orders.RaisesWhen` | src/wliq/execution/order_manager.py:53-66 | An operation raises exactly for a second mark, a reject of a partly filled or cancelling order, and a completing fill of an order never submitted or ended otherwise |
| `OrderManagement.UnknownIds` | src/wliq/execution/order_manager.py:165-219 | About an unknown id only marks and fills raise; nothing changes |
| `Orders.CreationReserves` | src/wliq/execution/order_manager.py:136-146 | A new order reserves quantity times reference price and the given risk, all of it for what is left to fill |
| `Orders.DueWhen` | src/wliq/execution/order_manager.py:136-145 | An order is overdue exactly from its time to live after creation on, if it has one; only a market order with a delay gets an activation time |
| `Orders.FillKeepsReservation` | src/wliq/execution/order_manager.py:190-193 | A fill shrinks the reservation at least in proportion to what is left to fill; compounding never lets it exceed that share |
| `Orders.FillReleases` | src/wliq/execution/order_manager.py:190-193 | After a fill, what stays reserved times the whole quantity equals what was reserved times what is left, for notional and for risk |
| `Orders.ApplyKeepsReservation` | src/wliq/execution/order_manager.py:151-236 | Reservations never grow, stay within the unfilled share of the initial notional, and are zero once the order is terminal |
| `Orders.AverageExact` | src/wliq/execution/order_manager.py:185-189 | After a fill, average price times filled quantity is the old product plus the fill's value if and only if the filled quantity has reached the floor under the division or the value itself is zero |
| `Orders.ApplyKeepsFills` | src/wliq/execution/order_manager.py:178-207 | Filled quantity is the sum of the fills' quantities and average price times it the sum of their values, for fills of at least the division floor |
| `OrderManagement.OrderManager.Create` | src/wliq/execution/order_manager.py:128-149 | Refuses a known id, a second open entry of a symbol, or a notional above the cap, changing nothing; otherwise exactly one order and one journal row are added |
| `OrderManagement.OrderManager.Transition` | src/wliq/execution/order_manager.py:151-163 | Refuses a move the table does not list, changing nothing; otherwise state, revision, history, journal row, release of reservations and the callback all follow |
| `OrderManagement.OrderManager.MarkSubmitting` | src/wliq/execution/order_manager.py:165-166 | The whole manager state is that of the specified operation; unknown ids raise |
| `OrderManagement.OrderManager.OnAck` | src/wliq/execution/order_manager.py:168-171 | Only a submitting order is acknowledged; anything else leaves the whole state alone |
| `OrderManagement.OrderManager.OnReject` | src/wliq/execution/order_manager.py:173-176 | A new, submitting or acknowledged order is rejected; a partially filled or cancel-pending one raises, as the table has no such move; closed and unknown ones are left alone |
| `OrderManagement.OrderManager.AccumulateFill` | src/wliq/execution/order_manager.py:185-193 | The field-by-field update is the specified averaging and release |
| `OrderManagement.OrderManager.OnFill` | src/wliq/execution/order_manager.py:178-207 | The whole manager state, the journal, the reported orders and whether it raises are those of the specified operation, for known and unknown ids, partial, completing and late fills |
| `OrderManagement.OrderManager.RequestCancel` | src/wliq/execution/order_manager.py:209-214 | A cancel is sent exactly for acknowledged and partially filled orders |
| `OrderManagement.OrderManager.OnCancelAck` | src/wliq/execution/order_manager.py:216-219 | Only a pending cancel is completed |
| `OrderManagement.OrderManager.SweepOrder` | src/wliq/execution/order_manager.py:226-235 | One order's timer: a cancel is sent exactly when the deadline has passed on an acknowledged or partially filled order; an unacknowledged one expires |
| `OrderManagement.OrderManager.Poll` | src/wliq/execution/order_manager.py:222-236 | The sweep acts on every order in order and returns exactly the ids whose cancel is to be sent |
| `OrderManagement.OrderManager.Restore` | src/wliq/execution/order_manager.py:239-240 | Exactly the restored order is put in place |
| `OrderRuns.HappenedKeepsSound` | src/wliq/execution/order_manager.py:151-219 | Any operation on any order keeps the invariant over all orders |
| `OrderRuns.OpenedKeepsSound` | src/wliq/execution/order_manager.py:128-149 | So does creating an order, accepted or refused |
| `OrderRuns.SweepKeepsSound` | src/wliq/execution/order_manager.py:222-236 | So does the timer sweep |
| `OrderRuns.ReservedFollows` | src/wliq/execution/order_manager.py:107-110 | The total held against the cap follows every change of an order by the change of what is reserved for it while open |
| `OrderRuns.ReservedGrows` | src/wliq/execution/order_manager.py:128-146 | That total is zero without orders and grows by quantity times reference price with each order created |
| `OrderRuns.OrderManagerInvariant` | src/wliq/execution/order_manager.py:95-236 | After every run of one process (`LimitsSurviveRestarts` covers restarts): at most one open entry per symbol, reserved notional within the cap, each order's history legal and bounded, its reservation within its unfilled share and zero when terminal, its quantity and average price those of its fills, and its end reported exactly once |
| `OrderRuns.LimitsSurviveRestarts` | src/wliq/execution/order_manager.py:128-163 | With any number of restarts at any moments: one open entry per symbol and reservations within the cap, before and after each; a restart frees what the restored orders had reserved |
| `Revisions.RevisionCounts` | src/wliq/execution/order_manager.py:151-204 | Along any operations on an order, its revision is the number of recorded transitions plus the number of fills that kept it partial |
| `Revisions.RevisionsAscend` | src/wliq/execution/order_manager.py:151-204 | In every run of one process the journal rows of an order carry strictly increasing revisions |
| `Revisions.RestartRepeatsRevisions` | src/wliq/execution/ledger.py:143-149 | A restored order starts over at revision zero: its next recorded transition continues the ascent of its rows if and only if its last recorded revision was zero |
| `OrderIds.ValueOfPadded` | src/wliq/core/journal.py:52 | Reading a zero-padded sequence number gives the number back, at any length |
| `OrderIds.ParsePrint` | src/wliq/core/journal.py:52-73 | Parsing a printed id gives back its key and its sequence number, for every key and number |
| `OrderIds.PrintInjective` | src/wliq/core/journal.py:52 | Ids with different keys or numbers are different |
| `OrderIds.KeyInjective` | src/wliq/core/journal.py:49 | Keys of ten-character (ISO) dates are equal only for the same date, symbol and intent |
| `OrderIds.IdFormat` | src/wliq/core/journal.py:49-52 | Ids as text: prefix, date, symbol, kind, and a number padded to four digits |
| `OrderIds.LoadCovers` | src/wliq/core/journal.py:27-44 | After loading, the counter of each key is at least every recorded number |
| `OrderIds.IdStepKeepsInv` | src/wliq/core/journal.py:46-80 | Issuing, recording and restarting keep the counters ahead of all recorded and issued ids |
| `OrderIds.FreshId` | src/wliq/core/journal.py:46-55 | The next id has not been recorded or issued |
| `OrderIds.IdsNeverRepeat` | src/wliq/core/journal.py:46-80 | However issuing, recording and restarts interleave, a new id is never a recorded or issued one, so the duplicate guard on the issue path never fires |
| `OrderIds.NumberedInOrder` | src/wliq/core/journal.py:46-55 | Each date, symbol and kind numbers its ids on its own and without gaps, whatever else is issued in between |
| `OrderIds.ForeignRecordCollides` | src/wliq/core/journal.py:57-73 | Recording an id that was not issued here can collide with the next one until a restart, because recording does not move the counter |
| `Journal.OrderJournal.constructor` | src/wliq/core/journal.py:27-44 | Opening a file knows exactly its ids as duplicates and starts each counter at the largest recorded number |
| `Journal.OrderJournal.NextClientOrderId` | src/wliq/core/journal.py:46-52 | Issues the next number of the key and moves that counter only |
| `Journal.OrderJournal.Record` | src/wliq/core/journal.py:57-80 | Appends one row and adds its id to the duplicate guard |
| `Journal.LatestRows` | src/wliq/execution/ledger.py:126-133 | The dictionary holds the last row of each recorded id and nothing else |
| `Journal.OpenOrdersComplete` | src/wliq/execution/ledger.py:134-150 | Restored orders are exactly those whose last recorded state is open, each once |
| `Journal.RebuildOpenOrders` | src/wliq/execution/ledger.py:120-151 | The loop over the file returns exactly the orders whose last recorded state is open, each once, with the recorded request, state and filled quantity |
| `OrderRuns.ReplayRebuildsActive` | src/wliq/execution/ledger.py:120-151 | At any moment of any run, crashes included, replay gives exactly the live open orders, same request and state, and never a larger filled quantity |
| `OrderRuns.ReplayLagsOnPartials` | src/wliq/execution/order_manager.py:200-203 | Replay misses a fill exactly when it goes from one partial state to another, because that is not journaled |
| `Venue.PaperVenue.Submit` | src/wliq/execution/venue_paper.py:71-88 | The new working order has the specified activation, queue position and waiting flag; dictionary order follows the original's |
| `Venue.PaperVenue.Cancel` | src/wliq/execution/venue_paper.py:97-101 | A cancel is scheduled once, one cancel latency ahead; a second request does not move it |
| `Venue.PaperVenue.OnQuote` | src/wliq/execution/venue_paper.py:104-114 | The loop lets each working order react once, in dictionary order, and returns their events in that order |
| `Venue.PaperVenue.AggressInPlace` | src/wliq/execution/venue_paper.py:116-141 | An aggressive order takes displayed size up to its limit and fraction; remainders are cancelled, killed or kept by time in force |
| `Venue.PaperVenue.OnTrade` | src/wliq/execution/venue_paper.py:143-168 | As OnQuote, for trades |
| `Venue.PaperVenue.TradeInPlace` | src/wliq/execution/venue_paper.py:145-167 | Trade-throughs fill the rest at the limit, trades at the limit eat the queue first, and then fill up to their size |
| `Venue.PaperVenue.PollInPlace` | src/wliq/execution/venue_paper.py:174-180 | Acknowledgements and due cancels of one order |
| `Venue.PaperVenue.Poll` | src/wliq/execution/venue_paper.py:171-181 | As OnQuote, for the clock |
| `VenueRuns.ReactSound` | src/wliq/execution/venue_paper.py:104-188 | Whatever an order experiences, an execution is its own, within what is left, at the limit or better, not before activation, and comes first among its events |
| `VenueRuns.ReactAccounted` | src/wliq/execution/venue_paper.py:183-188 | The order that is left has filled exactly what it reported |
| `VenueRuns.ReactShaped` | src/wliq/execution/venue_paper.py:104-181 | An order leaves the book only with a cancel acknowledgement or a completing fill; polls acknowledge and cancel all that is due |
| `VenueRuns.VenueFillsSound` | src/wliq/execution/venue_paper.py:104-188 | Over any life of an order of any kind: no overfill, every real execution at the limit or better and after activation, and at-price passive fills at most the volume beyond the queue joined, none if trade-throughs are required |
| `VenueRuns.FilledFokLingers` | src/wliq/execution/venue_paper.py:125-131 | A filled fill-or-kill order stays in the book and keeps reporting executions of nothing |
| `Executions.SubmittedAs` | src/wliq/execution/venue_paper.py:71-95 | A submission waits for a quote exactly if it crosses the spread or must not rest; otherwise it joins behind the size displayed on its own side; latencies as configured |
| `Executions.QuoteExecution` | src/wliq/execution/venue_paper.py:104-141 | At any moment of any life, an order is executed on a quote if and only if it is active there and may take enough; then at the ask for a buy and the bid for a sell, for at most the fraction of the size displayed on that side, and never when that price is beyond its limit |
| `Executions.TradeExecution` | src/wliq/execution/venue_paper.py:143-168 | At any moment of any life, a resting order is executed on a trade if and only if the draw accepts it and the trade is past its limit, or at it after the volume there has used up the queue; always at its limit |
| `Executions.PollReports` | src/wliq/execution/venue_paper.py:171-181 | At any moment of any life, a poll acknowledges once the latency is over and only once, and acknowledges a cancel exactly when due |
| `Executions.FokLeaves` | src/wliq/execution/venue_paper.py:125-131 | A fill-or-kill order is filled whole or leaves with a cancel acknowledgement |
| `Executions.IocLeaves` | src/wliq/execution/venue_paper.py:132-138 | An immediate order leaves in any case, with a cancel acknowledgement exactly for more than dust |
| `Executions.DayLeaves` | src/wliq/execution/venue_paper.py:132-140 | A day order leaves exactly when no more than dust is left |
| `PaperBroker.PaperBroker.Submit` | src/wliq/execution/paper.py:37-76 | Rejections, duplicates, marketable takes and resting orders, with statuses and fills, are those of the specification |
| `PaperBroker.PaperBroker.OnTrade` | src/wliq/execution/paper.py:83-134 | The loop progresses each resting order once and records and returns the same fills |
| `PaperBroker.PaperBroker.Progress` | src/wliq/execution/paper.py:86-133 | One resting order: cancel, trade-through, queue consumption and spill |
| `PaperBroker.ImmediateBounds` | src/wliq/execution/paper.py:54-67 | A marketable order takes a whole number of shares, at most its quantity, and its partial flag says whether less than that was available |
| `PaperBroker.ImmediateExact` | src/wliq/execution/paper.py:46-67 | A marketable order trades at the ask for a buy and the bid for a sell, for the largest whole number within its quantity and the share of the size displayed there |
| `PaperBroker.AcceptedAs` | src/wliq/execution/paper.py:37-76 | Each submission is refused, known, traded at once, too small to trade, or resting, decided by quantity, ids and spread |
| `PaperBroker.RestingFill` | src/wliq/execution/paper.py:83-134 | When, at what price and for how much a resting order is filled by a trade |
| `PaperBroker.BrokerSound` | src/wliq/execution/paper.py:83-134 | The broker never overfills, and drops an uncancelled order only when it is full |
| `PaperBroker.TradeCompares` | src/wliq/execution/venue_paper.py:143-168 | On one trade at a grid price the broker's total stays at least the venue's and its queue at most the venue's |
| `PaperBroker.VenueNeverOutfillsBroker` | src/wliq/execution/paper.py:83-134 | For a passive limit order submitted to both on the same quote, on every tape of grid prices, every random outcome and any extra latency, the venue never fills more than the broker |
| `PaperBroker.BandBreaksDominance` | src/wliq/execution/paper.py:99-101 | The grid is needed: with equal fills and trade-throughs required, the venue overtakes the broker exactly on prices past the limit by no more than the tolerance |
| `Protocol.AllChangeOnly` | src/wliq/runtime.py:133-146 | Events about one order change that order alone, raise exactly when it refuses, and raise its filled quantity by exactly what they report |
| `Protocol.VisitPointwise` | src/wliq/runtime.py:133-146 | A venue pass over all orders followed by applying all its events acts on each order alone, whatever the others do |
| `Agreement.ReactAgrees` | src/wliq/runtime.py:133-146 | If manager and venue agree on an order, nothing the venue does next with it is refused and they still agree |
| `Agreement.SweepAgrees` | src/wliq/execution/order_manager.py:222-236 | The timer sweep keeps the agreement when it comes within the tick gap |
| `Agreement.CancelAllPointwise` | src/wliq/runtime.py:191-193 | Sending cancels schedules each named order once and touches no other |
| `Agreement.SweepPointwise` | src/wliq/execution/order_manager.py:222-236 | The sweep over all orders acts on each alone and names exactly the orders to cancel |
| `SessionRuns.SubmitSound` | src/wliq/runtime.py:323-340 | Submitting keeps the agreement of the two books |
| `SessionRuns.DeliverMoves` | src/wliq/runtime.py:226-227 | Handing market data to the venue raises nothing and keeps the agreement of the two books order by order |
| `SessionRuns.TickSound` | src/wliq/runtime.py:189-194 | A timely tick raises nothing and keeps the agreement |
| `SessionRuns.SessionAgreement` | src/wliq/runtime.py:189-243 | In every timely session: no venue report is refused, filled quantities equal the sum of reported fills, the venue works no order the manager has closed (a filled fill-or-kill order excepted), and open orders the venue no longer works are unacknowledged and unfilled |
| `Deadlines.SweptFate` | src/wliq/execution/order_manager.py:229-235 | A sweep past its deadline leaves every marked order closed, not worked by the venue, or with a cancel that arrives within one cancel latency |
| `Deadlines.PollEnds` | src/wliq/execution/venue_paper.py:171-181 | A poll is never refused; one at or after the arrival of the cancel closes an order the venue works, and no other |
| `Deadlines.OverdueEndsIffWorked` | src/wliq/runtime.py:189-194 | In every session, ticks at any distance and refused reports included: an order overdue at one tick is closed by a tick a cancel latency later if and only if it was closed before that tick or the venue still works it |
| `Deadlines.DeadlinesEnd` | src/wliq/runtime.py:189-194 | In every session without a refused report, ticks at any distance: an order overdue at one tick is closed by any tick a cancel latency later, with no market data needed and even if fills reopen it as partial in between |
| `Deadlines.LostForever` | src/wliq/runtime.py:133-146 | An open acknowledged order that the venue no longer works is never closed by any session |
| `Deadlines.RefusalLoses` | src/wliq/runtime.py:133-146 | A refused report abandons the rest of its pass: an acknowledged open order visited later is lost if and only if it leaves the venue in that pass |
| `Deadlines.LateTickBreaksAgreement` | src/wliq/execution/order_manager.py:229-235 | An input: a passive limit order, one tick, a trade through its limit. The trade's handler raises if and only if the tick came at or after the deadline, when the manager expires what the venue still works |
| `Positions.PositionManager.OnEntryFill` | src/wliq/execution/positions.py:46-61 | A first fill opens with the signal's levels; a further one averages the price; only that symbol changes; only a sum of zero raises |
| `Positions.PositionManager.OnExitFill` | src/wliq/execution/positions.py:106-133 | Exits reduce by at most what is held, accumulate P&L and notional, and close with one trade record exactly when no more than dust is left |
| `Positions.OpenedConserves` | src/wliq/execution/positions.py:56-61 | A position just opened satisfies the conservation law |
| `Positions.AddedConserves` | src/wliq/execution/positions.py:49-55 | Averaging in keeps it: total cost is preserved |
| `Positions.ReducedConserves` | src/wliq/execution/positions.py:113-120 | Scaling out keeps it at any price, over-sized exits included |
| `Positions.ClosedTradeIsCash` | src/wliq/execution/positions.py:121-133 | A closed trade's P&L is the signed net cash of its round trip, up to dust, and its exit price is the average over the shares sold |
| `Positions.TermsOfEntry` | src/wliq/execution/positions.py:46-61 | A position has side, time and price of its first fill and levels, score, trace and action of its signal; later entries leave all but price and quantity as they are, and other symbols alone |
| `Positions.TermsThroughExit` | src/wliq/execution/positions.py:106-120 | Exits leave the terms and the entry price of what remains as they are, and other symbols alone |
| `Positions.ClosedTradeTerms` | src/wliq/execution/positions.py:121-129 | A closed trade carries the symbol, side, entry, opening time, trace, score and action of its position, and ends with the closing fill |
| `PositionLog.PositionEventLog.AppendFill` | src/wliq/execution/ledger.py:70-77 | Appends exactly one row |
| `PositionLog.NetRow` | src/wliq/execution/ledger.py:86-107 | One row nets into its own symbol: entries add at cost, exits remove at average cost, dust is dropped |
| `PositionLog.PositionEventLog.RebuildPositions` | src/wliq/execution/ledger.py:79-117 | The two loops rebuild one position per symbol with a net quantity, at its average cost |
| `PositionLog.RebuildExact` | src/wliq/execution/ledger.py:108-117 | Rebuilding one position is exact if and only if its quantity has reached the division floor and neither level is zero, or its price is zero |
| `PositionLog.AddedMirrors` | src/wliq/execution/ledger.py:96-97 | Quantity-and-cost stays equal to quantity-and-average through a scale-in |
| `PositionLog.ReducedMirrors` | src/wliq/execution/ledger.py:98-106 | An exit flattens log and book together or neither, and what is left still agrees |
| `Booking.BookMirrors` | src/wliq/runtime.py:154-166 | Each booking, and each crash, keeps the log and the live book in agreement |
| `Booking.RebuildEqualsLive` | src/wliq/execution/ledger.py:79-117 | After any bookings with any crashes among them, the rebuilt book equals the live one: symbols, side, quantity, price, opening time, levels, trace, action |
| `Booking.SettleSound` | src/wliq/execution/positions.py:46-133 | Each booking keeps the cash account of every round trip |
| `Booking.CashConserved` | src/wliq/execution/positions.py:46-133 | Between restarts, realized P&L is signed cash moved plus cost of what is held for each position, and the P&L of all closed trades is the signed cash of their round trips, up to dust |
| `Drawdown.RiskLedger.LoadDay` | src/wliq/execution/ledger.py:38-62 | The loop over the ledger gives the day's realized sum, losing streak, trade count and halt |
| `Drawdown.PortfolioRisk.Restore` | src/wliq/execution/risk2.py:52-57 | Restores realized P&L and halt from the ledger, and the high as the larger of zero and realized |
| `Drawdown.PortfolioRisk.OnTradeClosed` | src/wliq/execution/risk2.py:59-66 | Updates realized, high and halt, and writes a halt row exactly on the first crossing |
| `Drawdown.RiskManager.OnTradeClosed` | src/wliq/execution/risk.py:25-36 | Totals, streak and cooldowns after a closed trade, and the symbol no longer held |
| `Drawdown.RiskManager.Hold` | src/wliq/runtime.py:159 | The symbol of a booked entry is held |
| `Drawdown.StreakRestored` | src/wliq/execution/ledger.py:56-57 | The ledger's losing streak follows the live one through a trade exactly when it gained, or lost without starting the strategy cooldown |
| `Drawdown.LossPauses` | src/wliq/execution/risk.py:25-37 | A losing trade pauses its own symbol and no other for the symbol cooldown; the loss that completes a streak pauses the strategy and starts the streak over |
| `Drawdown.DayIs` | src/wliq/execution/ledger.py:38-62 | What is read for a day is the count and sum of its trades, the streak of trades without a gain it ends with, and whether its last halt is uncleared |
| `Drawdown.PeakIsMaximum` | src/wliq/execution/risk2.py:60-61 | The streamed high is attained by, and bounds, all prefix sums of the day's P&L, the empty one included |
| `Drawdown.HaltedIffDropped` | src/wliq/execution/risk2.py:59-66 | From a fresh start, trading is halted if and only if some prefix sum has dropped by the limit from an earlier one |
| `Drawdown.HaltWrittenOnce` | src/wliq/execution/risk2.py:59-66 | Over any trades and restarts of a day, a halt is recorded exactly once, and only if trading was halted |
| `Drawdown.NextInStep` | src/wliq/execution/risk2.py:52-66 | Trades and restarts keep governor and ledger in step, and never lift a halt |
| `Drawdown.RestartKeepsHalt` | src/wliq/execution/ledger.py:38-62 | A restart at any point of a day keeps halt and realized P&L and never reports a larger drawdown; it reports the same exactly when the day stood at its high or had never been above zero |
| `Drawdown.RestartForgetsHigh` | src/wliq/execution/risk2.py:52-57 | After a gain given back, a restart and a loss below the limit do not halt although the day has dropped by more than the limit |
| `Sizing.SizeBounds` | src/wliq/execution/risk.py:79-85 | The size risks at most the risk budget at the stop and costs at most the notional budget |
| `Sizing.SizeLargest` | src/wliq/execution/risk.py:79-85 | A whole number of shares is within the size if and only if it is within risk budget, notional budget and share limit |
| `Sizing.MultiplierBounds` | src/wliq/execution/risk2.py:93-108 | The multiplier lies between zero and the size cap for every regime, volatility and drawdown |
| `Sizing.LossNeverRaises` | src/wliq/execution/risk2.py:103-108 | A larger drawdown never raises the multiplier |
| `Sizing.LossSteps` | src/wliq/execution/risk2.py:103-108 | Where the multiplier without a drawdown is below the cap, exactly a quarter of it is left from the hard limit on, exactly half between the limits, all of it below |
| `Sizing.LossStepsAtCap` | src/wliq/execution/risk2.py:103-108 | At the cap, at least that share of it is left |
| `Sizing.VolatilityNeverRaises` | src/wliq/execution/risk2.py:98-102 | Above the dust volatility, a higher volatility never raises the multiplier |
| `Sizing.VolatilityTargeted` | src/wliq/execution/risk2.py:98-102 | Between floor and cap, multiplier times volatility is the regime weight times the target volatility, whatever the volatility |
| `Sizing.VolatilityClipped` | src/wliq/execution/risk2.py:98-102 | Beyond floor and cap, that share of the regime weight is left, up to the cap |
| `Sizing.RegimeWeight` | src/wliq/execution/risk2.py:95 | Without volatility and drawdown the multiplier is the weight of the regime, regimes below zero and above two counting as those, up to the cap |
| `Sizing.QuantityWithinBudget` | src/wliq/runtime.py:312 | The submitted quantity risks at most cap times the risk budget and costs at most cap times the notional budget |
| `Sizing.QuantityLargest` | src/wliq/runtime.py:312 | The submitted quantity is the largest whole number within the multiplied size |
| `Sizing.QuantityNeverRaised` | src/wliq/runtime.py:312 | Neither a larger drawdown nor, above dust, a higher volatility ever raises the submitted quantity |
| `Sizing.QuantityQuartered` | src/wliq/runtime.py:312 | From the hard limit on, the submitted quantity is the largest whole number of which four fit into the size without a drawdown |
| `Fsm.SignalStateMachine.Step` | src/wliq/strategy/fsm.py:101-203 | The stepwise evaluation of a track, all branches, is the specified one; other symbols are untouched |
| `Fsm.SignalStateMachine.OnPositionClosed` | src/wliq/strategy/fsm.py:82-86 | Any state goes to cooldown for the full time |
| `Fsm.SignalStateMachine.OnEntryFill` | src/wliq/strategy/fsm.py:88-91 | Only ENTRY moves on to MANAGE |
| `Fsm.SignalStateMachine.OnEntryFailed` | src/wliq/strategy/fsm.py:93-99 | Only ENTRY backs off, for half a cooldown |
| `Fsm.OwnedStates` | src/wliq/strategy/fsm.py:112-113 | No evaluation changes a track whose order or position is out |
| `Fsm.RearmUnreachable` | src/wliq/strategy/fsm.py:189-192 | From a failed retest an evaluation leads to idle or entry only: the rearm edge cannot be taken |
| `Fsm.RetestNeverForgotten` | src/wliq/strategy/fsm.py:172-175 | The retest flag survives every step and every callback; `Retests` says what follows |
| `FsmRuns.AdvanceShape` | src/wliq/strategy/fsm.py:144-203 | An armed evaluation stays, falls back to idle, or takes the next edge within that state's dwell limits; it emits exactly on the last edge |
| `FsmRuns.SignalTiming` | src/wliq/strategy/fsm.py:101-203 | Every signal ends the five edges from idle to entry with no forbidden evaluation inside; its age lies between the confirmation wait and the sum of dwell limits plus one gap, the longest pause between armed evaluations; signals are at least half a cooldown and a confirmation wait apart |
| `FsmRuns.SignalLevels` | src/wliq/strategy/fsm.py:129-134 | Every signal's stop is strictly beyond all prices since the impulse, its target on the profit side, its score the largest residual since then and at least the threshold |
| `Evidence.SignalFadesImpulse` | src/wliq/strategy/fsm.py:118-203 | In every run a signal sells if and only if the residual of its impulse was positive, on an impulse above the thresholds, exhausted since, with the book leaning against it; stop and target lie at their exact distances and the score is the largest residual |
| `Evidence.NextStage` | src/wliq/strategy/fsm.py:101-203 | The state and the retest flag after any evaluation of an armed burst, decided from what was seen since its impulse |
| `Evidence.ArmsOnImpulse` | src/wliq/strategy/fsm.py:115-127 | An idle symbol is armed by exactly the tradable impulses |
| `Evidence.FallingBurstBuys` | src/wliq/strategy/fsm.py:101-203 | An input: a burst downwards ends in a buy with its stop below the low and its target above |
| `Evidence.ClosedRests` | src/wliq/strategy/fsm.py:82-110 | In every run, no signal of a symbol follows the close of its position before a full cooldown and a confirmation wait |
| `Evidence.BacksOffFor` | src/wliq/strategy/fsm.py:82-110 | Backing off ends to the moment: a full cooldown after a trade, half of one after a failed entry |
| `Retests.SignalHasRetest` | src/wliq/strategy/fsm.py:167-183 | Every signal of an episode that was armed with the flag clear follows an evaluation in EXHAUSTION of that same episode with the price back near the extreme, in every run |
| `Retests.SignalIffFlagCarried` | src/wliq/strategy/fsm.py:172-202 | Under the default thresholds, one and the same episode without a retest gives a signal if and only if the flag was set before its impulse |
| `Retests.SignalWithoutRetest` | src/wliq/strategy/fsm.py:118-127 | An input: a timely run from an unseen symbol whose signal has no retest in its own episode |
| `Engine.SessionEngine.OnOrderTerminal` | src/wliq/runtime.py:180-186 | The callback backs the signal off exactly for entries that ended unfilled, and forgets the order's signal and reason |
| `Engine.SessionEngine.BookFill` | src/wliq/runtime.py:154-178 | An entry fill reaches positions, risk manager, log and state machine only if its signal is pending; an exit fill reaches log and positions, and a closed trade both risk layers, ledger and state machine |
| `Engine.SessionEngine.OnFill` | src/wliq/runtime.py:148-178 | Manager, callbacks, then booking, in this order, with the state and exception the specification gives |
| `Engine.SessionEngine.OnTradeClosed` | src/wliq/runtime.py:166-176 | A closed trade updates totals, governor, ledger and track, a halt row coming before the trade's own |
| `Engine.SessionEngine.ApplyVenueEvent` | src/wliq/runtime.py:135-146 | Each kind of venue event changes the whole engine state as specified, the implicit cancel request included |
| `Engine.SessionEngine.ApplyVenueEvents` | src/wliq/runtime.py:133-146 | All events in order; an exception abandons the rest |
| `Engine.SessionEngine.OnTick` | src/wliq/runtime.py:189-194 | Sweep, callbacks, cancels, then the venue's acknowledgements |
| `Engine.SessionEngine.OnQuote` | src/wliq/runtime.py:226-230 | Venue, tick, then the evaluation |
| `Engine.SessionEngine.OnTrade` | src/wliq/runtime.py:241-243 | Venue, then tick |
| `Engine.SessionEngine.Evaluate` | src/wliq/runtime.py:269-292 | Exits come before data checks, and those before the state machine and its signal |
| `Engine.SessionEngine.SubmitEntry` | src/wliq/runtime.py:294-342 | Every refusal backs the signal off except a taken id; otherwise one sized order is created, marked and handed to the venue with its signal pending |
| `Engine.SessionEngine.IssueEntry` | src/wliq/runtime.py:317-321 | A sized entry takes the next id of its key; a taken id ends it without backing off |
| `Engine.SessionEngine.SubmitExit` | src/wliq/runtime.py:344-374 | Closes the whole position at market, one exit per symbol at a time |
| `Engine.SessionEngine.Recover` | src/wliq/runtime.py:110-119 | Restores exactly the rebuilt positions and their symbols, the open orders of the journal, and the day's totals and halt |
| `EngineRuns.SweepProgress` | src/wliq/execution/order_manager.py:159-163 | A sweep keeps requests and closed orders and reports exactly the orders it closes |
| `EngineRuns.HandleSound` | src/wliq/runtime.py:133-186 | One venue event with its callbacks and booking, taken or refused, raises exactly where the manager does and keeps pending work, log, totals and tracks sound |
| `EngineSessions.FedRest` | src/wliq/runtime.py:226-243 | A handler of market data moves the orders as the bare order protocol does, raised or not, and keeps the invariant of the whole engine, at any time |
| `EngineSessions.StepEnters` | src/wliq/strategy/fsm.py:185-202 | A track enters ENTRY exactly with a signal, at the signal's time, and stop and target are not zero |
| `EngineSessions.SizedBacks` | src/wliq/runtime.py:312-321 | The order of a signal carries its symbol, side and trace, at least one share, and stays within the budgets |
| `EngineSessions.IssueCovered` | src/wliq/core/journal.py:46-55 | Within a session the next id is neither recorded nor in use, and issuing it keeps that so |
| `EngineSessions.NextRest` | src/wliq/runtime.py:189-375 | Every event of the engine, at any time and raised or not, keeps the invariant of pending work, bookings, totals, tracks and ids |
| `EngineSessions.NextAgrees` | src/wliq/runtime.py:189-243 | A timely event raises nothing and keeps the two books of orders in agreement |
| `EngineSessions.OrdersAgree` | src/wliq/runtime.py:133-146 | In every timely session: nothing the venue reports is refused, filled quantities equal reported fills, and the venue works no closed order |
| `EngineSessions.PendingIffOpen` | src/wliq/runtime.py:180-186 | In every session, at any tick spacing and with any refusals: a signal is pending for exactly the open entry orders, a reason for exactly the open exits, each pending signal matches its order, sized within its budgets, and no symbol has two open entries or two open exits |
| `EngineSessions.BooksAgree` | src/wliq/runtime.py:154-176 | In every session, at any tick spacing and with any refusals: the position log would rebuild exactly the live positions, both risk layers and the ledger hold the total P&L of the closed trades, and the risk manager holds exactly the symbols with a position |
| `Acceptance.CreatedUnless` | src/wliq/execution/order_manager.py:128-149 | The manager refuses a request if and only if its id is known, it is an entry of a symbol with an open entry, or the cap has no room |
| `Acceptance.ExitAccepted` | src/wliq/runtime.py:344-374 | In every session, an exit that is due is accepted exactly when no exit of the symbol is open and the cap has room at the mid price, open entries notwithstanding: then one market order for exactly the opposite of the position is open at manager and venue; else nothing changes |
| `Acceptance.EntryAccepted` | src/wliq/runtime.py:294-342 | In every session, a signal becomes an order exactly when the gates approve, no entry of its symbol is open, the scaled size is a share or more, and the cap has room at the mid price: then its order, with the plan of the entry, is the one open entry of the symbol at manager and venue; else no order is added and the symbol leaves ENTRY |
| `Acceptance.QuietEvaluation` | src/wliq/runtime.py:269-292 | With no exit to send, an emergency or a failed data check changes nothing, and an evaluation without a signal moves its track only |
| `Acceptance.EvaluatedUnlessRefused` | src/wliq/runtime.py:226-239 | A quote is evaluated after venue and tick, unless a report was refused |
| `Acceptance.EndingBacksOff` | src/wliq/runtime.py:180-186 | An ended order makes its symbol back off for half the cooldown exactly if it was an unfilled entry the symbol still waited for; no other track moves |
| `Acceptance.QuotesRemembered` | src/wliq/execution/venue_paper.py:105 | In every session, orders are placed against the last quote of their symbol |
| `Exits.ExitsOppose` | src/wliq/runtime.py:344-374 | In every session, an open exit is for a held symbol, on the side opposite to the position, with no more to fill than is held; an exit ends only by being filled |
| `Exits.ExitsOnlyReduce` | src/wliq/runtime.py:167-169 | In every session, every booked exit was on the side opposite to what the log held of its symbol and for no more than that |
| `Exits.ReasonsLost` | src/wliq/runtime.py:148-186 | In every session, every closed trade is recorded with the default reason |
| `Exits.ManagedIsHeld` | src/wliq/strategy/fsm.py:88-91 | In every session, a symbol is managed only while it has a position |
| `EngineSessions.EntryHasOrder` | src/wliq/runtime.py:180-184 | In every session, while a symbol is in ENTRY its newest entry order is open, unfilled and that of the signal which led there, or was filled; new ids are never taken |
| `EngineSessions.CompletingUnbooked` | src/wliq/runtime.py:148-165 | The fill that completes an entry order changes neither position, log nor track |
| `EngineSessions.EntryFillBookedIffOpen` | src/wliq/runtime.py:154-165 | A fill of an open entry order adds its log row if and only if it leaves more than dust to fill; the completing one changes neither position, log nor track |
| `Stranding.FillStrandsIffComplete` | src/wliq/runtime.py:180-186 | A fill of the only open order of a waiting symbol without a position strands the symbol, in ENTRY with no order and no position, if and only if it completes the order |
| `Stranding.StrandedForever` | src/wliq/strategy/fsm.py:112-113 | A stranded symbol stays so through every session: it never gets an order or a position again |
| `Stranding.StrandingSession` | src/wliq/runtime.py:148-186 | An input: a session from a fresh engine under default thresholds that strands its symbol |
| `Recovery.RestartMatchesLive` | src/wliq/runtime.py:110-119 | At any moment of any session, at any tick spacing, a restart on its files has exactly the live open orders (request, state, at most the filled quantity), the same positions and held symbols, realized P&L and halt |
| `Restored.RestoredNeverEnds` | src/wliq/execution/ledger.py:143-149 | Through every session after a restart a restored order keeps state and fills for ever, and no other order of its symbol and intent is ever created |
| `Restored.RestoredExitHoldsPosition` | src/wliq/runtime.py:356-358 | A position with a restored exit is never closed by any session after the restart |
| `Isotonic.MergeLevels` | src/wliq/ml/model.py:42-43 | The merged level is the weighted mean |
| `Isotonic.PoolAdjacentViolators` | src/wliq/ml/model.py:39-49 | The backtracking loop ends with nondecreasing levels whose blocks cover the sample, each the mean of its labels with no prefix averaging below it |
| `Isotonic.PavFit` | src/wliq/ml/model.py:33-50 | The returned lists describe such blocks: levels keyed by the last score of each, for any way of breaking ties in the sort |
| `Isotonic.Projection` | src/wliq/ml/model.py:33-50 | Against every nondecreasing sequence, the fit's squared error is smaller by at least the squared distance between the two |
| `Isotonic.ProjectionUnique` | src/wliq/ml/model.py:33-50 | No other nondecreasing sequence does as well |
| `Isotonic.ExpandNondecreasing` | src/wliq/ml/model.py:40-49 | The fitted step function is nondecreasing |
| `Isotonic.MassConserved` | src/wliq/ml/model.py:42-46 | Pooling conserves label mass over every prefix of blocks |
| `Isotonic.PredictMonotone` | src/wliq/ml/model.py:53-58 | Predictions are nondecreasing in the score |
| `Isotonic.PredictUntrained` | src/wliq/ml/model.py:53-55 | Without training scores a prediction is even |
| `Isotonic.PredictInRange` | src/wliq/ml/model.py:53-58 | Predictions stay within the range of the labels |
| `Isotonic.PredictAtTraining` | src/wliq/ml/model.py:56-58 | At a training score the prediction is never below the fitted value, and equal to it at scores that end no block |
| `Isotonic.ReproducesFitIffFlat` | src/wliq/ml/model.py:56-58 | Prediction reproduces the fit at every training score if and only if all levels are equal |
| `Regression.EwMoments.Update` | src/wliq/features/residual.py:20-25 | The two accumulators stay the exponentially weighted sums over all samples |
| `Regression.OlderByOne` | src/wliq/features/residual.py:22-23 | Ageing a batch sum by one sample multiplies it by the decay |
| `Regression.DecayIsBatch` | src/wliq/features/residual.py:22-23 | One streaming step equals recomputing the closed-form sum with the new sample |
| `Regression.EwMoments.UnitUntilEvidence` | src/wliq/features/residual.py:27-30 | Until thirty samples with variance above the floor, the slope is one |
| `Regression.LossIsQuadratic` | src/wliq/features/residual.py:27-31 | The weighted squared error is the quadratic in the slope that the moments define |
| `Regression.ClampMinimises` | src/wliq/features/residual.py:27-31 | Clamping the vertex gives the least value of the quadratic on the interval |
| `Regression.EwMoments.BetaIsLeastSquares` | src/wliq/features/residual.py:27-31 | With thirty samples and variance above the floor, no slope within the clamp has a smaller weighted squared error than the one returned |

## Left out

- Broker SDK, streaming, live adapter, reconciler, command line, dashboard, logging and the OUFS event stream: I/O.
- JSON encoding, file appends and torn last lines: a file is a sequence of well-formed records.
- Quality gate and recorders: events they drop do not reach the model; `on_depth` and `on_noii` only feed features.
- Feature engine, governor, anomaly check, regime, learned models other than the calibration: their outputs are the
  arbitrary inputs of an evaluation (`Engine.Decision`).
- The gates of both `approve` functions, exposure sums and cooldown checks included: one arbitrary answer `approved`.
- `plan_entry`, the retry ladder and the evaluation throttle: an arbitrary plan, and evaluation at arbitrary quotes.
- `check_exits`, which also updates excursions and the adverse count: an arbitrary wish to exit, effective only if
  there is a position, as in the original.
- Decision prices, execution analytics, feature store, heartbeat and health: they influence nothing modelled.
- The reserved risk sum, and of the risk manager's positions all but their symbols: only the gates read them.
- Free-text reasons and event names in journals, histories and venue events, and the metadata of a request.
- Floating point: rounding, NaN and infinities. The gross cap of infinity is the absent cap.
- Aliasing: orders, working orders, positions and tracks are values inside the maps of their owner, so a reference
  kept elsewhere does not follow updates.
- Time inside a handler: one reading per handler, so a wall clock that moves during it is not captured.
- A session is one trading day for the risk ledger; day changes occur in the ledger's own model only.
- Sessions that go on after a recovery keep what `Restored` states; pending work and bookings are stated for sessions
  from empty files, and a restart is compared with the live engine at any moment of one.
- Callbacks run after the manager's method instead of inside it; they touch nothing the manager reads.
- Unicode digits in ids: only the ten ASCII digits count as digits.
- `PaperBroker.cancel`, and an unknown status or a malformed row when the journal is replayed.
- Engine.SessionEngine.Recover: does not model the reconciliation with a live account, because that is I/O.
- Engine.SessionEngine.SubmitEntry: does not model the gates of the two `approve` functions, because they are
  independent branch-by-branch checks; any answer of theirs is covered.
- Positions.PositionManager.OnExitFill: carries excursions and resets the adverse count, but nothing here updates
  either, because `check_exits` is left out.
