# CryptoFlow: verified core

A Dafny model of the parts of the CryptoFlow trading back end where behaviour is decided
by arithmetic, by long-lived state or by interleaving, with proofs of what those parts
promise. `dafny verify dfyconfig.toml` checks everything.

| file | component |
|---|---|
| `Common`, `Decimal` | Math functions over exact reals; decimal numerals as the exchange writes them |
| `Sizing`, `Validation` | order sizing against the exchange's lot rules, and the validator that must accept the result |
| `Indicators`, `IndicatorLaws`, `SignalEngine`, `SignalLaws`, `IndicatorForms` | SMA / EMA / RSI / ATR and what they measure, the signal score and what it says of the tape, and the three separately written indicator sets |
| `RefreshRotation` | refresh-token rotation with a grace window, interleaved request by request |
| `AtrBracket` | the advanced bot's stop / take-profit / trailing bracket |
| `CexLot`, `CexLotProofs`, `CexExits`, `CexTrailing` | the Binance Super Machine's lot: buy, skim, exits, ghost clear, manual desk |
| `SelfCustody` | browser-signed swaps: build registry and the ledger of partial sells |
| `DailyCaps` | the Jupiter Super Machine's daily caps, cooldown and re-entrancy flag |
| `TradeRank`, `Council`, `CouncilLaws` | candidate ranking; the two agent councils and which way they lean |
| `QuoteCache`, `CandleCache` | cached and rescaled quotes with bounded retries; candle arrays shared by several caches and rescaled in place |
| `PaperLedger` | paper fills, the trade / deposit / withdrawal ledger |

Conventions. Numbers are exact reals: IEEE rounding is outside the model, and the
roundings the code performs on purpose (1e-8, cents, BigInt division, `toFixed`) are in
it, as are the slacks it adds to comparisons (1e-12, 1e-10, 1e-8). NaN, null and undefined
are `None`; thrown errors are `Err`. Time is an integer of milliseconds that never goes
back. Prisma tables are sequences or maps; HTTP, exchange and LLM replies are parameters.
Ticks and handlers are atomic, except in `RefreshRotation`, where every query and write is
a step of its own, and in `DailyCaps`, where a tick is split at its awaits.
Imperative source is modelled by classes, loops and in-place updates; each method's
`ensures` ties the new state to a function, and the lemmas are about that function.

## What turned out not to hold

Each of these is proved as an exact condition, with an input on which the property fails.

- A lot's trailing peak is its own history, except after the manual desk flattens a lot:
  the desk clears six of the eleven open fields, so peak, overrides and banked profit pass
  to the next lot unless they were empty (`CexTrailing.DeskFlattenLeaksUnlessBare`;
  failing run `StalePeakSurvivesDeskSell`, `StalePeakSellsEarly`).
- The daily trade cap is per tick start, not per calendar day. A calendar day exceeds it
  exactly when its own ticks used it up, a tick begun before midnight was recorded on it,
  and none of its own was recorded after it; and then by one
  (`DailyCaps.CalendarCapsHold`; failing run `TwoTradesOnOneDay`).
- An open-and-close on an uncrossed book gains exactly when the entry price lies under the
  1e-12 price floor less both fees (`PaperLedger.OpenCloseGainsIff`; failing input
  `DustGains`, over exact prices; a stored entry is rounded to eight digits).
- A self-custody sell with a zero exit price books no loss
  (`SelfCustody.BookedPnlIsExactIff`; failing input `ZeroExitBooksNothing`).
- The window RSI reads 50 on flat closes where the Wilder forms read 100
  (`IndicatorAgreement.WindowAgreesUnlessFlat`; failing inputs `FlatReadings`).
- A sized quantity is refused by the validator exactly when the budget covers no step and
  neither minimum asks for one (`Validation.RefusedExactlyWhenZero`; failing input
  `ZeroQuantityIsRefused`).
- Retry slippage is non-decreasing exactly for callers starting at or below 2000
  (`QuoteCache.BumpRaisesIff`; failing inputs `BumpLowersAboveCap`). The callers that set a
  bound clamp to 2000 themselves, so these are inputs of the exported function.
- In the Binance council the two-vote clause never decides for the votes that council
  assembles, because its technical voter is never offline
  (`CexCouncil.CoreClauseNeverDecides`); on other votes it would
  (`OfflineTechnicalWouldDecide`).

Code and comments disagree in two places, and the model follows the code: the ATR bracket
calls its take-profit 2:1 but places it as far away as the stop
(`src/services/bot/advancedBot.ts:142`), and the order call's error branch throws inside
its own `try`, so errors it does not call retryable are retried as well
(`src/services/dex/jupiterClassicService.ts:233-247`).

## Model

| member | source | states |
|---|---|---|
| Decimal.PrintParse | packages/binance-executor/src/sizing.ts:30 | printing any grid value with d fraction digits gives a plain numeral that reads back as the same units with exactly d digits |
| Decimal.ToFixedParse | packages/binance-executor/src/sizing.ts:59-60 | parseFloat undoes toFixed on every multiple of 10^-d |
| Decimal.CountDecimalsDropZero | packages/binance-executor/src/sizing.ts:3-6 | a trailing zero of the fraction does not count |
| Decimal.CountDecimalsExact | packages/binance-executor/src/sizing.ts:3-6 | without trailing zeros every fraction digit counts |
| Decimal.OnOwnGrid | packages/binance-executor/src/sizing.ts:3-6 | every numeral is a whole number of 10^-countDecimals units, so that many digits lose nothing |
| Sizing.QuantityRoundTrip | packages/binance-executor/src/sizing.ts:17-30 | any whole number of steps, printed at the step's digits, reads back as exactly that multiple |
| Sizing.StepsToReachIsLeast | packages/binance-executor/src/sizing.ts:21 | the ceiling is the least step count reaching an amount, both directions |
| Sizing.BudgetStepsIsGreatest | packages/binance-executor/src/sizing.ts:18 | the floor is the greatest step count the quantity covers, to within the slack, both directions |
| Sizing.EightDigitRulesAreGridded | packages/binance-executor/src/sizing.ts:11-15 | eight-digit filters with a step under 10^4 lie on a grid on which the 1e-12 slacks cannot be mistaken for a unit |
| Sizing.RoundedIsLotSteps | packages/binance-executor/src/sizing.ts:18-23 | floor-then-lift equals max(floor(quantity/step), ceil(minQty/step)) on the grid |
| Sizing.LotClosedForm | packages/binance-executor/src/sizing.ts:18-30 | on the grid the rounding never ends below minQty and its outcome is the closed form |
| Sizing.SizedClosedForm | packages/binance-executor/src/sizing.ts:36-64 | on the grid the whole sizing is the maximum of its three bounds, with the error of the bound that fails |
| Sizing.SizedFits | packages/binance-executor/src/sizing.ts:24-30 | for all filters a returned count is non-negative, within the lot bounds and meets the minimum notional |
| Sizing.LotCoversQuantity | packages/binance-executor/src/sizing.ts:18-30 | rounding leaves less than a step of the quantity unused, and exceeds it only when one step fewer would miss minQty |
| Sizing.SizedCoversQuantity | packages/binance-executor/src/sizing.ts:39-64 | the same of the whole sizing, with the minimum notional as the other reason to exceed |
| Sizing.SizedZeroIff | packages/binance-executor/src/sizing.ts:18-24 | zero steps are returned exactly when the budget covers no step and neither minimum asks for one |
| Sizing.AdjustQuantityToLotSize | packages/binance-executor/src/sizing.ts:11-31 | for every filter the error or the printed multiple; on the grid exactly max(floor(quantity/step), ceil(minQty/step)) steps, or AboveMaxQty exactly when they do not fit |
| Sizing.PrintAndPrice | packages/binance-executor/src/sizing.ts:59-60 | the string printed at the step's digits, and a notional that is the price of the exact multiple |
| Sizing.BumpToNotional | packages/binance-executor/src/sizing.ts:52-63 | from a printed quantity the loop ends at exactly max(its steps, least count whose notional suffices), and fails exactly when that passes maxQty |
| Sizing.StepsShort | packages/binance-executor/src/sizing.ts:52-60 | the loop's guard holds exactly while steps are missing |
| Sizing.UsdNotionalToBaseQuantity | packages/binance-executor/src/sizing.ts:36-64 | for every input which of the six errors or which multiple as which string; on the grid the count is the maximum of budget, minimum quantity and minimum notional, and success is exactly fitting maxQty |
| Sizing.MeetNotional | packages/binance-executor/src/sizing.ts:40-63 | the second half, from the rounded string to the sizer's result |
| Sizing.PrintedPrice | packages/binance-executor/src/sizing.ts:66-68 | pricing the printed string is pricing the exact multiple: printing and parsing lose nothing |
| Sizing.SizerFits | packages/binance-executor/src/sizing.ts:36-64 | whatever the sizer hands out fits the lot and meets the notional |
| Sizing.SizerSpendsBudget | packages/binance-executor/src/sizing.ts:36-64 | for every result: one step more would cost more than the budget, and the budget is exceeded only when one step fewer would miss a minimum, to within 1e-12 of a step |
| Sizing.SizerZeroIff | packages/binance-executor/src/sizing.ts:36-64 | the inputs on which the sizer hands out zero, exactly |
| Validation.SizedQuantityIsAccepted | packages/binance-executor/src/validation.ts:8-47 | every string the sizer may hand out is accepted and read back as the same multiple, exactly unless it is zero |
| Validation.AcceptedMeans | packages/binance-executor/src/validation.ts:8-47 | an accepted string is a canonical print of a positive quantity within the bounds and within a millionth of a step of a multiple |
| Validation.NotionalMeans | packages/binance-executor/src/validation.ts:50-61 | the notional check passes exactly for a positive price and an order worth the minimum, to 1e-8 |
| Validation.PositiveMinimumIsNonZero | packages/binance-executor/src/validation.ts:14-16 | a minimum quantity above the slack rules the zero out |
| Validation.SizedQuantityMeetsNotional | packages/binance-executor/src/validation.ts:50-61 | a sized quantity passes the minimum-notional check at the sizing price |
| Validation.SizedPasses | packages/binance-executor/src/validation.ts:8-61 | every sizer result passes both checks, but for the zero count |
| Validation.RefusedExactlyWhenZero | packages/binance-executor/src/validation.ts:8-47 | the sizer succeeds and the validator refuses exactly when usd/price/step + 1e-12 < 1, minQty <= 1e-12 and minNotional <= 1e-8 |
| Validation.SizeThenValidate | packages/binance-executor/src/validation.ts:8-61 | on any filters a sized quantity passes the notional check, and passes the quantity check exactly unless the inputs size to zero |
| Validation.ZeroQuantityIsRefused | packages/binance-executor/src/validation.ts:14-16 | half a unit's worth of money without minimums: the sizer returns "0" and the validator refuses it |
| Indicators.EmaBounds | packages/bot/signalEngine.ts:15-35 | an EMA never leaves the range of its inputs |
| Indicators.RsiRange | packages/bot/signalEngine.ts:37-64 | RSI lies in [0, 100] for every series and period |
| Indicators.EmaScales | packages/bot/signalEngine.ts:15-35 | scaling all inputs scales every EMA |
| Indicators.RsiUnitFree | packages/bot/signalEngine.ts:37-64 | RSI does not change with the price unit |
| Indicators.AtrScales | packages/bot/signalEngine.ts:66-90 | ATR scales with the price unit |
| IndicatorLaws.RsiIsShareOfRises | packages/bot/signalEngine.ts:52-60 | RSI is the share of the average rise in all average movement, in percent |
| IndicatorLaws.RsiMonotone | packages/bot/signalEngine.ts:52-60 | more rises never lower RSI, more falls never raise it |
| IndicatorLaws.NeverFallingReads100 | packages/bot/signalEngine.ts:37-64 | closes that never fall read 100 |
| IndicatorLaws.NeverRisingReads0 | packages/bot/signalEngine.ts:37-64 | closes that never rise, and fell once, read 0 |
| IndicatorLaws.EmaLag | packages/bot/signalEngine.ts:15-35 | the EMA of a straight line lags exactly (period - 1) / 2 steps behind it, which singles out the weight 2 / (period + 1) |
| IndicatorLaws.GapShrinks | packages/bot/signalEngine.ts:56-61 | Wilder smoothing closes one period-th of the gap per step |
| IndicatorLaws.WilderBounds | packages/bot/signalEngine.ts:66-90 | Wilder averages never leave the range of their inputs |
| IndicatorLaws.TrueRangeIsSpan | packages/bot/signalEngine.ts:66-80 | the true range is the span of the bar together with the close before it |
| SignalEngine.SmaSeries | packages/bot/signalEngine.ts:6-13 | the loop's entries are the window means, undefined before the first full window |
| SignalEngine.EmaSeries | packages/bot/signalEngine.ts:15-35 | the loop's entries are the recursive EMA seeded by the first mean |
| SignalEngine.SmoothedRsi | packages/bot/signalEngine.ts:40-63 | seed and smoothing loops give the Wilder averages of rises and falls at every index |
| SignalEngine.RsiSeries | packages/bot/signalEngine.ts:37-64 | the loop's entries are the Wilder RSI of rises and falls |
| SignalEngine.AtrSeries | packages/bot/signalEngine.ts:66-90 | the loop's entries are the Wilder ATR, including the array growth on short input |
| SignalEngine.ThresholdRange | packages/bot/signalEngine.ts:122-133 | required confidence and margin ranges over all inputs; the upper clamps are never reached |
| SignalEngine.ScoreSignalFromKlines | packages/bot/signalEngine.ts:163-254 | the loops produce exactly the score on the reference indicators, whose meaning the `SignalLaws` rows give |
| SignalEngine.ScoreUnitFree | packages/bot/signalEngine.ts:163-254 | rescaling all prices by c > 0 and all volumes by d > 0 changes nothing the engine returns |
| SignalEngine.SignalSound | packages/bot/signalEngine.ts:198-254 | confidence is a probability; a directional signal clears its floor and beats the other side |
| SignalLaws.TrendMeaning | packages/bot/signalEngine.ts:180-184 | UP exactly when the fast EMA is 0.2% above the slow one and not above the close, so that the close is over 1.002 times the slow EMA; DOWN its mirror image |
| SignalLaws.MonotoneTrend | packages/bot/signalEngine.ts:180-184 | closes that never fall are never DOWN, closes that never rise never UP |
| SignalLaws.ScoresFollowTrend | packages/bot/signalEngine.ts:219-229 | the buy score strictly rises, and the sell score strictly falls, from DOWN to FLAT to UP |
| SignalLaws.ScoresFollowRsi | packages/bot/signalEngine.ts:201-217 | how both sides move with RSI within each band |
| SignalLaws.RsiCorners | packages/bot/signalEngine.ts:201-217 | the oscillator terms at the ends of their bands |
| SignalLaws.ScoresFollowTape | packages/bot/signalEngine.ts:122-133 | volume never lowers and volatility never raises a score; volatility raises bar and margin, volume lowers them |
| SignalLaws.TapeTermsStrict | packages/bot/signalEngine.ts:122-133 | strictly so until each term is exhausted, and where that is |
| SignalLaws.ScoreGap | packages/bot/signalEngine.ts:222-229 | buy score minus sell score is 0.38 times the oscillator tilt plus or minus 0.224 for the trend |
| SignalLaws.TrendDecides | packages/bot/signalEngine.ts:231-242 | whatever volatility and volume, an up-trend is BUY up to an RSI of 79, a down-trend SELL unless RSI lies between 35 and 45 |
| SignalLaws.ExtremesDecide | packages/bot/signalEngine.ts:231-242 | at RSI 100 every trend but DOWN is SELL; at 0 a flat tape is BUY and a falling one SELL |
| SignalLaws.SignalFollowsTape | packages/bot/signalEngine.ts:163-254 | the same of the signal of any kline series |
| SignalLaws.NeverFallingTapeIsSold | packages/bot/signalEngine.ts:163-254 | every priced tape that never falls reads RSI 100, never DOWN, and is SELL |
| SignalLaws.NeverRisingTape | packages/bot/signalEngine.ts:163-254 | every priced tape that never rises, and fell once, reads RSI 0, and is SELL while DOWN and BUY once flat |
| SignalLaws.FeatureMeaning | packages/bot/signalEngine.ts:185-196 | volatility is ATR in percent of the last close, volume ratio the last volume over its 20-bar mean |
| TechnicalIndicators.Ema | src/services/agents/technicalAgent.ts:36-44 | the last-value loop computes the reference EMA at the last index |
| TechnicalIndicators.SmoothMoves | src/services/agents/technicalAgent.ts:48-62 | the accumulators end as the Wilder averages at the last index |
| TechnicalIndicators.Rsi | src/services/agents/technicalAgent.ts:46-66 | the last-value loop computes the reference Wilder RSI at the last index |
| DexSignalMath.Rsi | src/lib/dexSignalMath.ts:14-28 | the window loop computes the RSI of the last period moves, 50 without any move |
| DexSignalMath.WindowMoves | src/lib/dexSignalMath.ts:16-23 | the loop sums rises and falls of the last period moves |
| IndicatorAgreement.FlatIffNoMoves | src/lib/dexSignalMath.ts:14-28 | a series is flat exactly when its rises and falls both sum to zero |
| IndicatorAgreement.WindowAgreesUnlessFlat | src/lib/dexSignalMath.ts:14-28 | on period + 1 closes the window RSI equals the Wilder RSI if and only if the closes are not all equal |
| IndicatorAgreement.FlatReadings | src/lib/dexSignalMath.ts:25 | on every flat series longer than the period the window form reads 50 and the Wilder form 100 |
| IndicatorAgreement.CompareEma | src/services/agents/technicalAgent.ts:36-44 | for every series the last-value EMA is the last entry of the series form, and all entries stay within the inputs' range |
| IndicatorAgreement.CompareRsi | src/services/agents/technicalAgent.ts:46-66 | for every series the last-value RSI is the last entry of the series form; the window form joins them exactly on non-flat minimal input |
| RefreshRotation.AuthStore.CreateRefreshSession | src/routes/auth.ts:137-151 | adds one live row that expires after the refresh lifetime |
| RefreshRotation.AuthStore.RevokeRefreshSessionByToken | src/routes/auth.ts:153-164 | stamps the token's row only if it was not revoked yet |
| RefreshRotation.AuthStore.RememberRefreshGrace | src/routes/auth.ts:174-187 | the token becomes redeemable for 45 s; the clean-up drops expired entries only |
| RefreshRotation.AuthStore.ConsumeRefreshGrace | src/routes/auth.ts:189-199 | redeems exactly the unexpired entries, for their own user |
| RefreshRotation.LiveForSevenDays | src/routes/auth.ts:137-151 | a new session is live for exactly seven days |
| RefreshRotation.RevokedForFortyFiveSeconds | src/routes/auth.ts:153-171 | revoking ends that at once, leaves exactly 45 s of grace and touches no other session |
| RefreshRotation.RememberedForFortyFiveSeconds | src/routes/auth.ts:174-199 | the in-memory grace lasts exactly 45 s and drops no other valid entry |
| RefreshRotation.InvariantOverRuns | src/routes/auth.ts:506-597 | every interleaving of refreshes, logins and logouts keeps the session, grace and request invariants |
| RefreshRotation.EveryReachableState | src/routes/auth.ts:506-597 | the invariant holds in every state reachable from an empty store |
| RefreshRotation.PassedCookieIsDead | src/routes/auth.ts:517-557 | a cookie the loop moves past is invalid, of an unknown user, expired, or revoked beyond the grace window |
| RefreshRotation.RefusedOnlyWhenDead | src/routes/auth.ts:559-566 | a 401 implies that none of the presented cookies was live or within grace |
| RefreshRotation.HoldsThroughRun | src/routes/auth.ts:517-557 | while the token stays live or within grace no interleaving moves its request past it |
| RefreshRotation.CarryingThroughRun | src/routes/auth.ts:517-566 | while one of its cookies stays live or within grace no interleaving refuses a request |
| RefreshRotation.LiveExactlyUntil | src/routes/auth.ts:153-164 | over any run an unrevoked session is live exactly until it expires or a logout or revoking step names it |
| RefreshRotation.CreatedWasLive | src/routes/auth.ts:583-586 | whatever a request created was new and live at the step that created it |
| RefreshRotation.NoTabIsLoggedOut | src/routes/auth.ts:517-589 | under any interleaving, a finished request that carries, anywhere among its cookies, a token that was live or within 45 s of revocation while the request was checking has succeeded: one session of its own for the user of the cookie it matched, live when made and exactly until it expires or is named by a revocation; that cookie is not live |
| RefreshRotation.RefreshedExactlyOnce | src/routes/auth.ts:568-589 | from an empty store every finished refresh made exactly one session, unshared, for the same user and live, and its old token is not live |
| RefreshRotation.SessionsAreAccountedFor | src/routes/auth.ts:137-151 | every session comes from a login or from exactly one refresh |
| RefreshRotation.RequestsMakeProgress | src/routes/auth.ts:506-589 | every step of a request lowers a measure, so each is answered in bounded steps |
| RefreshRotation.NextStepIsEnabled | src/routes/auth.ts:506-589 | an unfinished request always has a next step |
| AtrBracket.BotState.Tick | src/services/bot/advancedBot.ts:118-191 | new state and exit kind as a function of the old state and the market input |
| AtrBracket.BotState.OpenPosition | src/services/bot/advancedBot.ts:193-279 | the state after an open; `BuyPlacesBracket` says what bracket that is |
| AtrBracket.BotState.ClosePosition | src/services/bot/advancedBot.ts:285-310 | books the reply and clears every field, or does nothing at all |
| AtrBracket.BracketKept | src/services/bot/advancedBot.ts:118-191 | every tick keeps a symmetric bracket while long and a cleared state while flat |
| AtrBracket.BuyPlacesBracket | src/services/bot/advancedBot.ts:220-227 | a buy from flat places stop and target exactly two of its own ATR readings around its own fill, with a fresh trail |
| AtrBracket.BracketStays | src/services/bot/advancedBot.ts:118-191 | nothing moves the bracket until it is closed |
| AtrBracket.LevelsClose | src/services/bot/advancedBot.ts:136-147 | an answered, readable tick is a stop-loss exactly at or under fill - 2 ATR, a take-profit exactly at or over fill + 2 ATR, and a position left open lies strictly between |
| AtrBracket.TrailMeaning | src/services/bot/advancedBot.ts:150-161 | the trail only rises, to 1.5 ATR under a price more than one ATR over entry; a trailing exit is such a price at or under it |
| AtrBracket.TrailStaysLow | src/services/bot/advancedBot.ts:150-161 | with ATR at 0.8 of entry or more the trail stays under the prices that could test it |
| AtrBracket.TrailingExitNeedsContraction | src/services/bot/advancedBot.ts:126-162 | over every run in which no ATR read while a position is open is below 0.8 of the reading its buy was placed with, no trailing exit fires |
| AtrBracket.NoTrailingExitFromStart | src/services/bot/advancedBot.ts:118-191 | the same from a fresh bot over any number of positions |
| AtrBracket.BelowEightTenthsItFires | src/services/bot/advancedBot.ts:150-161 | 0.8 is sharp: for every fill, reading and smaller positive ratio, a buy and two ticks at that ratio of the reading fire the trailing exit |
| AtrBracket.EquityIsBooked | src/services/bot/advancedBot.ts:285-310 | over any run equity moves by exactly the profits of the closes |
| CexLot.ToOpenLong | src/services/agents/cexSuperMachineService.ts:90-108 | a row yields a lot only with positive quantity and entry |
| CexLot.SuperMachine.BookSkim | src/services/agents/cexSuperMachineService.ts:549-562 | the row after a skim fill |
| CexLot.SuperMachine.SkimPositionProfit | src/services/agents/cexSuperMachineService.ts:305-366 | the manual skim: refused, failed or booked |
| CexLot.SuperMachine.ManageLot | src/services/agents/cexSuperMachineService.ts:464-645 | the exit decision and every update it makes; `CexExits.LotIsKeptIff` says which |
| CexLot.SuperMachine.TickUser | src/services/agents/cexSuperMachineService.ts:441-708 | the whole tick as a function of row and inputs; the `CexExits` rows say what becomes of the lot |
| CexLotProofs.SliceQtyRange | src/services/agents/cexSuperMachineService.ts:284-286 | a slice is at most half the lot and positive exactly when money was spent |
| CexLotProofs.SliceIsGreatest | src/services/agents/cexSuperMachineService.ts:284-286 | the slice is the largest sale within half the lot, the profit at the mark and 98% of the free balance |
| CexLotProofs.ProfitIsShareOfCost | src/services/agents/cexSuperMachineService.ts:279-284 | the profit is the money spent times the relative rise |
| CexLotProofs.SkimGoesAheadIff | src/services/agents/cexSuperMachineService.ts:282-297 | a skim is unblocked exactly on a rise above 0.05% of a lot that cost something, with a slice worth $5.50 |
| CexLotProofs.TooSmallMeansNoCost | src/services/agents/cexSuperMachineService.ts:287-289 | the 90% guard is never the blocking reason: the refusal occurs exactly for a lot without cost |
| CexLotProofs.SkimSellsOnlyProfit | src/services/agents/cexSuperMachineService.ts:278-299 | for a lot at cost: after an unblocked skim the base kept, at the mark, is worth at least the cost; a fully filled slice keeps exactly the cost if and only if neither the half-lot cap nor the free-balance cap binds |
| CexLotProofs.HalfCapBindsIff | src/services/agents/cexSuperMachineService.ts:284-285 | the half-lot cap binds exactly when the mark is more than twice the entry |
| CexLotProofs.BuyBooksAtCost | src/services/orders/orderService.ts:142-147 | for every order reply, what is booked as paid per unit times the units filled is the money booked as spent: a reported average always comes with the quote it was made of |
| CexLotProofs.BuyIsAtCost | src/services/agents/cexSuperMachineService.ts:689-708 | a council buy sets quoteSpent = entryPrice * baseQty |
| CexLotProofs.DeskBuyIsAtCost | src/services/trading/cexManualTradingService.ts:459-505 | a desk buy, new or added to the lot, keeps the lot at cost |
| CexLotProofs.DeskSellIsAtCost | src/services/trading/cexManualTradingService.ts:527-556 | a desk sell takes its share of the cost along |
| CexLotProofs.LotsAreAtCost | src/services/agents/cexSuperMachineService.ts:441-708 | over every run of ticks, skims, override changes, desk buys and desk sells, each open lot has quoteSpent = entryPrice * baseQty |
| CexLotProofs.ReachableSkimSellsOnlyProfit | src/services/agents/cexSuperMachineService.ts:278-299 | in every reachable state an unblocked skim keeps base worth at least the cost at the mark; a fully filled slice exactly the cost if and only if the mark is at most twice the entry and the free balance covers the profit |
| CexLotProofs.SkimBooks | src/services/agents/cexSuperMachineService.ts:351-366 | one skim keeps average cost and positive base and banks the realized profit |
| CexLotProofs.TickCarries | src/services/agents/cexSuperMachineService.ts:464-645 | a tick the lot survives keeps its cost basis and books its sale |
| CexLotProofs.ManualCarries | src/services/agents/cexSuperMachineService.ts:305-366 | a manual skim or override change does the same |
| CexLotProofs.LotConservation | src/services/agents/cexSuperMachineService.ts:351-366 | over any run on one lot: constant average cost, positive base, proceeds = banked profit + entry price of the base sold |
| CexExits.LotIsKeptIff | src/services/agents/cexSuperMachineService.ts:496-534 | a tick that can act leaves the lot if and only if the mark lies strictly between its stop and target and has not trailed out, and skims it if and only if the target is hit, skimming is on, 45 s have passed and the slice is unblocked; otherwise it sells all |
| CexExits.StopLossSells | src/services/agents/cexSuperMachineService.ts:474-476 | at or under the stop, 0.35% at most once skimmed, the whole lot is sold |
| CexExits.TakeProfitSells | src/services/agents/cexSuperMachineService.ts:496-510 | at or over the target the lot is sold or skimmed |
| CexExits.NothingSoldWithoutExits | src/services/agents/cexSuperMachineService.ts:495-535 | with exits off, no mark or no answer the lot is kept |
| CexExits.GhostIsCleared | src/services/agents/cexSuperMachineService.ts:450-465 | a lot of which less than a twentieth is held is dropped |
| CexExits.BuysAreSpaced | src/services/agents/cexSuperMachineService.ts:669-676 | a tick buys only without a held lot, eight minutes after the last buy, for $5 or more |
| CexExits.OverridesSetLevels | src/services/agents/cexSuperMachineService.ts:233-253 | an override sent becomes the level, null gives it back to the settings, and nothing else changes |
| CexExits.DeskMovesBase | src/services/trading/cexManualTradingService.ts:471-556 | desk trades move the base of their own symbol by what was filled; a sell leaving 5% or less ends the lot |
| CexTrailing.BuyStartsClean | src/services/agents/cexSuperMachineService.ts:110-122 | after a full clear the next lot inherits no peak, skim or override |
| CexTrailing.PeakIsThisLotsMaximum | src/services/agents/cexSuperMachineService.ts:511-522 | over any run the stored peak is the maximum mark over this lot's trailing-branch ticks |
| CexTrailing.PeakNeverFalls | src/services/agents/cexSuperMachineService.ts:511-522 | over any run that does not end the lot, desk trades included, the stored peak never falls and its history is only added to |
| CexTrailing.TrailingSaleIsJustified | src/services/agents/cexSuperMachineService.ts:523-530 | a trailing sale needs an own peak at activation, a mark at or under the floor, and a mark above entry |
| CexTrailing.DeskFlattenLeaksUnlessBare | src/services/trading/cexManualTradingService.ts:527-545 | a flattening desk sell leaves a clean row if and only if overrides, peak and banked profit were empty |
| CexTrailing.StalePeakSurvivesDeskSell | src/services/trading/cexManualTradingService.ts:533-545 | a run in which a new lot inherits the old peak |
| CexTrailing.StalePeakSellsEarly | src/services/agents/cexSuperMachineService.ts:523-530 | the inherited peak sells a lot its own history would keep |
| SelfCustody.SwapService.PruneBuilds | src/services/dex/jupiterBrowserSwapService.ts:75-80 | the loop leaves exactly the builds within 90 s |
| SelfCustody.SwapService.RegisterBuild | src/services/dex/jupiterBrowserSwapService.ts:204-216 | pruned registry plus the new build |
| SelfCustody.SwapService.SubmitSwap | src/services/dex/jupiterBrowserSwapService.ts:264-394 | books a fill exactly for an unexpired quote of the same user that decodes and executes; its id is spent; errors change no trade |
| SelfCustody.OldestOpen | src/services/dex/jupiterBrowserSwapService.ts:333-336 | the first open lot of that user and pair, none before it |
| SelfCustody.SellSplitsAllocation | src/services/dex/jupiterBrowserSwapService.ts:338-361 | allocation = closed + remaining + write-off; the write-off is at most $0.50 and only from a closing partial sell |
| SelfCustody.SellClosesShare | src/services/dex/jupiterBrowserSwapService.ts:340-349 | selling a share f < 0.95 of the booked quantity closes exactly f of the allocation; 95% or more closes all |
| SelfCustody.PriceTimesBase | src/services/dex/jupiterBrowserSwapService.ts:296-303 | effective price times base is the quote moved, on both sides |
| SelfCustody.ExactPnlIsMove | src/lib/roundTripPnl.ts:70-74 | the exact profit of a slice is its base times the move of the price |
| SelfCustody.AllocationIsValue | src/services/dex/jupiterBrowserSwapService.ts:294-295 | a buy is allocated its dollar value to 0.5e-8, or nothing when that is all it is worth |
| SelfCustody.BookedPnlIsExactIff | src/lib/roundTripPnl.ts:70-74 | booked profit is within 0.5e-8 of the exact one if and only if the exit is positive, the entry missing or the slice negligible |
| SelfCustody.ZeroExitBooksNothing | src/lib/roundTripPnl.ts:70-74 | a total loss that is booked as zero |
| SelfCustody.BookingBalances | src/services/dex/jupiterBrowserSwapService.ts:312-394 | one BUY, partial SELL, full SELL or orphan SELL moves the totals by exactly its parts |
| SelfCustody.SellTouchesOldestOnly | src/services/dex/jupiterBrowserSwapService.ts:333-394 | a sell changes at most the oldest open lot |
| SelfCustody.LedgerConservation | src/services/dex/jupiterBrowserSwapService.ts:312-394 | over any run by any users: all allocation ever bought = open + closed slices + write-offs, and stored profit is within n * 0.5e-8 of the exact sum |
| SelfCustody.ClosedLotIsFinal | src/services/dex/jupiterBrowserSwapService.ts:333-336 | no later run touches a closed lot |
| SelfCustody.LotConservation | src/services/dex/jupiterBrowserSwapService.ts:337-361 | over any run, one lot's allocation = open remainder + slices closed on it + one write-off of at most $0.50 made only by the closing sell; when the sells on it have a price its stored profit is within n * 0.5e-8 of the exact slice sum |
| TradeRank.ComparatorIsKeyOrder | src/services/agents/candidateRank.ts:2-10 | for tieBand > 0 the comparator is exactly descending totalScore + tieBand * isMajor, key ties to the non-major |
| TradeRank.ComparatorIsTransitive | src/services/agents/candidateRank.ts:2-10 | the tie band does not break transitivity |
| TradeRank.ScoreRange | src/services/agents/jupiterRiskAgent.ts:46-86 | every total score lies in [0.14, 1] |
| TradeRank.PassesIff | src/services/agents/jupiterRiskAgent.ts:122-156 | a token passes exactly if watched, strong or rising as required, liquid, not held, and up no more than 8% / 20% / 60% in 5 min / 1 h / 24 h |
| TradeRank.ScoreMonotone | src/services/agents/jupiterRiskAgent.ts:53-86 | more volume or a higher suggestion score never lower the score |
| TradeRank.ScoreWeights | src/services/agents/jupiterRiskAgent.ts:156-158 | momentum counts 0.65 and volume 0.35 |
| TradeRank.MomentumTerms | src/services/agents/jupiterRiskAgent.ts:62-86 | what board signal, hourly and daily change add to a middling score |
| TradeRank.VolumeTiers | src/services/agents/jupiterRiskAgent.ts:53-60 | the tiers of daily volume |
| TradeRank.CandidatesAreThePassing | src/services/agents/jupiterRiskAgent.ts:142-167 | the candidates are precisely the suggestions passing all filters, with their scores |
| TradeRank.InsertionPoint | src/services/agents/jupiterRiskAgent.ts:169 | everything before the point ranks no worse than the new candidate, everything after strictly behind it |
| TradeRank.StableSort | src/services/agents/jupiterRiskAgent.ts:169 | a ranked permutation that keeps the order of equals |
| TradeRank.RankTokens | src/services/agents/jupiterRiskAgent.ts:136-171 | filter, score and sort yield the stable ranking of the candidates |
| TradeRank.StableSortIsUnique | src/services/agents/jupiterRiskAgent.ts:169 | ranked and stable determines the list, so any sort algorithm gives this one |
| TradeRank.ShortlistIsBest | src/services/agents/jupiterRiskAgent.ts:251 | no candidate outside the first three ranks ahead of one inside |
| Votes.TechnicalVoteRange | src/services/agents/technicalAgent.ts:165-283 | confidence in [0.3, 0.95]; BUY exactly on a bullish cross with strength, sound candles, no overbought RSI and no adverse context; AVOID exactly when overbought or on a weak bearish cross |
| Votes.TechnicalBuyConfidence | src/services/agents/technicalAgent.ts:209-283 | a technical BUY starts at 0.55, is 0.1 surer in the healthy RSI band, and ends at 0.9 |
| Votes.StrengthAddsConfidence | src/services/agents/technicalAgent.ts:209-283 | a stronger trend never makes a BUY less confident |
| Tally.TallyVotes | src/services/agents/councilService.ts:385-397 | the loop's sums are the weighted sums over online votes, and vetoedBy is the first vetoer; the `CouncilLaws` rows give their direction |
| Tally.TallyRange | src/services/agents/councilService.ts:389-397 | the weighted sum never exceeds the total weight in size |
| Tally.ConsensusRange | src/services/agents/councilService.ts:399 | consensus is in [0, 1] |
| Tally.ConsensusIsMean | src/services/agents/councilService.ts:399 | consensus at a bar above one half means a weighted mean score of at least 2 * bar - 1 |
| JupiterCouncil.ThresholdAntitone | src/services/agents/councilService.ts:131-139 | the bar is in [0.60, 0.68] and never rises with the win rate |
| JupiterCouncil.GatesHold | src/services/agents/councilService.ts:205-221 | after the gates an online vote has confidence 0.63, a core BUY 0.72 |
| JupiterCouncil.RawVotesInRange | src/services/agents/councilService.ts:241-372 | the assembled votes are probabilities whatever the inputs |
| JupiterCouncil.CoreClauseNeverDecides | src/services/agents/councilService.ts:403-410 | the core-aligned clause is implied by three BUY votes for all votes |
| JupiterCouncil.Evaluate | src/services/agents/councilService.ts:374-412 | BUY exactly under its conditions, on the consensus of the gated votes; every BUY has three distinct online BUY voters, no strong AVOID and a mean score of at least 0.20 |
| CexCouncil.RawVotesWellFormed | src/services/agents/cexCouncilService.ts:86-234 | the assembled votes, the veto that replaces the technical vote without candles included, meet what the tally relies on |
| CexCouncil.CoreClauseNeverDecides | src/services/agents/cexCouncilService.ts:256-257 | for assembled votes the two-vote clause never decides |
| CexCouncil.OfflineTechnicalWouldDecide | src/services/agents/cexCouncilService.ts:256-257 | on arbitrary votes it would |
| CexCouncil.Evaluate | src/services/agents/cexCouncilService.ts:240-272 | BUY exactly under its conditions, on the consensus of the votes; three online BUY voters, no strong AVOID, mean score at least 0.24, order size within wallet and cap |
| CouncilLaws.NoAvoidNotNegative | src/services/agents/councilService.ts:106-110 | without an AVOID the tally is not negative, and positive once somebody online buys |
| CouncilLaws.NoBuyNotPositive | src/services/agents/councilService.ts:106-110 | without a BUY it is not positive, and negative once somebody online avoids |
| CouncilLaws.ConsensusLeans | src/services/agents/councilService.ts:389-399 | nobody buying never passes one half, nobody avoiding never falls below it |
| CouncilLaws.ConsensusRises | src/services/agents/councilService.ts:389-399 | turning one online vote from AVOID to HOLD to BUY at the same confidence strictly raises the consensus |
| CouncilLaws.UnanimousConsensus | src/services/agents/councilService.ts:389-399 | whatever the weights, unanimous BUY, AVOID or HOLD at confidence c is a consensus of (1 + c)/2, (1 - c)/2 or 1/2 |
| CouncilLaws.JupiterUnanimous | src/services/agents/councilService.ts:374-412 | seven equal votes of 0.72 or more with the risk analyst agreeing are bought exactly if they say BUY, whatever the record |
| CouncilLaws.WeightFollowsAccuracy | src/services/agents/councilService.ts:200-203 | weights in [0.6, 1.4] never fall with accuracy; no record weighs as 50% |
| CouncilLaws.GatesLetThrough | src/services/agents/councilService.ts:205-221 | which votes pass the gates unchanged, go offline, or become a HOLD that still counts |
| CouncilLaws.BarFollowsRecord | src/services/agents/councilService.ts:131-139 | the bar as a function of the win rate |
| CouncilLaws.JupiterVotersLean | src/services/agents/councilService.ts:255-372 | order book, sentiment and volatility votes follow the sign of what they read |
| CouncilLaws.JupiterCoreLeans | src/services/agents/councilService.ts:241-330 | when momentum and risk buy or avoid |
| CouncilLaws.LopsidedIsSurer | src/services/agents/councilService.ts:340-372 | a more lopsided book never votes with less confidence, in both councils |
| CouncilLaws.CexVotersLean | src/services/agents/cexCouncilService.ts:107-234 | the same directions in the Binance council |
| CouncilLaws.CexHubLeans | src/services/agents/cexCouncilService.ts:86-234 | momentum, volatility and risk votes in terms of the hub, the move and the wallet |
| CouncilLaws.OrderSizeIsGreatest | src/services/agents/cexCouncilService.ts:259-262 | the order is at least every whole-cent amount within the cap and 95% of the wallet, and within both |
| QuoteCache.FindNewest | src/services/dex/jupiterClassicService.ts:94-110 | the loop finds the newest usable entry of the pair, the first inserted among equals, or none exactly when none is usable |
| QuoteCache.ScaleOut | src/services/dex/jupiterClassicService.ts:118 | scaled * cachedAmt <= out * amount < (scaled + 1) * cachedAmt: the rate never beats the cached one |
| QuoteCache.StaleCachedOrderByMints | src/services/dex/jupiterClassicService.ts:85-126 | serves a quote exactly when the newest entry leaves at least one unit, and then its rescaled form |
| QuoteCache.ResolveStaleQuote | src/services/dex/jupiterClassicService.ts:128-133 | the exact key wins while unexpired; a rescaled quote is served only without it; None exactly when neither exists |
| QuoteCache.BumpRaisesIff | src/services/dex/jupiterClassicService.ts:225-249 | a retry never lowers slippage if and only if it started at or below 2000 |
| QuoteCache.BumpLowersAboveCap | src/services/dex/jupiterClassicService.ts:229 | every caller starting above 2000 asks for less on its first retry |
| QuoteCache.SlippageSchedule | src/services/dex/jupiterClassicService.ts:229 | the slippage of successive retries: 50, 150 and 300 bps over the start, 2000 at most |
| QuoteCache.QuotesAreRecent | src/services/dex/jupiterClassicService.ts:77-83 | a stale quote is at most 45 s old, one served at once under 2.5 s |
| QuoteCache.PutKeepsDistinct | src/services/dex/jupiterClassicService.ts:237 | storing a quote keeps one entry per key |
| QuoteCache.QuoteService.Fail | src/services/dex/jupiterClassicService.ts:203-250 | after a failed attempt: back-off exactly on a refusal, slippage bumped exactly otherwise, and a stale quote exactly when one is asked for and can be resolved |
| QuoteCache.QuoteService.Attempt | src/services/dex/jupiterClassicService.ts:195-250 | one attempt: a success is the answer and is stored when quoting; otherwise a stale quote exactly when asked for and resolvable, and exactly which error, back-off and next slippage |
| QuoteCache.QuoteService.Fetch | src/services/dex/jupiterClassicService.ts:189-254 | the retry loop: bounded attempts, rising capped slippage, stops at the first success or stale quote |
| QuoteCache.QuoteService.GetOrder | src/services/dex/jupiterClassicService.ts:141-255 | at most 2 or 4 attempts, the first success is returned, slippage rises and stays within 2000, every answer's origin, and what is cached |
| CandleCache.AlignInPlace | src/services/dex/jupiterCandleService.ts:216-233 | rescaling in place equals the alignment on values |
| CandleCache.ScaleEach | src/services/dex/jupiterCandleService.ts:220-225 | the loop multiplies the four prices of every candle once, where it lies |
| CandleCache.AlignShared | src/services/dex/jupiterCandleService.ts:216-233 | aligning one array moves no array kept apart from it |
| CandleCache.CandleService.FetchGecko | src/services/dex/jupiterCandleService.ts:70-103 | a cached array is handed out as the same objects, otherwise a fresh one is stored |
| CandleCache.CandleService.Resolve | src/services/dex/jupiterCandleService.ts:169-207 | a request joins the fetch in flight for its key, or fetches; exchange, on-chain, last good or nothing; slots hold the same array or disjoint ones; a new array holds the bars of the reply |
| CandleCache.CandleService.FetchFresh | src/services/dex/jupiterCandleService.ts:170-179 | the fetched array is a cached one, or shares nothing with any and holds the bars of the reply |
| CandleCache.CandleService.BeginRequest | src/services/dex/jupiterCandleService.ts:181-207 | the request waits with the array that became the last good series, or degraded with none |
| CandleCache.CandleService.FinishRequest | src/services/dex/jupiterCandleService.ts:209-254 | the waiting array is aligned in place and no other moves |
| CandleCache.CandleService.TakeStep | src/services/dex/jupiterCandleService.ts:181-254 | the effect of any one step on any one array, held or not |
| CandleCache.CandleService.GetAlignedCandles | src/services/dex/jupiterCandleService.ts:167-254 | one uninterrupted request: a held array is aligned for every slot that holds it, a newly fetched one is the reply aligned, no other array moves; a degraded answer is one fresh flat bar |
| CandleCache.CandleService.ServeAll | src/services/dex/jupiterCandleService.ts:181-254 | over any interleaving of requests a shared array ends as its start refreshed by the live prices of exactly the answers that were this array, in order |
| CandleCache.CandleService.ServeAllUniformly | src/services/dex/jupiterCandleService.ts:181-254 | over any interleaving with positive live prices the shared array stays OHLC-consistent, its last close is the last live price it was answered at, and all other bars carry one common factor F with F * skipped = live / original close |
| CandleCache.FactorsMultiplyOut | src/services/dex/jupiterCandleService.ts:216-226 | applied scales times dead-band-skipped scales carry the first close to the last live price |
| CandleCache.DeadBand | src/services/dex/jupiterCandleService.ts:219 | a skipped scale lies within 0.05% of one, an applied one outside |
| CandleCache.LastBarIsStretched | src/services/dex/jupiterCandleService.ts:227-232 | the last bar reaches the live price and no further: each end is its own, scaled, or the live price |
| CandleCache.AfterKeepsOhlc | src/services/dex/jupiterCandleService.ts:216-233 | over any run low <= open, close <= high on every bar and the last close is the last live price |
| CandleCache.AfterScales | src/services/dex/jupiterCandleService.ts:219-226 | every bar but the last is its original times the product of the applied scales |
| CandleCache.RefreshesScaleUniformly | src/services/dex/jupiterCandleService.ts:216-233 | over any run of positive live prices: every bar stays OHLC-consistent, the last close is live, all other bars carry one common factor F with F * skipped = live / original close |
| PaperLedger.Bps | packages/bot/paperRealism.ts:13-25 | fee and slippage settings always land in their allowed range |
| PaperLedger.DefaultCosts | packages/bot/paperRealism.ts:8-25 | without a usable setting both costs are ten basis points |
| PaperLedger.SlippageInBps | packages/bot/paperRealism.ts:38-47 | slippage moves a fill by exactly its basis points, against the trader on both sides |
| PaperLedger.RoundTripCostsBothFees | packages/bot/paperRealism.ts:49-66 | a round trip at one price returns (1 - fee)^2 of the allocation |
| PaperLedger.ProceedsInProportion | packages/bot/paperRealism.ts:49-66 | proceeds grow in proportion to the exit price |
| PaperLedger.PaperDesk.PaperOpenPosition | packages/bot/paperExecution.ts:5-24 | one open row at the slipped ask, nothing else |
| PaperLedger.PaperDesk.PaperClosePosition | packages/bot/paperExecution.ts:49-82 | closes and books an open row of that user; otherwise changes nothing |
| PaperLedger.PaperDesk.Deposit | src/routes/deposit.ts:12-41 | row and credit together, 404 without a portfolio |
| PaperLedger.PaperDesk.Withdraw | src/routes/withdraw.ts:11-47 | succeeds exactly when the balance covers the amount, and leaves it non-negative |
| PaperLedger.RunExplains | packages/bot/paperExecution.ts:67-82 | no run changes the part of a portfolio that its rows do not explain |
| PaperLedger.LedgerConservation | packages/bot/paperExecution.ts:67-82 | over any run by any users, wallet change = deposits - withdrawals + closed profits recorded in the rows, and running profit moves by the same profits |
| PaperLedger.ClosedRowsAreFinal | packages/bot/paperExecution.ts:56-59 | no run changes a closed row, and closing it again changes nothing at all |
| PaperLedger.DisplayedIsBooked | src/positions/positionService.ts:28-39 | the profit displayed at a bid is the profit a close at that bid books |
| PaperLedger.OpenCloseGainsIff | packages/bot/paperRealism.ts:38-75 | on an uncrossed book opening and closing gains if and only if the entry price is under the price floor less both fees |
| PaperLedger.DustGains | packages/bot/paperRealism.ts:45-47 | at half the price floor an open-and-close without costs doubles the money |
| PaperLedger.OpenCloseNeverGains | packages/bot/paperRealism.ts:38-75 | with the ask at 1e-12 or above it never gains, for any allowed fee, slippage and allocation |
| DailyCaps.WalletCapAndReserve | src/services/agents/superMachineService.ts:134-140 | when the wallet cap respects the reserve and when the minimum overrides it; from $15 on it is 55% of the wallet to half a cent, or all but the reserve |
| DailyCaps.CalculateDynamicSize | src/services/agents/superMachineService.ts:463-484 | the branches compute the clamped multiplier, rounded to cents |
| DailyCaps.MultiplierRange | src/services/agents/superMachineService.ts:470-482 | multiplier in [0.5, 1.65]: the 1.8 clamp never binds, the 0.5 clamp exactly when all three penalties meet |
| DailyCaps.OneTermAtATime | src/services/agents/superMachineService.ts:470-480 | an average tick trades its cap, and what confidence, win rate and streak each change |
| DailyCaps.LargestTrade | src/services/agents/superMachineService.ts:470-482 | the multiplier is 1.65 exactly when all three bonuses meet |
| DailyCaps.SizeFollowsRecord | src/services/agents/superMachineService.ts:470-482 | more confidence or a better win rate never make the trade smaller |
| DailyCaps.SizeFollowsStreak | src/services/agents/superMachineService.ts:478-480 | a win streak raises, and a loss streak lowers, the trade |
| DailyCaps.CapIsLarger | src/services/agents/superMachineService.ts:600-612 | the effective cap is the larger of saved and wallet cap in auto-scan, the saved one otherwise |
| DailyCaps.SavedCapRises | src/services/agents/superMachineService.ts:604-611 | saving never lowers the cap and keeps it within fifty cents of the effective one |
| DailyCaps.SizeIsCapped | src/services/agents/superMachineService.ts:463-484 | a trade is at most 1.65 times its cap plus half a cent |
| DailyCaps.SuperMachine.EnterWatcher | src/services/agents/superMachineService.ts:908-926 | a running watcher is left alone; otherwise the flag is taken and the row fetched if it is on |
| DailyCaps.SuperMachine.ResetDailyCountersIfNeeded | src/services/agents/superMachineService.ts:431-440 | counters are zeroed exactly when the fetched day key is not today |
| DailyCaps.SuperMachine.CheckCaps | src/services/agents/superMachineService.ts:581-615 | passes exactly under both caps and after the cooldown; yields the effective cap and saves a larger one |
| DailyCaps.SuperMachine.CommitBuy | src/services/agents/superMachineService.ts:774-829 | buys only while switched on; the counters written come from the row read at the start |
| DailyCaps.InvariantOverRuns | src/services/agents/superMachineService.ts:561-942 | every guarded interleaving keeps the row equal to the log and every tick's snapshot current |
| DailyCaps.LawfulIsCapped | src/services/agents/superMachineService.ts:581-588 | a log whose every trade was allowed when it came obeys both caps on every day |
| DailyCaps.TradesAreSpaced | src/services/agents/superMachineService.ts:590-598 | in such a log any two trades are a cooldown apart for each trade between them |
| DailyCaps.StraddlersBalance | src/services/agents/superMachineService.ts:431-440 | trades recorded on a day plus those straddling out = trades counted against it plus those straddling in |
| DailyCaps.OneStraddler | src/services/agents/superMachineService.ts:908-912 | at most one trade straddles into a day and at most one out of it |
| DailyCaps.CalendarCapExceededIff | src/services/agents/superMachineService.ts:821-829 | for lawful logs, when a calendar day exceeds its cap, exactly |
| DailyCaps.CalendarDayExceedsByAtMostOne | src/services/agents/superMachineService.ts:431-440 | a calendar day records at most one trade beyond those counted against it |
| DailyCaps.DailyCapsHold | src/services/agents/superMachineService.ts:581-588 | over every guarded run each day has at most maxDailyTrades trades, and volume under maxDailyVolumeUsd plus the last trade |
| DailyCaps.CooldownHolds | src/services/agents/superMachineService.ts:590-598 | over every guarded run caps are checked at least (j - i) times 2 (aggressive), 10 (one symbol) or 3 (auto-scan) minutes after trade i was recorded |
| DailyCaps.CalendarCapsHold | src/services/agents/superMachineService.ts:431-440 | over every guarded run a calendar day records more than its cap if and only if its own ticks used the cap up, one tick straddles midnight into it and none straddles out of it; and then one more |
| DailyCaps.TwoTradesOnOneDay | src/services/agents/superMachineService.ts:821-829 | a guarded run that reaches that extra trade |
| DailyCaps.UnguardedTicksLoseAnUpdate | src/services/agents/superMachineService.ts:908-912 | without the flag two ticks exceed a cap of one and one update is lost |

## Left out

- IEEE double rounding: all statements are over exact reals, so ties and slacks are exact.
- Column precision: rows keep the exact value written, where the database rounds to the column's digits.
- Malformed exchange filters: rule strings are plain decimal numerals, as the exchange sends them; `parseFloat` on anything else is not modelled.
- Sizing.UsdNotionalToBaseQuantity: the closed form is stated for filters on a common grid and keeps the 1e-12 slack inside the budget floor, because a real budget is not on the grid and the slack can be visible there; for all other filters the contract gives the result by the same floor, lift and bump counts.
- SignalEngine.ScoreSignalFromKlines: reason texts are not modelled, and klines arrive already fetched.
- RefreshRotation: JWT signing and hashing are unforgeable unique ids; cookie parsing, access tokens and user deletion are left out; a new session row is assumed to be written within the seven days its token lasts.
- AtrBracket.BotState.ClosePosition: the profit of a close is an input; the live branch's mark minus entry and the paper branch's booked profit are two of its values.
- CexLot: `pair` and `openedAt` are presentation fields and absent from the row; the fire-and-forget peak write is assumed to land in order; overlapping ticks are not modelled, since nothing guards them.
- CexLotProofs.LotConservation: fills are assumed not to exceed the quantity asked for, and desk trades end the stretch it speaks about.
- SelfCustody.LedgerConservation: its profit half is stated for runs whose sells have a positive price, which `BookedPnlIsExactIff` shows to be needed.
- TradeRank.StableSort: the sort of the JavaScript engine is replaced by an insertion sort; `StableSortIsUnique` shows that the result does not depend on the choice.
- Council: how each voter obtains its raw reading (LLM, order book, sentiment) is an input; decision history and accuracy bookkeeping are left out.
- QuoteCache.QuoteService.GetOrder: throttling and rate-limit waits only move the clock and appear as the clock readings passed in; BigInt is read on decimal digits only.
- CandleCache.CandleService.Resolve: the Maps and the local variables of waiting requests are one map keyed by slot, and what a fetch will return is known when it starts.
- PaperLedger: strategy ids, pairs, logs and the recorded withdrawal fee, which the ledger never debits, are left out; other writers of the portfolio are not part of this model.
- DailyCaps.DailyCapsHold: limits stay fixed over a run, one user's row is followed (rows of other users are never written by its ticks), and the last on/off look-up, the swap and the write are one step.
- Backtests, route scoring, the meta policy, Kelly sizing, order reconciliation, limit orders, fee optimisation, the Jupiter position watcher, HTTP, sockets and Telegram: they would only add easier members or rest on files and functions outside this model.
