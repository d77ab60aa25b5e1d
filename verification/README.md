# BotNaught betting decision, modelled in Dafny

BotNaught is a poker-playing bot served over HTTP. For every request the game
server sends a snapshot of the hand (the seats with their chips, hole cards
and evaluator rank, the community cards, the current bet and the list of
legal actions), and the bot's service answers with one action: `fold`, the
call/check token, or `raise` with a number of chips. This project models that
decision, `basicBotnaughtService.Action` in
`botnaught/pkg/service/service.go`, and proves what it does rule by rule.

The decision runs in four steps, each modelled in `service.dfy`:

1. **Call/check token.** The legal actions are scanned and the last entry that
   reads `call` or `check` is kept (`""` if there is none).
   `ScanCallOrCheck` is the loop; `LastCallOrCheck` is its specification.
2. **Own seat.** The seats are scanned for the first one holding any hole
   cards. If none does, the zero-value player is used: no cards, 0 chips and
   rank 0. `FindSelf` is the loop; `SelfPlayer` is its specification.
3. **Pre-flop** (no community cards). The bot raises 20 on a pocket pair, that
   is, when the first characters of the two hole cards' text are equal.
   Otherwise it plays the call/check token. A seat with fewer than two hole
   cards makes the Go code index past the end of the slice. That runtime panic
   is modelled as `Failure(IndexOutOfRange)`.
4. **Post-flop** (`PostFlop`). A cascade on the evaluator rank, where lower is
   stronger and the first rule that applies wins:
   - unranked (rank 0 or below) → call/check;
   - rank ≥ 6186 → fold;
   - rank ≤ 1600 → raise by `chips − currentBet`, unclamped;
   - a current bet of at least 35% of the stack → fold;
   - rank 4000–6185 → call/check;
   - otherwise raise by `round(chips·(1 − 2·rank/10000)) − currentBet` if that is positive, else call/check.

The service value has no fields. Nothing is state: `Action` is a method
without a `modifies` clause, and `Decision` is the function it is proved
against. `action_properties.dfy` states each rule over a whole snapshot. It
also states when the bot folds or raises, in both directions, that the
mid-band stake is monotone in hand strength, and the scenarios of the unit
tests.

Two unit tests (ace-deuce and suited queen-deuce pre-flop)
expect a raise of 20. The code answers with the call/check token for both
hands, as `AceAndSuitedQueenScenarios` proves.

Files: `wrappers.dfy` (result types), `game.dfy` (the snapshot and action
values), `rounding.dfy` (Go's `math.Round` on an exact quotient),
`service.dfy` (the service), `action_properties.dfy` (the lemmas).

## Model

| member | source | states |
|---|---|---|
| `Service.LastCallOrCheck` | botnaught/pkg/service/service.go:27-34 | the token is "call", "check" or ""; it is "" exactly when no legal action is call/check; otherwise it is an entry with no call/check after it |
| `Service.ScanCallOrCheck` | botnaught/pkg/service/service.go:27-34 | the overwriting scan over the legal actions returns the last call/check entry |
| `Service.SelfPlayer` | botnaught/pkg/service/service.go:37-43 | the own seat is the first player holding hole cards, or the zero-value player when nobody holds any |
| `Service.FindSelf` | botnaught/pkg/service/service.go:37-43 | the scan that stops at the first seat with hole cards returns that seat, else the zero-value player |
| `Service.MidBandBet` | botnaught/pkg/service/service.go:85-86 | for a non-negative stack and a rank between 1601 and 3999, the proportional stake lies in [0, chips], and below chips for stacks of 2 or more |
| `Service.PostFlop` | botnaught/pkg/service/service.go:61-98 | the post-flop answer is fold, raise or the call/check token; non-raises carry value 0; an unranked hand calls/checks; only ranks 1–3999 raise; a mid-band raise is at least 1 and at most the stack |
| `Service.Decision` | botnaught/pkg/service/service.go:26-99 | the decision fails exactly pre-flop when the own seat has fewer than two hole cards; otherwise the action is one of fold/raise/call/check/"" and non-raises carry value 0 |
| `Service.Action` | botnaught/pkg/service/service.go:26-99 | the service operation (both scans, then the cascade) returns what `Decision` specifies, without changing any state |
| `Service.Health` | botnaught/pkg/service/service.go:23-25 | the health probe never reports an error |
| `Rounding.RoundHalfAway` | botnaught/pkg/service/service.go:86 | the result is within one half of n/d, and exact halves go away from zero, as `math.Round` does |
| `Rounding.RoundHalfAwayMonotone` | botnaught/pkg/service/service.go:85-86 | rounding preserves order |
| `ActionProperties.PreFlopPocketPair` | botnaught/pkg/service/service.go:49-59 | pre-flop with two hole cards the bot raises 20 if and only if their ranks match, and otherwise plays the call/check token |
| `ActionProperties.PreFlopWithoutSeatFails` | botnaught/pkg/service/service.go:37-50 | pre-flop with no seat holding cards, the hole-card read fails |
| `ActionProperties.PostFlopUnrankedCalls` | botnaught/pkg/service/service.go:61-98 | post-flop, an unranked hand calls/checks whatever the bet |
| `ActionProperties.PostFlopWithoutSeatCalls` | botnaught/pkg/service/service.go:37-43 | post-flop with no seat holding cards, the zero-value player calls/checks |
| `ActionProperties.PostFlopWeakHandFolds` | botnaught/pkg/service/service.go:62-66 | rank 6186 or worse folds |
| `ActionProperties.PostFlopStrongHandAllIn` | botnaught/pkg/service/service.go:67-72 | rank 1–1600 raises by exactly chips − currentBet, which is 0 or negative once the bet reaches the stack |
| `ActionProperties.PostFlopLargeBetFolds` | botnaught/pkg/service/service.go:73-77 | rank 1601–6185 facing a bet of at least 35% of the stack folds |
| `ActionProperties.PostFlopMediumHandCalls` | botnaught/pkg/service/service.go:78-84 | rank 4000–6185 facing a bet under 35% of the stack calls/checks (the rank ≤ 6185 guard always holds there) |
| `ActionProperties.PostFlopMidBand` | botnaught/pkg/service/service.go:85-98 | rank 1601–3999 facing a smaller bet raises by stake − bet when that is positive, else calls/checks; the raise is in [1, chips], and below chips from 2 chips up |
| `ActionProperties.PostFlopFoldsIff` | botnaught/pkg/service/service.go:61-98 | post-flop the bot folds if and only if rank ≥ 6186, or rank is 1601–6185 and the bet is at least 35% of the stack |
| `ActionProperties.PostFlopRaisesIff` | botnaught/pkg/service/service.go:61-98 | post-flop the bot raises if and only if rank is 1–1600, or rank is 1601–3999, the bet is small and the stake tops it |
| `ActionProperties.MidBandBetMonotone` | botnaught/pkg/service/service.go:85-86 | a stronger mid-band hand never stakes less |
| `ActionProperties.PreFlopCheckScenario` | botnaught/pkg/service/service_test.go:35-82 | ten-deuce pre-flop calls |
| `ActionProperties.AceAndSuitedQueenScenarios` | botnaught/pkg/service/service_test.go:84-181 | ace-deuce and suited queen-deuce pre-flop call, not raise 20 as those tests expect |
| `ActionProperties.FlopCallScenario` | botnaught/pkg/service/service_test.go:183-232 | an unranked flop hand with no bet calls |
| `ActionProperties.FlopMatchCallScenario` | botnaught/pkg/service/service_test.go:234-290 | a flop pair of deuces (rank 4000–6185) facing a bet of 5 calls |

## Left out

- Console diagnostics (`println`, `fmt.Println`): output only, no effect on the result.
- `NewBasicBotnaughtService` and `New`: wiring over a `Middleware` type that is not part of this model.
- The HTTP handlers and go-kit endpoints: JSON transport and type assertions that only forward to the service.
- The card library and hand evaluator: a card is a (rank character, suit character) pair, and the hand rank is an input integer.
- Seat fields the decision never reads (name aside, `ChipsCommittedThisAction` is kept but unused), plus the pot, blinds and hand log.
- BetTooLarge: the 35% test is the exact `20·bet ≥ 7·chips`, not the single-precision float comparison; the two may differ within about one chip of the 35% boundary once stacks reach a few million chips (for instance 2,995,943 chips facing a bet of 1,048,580 folds in single precision but not in the exact test).
- MidBandBet: the stake is `chips·(5000 − rank)/5000` computed exactly and then rounded, not in double precision; float rounding may differ at exact halves.
- Go's 64-bit `int`: chips, bets and ranks are unbounded integers, so overflow of `chips − currentBet` or of the float-to-int conversion is not modelled.
- The Go runtime panic on a missing hole card is a `Failure` result; the process-level effect of a panic is not modelled.
- The stage is not validated: any non-empty list of community cards takes the post-flop path, as in the code.
- The unit tests' legal-action list comes from a game constructor that is not part of this model, so the scenarios take any list whose call/check token is "call".
