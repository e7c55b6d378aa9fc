# STrans AI delivery-vehicle chooser, in Dafny

STrans AI suggests one vehicle for a delivery request: `moto`, `bike`, `van` or `caminhao`.
A request has a distance, an urgency flag and a cargo size (`pequena`, `media` or `grande`).
The suggestion comes from a deep Q-network, with two hard rules on top:

- a safety mask that keeps large cargo off motos and bikes;
- a business override that sends short, non-urgent small parcels by bike whenever a bike is available.

The answer also carries a travel-time estimate and a customer price.

The network is trained against a hand-written cost simulator. That simulator is also the
"rule-based" reference the scenario runner compares the network with.

This project models the logic around the network and proves properties of it:

| module | file | models |
|---|---|---|
| `Common` | common.dfy | the vehicle order, the fleet-availability record, JavaScript `Math.round` and `toFixed(2)` |
| `Scores` | scores.dfy | Q-values that may be `-Infinity`, JavaScript `>`, `Math.max`, `indexOf` and the first-strict-maximum scan |
| `Env` | env.dfy | the simulator of `backend/rl/env.js`: the 9-slot state encoder and `computeCost` |
| `Replay` | replay_buffer.dfy | the replay buffer class: a bounded FIFO (first in, first out) with uniform sampling |
| `TrainDqn` | train_dqn.dfy | `backend/rl/train_dqn.js`: reward, fleet depletion, the scenario generator, epsilon-greedy choice, the episode loop, Bellman targets, the one-hot loss and the target-network sync |
| `Policy` | policy.dfy | `escolherMelhorAcao` of `model/model.js`: the mask, the scan and the fallback |
| `Pricing` | pricing.dfy | `aplicarPricing` |
| `RouteOptimizer` | route_optimizer.dfy | `backend/services/routeOptimizerService.js`: Brazilian number parsing, rescaling of CSV fleet counts, the distance fallback, the override, time and price |
| `RunScenarios` | run_scenarios.dfy | the runner's `argMax`, its rule-based best choice and one comparison pass |
| `TestScenarios` | test_scenarios.dfy | the fourteen fixed scenarios and the rule's choice for each |
| `LegacyEnv` | legacy_env.dfy | the older simulator `rl/env.js` |

How the model is built:

- The network is abstract. Training weights have a type parameter `W`. Two function parameters stand in for TensorFlow: `predict` gives four Q-values for a state, and `fit` is one optimiser step: given the online weights and the loss to minimise, as a function of the weights, it returns the new weights. The loss handed to it is the batch's mean squared error against its Bellman targets, as in the source. At serving time the four Q-values are an input.
- Every `Math.random()` value becomes an input draw in [0, 1).
- Code that updates state step by step is written as methods with loops: the training loops, the replay buffer class, the arg-max scans, the cost table of the runner and the request handler. Pure helpers are functions, and their properties are lemmas.

Results proved about the model:

- The safety mask holds: large cargo never goes to moto or bike while van or truck has a finite score.
- The buffer is a FIFO window over everything ever added.
- Every training episode runs exactly 10 steps, because the starting fleet of 18 vehicles cannot run out in 10 steps. The buffer therefore ends with 83000 transitions, fewer than its 150000 slots, so it never evicts anything.
- The loss depends only on the taken action's Q-value.
- Every fit in training episode e + 1 regresses against the weights after episode LastSync(e), the last multiple of 50 before it: the target network is synced every 50 episodes and fixed in between.
- Prices are whole cents, at least 1.0, and monotone in the cost.
- All fourteen scenario expectations agree with the rule's choice. The unlabelled S13 chooses the van.

## Model

| member | source | states |
|---|---|---|
| Common.OrZero | backend/rl/env.js:33-36 | `x || 0` on a count: a missing count reads as 0, a present one as itself |
| Common.MathRound | backend/services/routeOptimizerService.js:177 | `Math.round(x)` is the integer n with n - 0.5 <= x < n + 0.5 (halves go up) |
| Common.ToFixed2 | services/pricingUtils.js:7 | `Number(x.toFixed(2))` has at most two decimals, keeps the sign of x and lies within 0.005 of x (halves away from zero) |
| Common.ToFixed2OfCents | backend/services/routeOptimizerService.js:178 | rounding an already rounded price to cents again changes nothing |
| Common.MathRoundMonotone | backend/services/routeOptimizerService.js:65-68 | `Math.round` never reverses the order of two values |
| Common.ToFixed2Monotone | services/pricingUtils.js:7 | `toFixed(2)` never reverses the order of two values |
| Scores.FirstMax | model/model.js:78-86 | the scan started at -Infinity finds nothing exactly when every score is -Infinity; otherwise it finds the first position that no element beats and that beats every earlier one |
| Scores.FirstMaxUnique | backend/run_scenarios_test.js:46-56 | only one position can be the first strict maximum |
| Scores.IndexOf | model/model.js:89 | `indexOf` gives the first position holding the value, or -1 when no position holds it |
| Scores.PlusOne | backend/services/routeOptimizerService.js:139 | adding 1 keeps -Infinity and lifts a finite score strictly above itself |
| Scores.MaxScoreIsFirstMax | model/model.js:89 | `Math.max(...q)` is the score at the first strict maximum, or -Infinity |
| Scores.IndexOfMaxIsFirstMax | model/model.js:89 | `q.indexOf(Math.max(...q))` is the first strict maximum, or 0 when every score is -Infinity |
| Scores.MaxScoreBounds | backend/services/routeOptimizerService.js:137 | no element is above `Math.max(...q)` |
| Scores.Lift | backend/rl/train_dqn.js:201-202 | finite Q-values as scores, position by position |
| Env.FleetFraction | backend/rl/env.js:33-36 | a count over MAX_FLEET: in [0, 1] for non-negative counts, exactly 1 from 50 vehicles on, count / 50 below that |
| Env.BuildState | backend/rl/env.js:7-40 | nine slots, all in [0, 1] for a non-negative distance and fleet. Distance / 300 is capped at 1, and the cap is reached exactly from 300 km. Urgency is 1 exactly when urgent. The one-hot cargo is all zero for an unknown type. Availability is per vehicle, and all zero without a fleet record |
| Env.Speed | backend/rl/env.js:51-58 | every speed, including the default of 30, is at least 15 km/h |
| Env.UrgencyCost | backend/rl/env.js:57-61 | over a non-negative distance the urgency time cost is at least the 10-minute setup at 80 per hour |
| Env.ScarcityMultiplier | backend/rl/env.js:76-79 | the scarcity factor lies in [1, 1.3] and is exactly 1 from 50 vehicles on |
| Env.ApplyAvailability | backend/rl/env.js:64-81 | without a fleet record the cost is unchanged. An unavailable vehicle pays exactly 5000 more. An available one is scaled into [cost, 1.3 cost] |
| Env.ComputeCost | backend/rl/env.js:43-148 | the cost is never negative and is at least the pre-rule cost plus the vehicle's fixed adjustments |
| Env.UnavailableVehiclePenalty | backend/rl/env.js:72-75 | an unavailable vehicle costs exactly the 5000 penalty more than with no fleet record, and gets no scarcity scaling |
| Env.AvailableVehicleScarcity | backend/rl/env.js:76-80 | an available vehicle costs its no-record cost times the scarcity factor, which lies between 1 and 1.3 times that cost |
| Env.EmptyFleetUniformPenalty | backend/rl/env.js:64-81 | with every count at 0, each vehicle pays the same flat penalty, so costs stay finite and comparable |
| Env.UrgencyAddsTimeCost | backend/rl/env.js:57-81 | urgency raises the pre-rule cost by at least 12.8, the setup time's value, whatever the fleet |
| Env.AvailabilityKeepsAddend | backend/rl/env.js:64-81 | the availability block never absorbs a non-negative addition to the cost |
| Env.UnknownVehicleCost | backend/rl/env.js:51-61 | an unpriced vehicle outside VEHICLES costs 1.0 per km and has speed 30. Its base cost is 0, it has no fixed rules, and it counts as unavailable whenever a fleet record is given |
| Env.LargeCargoSmallVehiclePenalty | backend/rl/env.js:86-116 | large cargo adds at least 4955 to moto and to bike |
| Env.TruckLongHaulBonus | backend/rl/env.js:138-145 | the truck's adjustment is negative exactly for large cargo over 80 km without urgency, and is then exactly -800 |
| Env.VanShortHopPenalty | backend/rl/env.js:119-135 | the van's adjustment is exactly 500 precisely for a hop under 5 km with cargo that is not large |
| Replay.Window | backend/rl/replayBuffer.js:7-10 | the newest min(n, capacity) elements of a history of n, oldest first |
| Replay.AddStepEvictsFront | backend/rl/replayBuffer.js:7-10 | one `add` keeps the buffer within capacity. The result is the old buffer plus the new element, or that without its oldest element. The newest element is last |
| Replay.AddStepKeepsWindow | backend/rl/replayBuffer.js:7-10 | adding to the window of a history gives the window of the longer history |
| Replay.AddAllFromEmptyIsWindow | backend/rl/replayBuffer.js:2-10 | FIFO: after any sequence of adds to an empty buffer, it holds exactly the newest min(n, maxSize) elements in insertion order |
| Replay.ReplayBuffer.constructor | backend/rl/replayBuffer.js:2-5 | a new buffer is empty and records its capacity |
| Replay.ReplayBuffer.Add | backend/rl/replayBuffer.js:7-10 | push then shift once when over capacity. The buffer stays the window of everything added |
| Replay.ReplayBuffer.Sample | backend/rl/replayBuffer.js:12-19 | the batch has one element per draw, in draw order: draw d picks the element at index floor(d * size), which is in range |
| Replay.SampleIndex | backend/rl/replayBuffer.js:16 | `Math.floor(r * len)` for a draw r in [0, 1): an index below len whose value is within 1 below r * len |
| Replay.WindowElementsAdded | backend/rl/replayBuffer.js:7-10 | everything the buffer holds was added to it at some point |
| Replay.ReplayBuffer.Size | backend/rl/replayBuffer.js:21 | the current length, never above capacity |
| Replay.FloorIndexInRange | backend/rl/replayBuffer.js:16 | `Math.floor(Math.random() * len)` is a valid index |
| TrainDqn.InitialFleetOutlastsEpisode | backend/rl/train_dqn.js:102-107 | the initial fleet has non-negative counts and at least 10 vehicles |
| TrainDqn.GetNormalizedReward | backend/rl/train_dqn.js:17-19 | the reward is minus the cost over 100, and is never positive for a non-negative cost |
| TrainDqn.RewardReversesCostOrder | backend/rl/train_dqn.js:17-19 | a cheaper delivery never earns a smaller reward |
| TrainDqn.Decremented | backend/rl/train_dqn.js:25-28 | a count minus one, floored at 0 (a missing count reads as 0) |
| TrainDqn.AtualizarDisponibilidade | backend/rl/train_dqn.js:22-31 | only the chosen vehicle's count changes, to its floored decrement. An unknown vehicle changes nothing |
| TrainDqn.AtualizarDepletesByAtMostOne | backend/rl/train_dqn.js:22-31 | from non-negative counts, the counts stay non-negative. The total drops by exactly 1 when the chosen vehicle was available, and is unchanged otherwise |
| TrainDqn.NegativeCountRaisesTotal | backend/rl/train_dqn.js:25 | a negative count is floored to 0, so depletion can raise the total |
| TrainDqn.ExhaustedIffNoneAvailable | backend/rl/train_dqn.js:33-40 | the fleet is exhausted exactly when no vehicle is available, and, with non-negative counts, exactly when the total is 0 |
| TrainDqn.GerarCenario | backend/rl/train_dqn.js:43-72 | every scenario lies within 0.1-300.1 km with a known cargo type. The four distance bands are 0.1-4.6, 5.1-80.1, 80.1-120.1 and 120.1-300.1 km. The third band never has medium cargo; the last has only large cargo |
| TrainDqn.NextEpsilon | backend/rl/train_dqn.js:282 | one decay never raises epsilon and never takes it below 0.05 |
| TrainDqn.EpsilonAfter | backend/rl/train_dqn.js:82-85 | epsilon stays in [0.05, 1] |
| TrainDqn.EpsilonNonIncreasing | backend/rl/train_dqn.js:282 | epsilon never increases from one episode to a later one |
| TrainDqn.RandomAction | backend/rl/train_dqn.js:132 | a uniform draw gives a valid action |
| TrainDqn.GreedyAction | backend/rl/train_dqn.js:201-202 | the greedy action is the first position of the largest Q-value |
| TrainDqn.SelectAction | backend/rl/train_dqn.js:197-204 | below epsilon the action is floor(4 * draw); otherwise it is the first arg-max of the network's Q-values |
| TrainDqn.FirstEpisodeExplores | backend/rl/train_dqn.js:197-204 | with the start value 1, every step explores |
| TrainDqn.EpisodeStep | backend/rl/train_dqn.js:208-246 | one step. The reward is the normalised cost under the current fleet, and the fleet is depleted. The step is done exactly at t = 9 or when the fleet is exhausted. The next scenario is fresh unless done. Both states are encoded |
| TrainDqn.MaxQ | backend/rl/train_dqn.js:258 | the row maximum is one of the Q-values and at least all of them |
| TrainDqn.BellmanTarget | backend/rl/train_dqn.js:259-261 | a terminal target is the reward. Otherwise it is the reward plus 0.9 times a next-state Q-value no smaller than any other |
| TrainDqn.Targets | backend/rl/train_dqn.js:251-261 | one Bellman target per sampled transition, scored by the target network |
| TrainDqn.OneHot | backend/rl/train_dqn.js:265 | 1 at the action and 0 elsewhere |
| TrainDqn.DotOneHot | backend/rl/train_dqn.js:264-266 | the masked sum of a row is that row's Q-value at the action |
| TrainDqn.DotOneHotPrefix | backend/rl/train_dqn.js:266 | partial masked sums are 0 before the action and its Q-value from there on |
| TrainDqn.PredQIsTakenActionValue | backend/rl/train_dqn.js:264-266 | `qVals.mul(oneHot).sum(1)` is the taken action's Q-value |
| TrainDqn.LossUsesOnlyTakenAction | backend/rl/train_dqn.js:263-270 | two predictions that agree on each taken action give the same squared error and the same loss |
| TrainDqn.Predictions | backend/rl/train_dqn.js:264 | one Q-value row per batch transition: the online network's prediction for its state under the given weights |
| TrainDqn.LossClosureUsesOnlyTakenAction | backend/rl/train_dqn.js:262-270 | the loss closure handed to `optimizer.minimize` gives the same value for any two weights whose Q-values agree on every taken action |
| TrainDqn.MaybeLearn | backend/rl/train_dqn.js:249-273 | below 64 stored transitions no batch is drawn and the weights are unchanged. Otherwise the batch holds the buffer element at floor(d * size) for each draw d, and the new weights are `fit` given the old weights and the loss closure of that batch against its Bellman targets under the target weights |
| TrainDqn.LearnStep | backend/rl/train_dqn.js:248-273 | warm-up steps never draw a batch. Training steps draw one exactly when 64 transitions are stored, and the new weights are the fit on it. Every batch element is one the buffer was given |
| TrainDqn.PlayStep | backend/rl/train_dqn.js:124-276 | one step stores exactly its transition, the step from the current fleet and scenario, with a random action in warm-up and the epsilon-greedy one under the current weights in training. The buffer grows by one until it is full. The new weights are the fit on the sampled batch, if one was drawn. A batch is drawn exactly in training with 64 transitions stored, and every element of it was stored. Counts stay non-negative and the total drops by at most one |
| TrainDqn.RecordedStep | backend/rl/train_dqn.js:124-276 | one step extends the episode record by its transition, fleet, scenario, weights and batch. The record stays chained, every fit in it stays against the same target weights, and the step drew a batch exactly when it learns with at least 64 transitions stored after its own add |
| TrainDqn.RunEpisode | backend/rl/train_dqn.js:120-276 | an episode adds 1 to 10 transitions, exactly 10 when the fleet holds at least 10 vehicles, and the buffer grows by that many up to its capacity. Only the last is done, every action is valid and every reward is non-positive. The record chains the steps from the start fleet and the first scenario. Step i runs from the i-th fleet, scenario and weights, with its action chosen under those weights, and ends in the next fleet and scenario. The weights go from the start to the end through one fit per drawn batch, all against the same target weights. Step i fits exactly when the episode learns and the buffer holds at least 64 transitions after its add, and every batch element was stored |
| TrainDqn.LastSync | backend/rl/train_dqn.js:278-280 | the most recent episode, at most n, that is a multiple of 50 |
| TrainDqn.LastSyncStep | backend/rl/train_dqn.js:278-280 | one more episode moves the last sync to it exactly when it is a multiple of 50 |
| TrainDqn.TrainingEpisode | backend/rl/train_dqn.js:184-276 | a training episode from the initial fleet stores exactly the 10 transitions its record chains, epsilon-greedy under the online weights. Its steps take the weights from w to w' by fits that all regress against the given target weights, one per step taken with at least 64 transitions stored |
| TrainDqn.WarmupEpisode | backend/rl/train_dqn.js:120-177 | a warm-up episode from the initial fleet stores exactly the 10 transitions its record chains, with uniformly random actions, and never fits, so the weights are unchanged |
| TrainDqn.AllTransitions | backend/rl/train_dqn.js:120-276 | episodes of 10 transitions each contribute 10 transitions per episode, in the order they were stored |
| TrainDqn.RecordedMoreAdded | backend/rl/train_dqn.js:249-250 | an episode record stays true as the buffer is given more transitions |
| TrainDqn.TrainedEpisodesExtend | backend/rl/train_dqn.js:184-282 | the records of the training episodes so far, extended by the next episode played from the latest weights, with the current epsilon and target weights, record one more episode |
| TrainDqn.TrainedEpisodeAt | backend/rl/train_dqn.js:184-282 | each episode of the extended records is recorded with its own epsilon, target weights, start and end weights and buffer size |
| TrainDqn.TrainingStepsFit | backend/rl/train_dqn.js:249 | once the buffer holds 64 transitions when training starts, every step of every training episode draws a batch and fits |
| TrainDqn.TrainingRound | backend/rl/train_dqn.js:184-282 | one training episode adds exactly the transitions it records to the buffer and one more episode to the training records |
| TrainDqn.Train | backend/rl/train_dqn.js:184-282 | the training phase gives the buffer exactly the transitions its episode records hold, 10 per episode, in order, and the buffer grows by that many up to its capacity. It leaves epsilon at its decayed value and ends with target weights equal to the online weights after the last multiple of 50. Episode e + 1 runs from the initial fleet with epsilon after e decays; its fits take the weights from those after episode e to those after e + 1, each regressing against the weights after episode LastSync(e), and it fits exactly at the steps taken with 64 transitions stored |
| TrainDqn.Warmup | backend/rl/train_dqn.js:120-177 | warm-up gives the buffer exactly the transitions its episode records hold, 10 per episode, in order. Every episode runs from the initial fleet with random actions and never fits, so the weights are unchanged |
| TrainDqn.WarmedEpisodesMoreAdded | backend/rl/train_dqn.js:120-177 | the warm-up records stay true as the buffer is given more transitions |
| TrainDqn.WarmedEpisodesExtend | backend/rl/train_dqn.js:120-177 | the warm-up records extended by the next warm-up episode record one more episode |
| TrainDqn.WarmupRound | backend/rl/train_dqn.js:120-177 | one warm-up episode adds exactly the transitions it records to the buffer and one more episode to the warm-up records |
| TrainDqn.TrainDqn | backend/rl/train_dqn.js:74-282 | after 300 warm-up and 8000 training episodes the buffer holds 83000 transitions, below its 150000 capacity: exactly those of the warm-up records followed by those of the training records. Epsilon is at its decayed value. Since warm-up stores 3000 transitions, every training step fits; since 8000 is a multiple of 50, the target weights are the final online weights |
| TrainDqn.CostOr | backend/rl/train_dqn.js:95-100 | a missing or zero field takes the default |
| TrainDqn.TrainingBaseCosts | backend/rl/train_dqn.js:94-100 | exactly the four vehicles have a base cost. Each is the last row's field, or 20, 5, 100 or 200 when that field is missing or zero |
| TrainDqn.DefaultBaseCostsMatchRunner | backend/rl/train_dqn.js:95-100 | without vehicle data the training costs equal the runner's fixed costs |
| Policy.Mask | model/model.js:69-75 | for large cargo moto and bike become -Infinity; every other score is kept |
| Policy.MaskedChoice | model/model.js:61-94 | a valid action, and the first strict maximum of the masked scores whenever one of them is finite. When every masked score is -Infinity, it falls back to the first maximum of the raw scores, or 0 when those are all -Infinity too |
| Policy.ScanFirstMax | model/model.js:78-86 | the scan over the masked copy ends at the first strict maximum with its score, or at 0 with -Infinity |
| Policy.EscolherMelhorAcao | model/model.js:61-94 | the returned index is the masked choice, the vehicle is its name and the raw Q-values are returned unchanged |
| Policy.LargeCargoNeverSmallVehicle | model/model.js:69-86 | with large cargo and a finite van or truck score the choice is van or truck |
| Policy.FallbackIgnoresMask | model/model.js:89 | the fallback scans the unmasked scores and so can choose moto for large cargo |
| Policy.UnmaskedIsFirstArgMax | model/model.js:78-89 | without large cargo the choice is the raw first arg-max, or 0 when every score is -Infinity |
| Policy.TestOutputSelectsBike | backend/__tests__/model.test.js:10-29 | the test's output [1, 5, -2, 0] selects bike |
| Pricing.AplicarPricing | services/pricingUtils.js:1-8 | the price is at least 1.0 and whole cents. It is within half a cent of the surcharged and discounted price when that is at least 1, and exactly 1.0 when that is below 1 |
| Pricing.PricingExamples | backend/__tests__/pricingUtils.test.js:4-19 | 100 stays 100. Urgency makes 150. A 20% discount makes 80. 50% is capped to 70. 0.3 is floored to 1 |
| Pricing.DiscountIsCapped | services/pricingUtils.js:4-6 | any discount of 30% or more prices like exactly 30% |
| Pricing.NonPositiveDiscountIgnored | services/pricingUtils.js:4 | a discount at or below 0 is ignored |
| Pricing.SurchargeThenDiscount | services/pricingUtils.js:2-6 | before rounding, the price is the base, times 1.5 when urgent, times the kept fraction |
| Pricing.UnroundedMonotone | services/pricingUtils.js:2-6 | before rounding, a dearer cost is never priced lower |
| Pricing.PriceMonotoneInCost | services/pricingUtils.js:1-8 | a dearer cost is never priced lower |
| RouteOptimizer.TrimStart | backend/services/routeOptimizerService.js:32 | a suffix of the string: what it drops is all white space, and it does not start with white space. Empty exactly for a blank string |
| RouteOptimizer.TrimEnd | backend/services/routeOptimizerService.js:32 | a prefix of the string: what it drops is all white space, and it does not end with white space. Empty exactly for a blank string |
| RouteOptimizer.LeadingSpace | backend/services/routeOptimizerService.js:32 | the length of the string's leading white space, all of which is white space |
| RouteOptimizer.Trim | backend/services/routeOptimizerService.js:32 | the window of the string that starts after its leading white space; what follows the window is all white space. The result neither starts nor ends with white space and is empty exactly for a blank string |
| RouteOptimizer.TrimOfTrimmed | backend/services/routeOptimizerService.js:32 | a string that neither starts nor ends with white space is its own trim |
| RouteOptimizer.IndexOfChar | backend/services/routeOptimizerService.js:36 | the first position of the character, or -1 exactly when absent |
| RouteOptimizer.RemoveDots | backend/services/routeOptimizerService.js:36 | no point remains, and every other character occurs in the result exactly when it occurs in the input. A string without points is unchanged |
| RouteOptimizer.RemoveDotsAppend | backend/services/routeOptimizerService.js:36 | removing points from a concatenation concatenates the two parts with points removed, so the other characters keep their order |
| RouteOptimizer.ReplaceFirstComma | backend/services/routeOptimizerService.js:36 | only the first comma becomes a point; every other character is kept |
| RouteOptimizer.NormalizeBRPoints | backend/services/routeOptimizerService.js:36 | after normalisation there is at most one point, and it sits where the first comma was once the thousands points are removed |
| RouteOptimizer.NormalizeDigitsComma | backend/services/routeOptimizerService.js:36 | digits, a comma and digits normalise to the same digits around a point |
| RouteOptimizer.ParseDigitsPoint | backend/services/routeOptimizerService.js:37 | digits, a point and digits, with at least one digit in all, parse as that decimal |
| RouteOptimizer.ParseNegated | backend/services/routeOptimizerService.js:37 | a leading minus reads as the negated value of the rest, and fails exactly when the rest fails |
| RouteOptimizer.ParsePlusSign | backend/services/routeOptimizerService.js:37 | a leading plus reads as the rest |
| RouteOptimizer.NumberOfDecimal | backend/services/routeOptimizerService.js:37 | `Number` of digits, a point and digits, neither part empty, is that decimal |
| RouteOptimizer.ParseDecimal | backend/services/routeOptimizerService.js:37 | an unsigned literal reads as its digits, or as integer part plus fraction. Conversely, a non-empty digit string reads as exactly its value. The empty string does not parse |
| RouteOptimizer.NumberOf | backend/services/routeOptimizerService.js:37 | `Number` of a blank string is 0 |
| RouteOptimizer.NumberOfDigits | backend/services/routeOptimizerService.js:37 | `Number` of a non-empty digit string is its integer value |
| RouteOptimizer.ParseBRFloat | backend/services/routeOptimizerService.js:21-39 | null, undefined, NaN and blank strings give the fallback; a number passes through |
| RouteOptimizer.TrimKeeps | backend/services/routeOptimizerService.js:32 | a character that is not white space survives trimming |
| RouteOptimizer.ParseDecimalRejects | backend/services/routeOptimizerService.js:37 | a literal holding a character other than a digit, a sign or a point does not parse |
| RouteOptimizer.ParseBRFloatBadChar | backend/services/routeOptimizerService.js:23-38 | a string holding a character that is not a digit, sign, point, comma or white space reads as NaN and so gives the fallback |
| RouteOptimizer.ParseBRFloatTextExample | backend/services/routeOptimizerService.js:23-38 | "abc" gives the fallback |
| RouteOptimizer.ParseBRDecimal | backend/services/routeOptimizerService.js:25-39 | a Brazilian decimal `a,b` with digits on both sides reads as the decimal a.b |
| RouteOptimizer.ParseBRInteger | backend/services/routeOptimizerService.js:25-39 | a string of digits reads as its integer value |
| RouteOptimizer.ParseBRThousands | backend/services/routeOptimizerService.js:25-39 | `a.b,c` with digit groups reads as the decimal with integer part ab and fraction c: the thousands point is dropped |
| RouteOptimizer.ParseBRFloatExample | backend/services/routeOptimizerService.js:22 | "39,77" reads as 39.77 |
| RouteOptimizer.ParseBRThousandsExample | backend/services/routeOptimizerService.js:35-37 | "1.234,56" reads as 1234.56 |
| RouteOptimizer.ParseBRIntegerExample | backend/services/routeOptimizerService.js:25-39 | "20" reads as 20, not as the fallback |
| RouteOptimizer.PointsOnlyReadAsZero | backend/services/routeOptimizerService.js:32-38 | "." normalises to the empty string and reads as 0, not as the fallback |
| RouteOptimizer.CsvTotal | backend/services/routeOptimizerService.js:56-59 | the divisor is never 0 |
| RouteOptimizer.NormalizarDisponibilidadeCSV | backend/services/routeOptimizerService.js:49-70 | each count is `Math.round(count * 50 / total)`, a missing count reading as 0 |
| RouteOptimizer.RescaleShare | backend/services/routeOptimizerService.js:62-68 | a share of the total rescales into [0, 50] |
| RouteOptimizer.RescaledCountsInRange | backend/services/routeOptimizerService.js:49-70 | without `total_veiculos` and with non-negative counts, every rescaled count is in [0, 50] |
| RouteOptimizer.RescaleMonotone | backend/services/routeOptimizerService.js:62-68 | rescaling keeps the order of two counts |
| RouteOptimizer.ResolveDistance | backend/services/routeOptimizerService.js:90-98 | a supplied distance is used. Otherwise it is at least 1 and lies between max(1, half the route average) and max(1, 1.5 times the route average), the average being 5 when missing or 0; so below 7.5 in that case |
| RouteOptimizer.DistanceBetween | backend/services/routeOptimizerService.js:97-98 | `max(1, avg * (0.5 + draw))` lies between `max(1, avg / 2)` and `max(1, 1.5 * avg)` |
| RouteOptimizer.TravelSpeed | backend/services/routeOptimizerService.js:155-157 | the speed is 15, 40 or 60 km/h |
| RouteOptimizer.TempoEstimadoMin | backend/services/routeOptimizerService.js:155-177 | whole minutes within half a minute of distance / speed * 60 |
| RouteOptimizer.SlowerVehicleLongerTime | backend/services/routeOptimizerService.js:155-157 | the estimate never puts bike below moto or moto below van; van and truck get the same |
| RouteOptimizer.ServiceBaseCosts | backend/services/routeOptimizerService.js:145-153 | exactly the four vehicles are priced, each from its field read as a Brazilian number, falling back to 20, 5, 100 and 200 |
| RouteOptimizer.ObterMelhorRota | backend/services/routeOptimizerService.js:75-182 | under the override the choice is bike, with the bike's Q-value reported as max + 1. Otherwise it is the masked policy choice with the raw Q-values. Distance is rounded to cents and the time follows the vehicle's speed. The price is the rounded pricing of the simulated cost, at least 1 |
| RouteOptimizer.OverrideMakesBikeBest | backend/services/routeOptimizerService.js:136-140 | after the override the bike's reported Q-value beats every other one |
| RouteOptimizer.LargeCargoServedByVanOrTruck | backend/services/routeOptimizerService.js:115-141 | large cargo with a finite van or truck score is never answered with moto or bike |
| RunScenarios.ArgMax | backend/run_scenarios_test.js:46-56 | -1 exactly when no score beats -Infinity; otherwise the first strict maximum |
| RunScenarios.FirstMinIndex | backend/run_scenarios_test.js:76-78 | the first position of the smallest cost |
| RunScenarios.RuleCosts | backend/run_scenarios_test.js:63-74 | one simulated cost per vehicle, in VEHICLES order |
| RunScenarios.GetRuleBasedBestChoice | backend/run_scenarios_test.js:62-81 | the costs are the simulator's, and the best vehicle is the first one of smallest cost |
| RunScenarios.CheapestEntry | backend/run_scenarios_test.js:76-78 | the head of the stable ascending sort is the first smallest cost |
| RunScenarios.FirstMinUnique | backend/run_scenarios_test.js:76-78 | only one position is the first smallest |
| RunScenarios.CompareScenario | backend/run_scenarios_test.js:96-143 | the Q-values are the network's prediction for the scenario's encoded state. The network's vehicle is their first arg-max, or none. The rule's vehicle uses the fixed costs. The rule verdict holds exactly when they agree. The expectation verdict is absent without an expectation |
| TestScenarios.ScenarioCosts | backend/test_scenarios.js:19-180 | each scenario's cost table under the runner's fixed costs |
| TestScenarios.RuleVehicleIs | backend/run_scenarios_test.js:109-115 | the rule picks the vehicle at the first smallest cost |
| TestScenarios.ScenarioS1Choice | backend/test_scenarios.js:22-30 | S1 goes by bike, as expected |
| TestScenarios.ScenarioS2Choice | backend/test_scenarios.js:31-44 | S2 goes by bike, as expected |
| TestScenarios.ScenarioS3Choice | backend/test_scenarios.js:48-56 | S3 goes by moto, as expected |
| TestScenarios.ScenarioS4Choice | backend/test_scenarios.js:57-65 | S4 goes by moto, as expected |
| TestScenarios.ScenarioS5Choice | backend/test_scenarios.js:66-74 | S5 goes by moto, as expected |
| TestScenarios.ScenarioS6Choice | backend/test_scenarios.js:78-86 | S6 goes by van, as expected |
| TestScenarios.ScenarioS7Choice | backend/test_scenarios.js:87-95 | S7 goes by van, as expected |
| TestScenarios.ScenarioS8Choice | backend/test_scenarios.js:96-104 | S8 goes by van, as expected |
| TestScenarios.ScenarioS9Choice | backend/test_scenarios.js:108-116 | S9 goes by truck, as expected |
| TestScenarios.ScenarioS10Choice | backend/test_scenarios.js:117-125 | S10 goes by truck, as expected |
| TestScenarios.ScenarioS11Choice | backend/test_scenarios.js:126-134 | S11 goes by truck, as expected |
| TestScenarios.ScenarioS12Choice | backend/test_scenarios.js:138-146 | S12 goes by van, as expected |
| TestScenarios.ScenarioS13Choice | backend/test_scenarios.js:150-165 | S13, which has no expectation, goes by van, as its comment anticipates |
| TestScenarios.ScenarioS14Choice | backend/test_scenarios.js:166-179 | S14 goes by truck, as expected |
| TestScenarios.AllScenariosMeetExpectation | backend/test_scenarios.js:19-180 | every scenario of the table meets its expectation |
| LegacyEnv.MaxVeh | rl/env.js:17 | the divisor is at least 1, and is the moto count when there is at least one moto |
| LegacyEnv.BuildStateLegacy | rl/env.js:15-29 | eight slots: distance / 100, urgency and two cargo flags in {0, 1}, and each count over the divisor |
| LegacyEnv.LegacyDistanceUnclamped | rl/env.js:19 | beyond 100 km the older distance slot exceeds 1, while the newer one stays at most 1 |
| LegacyEnv.LegacyMediaHasNoSlot | rl/env.js:21-22 | medium cargo encodes like an unknown type, with both cargo flags 0 |
| LegacyEnv.LegacyMotoSlotIsOne | rl/env.js:17-23 | with at least one moto, the moto slot is exactly 1 |
| LegacyEnv.ComputeCostLegacy | rl/env.js:31-43 | without urgency the cost is per-km rate times distance, plus toll, plus base cost |
| LegacyEnv.LegacyUrgencyScales | rl/env.js:41 | urgency multiplies the whole cost by exactly 1.5 |
| LegacyEnv.LegacyUnknownVehicle | rl/env.js:40 | an unknown, unpriced vehicle pays 1.0 per km plus the toll |
| LegacyEnv.LegacyRateOrder | rl/env.js:34-39 | over a positive distance, the distance cost orders bike < moto < van < caminhao |
| LegacyEnv.RewardFromCost | rl/env.js:45-49 | the reward is exactly the negated cost |

## Left out

- The TensorFlow network: building it, predicting and the Adam optimiser. `predict` and `fit` are parameters. `fit` stands for one `optimizer.minimize` step. It is given the online weights and the loss closure `LossOf`: the mean squared error of the taken-action Q-values against the Bellman targets, as a function of the weights. How Adam moves the weights is not modelled.
- `Math.random()`: every draw is an input in [0, 1).
- Reading CSV files and the data loader, saving and loading the model, HTTP routes and controllers, the front end, and all console logging. This includes the sanity predictions printed every 1000 episodes.
- IEEE arithmetic: Q-values are reals, and served Q-values are reals or -Infinity. +Infinity and NaN Q-values are not modelled. Costs and prices are exact reals.
- The superseded drafts `rl/train_dqn.js` and `services/routeOptimizerService.js` are not part of this model.
- The tf.js `argMax` tie-break is taken to be the first index.
- The key order of `Object.entries` is taken to be the insertion order of VEHICLES.
- RunScenarios.CheapestEntry: models only the head of the runner's stable sort, not the whole sorted list.
- RunScenarios.CompareScenario: the network is taken to give one Q-value per vehicle, as the trained network's output layer does.
- RunScenarios.CompareScenario: when no Q-value beats -Infinity the runner throws while logging `undefined.toUpperCase()`; the model returns no vehicle instead.
- RouteOptimizer.NumberOf: reads only plain decimal literals with an optional sign. Exponents, hexadecimal, `Infinity` and the other forms `Number` accepts read as NaN here.
- RouteOptimizer.IsJsSpace: covers the Latin-1 white space, the byte-order mark and the line and paragraph separators. Other Unicode space separators are not covered.
- RouteOptimizer.ParseBRFloat: `String(value)` is modelled only for strings; other value types are not.
- RouteOptimizer.ResolveDistance: a supplied distance is taken as a number; `parseFloat` of a string distance is not modelled.
- RouteOptimizer.NormalizarDisponibilidadeCSV: a NaN count is not modelled.
- Replay.ReplayBuffer.Sample: requires a non-empty buffer. On an empty buffer the source returns a batch of `undefined`; the trainer samples only once 64 transitions are stored.
- TrainDqn.TrainDqn: the warm-up is a `learn` flag on the shared episode method rather than a separate copy of the loop.
- TrainDqn.Train: the weight history and the per-episode records of weights and batches are ghost.
- `origem` and `destino` are passed through unchanged and not otherwise modelled.
