/** The training bookkeeping of backend/rl/train_dqn.js: reward scaling, fleet depletion, the
    scenario generator, the episode step, epsilon-greedy selection, the Bellman target, the
    one-hot loss and the target-network sync cadence. The network is abstract: weights of a type
    `W`, a `predict` function giving four Q-values and a `fit` function standing for one optimiser
    step. Every `Math.random()` value is an input draw in [0, 1). */
module TrainDqn {
  import opened Common
  import opened Scores
  import opened Env
  import opened Replay
  import opened RunScenarios

  const REWARD_SCALE: real := 100.0
  const STEPS_PER_EPISODE: nat := 10
  const WARMUP_EPISODES: nat := 300
  const N_EPISODES: nat := 8000
  const BATCH_SIZE: nat := 64
  const GAMMA: real := 0.9
  const EPSILON_START: real := 1.0
  const EPSILON_END: real := 0.05
  const EPSILON_DECAY: real := 0.9994
  const BUFFER_CAPACITY: nat := 150000
  const TARGET_SYNC_EVERY: nat := 50

  /** The fleet every episode starts from. */
  const INITIAL_FLEET: Fleet := Fleet(Some(10), Some(5), Some(2), Some(1))

  /** The initial fleet holds 18 vehicles: more than an episode's 10 steps can use up. */
  lemma InitialFleetOutlastsEpisode()
    ensures NonNegativeFleet(INITIAL_FLEET) && FleetTotal(INITIAL_FLEET) >= STEPS_PER_EPISODE
  {
  }

  // ----- reward -----

  /** `getNormalizedReward`: the cost as a negative reward, scaled down by 100. */
  function GetNormalizedReward(c: real): (r: real)
    ensures c >= 0.0 ==> r <= 0.0
    ensures -r * REWARD_SCALE == c
  {
    -(c / REWARD_SCALE)
  }

  /** A cheaper delivery earns a larger reward. */
  lemma RewardReversesCostOrder(c1: real, c2: real)
    requires c1 <= c2
    ensures GetNormalizedReward(c1) >= GetNormalizedReward(c2)
  {
    assert GetNormalizedReward(c1) - GetNormalizedReward(c2) == (c2 - c1) / REWARD_SCALE;
  }

  // ----- fleet bookkeeping -----

  /** `Math.max(0, (count || 0) - 1)`. */
  function Decremented(o: Option<int>): (n: int)
    ensures n >= 0
    ensures OrZero(o) > 0 ==> n == OrZero(o) - 1
    ensures OrZero(o) <= 0 ==> n == 0
  {
    if OrZero(o) - 1 > 0 then OrZero(o) - 1 else 0
  }

  /** `atualizarDisponibilidade`: a copy of the fleet in which the chosen vehicle's count is
      decremented, floored at 0; the other counts are copied unchanged. */
  function AtualizarDisponibilidade(f: Fleet, vehicle: string): (g: Fleet)
    ensures forall k :: 0 <= k < N_ACTIONS ==>
              CountOf(g, VEHICLES[k]) == if VEHICLES[k] == vehicle then Some(Decremented(CountOf(f, vehicle)))
                                         else CountOf(f, VEHICLES[k])
    ensures vehicle !in VEHICLES ==> g == f
  {
    if vehicle == "moto" then f.(motos := Some(Decremented(f.motos)))
    else if vehicle == "bike" then f.(bikes := Some(Decremented(f.bikes)))
    else if vehicle == "van" then f.(vans := Some(Decremented(f.vans)))
    else if vehicle == "caminhao" then f.(caminhoes := Some(Decremented(f.caminhoes)))
    else f
  }

  /** From non-negative counts, one depletion keeps every count non-negative and lowers the total
      by exactly one when the chosen vehicle was available, by nothing otherwise. */
  lemma AtualizarDepletesByAtMostOne(f: Fleet, vehicle: string)
    requires NonNegativeFleet(f)
    ensures NonNegativeFleet(AtualizarDisponibilidade(f, vehicle))
    ensures vehicle in VEHICLES && Available(f, vehicle) > 0 ==>
              FleetTotal(AtualizarDisponibilidade(f, vehicle)) == FleetTotal(f) - 1
    ensures !(vehicle in VEHICLES && Available(f, vehicle) > 0) ==>
              FleetTotal(AtualizarDisponibilidade(f, vehicle)) == FleetTotal(f)
  {
  }

  /** The total only stays non-increasing for non-negative counts: a negative count is floored
      to 0, which raises the total. */
  lemma NegativeCountRaisesTotal()
    ensures FleetTotal(AtualizarDisponibilidade(Fleet(Some(-3), None, None, None), "moto")) == 0
    ensures FleetTotal(Fleet(Some(-3), None, None, None)) == -3
  {
  }

  /** `frotaEsgotada`: every count, a missing one read as 0, is at most 0. */
  predicate FrotaEsgotada(f: Fleet)
  {
    OrZero(f.motos) <= 0 && OrZero(f.bikes) <= 0 && OrZero(f.vans) <= 0 && OrZero(f.caminhoes) <= 0
  }

  /** The fleet is exhausted exactly when no vehicle of VEHICLES is available; with non-negative
      counts, exactly when the total is 0. */
  lemma ExhaustedIffNoneAvailable(f: Fleet)
    ensures FrotaEsgotada(f) <==> forall k :: 0 <= k < N_ACTIONS ==> Available(f, VEHICLES[k]) <= 0
    ensures NonNegativeFleet(f) ==> (FrotaEsgotada(f) <==> FleetTotal(f) == 0)
  {
    if forall k :: 0 <= k < N_ACTIONS ==> Available(f, VEHICLES[k]) <= 0 {
      assert Available(f, VEHICLES[0]) <= 0 && Available(f, VEHICLES[1]) <= 0;
      assert Available(f, VEHICLES[2]) <= 0 && Available(f, VEHICLES[3]) <= 0;
    }
  }

  // ----- scenario generator -----

  datatype Scenario = Scenario(distKm: real, urgencia: bool, tipoCarga: string)

  /** The draws `gerarCenario` consumes: the band, the distance, the urgency and the cargo. */
  datatype ScenarioDraws = ScenarioDraws(p: real, dist: real, urg: real, cargo: real)

  predicate Unit(x: real) { 0.0 <= x < 1.0 }

  predicate ValidScenarioDraws(d: ScenarioDraws)
  {
    Unit(d.p) && Unit(d.dist) && Unit(d.urg) && Unit(d.cargo)
  }

  /** `gerarCenario`: four equally likely distance bands; short hops carry any cargo, the
      third band small or large cargo, the longest band only large cargo. */
  function GerarCenario(d: ScenarioDraws): (sc: Scenario)
    requires ValidScenarioDraws(d)
    ensures 0.1 <= sc.distKm < 300.1
    ensures d.p < 0.25 ==> 0.1 <= sc.distKm < 4.6
    ensures 0.25 <= d.p < 0.5 ==> 5.1 <= sc.distKm < 80.1
    ensures 0.5 <= d.p < 0.75 ==> 80.1 <= sc.distKm < 120.1 && sc.tipoCarga != "media"
    ensures 0.75 <= d.p ==> 120.1 <= sc.distKm < 300.1 && sc.tipoCarga == "grande"
    ensures sc.tipoCarga in CARGO_TYPES
  {
    if d.p < 0.25 then
      Scenario(d.dist * 4.5 + 0.1, d.urg < 0.5,
               if d.cargo < 0.4 then "pequena" else if d.cargo < 0.7 then "media" else "grande")
    else if d.p < 0.50 then
      Scenario(d.dist * 75.0 + 5.1, d.urg < 0.3,
               if d.cargo < 0.33 then "pequena" else if d.cargo < 0.66 then "media" else "grande")
    else if d.p < 0.75 then
      Scenario(d.dist * 40.0 + 80.1, d.urg < 0.5, if d.cargo < 0.2 then "pequena" else "grande")
    else
      Scenario(d.dist * 180.0 + 120.1, d.urg < 0.4, "grande")
  }

  // ----- epsilon schedule -----

  /** One episode's decay: `Math.max(0.05, epsilon * 0.9994)`. */
  function NextEpsilon(e: real): (n: real)
    ensures EPSILON_END <= e <= 1.0 ==> EPSILON_END <= n <= e
    ensures n >= EPSILON_END
  {
    MaxReal(EPSILON_END, e * EPSILON_DECAY)
  }

  /** Epsilon after `n` training episodes. */
  function EpsilonAfter(n: nat): (e: real)
    ensures EPSILON_END <= e <= EPSILON_START
  {
    if n == 0 then EPSILON_START else NextEpsilon(EpsilonAfter(n - 1))
  }

  /** Epsilon never increases from one episode to a later one. */
  lemma {:induction false} EpsilonNonIncreasing(m: nat, n: nat)
    requires m <= n
    ensures EpsilonAfter(n) <= EpsilonAfter(m)
  {
    if m < n {
      EpsilonNonIncreasing(m, n - 1);
    }
  }

  // ----- action selection -----

  /** Four Q-values, one per vehicle. */
  type QVec = q: seq<real> | |q| == N_ACTIONS witness [0.0, 0.0, 0.0, 0.0]

  /** `Math.floor(Math.random() * N_ACTIONS)`. */
  function RandomAction(u: real): (a: nat)
    requires Unit(u)
    ensures a < N_ACTIONS
  {
    FloorIndexInRange(u, N_ACTIONS);
    (u * N_ACTIONS as real).Floor
  }

  /** `qvals.argMax(1)`: the first position of the largest Q-value. */
  function GreedyAction(q: QVec): (a: nat)
    ensures a < N_ACTIONS && IsFirstMax(Lift(q), a)
  {
    assert Lift(q)[0] != NegInf;
    FirstMax(Lift(q)).value
  }

  /** Draws consumed by one step: exploration, random action, the next scenario and the indices
      of the sampled mini-batch. */
  datatype StepDraws = StepDraws(explore: real, action: real, next: ScenarioDraws, batch: seq<real>)

  predicate ValidStepDraws(d: StepDraws)
  {
    Unit(d.explore) && Unit(d.action) && ValidScenarioDraws(d.next)
    && |d.batch| == BATCH_SIZE && forall i :: 0 <= i < |d.batch| ==> Unit(d.batch[i])
  }

  /** Epsilon-greedy: explore with a uniformly drawn action when the draw is below epsilon,
      otherwise exploit the network's greedy action. */
  function SelectAction(epsilon: real, d: StepDraws, q: QVec): (a: nat)
    requires Unit(d.action)
    ensures a < N_ACTIONS
    ensures d.explore >= epsilon ==> IsFirstMax(Lift(q), a)
    ensures d.explore < epsilon ==> a == (d.action * N_ACTIONS as real).Floor
  {
    if d.explore < epsilon then RandomAction(d.action) else GreedyAction(q)
  }

  /** With epsilon at 1 (its start value) every step explores. */
  lemma FirstEpisodeExplores(d: StepDraws, q: QVec)
    requires Unit(d.explore) && Unit(d.action)
    ensures SelectAction(EpsilonAfter(0), d, q) == RandomAction(d.action)
  {
  }

  // ----- episode step -----

  datatype Transition = Transition(s: seq<real>, a: nat, r: real, s2: seq<real>, done: bool)

  datatype StepOutcome = StepOutcome(tr: Transition, fleet: Fleet, scenario: Scenario)

  function StateOf(sc: Scenario, f: Fleet): seq<real>
  {
    BuildState(sc.distKm, sc.urgencia, sc.tipoCarga, Some(f))
  }

  /** Step `t` of an episode with action `a`: cost and reward under the current fleet, the
      depleted fleet, termination, and the next scenario (`drawn` unless the episode ends). */
  function EpisodeStep(f: Fleet, sc: Scenario, t: nat, a: nat, drawn: Scenario, baseCosts: map<string, real>)
    : (o: StepOutcome)
    requires a < N_ACTIONS
    ensures o.fleet == AtualizarDisponibilidade(f, VEHICLES[a])
    ensures o.tr.done <==> t == STEPS_PER_EPISODE - 1 || FrotaEsgotada(o.fleet)
    ensures o.tr.done ==> o.scenario == sc
    ensures !o.tr.done ==> o.scenario == drawn
    ensures o.tr.a == a && o.tr.r <= 0.0
    ensures o.tr.r == GetNormalizedReward(ComputeCost(VEHICLES[a], sc.distKm, baseCosts, sc.urgencia, sc.tipoCarga, Some(f)))
    ensures o.tr.s == StateOf(sc, f) && o.tr.s2 == StateOf(o.scenario, o.fleet)
  {
    var vehicle := VEHICLES[a];
    var cost := ComputeCost(vehicle, sc.distKm, baseCosts, sc.urgencia, sc.tipoCarga, Some(f));
    var after := AtualizarDisponibilidade(f, vehicle);
    var done := t == STEPS_PER_EPISODE - 1 || FrotaEsgotada(after);
    var next := if done then sc else drawn;
    StepOutcome(Transition(StateOf(sc, f), a, GetNormalizedReward(cost), StateOf(next, after), done), after, next)
  }

  // ----- Bellman target and loss -----

  /** `nextQ.max(1)` for one row. */
  function MaxQ(q: QVec): (m: real)
    ensures forall i :: 0 <= i < N_ACTIONS ==> q[i] <= m
    ensures m in q
  {
    MaxReal(MaxReal(q[0], q[1]), MaxReal(q[2], q[3]))
  }

  /** `r + gamma * max(nextQ) * (1 - done)`. */
  function BellmanTarget(r: real, nextQ: QVec, done: bool): (y: real)
    ensures done ==> y == r
    ensures !done ==> forall i :: 0 <= i < N_ACTIONS ==> y >= r + GAMMA * nextQ[i]
    ensures !done ==> (y - r) / GAMMA in nextQ
  {
    var m := MaxQ(nextQ);
    var y := r + m * GAMMA * (1.0 - if done then 1.0 else 0.0);
    if !done then
      assert y == r + GAMMA * m;
      assert forall i :: 0 <= i < N_ACTIONS ==> GAMMA * nextQ[i] <= GAMMA * m;
      y
    else y
  }

  /** The targets of a sampled batch, the next states scored by the target network. */
  function Targets<W>(batch: seq<Transition>, targetW: W, predict: (W, seq<real>) -> QVec): (ys: seq<real>)
    ensures |ys| == |batch|
    ensures forall i :: 0 <= i < |batch| ==> ys[i] == BellmanTarget(batch[i].r, predict(targetW, batch[i].s2), batch[i].done)
  {
    seq(|batch|, i requires 0 <= i < |batch| => BellmanTarget(batch[i].r, predict(targetW, batch[i].s2), batch[i].done))
  }

  /** `tf.oneHot(a, n)`. */
  function OneHot(a: nat, n: nat): (v: seq<real>)
    ensures |v| == n
    ensures forall i :: 0 <= i < n ==> v[i] == if i == a then 1.0 else 0.0
  {
    seq(n, i requires 0 <= i < n => if i == a then 1.0 else 0.0)
  }

  /** `x.mul(y).sum()` over one row. */
  function Dot(x: seq<real>, y: seq<real>): real
    requires |x| == |y|
  {
    if x == [] then 0.0 else Dot(x[..|x| - 1], y[..|y| - 1]) + x[|x| - 1] * y[|y| - 1]
  }

  /** The Q-value a row predicts for the taken action: `qVals.mul(oneHot).sum(1)`. */
  function PredQForAction(q: QVec, a: nat): real
  {
    Dot(q, OneHot(a, N_ACTIONS))
  }

  /** A one-hot mask picks out exactly the taken action's Q-value. */
  lemma {:induction false} DotOneHot(x: seq<real>, a: nat, n: nat)
    requires |x| == n && a < n
    ensures Dot(x[..n], OneHot(a, n)[..n]) == x[a]
  {
    DotOneHotPrefix(x, a, n, n);
    assert x[..n] == x;
    assert OneHot(a, n)[..n] == OneHot(a, n);
  }

  /** Partial sums of the masked row: 0 before the taken action, its Q-value from there on. */
  lemma {:induction false} DotOneHotPrefix(x: seq<real>, a: nat, n: nat, k: nat)
    requires |x| == n && a < n && k <= n
    ensures Dot(x[..k], OneHot(a, n)[..k]) == if k > a then x[a] else 0.0
  {
    if k > 0 {
      DotOneHotPrefix(x, a, n, k - 1);
      assert x[..k][..k - 1] == x[..k - 1];
      assert OneHot(a, n)[..k][..k - 1] == OneHot(a, n)[..k - 1];
    }
  }

  lemma PredQIsTakenActionValue(q: QVec, a: nat)
    requires a < N_ACTIONS
    ensures PredQForAction(q, a) == q[a]
  {
    DotOneHot(q, a, N_ACTIONS);
    assert q[..N_ACTIONS] == q;
    assert OneHot(a, N_ACTIONS)[..N_ACTIONS] == OneHot(a, N_ACTIONS);
  }

  /** Mean squared error of the batch: targets against the predicted value of each taken action. */
  function BatchLoss(batch: seq<Transition>, ys: seq<real>, qs: seq<QVec>): real
    requires |ys| == |batch| && |qs| == |batch|
  {
    if batch == [] then 0.0 else SquaredErrorSum(batch, ys, qs) / |batch| as real
  }

  function SquaredErrorSum(batch: seq<Transition>, ys: seq<real>, qs: seq<QVec>): real
    requires |ys| == |batch| && |qs| == |batch|
  {
    if batch == [] then 0.0
    else
      var n := |batch| - 1;
      var e := ys[n] - PredQForAction(qs[n], batch[n].a);
      SquaredErrorSum(batch[..n], ys[..n], qs[..n]) + e * e
  }

  /** The loss reads only the taken action's Q-value: two predictions that agree there give the
      same loss, whatever they say about the other actions. */
  lemma {:induction false} LossUsesOnlyTakenAction(batch: seq<Transition>, ys: seq<real>, qs: seq<QVec>, qs2: seq<QVec>)
    requires |ys| == |batch| && |qs| == |batch| && |qs2| == |batch|
    requires forall i :: 0 <= i < |batch| ==> batch[i].a < N_ACTIONS && qs[i][batch[i].a] == qs2[i][batch[i].a]
    ensures SquaredErrorSum(batch, ys, qs) == SquaredErrorSum(batch, ys, qs2)
    ensures BatchLoss(batch, ys, qs) == BatchLoss(batch, ys, qs2)
  {
    if batch != [] {
      var n := |batch| - 1;
      LossUsesOnlyTakenAction(batch[..n], ys[..n], qs[..n], qs2[..n]);
      PredQIsTakenActionValue(qs[n], batch[n].a);
      PredQIsTakenActionValue(qs2[n], batch[n].a);
    }
  }

  /** The online network's Q-values for the states of a batch under weights `v`. */
  function Predictions<W>(batch: seq<Transition>, v: W, predict: (W, seq<real>) -> QVec): (qs: seq<QVec>)
    ensures |qs| == |batch|
    ensures forall i :: 0 <= i < |batch| ==> qs[i] == predict(v, batch[i].s)
  {
    seq<QVec>(|batch|, i requires 0 <= i < |batch| => predict(v, batch[i].s))
  }

  /** The closure handed to `optimizer.minimize`: the batch loss against targets `ys` as a
      function of the online weights. */
  function LossOf<W>(batch: seq<Transition>, ys: seq<real>, predict: (W, seq<real>) -> QVec): W -> real
    requires |ys| == |batch|
  {
    v => BatchLoss(batch, ys, Predictions(batch, v, predict))
  }

  /** The minimised loss cannot tell apart two weights whose Q-values agree on every taken action. */
  lemma LossClosureUsesOnlyTakenAction<W>(batch: seq<Transition>, ys: seq<real>, predict: (W, seq<real>) -> QVec,
                                          v1: W, v2: W)
    requires |ys| == |batch|
    requires forall i :: 0 <= i < |batch| ==>
               batch[i].a < N_ACTIONS && predict(v1, batch[i].s)[batch[i].a] == predict(v2, batch[i].s)[batch[i].a]
    ensures LossOf(batch, ys, predict)(v1) == LossOf(batch, ys, predict)(v2)
  {
    LossUsesOnlyTakenAction(batch, ys, Predictions(batch, v1, predict), Predictions(batch, v2, predict));
  }

  /** One optimiser step on a sampled batch: targets from the target weights, loss minimised
      from the online weights `w`. */
  function FitOn<W>(w: W, batch: seq<Transition>, targetW: W, predict: (W, seq<real>) -> QVec,
                    fit: (W, W -> real) -> W): W
  {
    fit(w, LossOf(batch, Targets(batch, targetW, predict), predict))
  }

  /** The online weights after a step that fitted on `batch`, or did not learn (`None`). */
  function FitIf<W>(w: W, batch: Option<seq<Transition>>, targetW: W, predict: (W, seq<real>) -> QVec,
                    fit: (W, W -> real) -> W): W
  {
    if batch.Some? then FitOn(w, batch.value, targetW, predict, fit) else w
  }

  /** `wEnd` comes from `wStart` through the steps' updates `batches`, every one of them against
      the same target weights; `ws` are the online weights before each step and after the last. */
  ghost predicate FitsAgainst<W>(wStart: W, wEnd: W, targetW: W, ws: seq<W>, batches: seq<Option<seq<Transition>>>,
                                 predict: (W, seq<real>) -> QVec, fit: (W, W -> real) -> W)
  {
    && |ws| == |batches| + 1 && ws[0] == wStart && ws[|batches|] == wEnd
    && forall i :: 0 <= i < |batches| ==> ws[i + 1] == FitIf(ws[i], batches[i], targetW, predict, fit)
  }

  // ----- episodes and the training loop -----

  /** The draws of one episode: its first scenario and one record per step. */
  datatype EpisodeDraws = EpisodeDraws(first: ScenarioDraws, steps: seq<StepDraws>)

  predicate ValidEpisodeDraws(e: EpisodeDraws)
  {
    ValidScenarioDraws(e.first) && |e.steps| == STEPS_PER_EPISODE
    && forall i :: 0 <= i < |e.steps| ==> ValidStepDraws(e.steps[i])
  }

  /** The network update after a step: when the buffer holds at least a batch, sample one and
      fit the online weights once to its Bellman targets; otherwise keep the weights. `batch` is
      the sampled batch, `None` when there was no update. */
  method MaybeLearn<W>(buffer: ReplayBuffer<Transition>, w: W, targetW: W, sampleDraws: seq<real>,
                       predict: (W, seq<real>) -> QVec, fit: (W, W -> real) -> W)
    returns (w': W, batch: Option<seq<Transition>>)
    requires forall i :: 0 <= i < |sampleDraws| ==> 0.0 <= sampleDraws[i] < 1.0
    ensures batch.None? <==> |buffer.buffer| < BATCH_SIZE
    ensures w' == FitIf(w, batch, targetW, predict, fit)
    ensures batch.Some? ==> |batch.value| == |sampleDraws|
    ensures batch.Some? ==> forall i :: 0 <= i < |sampleDraws| ==>
              batch.value[i] == buffer.buffer[SampleIndex(sampleDraws[i], |buffer.buffer|)]
  {
    w' := w;
    batch := None;
    var size := buffer.Size();
    if size >= BATCH_SIZE {
      var b := buffer.Sample(sampleDraws);
      batch := Some(b);
      w' := fit(w, LossOf(b, Targets(b, targetW, predict), predict));
    }
  }

  /** One episode step: choose the action, simulate it and store the transition,
      then let the network learn from a sampled batch (training episodes only). */
  method PlayStep<W>(buffer: ReplayBuffer<Transition>, learn: bool, w: W, targetW: W, epsilon: real,
                     fleet: Fleet, scenario: Scenario, t: nat, d: StepDraws, baseCosts: map<string, real>,
                     predict: (W, seq<real>) -> QVec, fit: (W, W -> real) -> W)
    returns (w': W, o: StepOutcome, ghost batch: Option<seq<Transition>>)
    requires buffer.Valid() && NonNegativeFleet(fleet) && ValidStepDraws(d)
    modifies buffer
    ensures buffer.Valid() && buffer.added == old(buffer.added) + [o.tr]
    ensures o.tr.a < N_ACTIONS
    ensures StepChained(learn, epsilon, d, baseCosts, predict, t, o.tr, fleet, scenario, w, o.fleet, o.scenario)
    ensures NonNegativeFleet(o.fleet) && FleetTotal(o.fleet) >= FleetTotal(fleet) - 1
    ensures FrotaEsgotada(o.fleet) ==> FleetTotal(o.fleet) == 0
    ensures o.tr.r <= 0.0
    ensures t == STEPS_PER_EPISODE - 1 ==> o.tr.done
    ensures o.tr.done && t + 1 < STEPS_PER_EPISODE ==> FleetTotal(o.fleet) == 0
    ensures |buffer.buffer| == SizeAfter(|old(buffer.buffer)|, 1, buffer.maxSize)
    ensures w' == FitIf(w, batch, targetW, predict, fit)
    ensures !learn ==> batch.None?
    ensures learn ==> (batch.None? <==> |buffer.buffer| < BATCH_SIZE)
    ensures batch.Some? ==> |batch.value| == BATCH_SIZE
    ensures batch.Some? ==> forall i :: 0 <= i < |batch.value| ==> batch.value[i] in buffer.added
  {
    var a;
    if learn {
      a := SelectAction(epsilon, d, predict(w, StateOf(scenario, fleet)));
    } else {
      a := RandomAction(d.action);
    }
    o := EpisodeStep(fleet, scenario, t, a, GerarCenario(d.next), baseCosts);
    AtualizarDepletesByAtMostOne(fleet, VEHICLES[a]);
    ExhaustedIffNoneAvailable(o.fleet);

    AddStepEvictsFront(buffer.buffer, o.tr, buffer.maxSize);
    buffer.Add(o.tr);

    w', batch := LearnStep(buffer, learn, w, targetW, d.batch, predict, fit);
  }

  /** The learning half of a step: only training episodes call `MaybeLearn`. */
  method LearnStep<W>(buffer: ReplayBuffer<Transition>, learn: bool, w: W, targetW: W, sampleDraws: seq<real>,
                      predict: (W, seq<real>) -> QVec, fit: (W, W -> real) -> W)
    returns (w': W, batch: Option<seq<Transition>>)
    requires buffer.Valid()
    requires forall i :: 0 <= i < |sampleDraws| ==> Unit(sampleDraws[i])
    ensures w' == FitIf(w, batch, targetW, predict, fit)
    ensures !learn ==> batch.None?
    ensures learn ==> (batch.None? <==> |buffer.buffer| < BATCH_SIZE)
    ensures batch.Some? ==> |batch.value| == |sampleDraws|
    ensures batch.Some? ==> forall i :: 0 <= i < |batch.value| ==> batch.value[i] in buffer.added
  {
    w' := w;
    batch := None;
    if learn {
      w', batch := MaybeLearn(buffer, w, targetW, sampleDraws, predict, fit);
      if batch.Some? {
        var b := batch.value;
        forall i | 0 <= i < |b| ensures b[i] in buffer.added {
          WindowElementsAdded(buffer.added, buffer.maxSize, b[i]);
        }
      }
    }
  }

  /** Step `t` ran from fleet `f` and scenario `sc`, took the action its kind of episode picks
      (uniformly at random in warm-up, epsilon-greedily under the online weights `w` in training),
      stored `tr` and led to fleet `f'` and scenario `sc'`. */
  ghost predicate StepChained<W>(learn: bool, epsilon: real, d: StepDraws, baseCosts: map<string, real>,
                                 predict: (W, seq<real>) -> QVec, t: nat, tr: Transition,
                                 f: Fleet, sc: Scenario, w: W, f': Fleet, sc': Scenario)
  {
    && ValidStepDraws(d) && tr.a < N_ACTIONS
    && EpisodeStep(f, sc, t, tr.a, GerarCenario(d.next), baseCosts) == StepOutcome(tr, f', sc')
    && (!learn ==> tr.a == RandomAction(d.action))
    && (learn ==> tr.a == SelectAction(epsilon, d, predict(w, StateOf(sc, f))))
  }

  /** The steps `trs` of an episode chain through `fleets`, `scenarios` and `ws`: step `i` runs
      from the i-th of each and ends in the fleet and scenario after it. */
  ghost predicate StepsChained<W>(learn: bool, epsilon: real, draws: EpisodeDraws, baseCosts: map<string, real>,
                                  predict: (W, seq<real>) -> QVec, trs: seq<Transition>,
                                  fleets: seq<Fleet>, scenarios: seq<Scenario>, ws: seq<W>)
  {
    && |fleets| == |trs| + 1 && |scenarios| == |trs| + 1 && |ws| == |trs| + 1 && |trs| <= |draws.steps|
    && forall i :: 0 <= i < |trs| ==>
         StepChained(learn, epsilon, draws.steps[i], baseCosts, predict, i, trs[i],
                     fleets[i], scenarios[i], ws[i], fleets[i + 1], scenarios[i + 1])
  }

  lemma StepsChainedExtend<W>(learn: bool, epsilon: real, draws: EpisodeDraws, baseCosts: map<string, real>,
                              predict: (W, seq<real>) -> QVec, trs: seq<Transition>,
                              fleets: seq<Fleet>, scenarios: seq<Scenario>, ws: seq<W>,
                              tr: Transition, f': Fleet, sc': Scenario, w': W)
    requires StepsChained(learn, epsilon, draws, baseCosts, predict, trs, fleets, scenarios, ws)
    requires |trs| < |draws.steps|
    requires StepChained(learn, epsilon, draws.steps[|trs|], baseCosts, predict, |trs|, tr,
                         fleets[|trs|], scenarios[|trs|], ws[|trs|], f', sc')
    ensures StepsChained(learn, epsilon, draws, baseCosts, predict, trs + [tr],
                         fleets + [f'], scenarios + [sc'], ws + [w'])
  {
    var trs2, fleets2, scenarios2, ws2 := trs + [tr], fleets + [f'], scenarios + [sc'], ws + [w'];
    forall i | 0 <= i < |trs2|
      ensures StepChained(learn, epsilon, draws.steps[i], baseCosts, predict, i, trs2[i],
                          fleets2[i], scenarios2[i], ws2[i], fleets2[i + 1], scenarios2[i + 1])
    {
      if i < |trs| {
        assert trs2[i] == trs[i] && fleets2[i] == fleets[i] && fleets2[i + 1] == fleets[i + 1];
        assert scenarios2[i] == scenarios[i] && scenarios2[i + 1] == scenarios[i + 1] && ws2[i] == ws[i];
      }
    }
  }

  /** Only the last of the transitions `trs` ends the episode, and it does exactly when `done`. */
  ghost predicate DoneAtLast(trs: seq<Transition>, done: bool)
  {
    forall i :: 0 <= i < |trs| ==> (trs[i].done <==> done && i == |trs| - 1)
  }

  lemma DoneAtLastExtend(trs: seq<Transition>, tr: Transition)
    requires DoneAtLast(trs, false)
    ensures DoneAtLast(trs + [tr], tr.done)
  {
    var trs2 := trs + [tr];
    forall i | 0 <= i < |trs2| ensures trs2[i].done <==> tr.done && i == |trs2| - 1 {
      if i < |trs| {
        assert trs2[i] == trs[i];
      }
    }
  }

  /** Every transition of every sampled batch is one the buffer was given. */
  ghost predicate BatchesDrawnFrom(batches: seq<Option<seq<Transition>>>, added: seq<Transition>)
  {
    forall i, j :: 0 <= i < |batches| && batches[i].Some? && 0 <= j < |batches[i].value| ==>
      batches[i].value[j] in added
  }

  lemma BatchesDrawnFromExtend(batches: seq<Option<seq<Transition>>>, added: seq<Transition>,
                               b: Option<seq<Transition>>, tr: Transition)
    requires BatchesDrawnFrom(batches, added)
    requires b.Some? ==> forall j :: 0 <= j < |b.value| ==> b.value[j] in added + [tr]
    ensures BatchesDrawnFrom(batches + [b], added + [tr])
  {
    var batches2 := batches + [b];
    forall i, j | 0 <= i < |batches2| && batches2[i].Some? && 0 <= j < |batches2[i].value|
      ensures batches2[i].value[j] in added + [tr]
    {
      if i < |batches| {
        assert batches2[i] == batches[i];
        assert batches[i].value[j] in added;
      }
    }
  }

  lemma FitsAgainstExtend<W>(wStart: W, w: W, targetW: W, ws: seq<W>, batches: seq<Option<seq<Transition>>>,
                             predict: (W, seq<real>) -> QVec, fit: (W, W -> real) -> W,
                             b: Option<seq<Transition>>, w': W)
    requires FitsAgainst(wStart, w, targetW, ws, batches, predict, fit)
    requires w' == FitIf(w, b, targetW, predict, fit)
    ensures FitsAgainst(wStart, w', targetW, ws + [w'], batches + [b], predict, fit)
  {
    var ws2, batches2 := ws + [w'], batches + [b];
    forall i | 0 <= i < |batches2|
      ensures ws2[i + 1] == FitIf(ws2[i], batches2[i], targetW, predict, fit)
    {
      if i < |batches| {
        assert ws2[i] == ws[i] && ws2[i + 1] == ws[i + 1] && batches2[i] == batches[i];
      }
    }
  }

  /** What an episode records step by step: the transitions stored, the fleet and scenario
      before each step and after the last, the online weights likewise, and the batch each step
      fitted on (`None` when it did not learn). */
  datatype EpisodeLog<W> = EpisodeLog(trs: seq<Transition>, fleets: seq<Fleet>, scenarios: seq<Scenario>,
                                      ws: seq<W>, batches: seq<Option<seq<Transition>>>)
  {
    function Then(tr: Transition, f: Fleet, sc: Scenario, w: W, b: Option<seq<Transition>>): EpisodeLog<W>
    {
      EpisodeLog(trs + [tr], fleets + [f], scenarios + [sc], ws + [w], batches + [b])
    }
  }

  /** Step `i` drew a batch exactly when the episode learns and the buffer, which held `size0`
      transitions before the episode, held at least 64 once step `i` had stored its own. */
  ghost predicate LearnedWhenFull(learn: bool, batches: seq<Option<seq<Transition>>>, size0: nat, maxSize: int)
  {
    forall i :: 0 <= i < |batches| ==>
      (batches[i].Some? <==> learn && SizeAfter(size0, i + 1, maxSize) >= BATCH_SIZE)
  }

  lemma LearnedWhenFullExtend(learn: bool, batches: seq<Option<seq<Transition>>>, size0: nat, maxSize: int,
                              b: Option<seq<Transition>>)
    requires LearnedWhenFull(learn, batches, size0, maxSize)
    requires b.Some? <==> learn && SizeAfter(size0, |batches| + 1, maxSize) >= BATCH_SIZE
    ensures LearnedWhenFull(learn, batches + [b], size0, maxSize)
  {
    var batches2 := batches + [b];
    forall i | 0 <= i < |batches2|
      ensures batches2[i].Some? <==> learn && SizeAfter(size0, i + 1, maxSize) >= BATCH_SIZE
    {
      if i < |batches| {
        assert batches2[i] == batches[i];
      }
    }
  }

  /** `log` records the steps so far of an episode from `fleet0` and online weights `w0`: they
      chain from the first scenario of `draws`, every fit in them was against `targetW` and led to
      `w`, a step fitted exactly when it learns with a batch stored (the buffer of capacity
      `maxSize` held `size0` transitions before the episode), and every batch came from `added`,
      what the buffer was given. */
  ghost predicate Recorded<W>(log: EpisodeLog<W>, learn: bool, epsilon: real, targetW: W, fleet0: Fleet, w0: W, w: W,
                              draws: EpisodeDraws, baseCosts: map<string, real>,
                              predict: (W, seq<real>) -> QVec, fit: (W, W -> real) -> W, added: seq<Transition>,
                              size0: nat, maxSize: int)
  {
    && ValidEpisodeDraws(draws)
    && StepsChained(learn, epsilon, draws, baseCosts, predict, log.trs, log.fleets, log.scenarios, log.ws)
    && log.fleets[0] == fleet0 && log.scenarios[0] == GerarCenario(draws.first)
    && FitsAgainst(w0, w, targetW, log.ws, log.batches, predict, fit)
    && LearnedWhenFull(learn, log.batches, size0, maxSize)
    && BatchesDrawnFrom(log.batches, added)
  }

  /** A record stays true of a buffer that has since been given more transitions. */
  lemma RecordedMoreAdded<W>(log: EpisodeLog<W>, learn: bool, epsilon: real, targetW: W, fleet0: Fleet, w0: W, w: W,
                             draws: EpisodeDraws, baseCosts: map<string, real>,
                             predict: (W, seq<real>) -> QVec, fit: (W, W -> real) -> W, added: seq<Transition>,
                             more: seq<Transition>, size0: nat, maxSize: int)
    requires Recorded(log, learn, epsilon, targetW, fleet0, w0, w, draws, baseCosts, predict, fit, added, size0, maxSize)
    ensures Recorded(log, learn, epsilon, targetW, fleet0, w0, w, draws, baseCosts, predict, fit, added + more, size0, maxSize)
  {
    forall i, j | 0 <= i < |log.batches| && log.batches[i].Some? && 0 <= j < |log.batches[i].value|
      ensures log.batches[i].value[j] in added + more
    {
      assert log.batches[i].value[j] in added;
    }
  }

  lemma RecordedExtend<W>(log: EpisodeLog<W>, learn: bool, epsilon: real, targetW: W, fleet0: Fleet, w0: W, w: W,
                          draws: EpisodeDraws, baseCosts: map<string, real>,
                          predict: (W, seq<real>) -> QVec, fit: (W, W -> real) -> W, added: seq<Transition>,
                          size0: nat, maxSize: int,
                          tr: Transition, f': Fleet, sc': Scenario, w': W, b: Option<seq<Transition>>)
    requires Recorded(log, learn, epsilon, targetW, fleet0, w0, w, draws, baseCosts, predict, fit, added, size0, maxSize)
    requires |log.trs| < |draws.steps|
    requires StepChained(learn, epsilon, draws.steps[|log.trs|], baseCosts, predict, |log.trs|, tr,
                         log.fleets[|log.trs|], log.scenarios[|log.trs|], w, f', sc')
    requires w' == FitIf(w, b, targetW, predict, fit)
    requires b.Some? <==> learn && SizeAfter(size0, |log.trs| + 1, maxSize) >= BATCH_SIZE
    requires b.Some? ==> forall j :: 0 <= j < |b.value| ==> b.value[j] in added + [tr]
    ensures Recorded(log.Then(tr, f', sc', w', b), learn, epsilon, targetW, fleet0, w0, w', draws, baseCosts,
                     predict, fit, added + [tr], size0, maxSize)
  {
    StepsChainedExtend(learn, epsilon, draws, baseCosts, predict, log.trs, log.fleets, log.scenarios, log.ws, tr, f', sc', w');
    FitsAgainstExtend(w0, w, targetW, log.ws, log.batches, predict, fit, b, w');
    BatchesDrawnFromExtend(log.batches, added, b, tr);
    LearnedWhenFullExtend(learn, log.batches, size0, maxSize, b);
    var log' := log.Then(tr, f', sc', w', b);
    assert log'.fleets[0] == fleet0 && log'.scenarios[0] == log.scenarios[0];
  }

  /** Step `t` of an episode played by `PlayStep`, with the step added to the episode's record. */
  method RecordedStep<W>(buffer: ReplayBuffer<Transition>, learn: bool, w0: W, w: W, targetW: W, epsilon: real,
                         fleet0: Fleet, fleet: Fleet, scenario: Scenario, t: nat, draws: EpisodeDraws,
                         baseCosts: map<string, real>, predict: (W, seq<real>) -> QVec, fit: (W, W -> real) -> W,
                         ghost log: EpisodeLog<W>, ghost size0: nat)
    returns (w': W, o: StepOutcome, ghost log': EpisodeLog<W>)
    requires buffer.Valid() && NonNegativeFleet(fleet) && ValidEpisodeDraws(draws)
    requires t < STEPS_PER_EPISODE && |log.trs| == t && DoneAtLast(log.trs, false)
    requires |buffer.buffer| == SizeAfter(size0, t, buffer.maxSize)
    requires Recorded(log, learn, epsilon, targetW, fleet0, w0, w, draws, baseCosts, predict, fit, buffer.added,
                      size0, buffer.maxSize)
    requires log.fleets[t] == fleet && log.scenarios[t] == scenario
    modifies buffer
    ensures buffer.Valid() && buffer.added == old(buffer.added) + [o.tr]
    ensures log'.trs == log.trs + [o.tr] && log'.fleets == log.fleets + [o.fleet] && log'.scenarios == log.scenarios + [o.scenario]
    ensures DoneAtLast(log'.trs, o.tr.done)
    ensures Recorded(log', learn, epsilon, targetW, fleet0, w0, w', draws, baseCosts, predict, fit, buffer.added,
                     size0, buffer.maxSize)
    ensures NonNegativeFleet(o.fleet) && FleetTotal(o.fleet) >= FleetTotal(fleet) - 1
    ensures o.tr.r <= 0.0
    ensures t == STEPS_PER_EPISODE - 1 ==> o.tr.done
    ensures o.tr.done && t + 1 < STEPS_PER_EPISODE ==> FleetTotal(o.fleet) == 0
    ensures !learn ==> w' == w
    ensures |buffer.buffer| < BATCH_SIZE ==> w' == w
    ensures |buffer.buffer| == SizeAfter(size0, t + 1, buffer.maxSize)
  {
    ghost var b;
    ghost var added := buffer.added;
    w', o, b := PlayStep(buffer, learn, w, targetW, epsilon, fleet, scenario, t, draws.steps[t], baseCosts, predict, fit);
    DoneAtLastExtend(log.trs, o.tr);
    RecordedExtend(log, learn, epsilon, targetW, fleet0, w0, w, draws, baseCosts, predict, fit, added,
                   size0, buffer.maxSize, o.tr, o.fleet, o.scenario, w', b);
    log' := log.Then(o.tr, o.fleet, o.scenario, w', b);
  }

  /** One episode from `fleet0`. Warm-up episodes (`learn` false) pick uniformly random actions
      and never train; training episodes pick epsilon-greedily and, after every step at which the
      buffer holds at least a batch, fit the online weights once to the Bellman targets of a
      sampled batch. `log` records every step (see `Recorded`). */
  method RunEpisode<W>(buffer: ReplayBuffer<Transition>, learn: bool, w0: W, targetW: W, epsilon: real,
                       fleet0: Fleet, draws: EpisodeDraws, baseCosts: map<string, real>,
                       predict: (W, seq<real>) -> QVec, fit: (W, W -> real) -> W)
    returns (w: W, steps: nat, ghost log: EpisodeLog<W>)
    requires buffer.Valid() && NonNegativeFleet(fleet0) && ValidEpisodeDraws(draws)
    modifies buffer
    ensures buffer.Valid()
    ensures buffer.added == old(buffer.added) + log.trs
    ensures steps == |log.trs| && 1 <= steps <= STEPS_PER_EPISODE
    ensures FleetTotal(fleet0) >= STEPS_PER_EPISODE ==> steps == STEPS_PER_EPISODE
    ensures DoneAtLast(log.trs, true)
    ensures forall i :: 0 <= i < |log.trs| ==> log.trs[i].r <= 0.0
    ensures Recorded(log, learn, epsilon, targetW, fleet0, w0, w, draws, baseCosts, predict, fit, buffer.added,
                     |old(buffer.buffer)|, buffer.maxSize)
    ensures |buffer.buffer| == SizeAfter(|old(buffer.buffer)|, steps, buffer.maxSize)
    ensures !learn ==> w == w0
    ensures |buffer.buffer| < BATCH_SIZE ==> w == w0
  {
    ghost var size0 := |buffer.buffer|;
    var fleet := fleet0;
    var scenario := GerarCenario(draws.first);
    w := w0;
    log := EpisodeLog([], [fleet0], [scenario], [w0], []);
    var t := 0;
    var done := false;
    while t < STEPS_PER_EPISODE && !done
      invariant 0 <= t <= STEPS_PER_EPISODE && |log.trs| == t
      invariant buffer.Valid() && buffer.added == old(buffer.added) + log.trs
      invariant NonNegativeFleet(fleet) && FleetTotal(fleet) >= FleetTotal(fleet0) - t
      invariant DoneAtLast(log.trs, done)
      invariant forall i :: 0 <= i < t ==> log.trs[i].r <= 0.0
      invariant done ==> t >= 1
      invariant t == STEPS_PER_EPISODE ==> done
      invariant done && FleetTotal(fleet0) >= STEPS_PER_EPISODE ==> t == STEPS_PER_EPISODE
      invariant Recorded(log, learn, epsilon, targetW, fleet0, w0, w, draws, baseCosts, predict, fit, buffer.added,
                         size0, buffer.maxSize)
      invariant |buffer.buffer| == SizeAfter(size0, t, buffer.maxSize)
      invariant log.fleets[t] == fleet && log.scenarios[t] == scenario
      invariant !learn ==> w == w0
      invariant |buffer.buffer| < BATCH_SIZE ==> w == w0
      decreases STEPS_PER_EPISODE - t
    {
      var o;
      w, o, log := RecordedStep(buffer, learn, w0, w, targetW, epsilon, fleet0, fleet, scenario, t, draws,
                                baseCosts, predict, fit, log, size0);
      fleet := o.fleet;
      scenario := o.scenario;
      done := o.tr.done;
      t := t + 1;
    }
    steps := t;
  }

  /** The last episode, among the first `n`, after which the target network was synced (0 for
      the copy made before training). */
  function LastSync(n: nat): (k: nat)
    ensures k <= n && k % TARGET_SYNC_EVERY == 0 && n - k < TARGET_SYNC_EVERY
  {
    n - n % TARGET_SYNC_EVERY
  }

  /** One more episode moves the last sync to that episode exactly when it is a multiple of 50. */
  lemma LastSyncStep(n: nat)
    ensures (n + 1) % TARGET_SYNC_EVERY == 0 ==> LastSync(n + 1) == n + 1
    ensures (n + 1) % TARGET_SYNC_EVERY != 0 ==> LastSync(n + 1) == LastSync(n)
  {
  }

  /** One learning episode from the initial fleet: it stores exactly 10 transitions, those its
      record chains, and every fit in it regresses against the fixed `targetW`, once per step
      taken with at least a batch stored. */
  method TrainingEpisode<W>(buffer: ReplayBuffer<Transition>, w: W, targetW: W, epsilon: real,
                            draws: EpisodeDraws, baseCosts: map<string, real>,
                            predict: (W, seq<real>) -> QVec, fit: (W, W -> real) -> W)
    returns (w': W, ghost log: EpisodeLog<W>)
    requires buffer.Valid() && ValidEpisodeDraws(draws)
    modifies buffer
    ensures buffer.Valid()
    ensures buffer.added == old(buffer.added) + log.trs && |log.trs| == STEPS_PER_EPISODE
    ensures |buffer.buffer| == SizeAfter(|old(buffer.buffer)|, STEPS_PER_EPISODE, buffer.maxSize)
    ensures Recorded(log, true, epsilon, targetW, INITIAL_FLEET, w, w', draws, baseCosts, predict, fit,
                     buffer.added, |old(buffer.buffer)|, buffer.maxSize)
  {
    InitialFleetOutlastsEpisode();
    var steps;
    w', steps, log := RunEpisode(buffer, true, w, targetW, epsilon, INITIAL_FLEET, draws, baseCosts, predict, fit);
  }

  /** One warm-up episode from the initial fleet: it stores exactly 10 transitions, those its
      record chains, with uniformly random actions, and never fits, so the weights stay `w`. */
  method WarmupEpisode<W>(buffer: ReplayBuffer<Transition>, w: W, draws: EpisodeDraws, baseCosts: map<string, real>,
                          predict: (W, seq<real>) -> QVec, fit: (W, W -> real) -> W)
    returns (w': W, ghost log: EpisodeLog<W>)
    requires buffer.Valid() && ValidEpisodeDraws(draws)
    modifies buffer
    ensures buffer.Valid()
    ensures buffer.added == old(buffer.added) + log.trs && |log.trs| == STEPS_PER_EPISODE
    ensures |buffer.buffer| == SizeAfter(|old(buffer.buffer)|, STEPS_PER_EPISODE, buffer.maxSize)
    ensures w' == w
    ensures Recorded(log, false, EPSILON_START, w, INITIAL_FLEET, w, w', draws, baseCosts, predict, fit,
                     buffer.added, |old(buffer.buffer)|, buffer.maxSize)
  {
    InitialFleetOutlastsEpisode();
    var steps;
    w', steps, log := RunEpisode(buffer, false, w, w, EPSILON_START, INITIAL_FLEET, draws, baseCosts, predict, fit);
  }

  /** The transitions of the episodes `logs` record, in the order they were stored. */
  function AllTransitions<W>(logs: seq<EpisodeLog<W>>): (trs: seq<Transition>)
    ensures (forall e :: 0 <= e < |logs| ==> |logs[e].trs| == STEPS_PER_EPISODE) ==>
              |trs| == STEPS_PER_EPISODE * |logs|
  {
    if logs == [] then [] else AllTransitions(logs[..|logs| - 1]) + logs[|logs| - 1].trs
  }

  /** `logs` record the first training episodes, each of 10 steps from the initial fleet: episode
      e + 1 chose its actions epsilon-greedily with `EpsilonAfter(e)` and took the online weights
      from `history[e]` to `history[e + 1]`, fitting every time against `history[LastSync(e)]`,
      the weights of the last target sync before it. The buffer held `size0` transitions before
      the first of them. */
  ghost predicate TrainedEpisodes<W>(history: seq<W>, logs: seq<EpisodeLog<W>>, episodes: seq<EpisodeDraws>,
                                     baseCosts: map<string, real>, predict: (W, seq<real>) -> QVec,
                                     fit: (W, W -> real) -> W, added: seq<Transition>, size0: nat, maxSize: int)
  {
    && |history| == |logs| + 1 && |logs| <= |episodes|
    && forall e :: 0 <= e < |logs| ==>
         && |logs[e].trs| == STEPS_PER_EPISODE
         && Recorded(logs[e], true, EpsilonAfter(e), history[LastSync(e)], INITIAL_FLEET, history[e], history[e + 1],
                     episodes[e], baseCosts, predict, fit, added,
                     SizeAfter(size0, STEPS_PER_EPISODE * e, maxSize), maxSize)
  }

  lemma TrainedEpisodesExtend<W>(history: seq<W>, logs: seq<EpisodeLog<W>>, episodes: seq<EpisodeDraws>,
                                 baseCosts: map<string, real>, predict: (W, seq<real>) -> QVec,
                                 fit: (W, W -> real) -> W, added: seq<Transition>, more: seq<Transition>,
                                 size0: nat, maxSize: int, w: W, log: EpisodeLog<W>,
                                 epsilon: real, targetW: W, wPrev: W, draws: EpisodeDraws, n: nat,
                                 added': seq<Transition>)
    requires TrainedEpisodes(history, logs, episodes, baseCosts, predict, fit, added, size0, maxSize)
    requires |logs| < |episodes| && |log.trs| == STEPS_PER_EPISODE
    requires Recorded(log, true, epsilon, targetW, INITIAL_FLEET, wPrev, w, draws, baseCosts, predict, fit, added', n,
                      maxSize)
    requires epsilon == EpsilonAfter(|logs|) && targetW == history[LastSync(|logs|)] && wPrev == history[|logs|]
    requires draws == episodes[|logs|] && n == SizeAfter(size0, STEPS_PER_EPISODE * |logs|, maxSize)
    requires added' == added + more
    ensures TrainedEpisodes(history + [w], logs + [log], episodes, baseCosts, predict, fit, added + more, size0, maxSize)
  {
    forall e | 0 <= e < |logs + [log]|
      ensures |(logs + [log])[e].trs| == STEPS_PER_EPISODE
      ensures Recorded((logs + [log])[e], true, EpsilonAfter(e), (history + [w])[LastSync(e)], INITIAL_FLEET,
                       (history + [w])[e], (history + [w])[e + 1], episodes[e], baseCosts, predict, fit, added + more,
                       SizeAfter(size0, STEPS_PER_EPISODE * e, maxSize), maxSize)
    {
      TrainedEpisodeAt(history, logs, episodes, baseCosts, predict, fit, added, more, size0, maxSize, w, log,
                       epsilon, targetW, wPrev, draws, n, added', e);
    }
  }

  /** Episode `e` of the records extended by one more episode. */
  lemma TrainedEpisodeAt<W>(history: seq<W>, logs: seq<EpisodeLog<W>>, episodes: seq<EpisodeDraws>,
                            baseCosts: map<string, real>, predict: (W, seq<real>) -> QVec,
                            fit: (W, W -> real) -> W, added: seq<Transition>, more: seq<Transition>,
                            size0: nat, maxSize: int, w: W, log: EpisodeLog<W>,
                            epsilon: real, targetW: W, wPrev: W, draws: EpisodeDraws, n: nat,
                            added': seq<Transition>, e: nat)
    requires TrainedEpisodes(history, logs, episodes, baseCosts, predict, fit, added, size0, maxSize)
    requires |logs| < |episodes| && |log.trs| == STEPS_PER_EPISODE
    requires Recorded(log, true, epsilon, targetW, INITIAL_FLEET, wPrev, w, draws, baseCosts, predict, fit, added', n,
                      maxSize)
    requires epsilon == EpsilonAfter(|logs|) && targetW == history[LastSync(|logs|)] && wPrev == history[|logs|]
    requires draws == episodes[|logs|] && n == SizeAfter(size0, STEPS_PER_EPISODE * |logs|, maxSize)
    requires added' == added + more
    requires e <= |logs|
    ensures |(logs + [log])[e].trs| == STEPS_PER_EPISODE
    ensures Recorded((logs + [log])[e], true, EpsilonAfter(e), (history + [w])[LastSync(e)], INITIAL_FLEET,
                     (history + [w])[e], (history + [w])[e + 1], episodes[e], baseCosts, predict, fit, added + more,
                     SizeAfter(size0, STEPS_PER_EPISODE * e, maxSize), maxSize)
  {
    assert (history + [w])[LastSync(e)] == history[LastSync(e)];
    if e < |logs| {
      assert (history + [w])[e] == history[e] && (history + [w])[e + 1] == history[e + 1] && (logs + [log])[e] == logs[e];
      RecordedMoreAdded(logs[e], true, EpsilonAfter(e), history[LastSync(e)], INITIAL_FLEET, history[e], history[e + 1],
                        episodes[e], baseCosts, predict, fit, added, more,
                        SizeAfter(size0, STEPS_PER_EPISODE * e, maxSize), maxSize);
    } else {
      assert (history + [w])[e] == history[|logs|] && (history + [w])[e + 1] == w && (logs + [log])[e] == log;
    }
  }

  /** Once the buffer holds a batch when training starts, every step of every training episode
      fits the online weights. */
  lemma TrainingStepsFit<W>(history: seq<W>, logs: seq<EpisodeLog<W>>, episodes: seq<EpisodeDraws>,
                            baseCosts: map<string, real>, predict: (W, seq<real>) -> QVec,
                            fit: (W, W -> real) -> W, added: seq<Transition>, size0: nat, maxSize: int)
    requires TrainedEpisodes(history, logs, episodes, baseCosts, predict, fit, added, size0, maxSize)
    requires size0 >= BATCH_SIZE && Capacity(maxSize) >= BATCH_SIZE
    ensures forall e, i :: 0 <= e < |logs| && 0 <= i < |logs[e].batches| ==> logs[e].batches[i].Some?
  {
    forall e, i | 0 <= e < |logs| && 0 <= i < |logs[e].batches| ensures logs[e].batches[i].Some? {
      var n := SizeAfter(size0, STEPS_PER_EPISODE * e, maxSize);
      assert Recorded(logs[e], true, EpsilonAfter(e), history[LastSync(e)], INITIAL_FLEET, history[e], history[e + 1],
                      episodes[e], baseCosts, predict, fit, added, n, maxSize);
      assert LearnedWhenFull(true, logs[e].batches, n, maxSize);
    }
  }

  /** The training phase, episodes 1..|episodes|: every episode starts from the initial fleet and
      a fresh scenario, the target weights are copied from the online weights after every 50th
      episode, and epsilon decays once per episode. `history[k]` are the online weights after
      episode k and `logs[e]` records episode e + 1 (see `TrainedEpisodes`); the buffer is given
      exactly the transitions they record. */
  method Train<W>(buffer: ReplayBuffer<Transition>, w0: W, episodes: seq<EpisodeDraws>,
                  baseCosts: map<string, real>,
                  predict: (W, seq<real>) -> QVec, fit: (W, W -> real) -> W)
    returns (w: W, targetW: W, epsilon: real, ghost history: seq<W>, ghost logs: seq<EpisodeLog<W>>)
    requires buffer.Valid()
    requires forall e :: 0 <= e < |episodes| ==> ValidEpisodeDraws(episodes[e])
    modifies buffer
    ensures buffer.Valid()
    ensures buffer.added == old(buffer.added) + AllTransitions(logs)
    ensures |buffer.added| == |old(buffer.added)| + STEPS_PER_EPISODE * |episodes|
    ensures |buffer.buffer| == SizeAfter(|old(buffer.buffer)|, STEPS_PER_EPISODE * |episodes|, buffer.maxSize)
    ensures epsilon == EpsilonAfter(|episodes|)
    ensures |history| == |episodes| + 1 && history[0] == w0 && history[|episodes|] == w
    ensures targetW == history[LastSync(|episodes|)]
    ensures |logs| == |episodes|
    ensures TrainedEpisodes(history, logs, episodes, baseCosts, predict, fit, buffer.added, |old(buffer.buffer)|, buffer.maxSize)
  {
    w := w0;
    targetW := w0;
    epsilon := EPSILON_START;
    history := [w0];
    logs := [];
    ghost var synced: nat := 0;
    ghost var added0 := buffer.added;
    ghost var size0 := |buffer.buffer|;
    for ep := 1 to |episodes| + 1
      invariant buffer.Valid()
      invariant |logs| == ep - 1 && |history| == ep
      invariant buffer.added == added0 + AllTransitions(logs)
      invariant |buffer.added| == |added0| + STEPS_PER_EPISODE * |logs|
      invariant |buffer.buffer| == SizeAfter(size0, STEPS_PER_EPISODE * |logs|, buffer.maxSize)
      invariant epsilon == EpsilonAfter(|logs|)
      invariant history[0] == w0 && history[|logs|] == w
      invariant synced == LastSync(|logs|) && targetW == history[synced]
      invariant TrainedEpisodes(history, logs, episodes, baseCosts, predict, fit, buffer.added, size0, buffer.maxSize)
    {
      ghost var log;
      w, log := TrainingRound(buffer, w, targetW, epsilon, episodes, ep - 1, baseCosts, predict, fit, history, logs, added0, size0);
      history := history + [w];
      logs := logs + [log];
      LastSyncStep(ep - 1);
      if ep % TARGET_SYNC_EVERY == 0 {
        targetW := w;
        synced := ep;
      }
      epsilon := NextEpsilon(epsilon);
    }
  }

  /** Training episode |logs| + 1, played from the online weights after the episodes `logs`
      record, and added to those records. */
  method TrainingRound<W>(buffer: ReplayBuffer<Transition>, w: W, targetW: W, epsilon: real,
                          episodes: seq<EpisodeDraws>, k: nat, baseCosts: map<string, real>,
                          predict: (W, seq<real>) -> QVec, fit: (W, W -> real) -> W,
                          ghost history: seq<W>, ghost logs: seq<EpisodeLog<W>>,
                          ghost added0: seq<Transition>, ghost size0: nat)
    returns (w': W, ghost log: EpisodeLog<W>)
    requires buffer.Valid()
    requires k == |logs| < |episodes| && ValidEpisodeDraws(episodes[k])
    requires TrainedEpisodes(history, logs, episodes, baseCosts, predict, fit, buffer.added, size0, buffer.maxSize)
    requires w == history[|logs|] && epsilon == EpsilonAfter(|logs|) && targetW == history[LastSync(|logs|)]
    requires buffer.added == added0 + AllTransitions(logs)
    requires |buffer.buffer| == SizeAfter(size0, STEPS_PER_EPISODE * |logs|, buffer.maxSize)
    modifies buffer
    ensures buffer.Valid()
    ensures buffer.added == added0 + AllTransitions(logs + [log])
    ensures |buffer.added| == |old(buffer.added)| + STEPS_PER_EPISODE
    ensures |buffer.buffer| == SizeAfter(size0, STEPS_PER_EPISODE * |logs + [log]|, buffer.maxSize)
    ensures TrainedEpisodes(history + [w'], logs + [log], episodes, baseCosts, predict, fit, buffer.added, size0,
                            buffer.maxSize)
  {
    ghost var before := buffer.added;
    ghost var n := |buffer.buffer|;
    w', log := TrainingEpisode(buffer, w, targetW, epsilon, episodes[k], baseCosts, predict, fit);
    TrainedEpisodesExtend(history, logs, episodes, baseCosts, predict, fit, before, log.trs, size0, buffer.maxSize,
                          w', log, epsilon, targetW, w, episodes[k], n, buffer.added);
    assert (logs + [log])[..|logs|] == logs;
  }

  /** `logs` record the first warm-up episodes, each of 10 steps from the initial fleet with
      uniformly random actions and no fit, so the weights stay `w`. The buffer held `size0`
      transitions before the first of them. */
  ghost predicate WarmedEpisodes<W>(w: W, logs: seq<EpisodeLog<W>>, episodes: seq<EpisodeDraws>,
                                    baseCosts: map<string, real>, predict: (W, seq<real>) -> QVec,
                                    fit: (W, W -> real) -> W, added: seq<Transition>, size0: nat, maxSize: int)
  {
    && |logs| <= |episodes|
    && forall e :: 0 <= e < |logs| ==>
         && |logs[e].trs| == STEPS_PER_EPISODE
         && Recorded(logs[e], false, EPSILON_START, w, INITIAL_FLEET, w, w, episodes[e], baseCosts, predict, fit,
                     added, SizeAfter(size0, STEPS_PER_EPISODE * e, maxSize), maxSize)
  }

  /** The warm-up records stay true as the buffer is given more transitions. */
  lemma WarmedEpisodesMoreAdded<W>(w: W, logs: seq<EpisodeLog<W>>, episodes: seq<EpisodeDraws>,
                                   baseCosts: map<string, real>, predict: (W, seq<real>) -> QVec,
                                   fit: (W, W -> real) -> W, added: seq<Transition>, more: seq<Transition>,
                                   size0: nat, maxSize: int)
    requires WarmedEpisodes(w, logs, episodes, baseCosts, predict, fit, added, size0, maxSize)
    ensures WarmedEpisodes(w, logs, episodes, baseCosts, predict, fit, added + more, size0, maxSize)
  {
    forall e | 0 <= e < |logs|
      ensures Recorded(logs[e], false, EPSILON_START, w, INITIAL_FLEET, w, w, episodes[e], baseCosts, predict, fit,
                       added + more, SizeAfter(size0, STEPS_PER_EPISODE * e, maxSize), maxSize)
    {
      RecordedMoreAdded(logs[e], false, EPSILON_START, w, INITIAL_FLEET, w, w, episodes[e], baseCosts, predict, fit,
                        added, more, SizeAfter(size0, STEPS_PER_EPISODE * e, maxSize), maxSize);
    }
  }

  lemma WarmedEpisodesExtend<W>(w: W, logs: seq<EpisodeLog<W>>, episodes: seq<EpisodeDraws>,
                                baseCosts: map<string, real>, predict: (W, seq<real>) -> QVec,
                                fit: (W, W -> real) -> W, added: seq<Transition>, more: seq<Transition>,
                                size0: nat, maxSize: int, log: EpisodeLog<W>,
                                w': W, draws: EpisodeDraws, n: nat, added': seq<Transition>)
    requires WarmedEpisodes(w, logs, episodes, baseCosts, predict, fit, added, size0, maxSize)
    requires |logs| < |episodes| && |log.trs| == STEPS_PER_EPISODE
    requires Recorded(log, false, EPSILON_START, w, INITIAL_FLEET, w, w', draws, baseCosts, predict, fit, added', n,
                      maxSize)
    requires w' == w && draws == episodes[|logs|] && n == SizeAfter(size0, STEPS_PER_EPISODE * |logs|, maxSize)
    requires added' == added + more
    ensures WarmedEpisodes(w, logs + [log], episodes, baseCosts, predict, fit, added + more, size0, maxSize)
  {
    WarmedEpisodesMoreAdded(w, logs, episodes, baseCosts, predict, fit, added, more, size0, maxSize);
    forall e | 0 <= e < |logs + [log]|
      ensures |(logs + [log])[e].trs| == STEPS_PER_EPISODE
      ensures Recorded((logs + [log])[e], false, EPSILON_START, w, INITIAL_FLEET, w, w, episodes[e], baseCosts, predict,
                       fit, added + more, SizeAfter(size0, STEPS_PER_EPISODE * e, maxSize), maxSize)
    {
      if e < |logs| {
        assert (logs + [log])[e] == logs[e];
      } else {
        assert (logs + [log])[e] == log;
      }
    }
  }

  /** The warm-up phase: random-action episodes that only fill the buffer, with exactly the
      transitions `logs` record. */
  method Warmup<W>(buffer: ReplayBuffer<Transition>, w: W, episodes: seq<EpisodeDraws>,
                   baseCosts: map<string, real>,
                   predict: (W, seq<real>) -> QVec, fit: (W, W -> real) -> W)
    returns (ghost logs: seq<EpisodeLog<W>>)
    requires buffer.Valid()
    requires forall e :: 0 <= e < |episodes| ==> ValidEpisodeDraws(episodes[e])
    modifies buffer
    ensures buffer.Valid()
    ensures buffer.added == old(buffer.added) + AllTransitions(logs)
    ensures |buffer.added| == |old(buffer.added)| + STEPS_PER_EPISODE * |episodes|
    ensures |buffer.buffer| == SizeAfter(|old(buffer.buffer)|, STEPS_PER_EPISODE * |episodes|, buffer.maxSize)
    ensures |logs| == |episodes|
    ensures WarmedEpisodes(w, logs, episodes, baseCosts, predict, fit, buffer.added, |old(buffer.buffer)|, buffer.maxSize)
  {
    logs := [];
    ghost var added0 := buffer.added;
    ghost var size0 := |buffer.buffer|;
    for ep := 0 to |episodes|
      invariant buffer.Valid()
      invariant |logs| == ep
      invariant buffer.added == added0 + AllTransitions(logs)
      invariant |buffer.added| == |added0| + STEPS_PER_EPISODE * |logs|
      invariant |buffer.buffer| == SizeAfter(size0, STEPS_PER_EPISODE * |logs|, buffer.maxSize)
      invariant WarmedEpisodes(w, logs, episodes, baseCosts, predict, fit, buffer.added, size0, buffer.maxSize)
    {
      ghost var log := WarmupRound(buffer, w, episodes, ep, baseCosts, predict, fit, logs, added0, size0);
      logs := logs + [log];
    }
  }

  /** Warm-up episode |logs| + 1, added to the records of the earlier ones. */
  method WarmupRound<W>(buffer: ReplayBuffer<Transition>, w: W, episodes: seq<EpisodeDraws>, k: nat,
                        baseCosts: map<string, real>,
                        predict: (W, seq<real>) -> QVec, fit: (W, W -> real) -> W,
                        ghost logs: seq<EpisodeLog<W>>, ghost added0: seq<Transition>, ghost size0: nat)
    returns (ghost log: EpisodeLog<W>)
    requires buffer.Valid()
    requires k == |logs| < |episodes| && ValidEpisodeDraws(episodes[k])
    requires WarmedEpisodes(w, logs, episodes, baseCosts, predict, fit, buffer.added, size0, buffer.maxSize)
    requires buffer.added == added0 + AllTransitions(logs)
    requires |buffer.buffer| == SizeAfter(size0, STEPS_PER_EPISODE * |logs|, buffer.maxSize)
    modifies buffer
    ensures buffer.Valid()
    ensures buffer.added == added0 + AllTransitions(logs + [log])
    ensures |buffer.added| == |old(buffer.added)| + STEPS_PER_EPISODE
    ensures |buffer.buffer| == SizeAfter(size0, STEPS_PER_EPISODE * |logs + [log]|, buffer.maxSize)
    ensures WarmedEpisodes(w, logs + [log], episodes, baseCosts, predict, fit, buffer.added, size0, buffer.maxSize)
  {
    ghost var before := buffer.added;
    ghost var n := |buffer.buffer|;
    var w';
    w', log := WarmupEpisode(buffer, w, episodes[k], baseCosts, predict, fit);
    WarmedEpisodesExtend(w, logs, episodes, baseCosts, predict, fit, before, log.trs, size0, buffer.maxSize, log,
                         w', episodes[k], n, buffer.added);
    assert (logs + [log])[..|logs|] == logs;
  }

  /** `train`: a 150000-slot buffer, the target weights copied from the initial online weights,
      300 warm-up episodes, then the training episodes. Every episode runs its full 10 steps, so
      the buffer ends with 83000 transitions: fewer than its capacity, so none is ever evicted.
      Warm-up leaves 3000 transitions, so every training step fits the online weights; and since
      8000 is a multiple of 50, the returned target weights are the final online weights. */
  method TrainDqn<W>(w0: W, warmup: seq<EpisodeDraws>, episodes: seq<EpisodeDraws>,
                     baseCosts: map<string, real>,
                     predict: (W, seq<real>) -> QVec, fit: (W, W -> real) -> W)
    returns (w: W, targetW: W, epsilon: real, bufferSize: nat,
             ghost history: seq<W>, ghost warmLogs: seq<EpisodeLog<W>>, ghost logs: seq<EpisodeLog<W>>,
             ghost stored: seq<Transition>)
    requires |warmup| == WARMUP_EPISODES && |episodes| == N_EPISODES
    requires forall e :: 0 <= e < |warmup| ==> ValidEpisodeDraws(warmup[e])
    requires forall e :: 0 <= e < |episodes| ==> ValidEpisodeDraws(episodes[e])
    ensures epsilon == EpsilonAfter(|episodes|)
    ensures bufferSize == |stored| == STEPS_PER_EPISODE * (WARMUP_EPISODES + N_EPISODES) < BUFFER_CAPACITY
    ensures stored == AllTransitions(warmLogs) + AllTransitions(logs)
    ensures |warmLogs| == WARMUP_EPISODES
    ensures WarmedEpisodes(w0, warmLogs, warmup, baseCosts, predict, fit, stored, 0, BUFFER_CAPACITY)
    ensures |history| == N_EPISODES + 1 && history[0] == w0 && history[N_EPISODES] == w
    ensures targetW == w
    ensures |logs| == N_EPISODES
    ensures TrainedEpisodes(history, logs, episodes, baseCosts, predict, fit, stored,
                            STEPS_PER_EPISODE * WARMUP_EPISODES, BUFFER_CAPACITY)
    ensures forall e, i :: 0 <= e < |logs| && 0 <= i < |logs[e].batches| ==> logs[e].batches[i].Some?
  {
    var buffer := new ReplayBuffer<Transition>(BUFFER_CAPACITY);
    warmLogs := Warmup(buffer, w0, warmup, baseCosts, predict, fit);
    assert [] + AllTransitions(warmLogs) == AllTransitions(warmLogs);
    ghost var warmed := buffer.added;
    w, targetW, epsilon, history, logs := Train(buffer, w0, episodes, baseCosts, predict, fit);
    stored := buffer.added;
    WarmedEpisodesMoreAdded(w0, warmLogs, warmup, baseCosts, predict, fit, warmed, AllTransitions(logs), 0, BUFFER_CAPACITY);
    TrainingStepsFit(history, logs, episodes, baseCosts, predict, fit, stored, STEPS_PER_EPISODE * WARMUP_EPISODES,
                     BUFFER_CAPACITY);
    assert LastSync(N_EPISODES) == N_EPISODES;
    bufferSize := buffer.Size();
  }

  // ----- base costs -----

  /** The operating-cost fields of the last vehicle-data row; missing ones are `None`. */
  datatype VehicleCosts = VehicleCosts(moto: Option<real>, bike: Option<real>, van: Option<real>, caminhao: Option<real>)

  /** `field || fallback`: a missing or zero field takes the fallback. */
  function CostOr(o: Option<real>, fallback: real): (c: real)
    ensures (o.None? || o.value == 0.0) ==> c == fallback
    ensures o.Some? && o.value != 0.0 ==> c == o.value
  {
    if o.Some? && o.value != 0.0 then o.value else fallback
  }

  /** The training base costs: each field of the last row, defaulting to 20, 5, 100 and 200. */
  function TrainingBaseCosts(last: VehicleCosts): (m: map<string, real>)
    ensures forall k :: 0 <= k < N_ACTIONS ==> VEHICLES[k] in m
    ensures m.Keys == {"moto", "bike", "van", "caminhao"}
    ensures m["moto"] == CostOr(last.moto, 20.0) && m["bike"] == CostOr(last.bike, 5.0)
    ensures m["van"] == CostOr(last.van, 100.0) && m["caminhao"] == CostOr(last.caminhao, 200.0)
  {
    map["moto" := CostOr(last.moto, 20.0), "bike" := CostOr(last.bike, 5.0),
        "van" := CostOr(last.van, 100.0), "caminhao" := CostOr(last.caminhao, 200.0)]
  }

  /** Without vehicle data, training uses exactly the base costs the scenario runner fixes. */
  lemma DefaultBaseCostsMatchRunner()
    ensures TrainingBaseCosts(VehicleCosts(None, None, None, None)) == RUNNER_BASE_COSTS
  {
  }
}
