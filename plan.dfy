/**
 * The calls `getUniswapSetup` and `setupPool` make against the chain, as
 * values: the call datatype, the environment a fake chain answers from, the
 * planned call sequences, and the relation between a plan and what a run of
 * it appends to the chain's log when it stops at the first rejected call.
 */
module Plan {
  import opened PairOrder
  import opened Units
  import opened PoolParams

  /** Third constructor argument of the position manager: no native-token descriptor. */
  const ZERO_ADDRESS: Address := "0x0000000000000000000000000000000000000000"

  /** The contracts the script deploys. */
  datatype Artifact =
    | UniswapV3Factory
    | SwapRouter
    | QuoterV2
    | MockDAI
    | MockWETH
    | NonfungiblePositionManager

  /** One state-changing call sent to the chain, with its arguments. */
  datatype Call =
    | Deploy(artifact: Artifact, args: seq<Address>)
    | Deposit(token: Address, value: int)
    | Approve(token: Address, spender: Address, amount: int)
    | CreateAndInitializePool(manager: Address, token0: Address, token1: Address, fee: int, sqrtPriceX96: int)
    | Mint(manager: Address, params: MintParams)

  /**
   * What the fake chain answers from: the first signer, the latest block's
   * timestamp (None when there is no block), whether the call made at each
   * position of the log is accepted, and the address a deployment made at
   * each position receives.
   */
  datatype Env = Env(owner: Address, latestTimestamp: Option<nat>, accepts: nat -> bool, deployedAt: nat -> Address)

  /** The addresses a call passes to the chain. */
  function Uses(c: Call): set<Address>
  {
    match c
    case Deploy(_, args) => set a | a in args
    case Deposit(token, _) => {token}
    case Approve(token, spender, _) => {token, spender}
    case CreateAndInitializePool(manager, token0, token1, _, _) => {manager, token0, token1}
    case Mint(manager, p) => {manager, p.token0, p.token1, p.recipient}
  }

  /**
   * The six calls of `setupPool` when its first call is made at log position
   * `base`: position manager, deposit, two approvals, pool creation, mint.
   */
  function PoolPlan(env: Env, base: nat, factoryAddr: Address, daiAddr: Address, wethAddr: Address,
                    parseUnits: ParseUnits): seq<Call>
  {
    var revert := ShouldRevertOrder(daiAddr, wethAddr);
    var positionManagerAddr := env.deployedAt(base);
    var ethAmount := GetAmount(parseUnits, ETH_LITERAL);
    var daiAmount := GetAmount(parseUnits, DAI_LITERAL);
    var (token0, token1) := OrderedPair(revert, daiAddr, wethAddr);
    var (amount0Desired, amount1Desired) := DesiredAmounts(revert, daiAmount, ethAmount);
    [ Deploy(NonfungiblePositionManager, [factoryAddr, wethAddr, ZERO_ADDRESS]),
      Deposit(wethAddr, ethAmount),
      Approve(daiAddr, positionManagerAddr, daiAmount),
      Approve(wethAddr, positionManagerAddr, ethAmount),
      CreateAndInitializePool(positionManagerAddr, token0, token1, FEE, INITIAL_SQRT_PRICE_X96),
      Mint(positionManagerAddr, MintParamsFor(token0, token1, amount0Desired, amount1Desired,
                                              env.owner, env.latestTimestamp)) ]
  }

  /** The five deployments of `getUniswapSetup(wethAddress)` when the first is made at log position `base`. */
  function BootstrapDeploys(env: Env, base: nat, wethAddress: Address): seq<Call>
  {
    var factoryAddr := env.deployedAt(base);
    [ Deploy(UniswapV3Factory, []),
      Deploy(SwapRouter, [factoryAddr, wethAddress]),
      Deploy(QuoterV2, [factoryAddr, wethAddress]),
      Deploy(MockDAI, []),
      Deploy(MockWETH, []) ]
  }

  /** The six calls of `PoolPlan` one by one. */
  lemma PoolPlanElements(env: Env, base: nat, factoryAddr: Address, daiAddr: Address, wethAddr: Address,
                         parseUnits: ParseUnits)
    ensures var plan := PoolPlan(env, base, factoryAddr, daiAddr, wethAddr, parseUnits);
      var revert := ShouldRevertOrder(daiAddr, wethAddr);
      var positionManagerAddr := env.deployedAt(base);
      var ethAmount := GetAmount(parseUnits, ETH_LITERAL);
      var daiAmount := GetAmount(parseUnits, DAI_LITERAL);
      var (token0, token1) := OrderedPair(revert, daiAddr, wethAddr);
      var (amount0Desired, amount1Desired) := DesiredAmounts(revert, daiAmount, ethAmount);
      && |plan| == 6
      && plan[0] == Deploy(NonfungiblePositionManager, [factoryAddr, wethAddr, ZERO_ADDRESS])
      && plan[1] == Deposit(wethAddr, ethAmount)
      && plan[2] == Approve(daiAddr, positionManagerAddr, daiAmount)
      && plan[3] == Approve(wethAddr, positionManagerAddr, ethAmount)
      && plan[4] == CreateAndInitializePool(positionManagerAddr, token0, token1, FEE, INITIAL_SQRT_PRICE_X96)
      && plan[5] == Mint(positionManagerAddr, MintParamsFor(token0, token1, amount0Desired, amount1Desired,
                                                            env.owner, env.latestTimestamp))
  {
  }

  /**
   * The eleven calls of `getUniswapSetup(wethAddress)` from log position
   * `base`: the five deployments, then `setupPool` on the factory and the two
   * mock tokens just deployed.
   */
  function BootstrapPlan(env: Env, base: nat, wethAddress: Address, parseUnits: ParseUnits): seq<Call>
  {
    BootstrapDeploys(env, base, wethAddress)
    + PoolPlan(env, base + 5, env.deployedAt(base), env.deployedAt(base + 3), env.deployedAt(base + 4), parseUnits)
  }

  /**
   * `trace` is what running `plan` from log position `base` appends to the
   * log: its calls in order, up to and including the first one the chain
   * rejects, or all of them. `ok` says that none was rejected.
   */
  ghost predicate RunOf(env: Env, base: nat, plan: seq<Call>, trace: seq<Call>, ok: bool)
  {
    && 0 < |trace| <= |plan| && trace == plan[..|trace|]
    && (forall j :: base <= j < base + |trace| - 1 ==> env.accepts(j))
    && (if ok then |trace| == |plan| && env.accepts(base + |trace| - 1)
        else !env.accepts(base + |trace| - 1))
  }

  /** `log` is `prefix` followed by what running `plan` from position `|prefix|` appends. */
  ghost predicate LogRun(env: Env, prefix: seq<Call>, plan: seq<Call>, log: seq<Call>, ok: bool)
  {
    && |prefix| <= |log| && log[..|prefix|] == prefix
    && RunOf(env, |prefix|, plan, log[|prefix|..], ok)
  }

  /** A run is determined by the plan and the chain's answers. */
  lemma RunIsUnique(env: Env, base: nat, plan: seq<Call>, trace1: seq<Call>, ok1: bool, trace2: seq<Call>, ok2: bool)
    requires RunOf(env, base, plan, trace1, ok1) && RunOf(env, base, plan, trace2, ok2)
    ensures trace1 == trace2 && ok1 == ok2
  {
  }

  /**
   * The log `log` holds `prefix` and then the first `k` calls of `plan`, all
   * accepted: a run of `plan` from position `|prefix|` that has not stopped.
   */
  ghost predicate Running(env: Env, prefix: seq<Call>, plan: seq<Call>, k: nat, log: seq<Call>)
  {
    && k <= |plan| && |log| == |prefix| + k && log[..|prefix|] == prefix && log[|prefix|..] == plan[..k]
    && (forall j :: |prefix| <= j < |prefix| + k ==> env.accepts(j))
  }

  /** The next call of a run was sent and accepted: the run goes on. */
  lemma RunGoesOn(env: Env, prefix: seq<Call>, plan: seq<Call>, k: nat, before: seq<Call>, after: seq<Call>)
    requires k < |plan| && Running(env, prefix, plan, k, before)
    requires after == before + [plan[k]] && env.accepts(|before|)
    ensures Running(env, prefix, plan, k + 1, after)
    ensures |after| == |prefix| + k + 1
  {
    assert plan[..k + 1] == plan[..k] + [plan[k]];
  }

  /** The next call of a run was sent and rejected: the run stops there, and it failed. */
  lemma RunStops(env: Env, prefix: seq<Call>, plan: seq<Call>, k: nat, before: seq<Call>, after: seq<Call>)
    requires k < |plan| && Running(env, prefix, plan, k, before)
    requires after == before + [plan[k]] && !env.accepts(|before|)
    ensures LogRun(env, prefix, plan, after, false)
    ensures after[|after| - 1] == plan[k]
  {
    assert plan[..k + 1] == plan[..k] + [plan[k]];
    assert after == prefix + plan[..k + 1];
  }

  /** A run whose every call was accepted. */
  lemma RunCompletes(env: Env, prefix: seq<Call>, plan: seq<Call>, log: seq<Call>)
    requires 0 < |plan| && Running(env, prefix, plan, |plan|, log)
    ensures LogRun(env, prefix, plan, log, true)
  {
    assert plan[..|plan|] == plan;
  }

  /** A call rejected after `k` accepted ones ends the run there. */
  lemma RunStopsAtRejection(env: Env, base: nat, plan: seq<Call>, k: nat)
    requires k < |plan|
    requires forall j :: base <= j < base + k ==> env.accepts(j)
    requires !env.accepts(base + k)
    ensures RunOf(env, base, plan, plan[..k + 1], false)
  {
  }

  /** A run of `rest` after the accepted calls `front` is a run of `front + rest`. */
  lemma RunAfterAcceptedCalls(env: Env, base: nat, front: seq<Call>, rest: seq<Call>, trace: seq<Call>, ok: bool)
    requires forall j :: base <= j < base + |front| ==> env.accepts(j)
    requires RunOf(env, base + |front|, rest, trace, ok)
    ensures RunOf(env, base, front + rest, front + trace, ok)
  {
    assert (front + rest)[..|front + trace|] == front + rest[..|trace|];
  }

  /**
   * The order of `setupPool`'s calls and the agreement between them: pool
   * creation and mint name the same position manager, the same canonical
   * `(token0, token1)` and the same fee; creation starts at `MIN_SQRT_RATIO`;
   * both approvals go to the position manager; the ether deposited is the
   * WETH approved; and, when the two tokens differ, each token's approval
   * equals its desired amount.
   */
  lemma PoolCallsAgree(env: Env, base: nat, factoryAddr: Address, daiAddr: Address, wethAddr: Address,
                       parseUnits: ParseUnits)
    ensures var plan := PoolPlan(env, base, factoryAddr, daiAddr, wethAddr, parseUnits);
      var positionManagerAddr := env.deployedAt(base);
      && |plan| == 6
      && plan[0] == Deploy(NonfungiblePositionManager, [factoryAddr, wethAddr, ZERO_ADDRESS])
      && plan[1] == Deposit(wethAddr, GetAmount(parseUnits, ETH_LITERAL))
      && plan[2] == Approve(daiAddr, positionManagerAddr, GetAmount(parseUnits, DAI_LITERAL))
      && plan[3] == Approve(wethAddr, positionManagerAddr, GetAmount(parseUnits, ETH_LITERAL))
      && plan[4].CreateAndInitializePool? && plan[5].Mint?
      && plan[4].manager == plan[5].manager == positionManagerAddr
      && (plan[4].token0, plan[4].token1) == CanonicalPair(daiAddr, wethAddr)
      && plan[4].token0 == plan[5].params.token0 && plan[4].token1 == plan[5].params.token1
      && plan[4].fee == plan[5].params.fee == 3000
      && plan[4].sqrtPriceX96 == 4295128739
      && (daiAddr != wethAddr ==> forall j :: 2 <= j <= 3 && plan[j].token == plan[5].params.token0 ==>
            plan[j].amount == plan[5].params.amount0Desired)
      && (daiAddr != wethAddr ==> forall j :: 2 <= j <= 3 && plan[j].token == plan[5].params.token1 ==>
            plan[j].amount == plan[5].params.amount1Desired)
  {
  }

  /** A run that went through is the whole plan, every call of it accepted. */
  lemma RunThroughAcceptsAll(env: Env, base: nat, plan: seq<Call>, trace: seq<Call>)
    requires RunOf(env, base, plan, trace, true)
    ensures trace == plan
    ensures forall j :: base <= j < base + |plan| ==> env.accepts(j)
  {
  }

  /** A run of the five deployments that stopped at a rejection is a run of the whole bootstrap. */
  lemma BootstrapRunOfFailedDeploys(env: Env, prefix: seq<Call>, log: seq<Call>, wethAddress: Address,
                                    parseUnits: ParseUnits)
    requires LogRun(env, prefix, BootstrapDeploys(env, |prefix|, wethAddress), log, false)
    ensures LogRun(env, prefix, BootstrapPlan(env, |prefix|, wethAddress, parseUnits), log, false)
  {
    var plan := BootstrapPlan(env, |prefix|, wethAddress, parseUnits);
    var trace := log[|prefix|..];
    assert plan[..5] == BootstrapDeploys(env, |prefix|, wethAddress);
    assert plan[..|trace|] == plan[..5][..|trace|];
  }

  /**
   * A log that holds `prefix`, then a run of the five deployments that went
   * through, then a run of `setupPool` on the factory and the two mock tokens
   * they returned: `prefix` and a run of the whole bootstrap.
   */
  lemma BootstrapRunOfPoolRun(env: Env, prefix: seq<Call>, mid: seq<Call>, log: seq<Call>,
                              wethAddress: Address, parseUnits: ParseUnits, ok: bool)
    requires LogRun(env, prefix, BootstrapDeploys(env, |prefix|, wethAddress), mid, true)
    requires LogRun(env, mid, PoolPlan(env, |mid|, env.deployedAt(|prefix|), env.deployedAt(|prefix| + 3),
                                       env.deployedAt(|prefix| + 4), parseUnits), log, ok)
    ensures LogRun(env, prefix, BootstrapPlan(env, |prefix|, wethAddress, parseUnits), log, ok)
  {
    var base := |prefix|;
    var deploys := BootstrapDeploys(env, base, wethAddress);
    RunThroughAcceptsAll(env, base, deploys, mid[base..]);
    RunAfterAcceptedCalls(env, base, deploys,
                          PoolPlan(env, base + 5, env.deployedAt(base), env.deployedAt(base + 3),
                                   env.deployedAt(base + 4), parseUnits), log[|mid|..], ok);
    assert log[base..] == mid[base..] + log[|mid|..];
  }

  /**
   * The order of `getUniswapSetup`'s deployments, the router and quoter
   * taking the factory's address and the WETH address, and `setupPool` run
   * on the factory and the two mock tokens.
   */
  lemma BootstrapDeploysInOrder(env: Env, base: nat, wethAddress: Address, parseUnits: ParseUnits)
    ensures var plan := BootstrapPlan(env, base, wethAddress, parseUnits);
      var factoryAddr := env.deployedAt(base);
      && |plan| == 11
      && plan[0] == Deploy(UniswapV3Factory, [])
      && plan[1] == Deploy(SwapRouter, [factoryAddr, wethAddress])
      && plan[2] == Deploy(QuoterV2, [factoryAddr, wethAddress])
      && plan[3] == Deploy(MockDAI, [])
      && plan[4] == Deploy(MockWETH, [])
      && plan[5..] == PoolPlan(env, base + 5, factoryAddr, env.deployedAt(base + 3), env.deployedAt(base + 4), parseUnits)
  {
  }

  /**
   * The addresses call `i` of the bootstrap passes: the WETH address, the
   * zero address, the signer, or an address deployed by an earlier call.
   */
  lemma BootstrapCallUses(env: Env, base: nat, wethAddress: Address, parseUnits: ParseUnits, i: nat)
    requires i < 11
    ensures var plan := BootstrapPlan(env, base, wethAddress, parseUnits);
      forall a :: a in Uses(plan[i]) ==>
        || a == wethAddress || a == ZERO_ADDRESS || a == env.owner
        || (1 <= i && a == env.deployedAt(base))
        || (6 <= i && a == env.deployedAt(base + 3))
        || (5 <= i && a == env.deployedAt(base + 4))
        || (6 <= i && a == env.deployedAt(base + 5))
  {
    var plan := BootstrapPlan(env, base, wethAddress, parseUnits);
    BootstrapDeploysInOrder(env, base, wethAddress, parseUnits);
    if i >= 5 {
      var f, d, w := env.deployedAt(base), env.deployedAt(base + 3), env.deployedAt(base + 4);
      PoolPlanElements(env, base + 5, f, d, w, parseUnits);
      assert plan[i] == PoolPlan(env, base + 5, f, d, w, parseUnits)[i - 5];
    }
  }

  /**
   * Every address a run passes to the chain is the WETH address given to
   * `getUniswapSetup`, the zero address, the signer, or the address returned
   * by an earlier deployment of the same run that the chain accepted.
   */
  lemma RunUsesDeployedAddresses(env: Env, base: nat, wethAddress: Address, parseUnits: ParseUnits,
                                 trace: seq<Call>, ok: bool)
    requires RunOf(env, base, BootstrapPlan(env, base, wethAddress, parseUnits), trace, ok)
    ensures forall i, a :: 0 <= i < |trace| && a in Uses(trace[i]) ==>
      a == wethAddress || a == ZERO_ADDRESS || a == env.owner ||
      exists j :: 0 <= j < i && trace[j].Deploy? && env.accepts(base + j) && env.deployedAt(base + j) == a
  {
    var plan := BootstrapPlan(env, base, wethAddress, parseUnits);
    BootstrapDeploysInOrder(env, base, wethAddress, parseUnits);
    assert plan[5].Deploy?;
    forall i, a | 0 <= i < |trace| && a in Uses(trace[i])
      ensures a == wethAddress || a == ZERO_ADDRESS || a == env.owner ||
        exists j :: 0 <= j < i && trace[j].Deploy? && env.accepts(base + j) && env.deployedAt(base + j) == a
    {
      BootstrapCallUses(env, base, wethAddress, parseUnits, i);
      assert trace[i] == plan[i];
      if 1 <= i && a == env.deployedAt(base) {
        assert trace[0] == plan[0];
      } else if 6 <= i && a == env.deployedAt(base + 3) {
        assert trace[3] == plan[3];
      } else if 5 <= i && a == env.deployedAt(base + 4) {
        assert trace[4] == plan[4];
      } else if 6 <= i && a == env.deployedAt(base + 5) {
        assert trace[5] == plan[5];
      }
    }
  }

  /**
   * Fail-fast: when one of the five deployments of `getUniswapSetup` is
   * rejected, the run fails, and `setupPool` is never reached: nothing after
   * the five deployments is on the log.
   */
  lemma FailedDeploymentSkipsPoolSetup(env: Env, base: nat, wethAddress: Address, parseUnits: ParseUnits,
                                       trace: seq<Call>, ok: bool, k: nat)
    requires RunOf(env, base, BootstrapPlan(env, base, wethAddress, parseUnits), trace, ok)
    requires k < 5 && !env.accepts(base + k)
    ensures !ok && |trace| <= k + 1
    ensures forall c :: c in trace ==> c.Deploy? && c.artifact != NonfungiblePositionManager
  {
  }

  /**
   * A rejected router deployment after an accepted factory: the log holds the
   * two deployments and nothing else, and the setup fails.
   */
  lemma RouterFailureStopsSetup(env: Env, base: nat, wethAddress: Address, parseUnits: ParseUnits,
                                trace: seq<Call>, ok: bool)
    requires env.accepts(base) && !env.accepts(base + 1)
    requires RunOf(env, base, BootstrapPlan(env, base, wethAddress, parseUnits), trace, ok)
    ensures !ok
    ensures trace == [Deploy(UniswapV3Factory, []), Deploy(SwapRouter, [env.deployedAt(base), wethAddress])]
  {
    var plan := BootstrapPlan(env, base, wethAddress, parseUnits);
    RunStopsAtRejection(env, base, plan, 1);
    RunIsUnique(env, base, plan, trace, ok, plan[..2], false);
  }

  /**
   * The end-to-end scenario: when every call is accepted and the DAI address
   * sorts below the WETH address, the whole plan runs, the pool is created
   * for (DAI, WETH), and mint asks for 500 DAI and 0.01 WETH in that order.
   */
  lemma EndToEndDaiFirst(env: Env, base: nat, wethAddress: Address, parseUnits: ParseUnits)
    requires ScalesLiterals(parseUnits)
    requires forall j :: base <= j < base + 11 ==> env.accepts(j)
    requires Less(ToLower(env.deployedAt(base + 3)), ToLower(env.deployedAt(base + 4)))
    ensures var plan := BootstrapPlan(env, base, wethAddress, parseUnits);
      var dai, weth := env.deployedAt(base + 3), env.deployedAt(base + 4);
      && RunOf(env, base, plan, plan, true)
      && plan[9] == CreateAndInitializePool(env.deployedAt(base + 5), dai, weth, 3000, 4295128739)
      && plan[10].params.amount0Desired == 500_000_000_000_000_000_000
      && plan[10].params.amount1Desired == 10_000_000_000_000_000
  {
    SourceAmounts(parseUnits);
  }
}
