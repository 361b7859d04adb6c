/**
 * `getUniswapSetup` and `setupPool` as methods on a fake chain that records
 * every state-changing call in an append-only log. A call the chain rejects
 * ends the method, as a rejected `await` throws in the script: nothing after
 * it is sent.
 */
module UniswapSetup {
  import opened PairOrder
  import opened Units
  import opened PoolParams
  import opened Plan

  /** The addresses `getUniswapSetup` returns. The factory is not among them. */
  datatype Bundle = Bundle(DAI: Address, WETH: Address, router: Address, quoter: Address)

  /** The addresses of the five contracts `getUniswapSetup` deploys, in deployment order. */
  datatype Deployed = Deployed(factory: Address, router: Address, quoter: Address, DAI: Address, WETH: Address)

  /** A completed step with its value, or the call the chain rejected. */
  datatype Result<T> = Ok(value: T) | Err(rejected: Call)

  class FakeChain {
    const env: Env
    var log: seq<Call>

    constructor (env: Env)
      ensures this.env == env && log == []
    {
      this.env := env;
      log := [];
    }

    /**
     * Sends call `k` of a run of `plan` that has not stopped: it is logged,
     * and the chain accepts it or not. The run goes on, or stops there.
     */
    method Send(c: Call, ghost prefix: seq<Call>, ghost plan: seq<Call>, ghost k: nat) returns (accepted: bool)
      requires k < |plan| && plan[k] == c && Running(env, prefix, plan, k, log)
      modifies this
      ensures log == old(log) + [c]
      ensures accepted == env.accepts(|old(log)|)
      ensures accepted ==> Running(env, prefix, plan, k + 1, log) && |log| == |prefix| + k + 1
      ensures !accepted ==> LogRun(env, prefix, plan, log, false) && log[|log| - 1] == c
    {
      accepted := env.accepts(|log|);
      ghost var before := log;
      log := log + [c];
      if accepted {
        RunGoesOn(env, prefix, plan, k, before, log);
      } else {
        RunStops(env, prefix, plan, k, before, log);
      }
    }

    /**
     * `getContractFactory(artifact).deploy(...args)` and then `getAddress()`,
     * as call `k` of a run of `plan`: the address is the one the chain assigns
     * at that log position.
     */
    method DeployContract(artifact: Artifact, args: seq<Address>, ghost prefix: seq<Call>, ghost plan: seq<Call>,
                          ghost k: nat) returns (r: Result<Address>)
      requires k < |plan| && plan[k] == Deploy(artifact, args) && Running(env, prefix, plan, k, log)
      modifies this
      ensures log == old(log) + [Deploy(artifact, args)]
      ensures r.Ok? ==> && Running(env, prefix, plan, k + 1, log) && |log| == |prefix| + k + 1
                        && r.value == env.deployedAt(|prefix| + k)
      ensures r.Err? ==> LogRun(env, prefix, plan, log, false) && r.rejected == log[|log| - 1]
    {
      var accepted := Send(Deploy(artifact, args), prefix, plan, k);
      if !accepted {
        return Err(Deploy(artifact, args));
      }
      r := Ok(env.deployedAt(|log| - 1));
    }

    /**
     * `setupPool(factory, daiToken, wethToken)`: deploys the position manager,
     * wraps 0.01 ether, approves 500 DAI and the wrapped ether, creates the
     * pool for the canonical pair and mints the first position. The log gains
     * exactly the run of `PoolPlan` the chain's answers allow.
     */
    method SetupPool(factoryAddr: Address, daiTokenAddr: Address, wethTokenAddr: Address, parseUnits: ParseUnits)
      returns (r: Result<()>)
      modifies this
      ensures LogRun(env, old(log), PoolPlan(env, |old(log)|, factoryAddr, daiTokenAddr, wethTokenAddr, parseUnits),
                     log, r.Ok?)
      ensures r.Err? ==> r.rejected == log[|log| - 1]
    {
      ghost var prefix := log;
      ghost var plan := PoolPlan(env, |log|, factoryAddr, daiTokenAddr, wethTokenAddr, parseUnits);
      PoolPlanElements(env, |log|, factoryAddr, daiTokenAddr, wethTokenAddr, parseUnits);
      var owner := env.owner;
      var revert := ShouldRevertOrder(daiTokenAddr, wethTokenAddr);

      var positionManager := DeployContract(NonfungiblePositionManager, [factoryAddr, wethTokenAddr, ZERO_ADDRESS],
                                            prefix, plan, 0);
      if positionManager.Err? {
        return Err(positionManager.rejected);
      }
      var positionManagerAddr := positionManager.value;

      var ethAmount := GetAmount(parseUnits, ETH_LITERAL);
      var deposit := Deposit(wethTokenAddr, ethAmount);
      var accepted := Send(deposit, prefix, plan, 1);
      if !accepted {
        return Err(deposit);
      }

      var daiAmount := GetAmount(parseUnits, DAI_LITERAL);
      var approveDai := Approve(daiTokenAddr, positionManagerAddr, daiAmount);
      accepted := Send(approveDai, prefix, plan, 2);
      if !accepted {
        return Err(approveDai);
      }

      var approveWeth := Approve(wethTokenAddr, positionManagerAddr, ethAmount);
      accepted := Send(approveWeth, prefix, plan, 3);
      if !accepted {
        return Err(approveWeth);
      }

      var (token0, token1) := OrderedPair(revert, daiTokenAddr, wethTokenAddr);
      var create := CreateAndInitializePool(positionManagerAddr, token0, token1, FEE, INITIAL_SQRT_PRICE_X96);
      accepted := Send(create, prefix, plan, 4);
      if !accepted {
        return Err(create);
      }

      var (amount0Desired, amount1Desired) := DesiredAmounts(revert, daiAmount, ethAmount);
      var mint := Mint(positionManagerAddr, MintParamsFor(token0, token1, amount0Desired, amount1Desired,
                                                          owner, env.latestTimestamp));
      accepted := Send(mint, prefix, plan, 5);
      if !accepted {
        return Err(mint);
      }
      RunCompletes(env, prefix, plan, log);
      r := Ok(());
    }

    /**
     * The five deployments of `getUniswapSetup(wethAddress)`: the factory, the
     * router and the quoter (both given the factory and `wethAddress`), the
     * mock DAI and the mock WETH. The log gains exactly the run of
     * `BootstrapDeploys` the chain's answers allow, and the addresses are the
     * ones the chain assigned.
     */
    method DeployContracts(wethAddress: Address) returns (r: Result<Deployed>)
      modifies this
      ensures LogRun(env, old(log), BootstrapDeploys(env, |old(log)|, wethAddress), log, r.Ok?)
      ensures r.Err? ==> r.rejected == log[|log| - 1]
      ensures r.Ok? ==> r.value == Deployed(env.deployedAt(|old(log)|), env.deployedAt(|old(log)| + 1),
                                            env.deployedAt(|old(log)| + 2), env.deployedAt(|old(log)| + 3),
                                            env.deployedAt(|old(log)| + 4))
    {
      ghost var prefix := log;
      ghost var deploys := BootstrapDeploys(env, |log|, wethAddress);

      var factory := DeployContract(UniswapV3Factory, [], prefix, deploys, 0);
      if factory.Err? {
        return Err(factory.rejected);
      }
      var factoryAddr := factory.value;

      var swapRouter := DeployContract(SwapRouter, [factoryAddr, wethAddress], prefix, deploys, 1);
      if swapRouter.Err? {
        return Err(swapRouter.rejected);
      }

      var quoter := DeployContract(QuoterV2, [factoryAddr, wethAddress], prefix, deploys, 2);
      if quoter.Err? {
        return Err(quoter.rejected);
      }

      var daiToken := DeployContract(MockDAI, [], prefix, deploys, 3);
      if daiToken.Err? {
        return Err(daiToken.rejected);
      }

      var wethToken := DeployContract(MockWETH, [], prefix, deploys, 4);
      if wethToken.Err? {
        return Err(wethToken.rejected);
      }
      RunCompletes(env, prefix, deploys, log);
      r := Ok(Deployed(factoryAddr, swapRouter.value, quoter.value, daiToken.value, wethToken.value));
    }

    /**
     * `getUniswapSetup(wethAddress)`: the five deployments, then `setupPool`
     * on the factory and the two mock tokens; it returns the tokens', the
     * router's and the quoter's addresses. The log gains exactly the run of
     * `BootstrapPlan` the chain's answers allow.
     */
    method GetUniswapSetup(wethAddress: Address, parseUnits: ParseUnits) returns (r: Result<Bundle>)
      modifies this
      ensures LogRun(env, old(log), BootstrapPlan(env, |old(log)|, wethAddress, parseUnits), log, r.Ok?)
      ensures r.Err? ==> r.rejected == log[|log| - 1]
      ensures r.Ok? ==> r.value == Bundle(env.deployedAt(|old(log)| + 3), env.deployedAt(|old(log)| + 4),
                                          env.deployedAt(|old(log)| + 1), env.deployedAt(|old(log)| + 2))
    {
      ghost var prefix := log;
      var deployed := DeployContracts(wethAddress);
      if deployed.Err? {
        BootstrapRunOfFailedDeploys(env, prefix, log, wethAddress, parseUnits);
        return Err(deployed.rejected);
      }
      var Deployed(factoryAddr, swapRouterAddr, quoterAddr, daiTokenAddr, wethTokenAddr) := deployed.value;

      ghost var mid := log;
      var pool := SetupPool(factoryAddr, daiTokenAddr, wethTokenAddr, parseUnits);
      BootstrapRunOfPoolRun(env, prefix, mid, log, wethAddress, parseUnits, pool.Ok?);
      if pool.Err? {
        return Err(pool.rejected);
      }

      r := Ok(Bundle(daiTokenAddr, wethTokenAddr, swapRouterAddr, quoterAddr));
    }
  }
}
