# Uniswap V3 test-environment bootstrap, modelled in Dafny

The script `contract/scripts/uniswap-setup.ts` sets up a local Uniswap V3
environment:

- `getUniswapSetup(wethAddress)` deploys the factory, the swap router, the
  quoter, a mock DAI and a mock WETH.
- It then calls `setupPool` on the factory and the two mock tokens.
- `setupPool` does these steps in order:
  - deploys a position manager;
  - wraps 0.01 ether;
  - approves 500 DAI and the wrapped ether;
  - creates and initialises the DAI/WETH pool at fee tier 3000 and price `MIN_SQRT_RATIO`;
  - mints a first liquidity position between ticks -120 and 120.
- The pair is put in Uniswap's token0/token1 order by `shouldRevertOrder`.
  It compares the lower-cased addresses as strings.
- Each step awaits one chain call. A rejected call throws, so nothing after it runs.

The model has five modules:

- `PairOrder` (`pair_order.dfy`):
  - `toLowerCase`, JavaScript's string `<` and `shouldRevertOrder`.
  - A reference definition of lexicographic order, proved equivalent to `<`.
  - A proof that `<` is a strict total order.
  - For well-formed hex addresses, a proof that the string order is the order of the addresses read as 160-bit numbers. That is the order the Uniswap contracts require of token0 and token1.
- `Units` (`units.dfy`): `getAmount`, with `ethers.parseUnits` taken as a function parameter. Only the two conversions the script uses are pinned.
- `PoolParams` (`pool_params.dfy`):
  - The pool constants.
  - The swap of tokens and desired amounts under one flag.
  - The deadline.
  - The `params` record passed to `mint`.
- `Plan` (`plan.dfy`):
  - The calls sent to the chain, as a datatype.
  - The chain's answers, as an environment scripted by log position: whether the call at position `i` is accepted, and which address a deployment at position `i` gets.
  - The two planned call sequences, `BootstrapPlan` (eleven calls) and `PoolPlan` (six calls).
  - The relation `RunOf`: what running a plan appends to the log. That is its calls in order, up to and including the first rejected one.
  - The fail-fast, ordering and argument-flow lemmas about runs.
- `UniswapSetup` (`uniswap_setup.dfy`):
  - A `FakeChain` class with an append-only `log` field.
  - Methods `SetupPool`, `DeployContracts` and `GetUniswapSetup`, which send the script's calls one by one and return at the first rejection.
  - Each method is proved to append exactly the run of its plan that the chain's answers allow.

Facts about the code that the model keeps:

- The position manager is deployed with `(factory, WETH token, zero address)` (line 100).
- Two addresses that are equal up to case are not rejected. `shouldRevertOrder` returns `true` for them (lines 40-43).
- The returned bundle has `DAI`, `WETH`, `router` and `quoter`, and no `factory` (lines 78-83).
- A failure is the rejected call itself: the method returns that call.

## Model

| member | source | states |
|---|---|---|
| PairOrder.ToLower | contract/scripts/uniswap-setup.ts:37-38 | lower-casing keeps the length and maps each character to its ASCII lower-case form |
| PairOrder.ShouldRevertOrderIgnoresCase | contract/scripts/uniswap-setup.ts:37-38 | the flag depends only on the lower-cased inputs: lower-casing or upper-casing both arguments first does not change it |
| PairOrder.LessIsLexicographic | contract/scripts/uniswap-setup.ts:40 | string `<` holds exactly when, at some position `k`, both strings agree before `k` and either the first string ends there and the second does not, or the first has the smaller character there |
| PairOrder.LessIrreflexive | contract/scripts/uniswap-setup.ts:40 | no string is below itself |
| PairOrder.LessTrichotomous | contract/scripts/uniswap-setup.ts:40 | of two different strings exactly one is below the other |
| PairOrder.LessTransitive | contract/scripts/uniswap-setup.ts:40 | string `<` is transitive |
| PairOrder.ShouldRevertOrderIsLexicographic | contract/scripts/uniswap-setup.ts:36-44 | `shouldRevertOrder(a, b)` is false exactly when `lower(a)` is lexicographically below `lower(b)`, and true otherwise |
| PairOrder.ShouldRevertOrderSameAddress | contract/scripts/uniswap-setup.ts:36-44 | addresses that are equal up to case give `true` in both argument orders; no error is raised |
| PairOrder.ShouldRevertOrderAntisymmetric | contract/scripts/uniswap-setup.ts:37-43 | for addresses that differ up to case, swapping the arguments negates the flag |
| PairOrder.HexValueIgnoresCase | contract/scripts/uniswap-setup.ts:37-38 | lower-casing a hex string gives lower-case hex digits with the same numeric value |
| PairOrder.LessIsNumericOrder | contract/scripts/uniswap-setup.ts:40 | on lower-case hex strings of one length, string `<` is exactly numeric `<` |
| PairOrder.ShouldRevertOrderIsNumericOrder | contract/scripts/uniswap-setup.ts:36-44 | for two well-formed 42-character hex addresses, the flag is false exactly when the first address is the smaller 160-bit number |
| Units.SourceAmounts | contract/scripts/uniswap-setup.ts:104-108 | with a converter that scales decimals by 10^18, `getAmount("0.01")` is 10^16 and `getAmount("500")` is 5 * 10^23 |
| PoolParams.CanonicalPairIsSorted | contract/scripts/uniswap-setup.ts:116-117 | `(token0, token1)` is a permutation of `{dai, weth}` and distinct when they differ; `lower(token1)` is never below `lower(token0)`, and it is strictly above when the addresses differ up to case, in which case the pair does not depend on the argument order |
| PoolParams.CanonicalPairIsNumericallySorted | contract/scripts/uniswap-setup.ts:116-117 | for well-formed, numerically distinct addresses, token0 is the smaller 160-bit number, as the pool contracts require |
| PoolParams.AmountsFollowTokens | contract/scripts/uniswap-setup.ts:126-127 | for distinct token addresses and either flag value, `amount0Desired` is the DAI amount exactly when token0 is the DAI address, and `amount1Desired` the ether amount exactly when token1 is the WETH address |
| PoolParams.MintParamsFixedFields | contract/scripts/uniswap-setup.ts:128-139 | the mint record carries the given tokens and desired amounts, fee 3000, ticks -120 < 120, zero minimums, the owner as recipient and the deadline computed from the latest block |
| PoolParams.DeadlineValue | contract/scripts/uniswap-setup.ts:139 | the deadline is 600 without a block and `timestamp * 1000 + 600` with one, which for a positive timestamp is later than `timestamp + 600` |
| Plan.PoolCallsAgree | contract/scripts/uniswap-setup.ts:99-142 | `setupPool`'s six calls in order: the deployment of the position manager with (factory, WETH, zero address), then the deposit, the two approvals to the position manager, the pool creation and the mint; creation and mint name the same manager, the canonical pair and fee 3000; the price is 4295128739; when the two tokens differ, each token's approval equals the desired amount mint asks for it |
| Plan.BootstrapDeploysInOrder | contract/scripts/uniswap-setup.ts:46-76 | the bootstrap is eleven calls: factory, router(factory, weth), quoter(factory, weth), mock DAI, mock WETH, then `setupPool` on the factory and the two mock tokens just deployed |
| Plan.RunUsesDeployedAddresses | contract/scripts/uniswap-setup.ts:46-101 | every address any call of a run passes is the WETH address argument, the zero address, the signer, or the address of an earlier deployment of the same run that the chain accepted |
| Plan.FailedDeploymentSkipsPoolSetup | contract/scripts/uniswap-setup.ts:46-76 | when one of the five deployments is rejected, the run fails, ends at that deployment, and holds no call of `setupPool` |
| Plan.RouterFailureStopsSetup | contract/scripts/uniswap-setup.ts:48-55 | an accepted factory and a rejected router leave exactly those two deployments on the log, with the router given the factory's address and WETH |
| Plan.RunIsUnique | contract/scripts/uniswap-setup.ts:46-84 | the run of a plan is determined by the chain's answers |
| Plan.EndToEndDaiFirst | contract/scripts/uniswap-setup.ts:46-143 | when every call is accepted and the DAI address sorts below the WETH address, all eleven calls run, the pool is created for (DAI, WETH) at fee 3000 and price 4295128739, and mint asks for 5 * 10^23 DAI and 10^16 WETH in that order |
| UniswapSetup.FakeChain.Send | contract/scripts/uniswap-setup.ts:105-143 | one awaited call as the next call of a run: it is appended to the log; if accepted the run goes on, otherwise the log is the failed run ending in that call |
| UniswapSetup.FakeChain.DeployContract | contract/scripts/uniswap-setup.ts:48-50 | a deployment is one logged call; when accepted its address is the one the chain assigns at that log position, otherwise the run fails with that call |
| UniswapSetup.FakeChain.SetupPool | contract/scripts/uniswap-setup.ts:86-146 | the earlier log is kept and the log gains exactly the run of `setupPool`'s six calls the chain allows; success means all six were accepted; a failure reports the last, rejected call |
| UniswapSetup.FakeChain.DeployContracts | contract/scripts/uniswap-setup.ts:47-70 | the log gains exactly the run of the five deployments the chain allows; on success the five addresses are those the chain assigned at those positions |
| UniswapSetup.FakeChain.GetUniswapSetup | contract/scripts/uniswap-setup.ts:46-84 | the log gains exactly the run of all eleven calls the chain allows; a failure reports the rejected call; on success the bundle is {DAI, WETH, router, quoter} at the addresses of the fourth, fifth, second and third deployments, without the factory |

## Left out

- `ethers.parseUnits` is not modelled. It is the parameter `parseUnits`. The values the script relies on are pinned by `ScalesLiterals`.
- `toLowerCase` is modelled on ASCII letters only. String `<` compares `char` values, not UTF-16 code units. Addresses are ASCII, so the two agree on them.
- The block timestamp is a natural number read once per run: the environment's `latestTimestamp`. JavaScript's floating-point `number` and its precision limits are not modelled.
- Read-only queries are not logged and cannot fail: `getSigners`, `getAddress`, `provider.getBlock` and `balanceOf`. The signer is the environment's `owner`.
- `console.log` output is not modelled.
- `getContractFactory` and `deploy` form one step. Whatever fails in either is the rejection of that `Deploy` call.
- A transaction's confirmation (`wait(1)`) is part of its call. A call without a confirmation wait is treated the same way.
- The chain's answers are fixed in advance, for each log position. What the contracts would do on chain is not modelled.
- Everything runs strictly in sequence. The async/await scheduling is not modelled.
- The ABI and bytecode imports, the unused WETH9 and pool interfaces and the commented-out line 72 are left out. The model names contracts only by the `Artifact` datatype.
- `contract/scripts/deploy.ts` is not part of this model. It is an entry point over functions from files that are not shown.
- `web/src/components/Graph.tsx` is not part of this model. It is a React chart component with no logic to verify.
- UniswapSetup.FakeChain.GetUniswapSetup: the five deployments form their own method, `DeployContracts`. The script makes them inline, and the log is the same.
