# Pool factory of an automated liquidity-pool exchange

This project models `PoolFactory.createPool` and `getPool` in Dafny and proves their properties. The factory creates one pool per pair of tokens. The only repository file this model reads is the Hardhat test `test/1-PoolFactory.ts`. The model follows the behaviour that file observes.

A `createPool(amount1, amount2, token1, token2)` call goes through these steps in order:

- It checks its inputs, and the first check that fails decides the revert reason:
  - `amount1` must be strictly greater than 100000, or the call reverts with `Input1!>100000`.
  - `amount2` must be strictly greater than 100000, or it reverts with `Input2!>100000`.
  - The two tokens must differ once the native sentinel is resolved, or it reverts with `!Valid`. The native sentinel is the zero address, and it resolves to the wrapped-native address.
  - The pair must not already have a pool, or it reverts with `Exists`.
- It canonicalises the pair. Each native side becomes the wrapped address, and the smaller identifier goes first. The resulting key is the registry key and the pair reported by the `PoolCreated` notification.
- It pulls both deposits from the caller into the new pool.
- It computes the bootstrap liquidity units with the units formula on empty reserves.
- It credits a fixed burned seed to the factory's own address and the rest of the units to the caller.

`getPool` looks a pair up in the same canonical way, so either argument order works, and so does either the native or the wrapped form of a token.

Structure:

- `results.dfy` (`Results`): `Option` and `Result`.
- `pairs.dfy` (`Pairs`): resolving the native sentinel, the validity of a pair, and the canonical key. `CanonicalOrder` is the step-by-step canonicalisation, with a swap through a cached temporary.
- `ledger.dfy` (`Ledger`): the token balances. `Transfer` is the all-or-nothing transfer as a function. `TokenLedger` is the balance table, updated in place.
- `factory.dfy` (`Factory`): the admission checks, the LP split, and `Create`, the specification of one `createPool` transaction over the observable state (registry, balances, notification log). `Run` applies a sequence of transactions. `WellFormed` is the registry invariant. The class `PoolFactory` implements `createPool` and `getPool` in place, and their contracts tie them to `Create` and `Lookup`.

Parameters:

- Addresses are natural numbers, ordered by `<`.
- The wrapped-native address, the factory's own address, the burned seed `burnLiq` and the units formula `calcLiquidityUnits` are fields of a `Config` value. Their definitions are not part of this model, so no property depends on a particular value or formula.
- The address of a newly deployed pool comes from the chain's contract-creation rule. It is a parameter of `CreatePool`, which requires that the address is not zero and is not already used by another pool.

## Model

| member | source | states |
|---|---|---|
| `Pairs.Key` | test/1-PoolFactory.ts:218-231 | the key is ordered smallest first and holds the two resolved tokens, in the given or the swapped order |
| `Pairs.CanonicalOrder` | test/1-PoolFactory.ts:218-231 | translating native sides to the wrapped address and swapping when the first is larger yields an ordered pair of the two resolved tokens, which is the registry key |
| `Pairs.KeySymmetric` | test/1-PoolFactory.ts:91-113 | both argument orders give the same key |
| `Pairs.KeyNativeIsWrapped` | test/1-PoolFactory.ts:256-263 | the native sentinel and the wrapped address give the same key on either side |
| `Pairs.KeyDeterminesPair` | test/1-PoolFactory.ts:218-231 | two pairs have the same key if and only if they resolve to the same two tokens in some order |
| `Pairs.InvalidPairCases` | test/1-PoolFactory.ts:63-89 | a pair is rejected exactly when the tokens are equal (native/native included), or when one side is native and the other is the wrapped address, in either order |
| `Pairs.ValidKeyStrict` | test/1-PoolFactory.ts:63-89 | a pair is valid if and only if its key is strictly ordered; no key holds the native sentinel |
| `Ledger.Transfer` | test/1-PoolFactory.ts:139-157 | the transfer succeeds if and only if the sender holds the amount; the sender then loses and the receiver gains exactly that amount; no other balance changes |
| `Ledger.TokenLedger.Balance` | test/1-PoolFactory.ts:127-136 | returns the holder's balance of the token, zero when it is absent |
| `Ledger.TokenLedger.TransferFrom` | test/1-PoolFactory.ts:139-157 | performs `Transfer` in place and changes nothing when it fails |
| `Factory.Admit` | test/1-PoolFactory.ts:35-113 | the four checks in order: each error is reported exactly when its check is the first that fails, and admission yields the canonical key |
| `Factory.PullLeg` | test/1-PoolFactory.ts:139-157 | a non-native deposit is pulled by a token transfer and fails as `InsufficientBalance` if and only if the caller lacks the amount; the native leg leaves the token balances unchanged |
| `Factory.SplitUnits` | test/1-PoolFactory.ts:189-197 | the split exists if and only if the units cover the burn; the burned part is exactly the seed, and the two parts add up to the total |
| `Factory.CreateSucceeds` | test/1-PoolFactory.ts:233-254 | a request that passes every check pulls both deposits and leads to the registry with the new pool under its key, the balances after both pulls, and the log with one more notification |
| `Factory.CreateOutcome` | test/1-PoolFactory.ts:35-113 | `createPool` reports the first failing check (floor on input 1, floor on input 2, `!Valid`, `Exists`, balance, burn) and succeeds if and only if every check passes |
| `Factory.CreateRegisters` | test/1-PoolFactory.ts:233-254 | a success adds exactly one pool, under a key that was absent, at the given address; each deposit becomes the reserve of its resolved token; the log gains the canonical pair with the pool's address |
| `Factory.CreateMovesDeposits` | test/1-PoolFactory.ts:139-157 | on success the caller's balance of each non-native token drops by exactly its deposit, the pool's balance rises by the same amount, and every other balance is unchanged |
| `Factory.CreateSplitsUnits` | test/1-PoolFactory.ts:160-206 | on success the factory holds exactly `burnLiq` units; the caller holds `calcLiquidityUnits(in1,0,in2,0,0) - burnLiq`; the supply is the bootstrap total and no one else holds units |
| `Factory.CreatedPoolFound` | test/1-PoolFactory.ts:286-293 | after a creation, `getPool` finds the new pool with the tokens in either order, and with the wrapped address standing for a native side |
| `Factory.RecreateRejected` | test/1-PoolFactory.ts:91-113 | once a pair has a pool, any later request above the floor that names the same pair fails with `Exists`, whatever the order or native form |
| `Factory.DuplicateRejected` | test/1-PoolFactory.ts:91-113 | repeating a successful request, or repeating it with amounts and tokens swapped, fails with `Exists` |
| `Factory.SwappedRequestSameEffect` | test/1-PoolFactory.ts:174-187 | if the bootstrap formula is symmetric in its two deposits, the swapped call succeeds exactly when the original does and then leads to the identical state |
| `Factory.CreatePreservesWellFormed` | test/1-PoolFactory.ts:247-254 | a success with a fresh pool address keeps the registry invariant: keys are strictly ordered and free of the native sentinel; pools match their keys, hold reserves above the floor and at least the burned units; addresses are distinct; every notification names a registered pair and its pool |
| `Factory.RunPreservesWellFormed` | test/1-PoolFactory.ts:271-293 | any sequence of `createPool` transactions with fresh, distinct pool addresses keeps the registry invariant |
| `Factory.PoolFactory.constructor` | test/1-PoolFactory.ts:36 | a freshly deployed factory has an empty registry and an empty log, and satisfies the invariant |
| `Factory.PoolFactory.CreatePool` | test/1-PoolFactory.ts:233-240 | the in-place implementation does what `Create` specifies: on a revert it returns the reason and changes nothing; on success it returns the pool's address and the registry, balances and log are `Create`'s new state; the invariant is kept |
| `Factory.PoolFactory.Admission` | test/1-PoolFactory.ts:35-113 | the checks in order, before any change: the call reverts with a reason exactly when `Create` does, with the same reason; otherwise it yields the canonical key and the bootstrap units |
| `Factory.PoolFactory.Commit` | test/1-PoolFactory.ts:233-254 | for an admitted and funded request, pulling the deposits, registering the pool and logging the creation produces exactly `Create`'s new state |
| `Factory.PoolFactory.PullDeposits` | test/1-PoolFactory.ts:139-157 | for a funded request with two different tokens, both pulls succeed and the ledger ends as after pulling the first and then the second deposit |
| `Factory.PoolFactory.GetPool` | test/1-PoolFactory.ts:247-250 | returns the address of the pool registered under the canonical key of the two tokens, or nothing when there is none |

## Left out

- The Hardhat and ethers plumbing is left out: fixtures, `connect`, `approve`, waiting for transactions, and filtering logs. The notification is modelled as an append to a `log` field, and revert reasons as the `Error` datatype.
- Token allowances are left out, because `approve` is plumbing here. A custody failure is modelled only as `InsufficientBalance`.
- Native-coin balances are left out: the test marks them as TODO and checks nothing about them. The native leg of a deposit does not touch the token ledger. The rule that the attached value must equal the native deposit is not modelled.
- The body of `calcLiquidityUnits` is left out, and so are the values of `burnLiq`, the wrapped address and the token addresses. They come from helper files that are not part of this model. The formula is therefore a parameter, and its symmetry is a hypothesis of `Factory.SwappedRequestSameEffect`, not a proved fact.
- The deployed address of a new pool is a parameter and is not derived. Its freshness is required of the caller.
- The test computes the expected units in call order, `calcLiquidityUnits(in1, 0, in2, 0, 0)`, and the model does the same. The factory's own source is not part of this model. If that source passes the amounts in canonical order, the two agree only when the formula is symmetric.
- The `UnitsBelowBurn` revert is an assumption of the model. It covers bootstrap units smaller than the burned seed, where the depositor's share would be negative; the test never exercises that case. The revert wording for this case and for `InsufficientBalance` is not shown and is not modelled.
- Steady-state deposits, withdrawals and swaps after creation are left out.
- BigNumber decimal formatting and comparing hexadecimal strings are left out. Identifier order is the numeric order on `nat`.
