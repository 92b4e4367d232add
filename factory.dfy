/**
 * The pool factory: validates a creation request, registers one pool per
 * canonical pair, pulls the two deposits into the pool, and splits the
 * bootstrap liquidity units between a permanent burn (held by the factory's
 * own address) and the depositor.
 *
 * `Create` is the specification of one `createPool` transaction over the
 * observable state; the class `PoolFactory` implements it in place.
 */
module Factory {
  import opened Results
  import opened Pairs
  import opened Ledger

  /** Each deposit must be strictly greater than this many minimal units. */
  const FLOOR: nat := 100000

  /** Revert reasons of `createPool`. */
  datatype Error =
    | Input1NotAboveFloor  // "Input1!>100000"
    | Input2NotAboveFloor  // "Input2!>100000"
    | InvalidPair          // "!Valid"
    | Exists               // "Exists"
    | InsufficientBalance  // raised by the token contract while pulling a deposit
    | UnitsBelowBurn       // the depositor's share `units - burn` would be negative

  /** Liquidity-units formula: (input1, reserve1, input2, reserve2, existing units) to units. */
  type UnitsFormula = (nat, nat, nat, nat, nat) -> nat

  /**
   * Deployment parameters: the wrapped-native address, the factory's own
   * address (the burn sink), the burned seed quantity, and the
   * liquidity-units formula.
   */
  datatype Config = Config(wrapped: nat, factory: nat, burn: nat, calcUnits: UnitsFormula)

  /** A pool as created: canonical tokens, reserves in key order, unit supply and holders. */
  datatype Pool = Pool(
    addr: nat,
    token1: nat,
    token2: nat,
    reserve1: nat,
    reserve2: nat,
    supply: nat,
    units: map<nat, nat>)

  /** The `PoolCreated` notification: canonical token pair and pool address. */
  datatype PoolCreated = PoolCreated(tokenA: nat, tokenB: nat, pool: nat)

  /** One `createPool` call: sender, amounts and tokens as given, and the new pool's address. */
  datatype Request = Request(caller: nat, amount1: nat, amount2: nat, token1: nat, token2: nat, poolAddr: nat)

  /** Everything a `createPool` transaction can change. */
  datatype State = State(pools: map<(nat, nat), Pool>, balances: Balances, log: seq<PoolCreated>)

  /** The same call with both the amounts and the tokens given in the other order. */
  function Swapped(req: Request): Request
  {
    Request(req.caller, req.amount2, req.amount1, req.token2, req.token1, req.poolAddr)
  }

  function UnitsOf(p: Pool, holder: nat): nat
  {
    if holder in p.units then p.units[holder] else 0
  }

  function Credit(units: map<nat, nat>, holder: nat, amount: nat): map<nat, nat>
  {
    units[holder := (if holder in units then units[holder] else 0) + amount]
  }

  /** The reserve a pool holds of `token`, zero if it is neither of its tokens. */
  function ReserveOf(p: Pool, token: nat): nat
  {
    if token == p.token1 then p.reserve1 else if token == p.token2 then p.reserve2 else 0
  }

  /**
   * The admission checks of `createPool`, in the contract's order; on
   * success the canonical key of the new pool.
   */
  function Admit(wrapped: nat, pools: map<(nat, nat), Pool>, amount1: nat, amount2: nat, token1: nat, token2: nat)
    : (r: Result<(nat, nat), Error>)
    ensures r == Err(Input1NotAboveFloor) <==> amount1 <= FLOOR
    ensures r == Err(Input2NotAboveFloor) <==> amount1 > FLOOR && amount2 <= FLOOR
    ensures r == Err(InvalidPair) <==> amount1 > FLOOR && amount2 > FLOOR && !ValidPair(token1, token2, wrapped)
    ensures r == Err(Exists) <==>
      amount1 > FLOOR && amount2 > FLOOR && ValidPair(token1, token2, wrapped) && Key(token1, token2, wrapped) in pools
    ensures r.Ok? <==>
      amount1 > FLOOR && amount2 > FLOOR && ValidPair(token1, token2, wrapped) && Key(token1, token2, wrapped) !in pools
    ensures r.Ok? ==> r.value == Key(token1, token2, wrapped)
  {
    if amount1 <= FLOOR then Err(Input1NotAboveFloor)
    else if amount2 <= FLOOR then Err(Input2NotAboveFloor)
    else if !ValidPair(token1, token2, wrapped) then Err(InvalidPair)
    else if Key(token1, token2, wrapped) in pools then Err(Exists)
    else Ok(Key(token1, token2, wrapped))
  }

  /**
   * Pulls one deposit from the caller into the pool. The native leg is paid
   * with the call's attached value and does not touch the token ledger.
   */
  function PullLeg(bal: Balances, token: nat, from: nat, to: nat, amount: nat): (r: Result<Balances, Error>)
    ensures token == NATIVE ==> r == Ok(bal)
    ensures token != NATIVE ==> (r.Ok? <==> amount <= BalanceOf(bal, token, from))
    ensures token != NATIVE && r.Ok? ==> Transfer(bal, token, from, to, amount) == Ok(r.value)
    ensures r.Err? ==> r.error == InsufficientBalance
  {
    if token == NATIVE then Ok(bal)
    else match Transfer(bal, token, from, to, amount)
      case Ok(b) => Ok(b)
      case Err(_) => Err(InsufficientBalance)
  }

  /** Splits the bootstrap units into (burned, to the depositor), reverting if they do not cover the burn. */
  function SplitUnits(total: nat, burn: nat): (r: Result<(nat, nat), Error>)
    ensures r.Ok? <==> burn <= total
    ensures r.Ok? ==> r.value.0 == burn && r.value.0 + r.value.1 == total
    ensures r.Err? ==> r.error == UnitsBelowBurn
  {
    if total < burn then Err(UnitsBelowBurn) else Ok((burn, total - burn))
  }

  /** The bootstrap units of a new pool, computed on the amounts in call order with empty reserves. */
  function BootstrapUnits(cfg: Config, req: Request): nat
  {
    cfg.calcUnits(req.amount1, 0, req.amount2, 0, 0)
  }

  /** The pool a successful request creates under `key`. */
  function NewPool(cfg: Config, req: Request, key: (nat, nat), split: (nat, nat)): Pool
  {
    var firstIsToken1 := Resolve(req.token1, cfg.wrapped) == key.0;
    Pool(req.poolAddr, key.0, key.1,
         if firstIsToken1 then req.amount1 else req.amount2,
         if firstIsToken1 then req.amount2 else req.amount1,
         split.0 + split.1,
         Credit(Credit(map[], cfg.factory, split.0), req.caller, split.1))
  }

  /** One `createPool` transaction: the new state, or the revert reason (and then no change). */
  function Create(cfg: Config, s: State, req: Request): Result<State, Error>
  {
    match Admit(cfg.wrapped, s.pools, req.amount1, req.amount2, req.token1, req.token2)
    case Err(e) => Err(e)
    case Ok(key) =>
      match PullLeg(s.balances, req.token1, req.caller, req.poolAddr, req.amount1)
      case Err(e) => Err(e)
      case Ok(b1) =>
        match PullLeg(b1, req.token2, req.caller, req.poolAddr, req.amount2)
        case Err(e) => Err(e)
        case Ok(b2) =>
          match SplitUnits(BootstrapUnits(cfg, req), cfg.burn)
          case Err(e) => Err(e)
          case Ok(split) =>
            Ok(State(s.pools[key := NewPool(cfg, req, key, split)], b2,
                     s.log + [PoolCreated(key.0, key.1, req.poolAddr)]))
  }

  /** `getPool`: the pool registered for a pair, in either order and either native form. */
  function Lookup(pools: map<(nat, nat), Pool>, token1: nat, token2: nat, wrapped: nat): Option<Pool>
  {
    if Key(token1, token2, wrapped) in pools then Some(pools[Key(token1, token2, wrapped)]) else None
  }

  /** A sequence of transactions; a reverted one leaves the state as it was. */
  function Run(cfg: Config, s: State, reqs: seq<Request>): State
    decreases |reqs|
  {
    if reqs == [] then s
    else
      var next := match Create(cfg, s, reqs[0]) case Ok(t) => t case Err(_) => s;
      Run(cfg, next, reqs[1..])
  }

  /** What every registered pool satisfies. */
  ghost predicate PoolAt(cfg: Config, k: (nat, nat), p: Pool)
  {
    k.0 < k.1 && k.0 != NATIVE
    && p.token1 == k.0 && p.token2 == k.1
    && p.addr != NATIVE
    && p.reserve1 > FLOOR && p.reserve2 > FLOOR
    && p.supply >= cfg.burn
    && UnitsOf(p, cfg.factory) >= cfg.burn
  }

  /**
   * The registry invariant: each pool is well formed under its key, pool
   * addresses are distinct, and every creation notification names a
   * registered pair and the pool registered for it, one notification per pool.
   */
  ghost predicate WellFormed(cfg: Config, pools: map<(nat, nat), Pool>, log: seq<PoolCreated>)
  {
    (forall k | k in pools :: PoolAt(cfg, k, pools[k]))
    && (forall k1, k2 | k1 in pools && k2 in pools && k1 != k2 :: pools[k1].addr != pools[k2].addr)
    && (forall i | 0 <= i < |log| ::
          (log[i].tokenA, log[i].tokenB) in pools
          && pools[(log[i].tokenA, log[i].tokenB)].addr == log[i].pool)
    && |log| == |pools|
  }

  /** No registered pool already lives at this address, and it is not the zero address. */
  ghost predicate FreshAddress(s: State, addr: nat)
  {
    addr != NATIVE && forall k | k in s.pools :: s.pools[k].addr != addr
  }

  ghost predicate FreshAddresses(s: State, reqs: seq<Request>)
  {
    (forall i | 0 <= i < |reqs| :: FreshAddress(s, reqs[i].poolAddr))
    && (forall i, j | 0 <= i < j < |reqs| :: reqs[i].poolAddr != reqs[j].poolAddr)
  }

  /**
   * `createPool` reports the first failing check: a deposit not above the
   * floor (first amount, then second), an invalid pair, an existing pool, a
   * caller short of a non-native deposit (first token, then second), or
   * bootstrap units that do not cover the burn. When every check passes it
   * succeeds.
   */
  lemma CreateOutcome(cfg: Config, s: State, req: Request)
    ensures req.amount1 <= FLOOR ==> Create(cfg, s, req) == Err(Input1NotAboveFloor)
    ensures req.amount1 > FLOOR && req.amount2 <= FLOOR ==> Create(cfg, s, req) == Err(Input2NotAboveFloor)
    ensures req.amount1 > FLOOR && req.amount2 > FLOOR && !ValidPair(req.token1, req.token2, cfg.wrapped)
      ==> Create(cfg, s, req) == Err(InvalidPair)
    ensures req.amount1 > FLOOR && req.amount2 > FLOOR && ValidPair(req.token1, req.token2, cfg.wrapped)
      && Key(req.token1, req.token2, cfg.wrapped) in s.pools
      ==> Create(cfg, s, req) == Err(Exists)
    ensures Admitted(cfg, s, req) && !Funded(s, req) ==> Create(cfg, s, req) == Err(InsufficientBalance)
    ensures Admitted(cfg, s, req) && Funded(s, req) && BootstrapUnits(cfg, req) < cfg.burn
      ==> Create(cfg, s, req) == Err(UnitsBelowBurn)
    ensures Create(cfg, s, req).Ok? <==>
      Admitted(cfg, s, req) && Funded(s, req) && cfg.burn <= BootstrapUnits(cfg, req)
  {
  }

  /**
   * The state a request that passes every check leads to, given its key and
   * bootstrap units.
   */
  lemma CreateSucceeds(cfg: Config, s: State, req: Request, key: (nat, nat), total: nat)
    requires Admitted(cfg, s, req) && Funded(s, req) && cfg.burn <= BootstrapUnits(cfg, req)
    requires key == Key(req.token1, req.token2, cfg.wrapped) && total == BootstrapUnits(cfg, req)
    ensures var b1 := PullLeg(s.balances, req.token1, req.caller, req.poolAddr, req.amount1);
      b1.Ok? && PullLeg(b1.value, req.token2, req.caller, req.poolAddr, req.amount2).Ok?
      && Create(cfg, s, req) == Ok(State(
           s.pools[key := NewPool(cfg, req, key, (cfg.burn, total - cfg.burn))],
           PullLeg(b1.value, req.token2, req.caller, req.poolAddr, req.amount2).value,
           s.log + [PoolCreated(key.0, key.1, req.poolAddr)]))
  {
    CreateOutcome(cfg, s, req);
  }

  /** The request passes the admission checks. */
  predicate Admitted(cfg: Config, s: State, req: Request)
  {
    Admit(cfg.wrapped, s.pools, req.amount1, req.amount2, req.token1, req.token2).Ok?
  }

  /** The caller holds each non-native deposit. */
  predicate Funded(s: State, req: Request)
  {
    (req.token1 != NATIVE ==> req.amount1 <= BalanceOf(s.balances, req.token1, req.caller))
    && (req.token2 != NATIVE ==> req.amount2 <= BalanceOf(s.balances, req.token2, req.caller))
  }

  /**
   * A successful creation adds exactly one pool, under the canonical key,
   * holding each deposit as the reserve of its token, and logs the
   * canonical pair with the pool's address.
   */
  lemma CreateRegisters(cfg: Config, s: State, req: Request, s': State)
    requires cfg.wrapped != NATIVE
    requires Create(cfg, s, req) == Ok(s')
    ensures var key := Key(req.token1, req.token2, cfg.wrapped);
      key !in s.pools && key in s'.pools
      && s'.pools == s.pools[key := s'.pools[key]]
      && s'.pools[key].addr == req.poolAddr
      && ReserveOf(s'.pools[key], Resolve(req.token1, cfg.wrapped)) == req.amount1
      && ReserveOf(s'.pools[key], Resolve(req.token2, cfg.wrapped)) == req.amount2
      && s'.log == s.log + [PoolCreated(key.0, key.1, req.poolAddr)]
  {
  }

  /**
   * On success the caller's balance of each non-native token drops by
   * exactly its deposit, the pool's rises by the same, and every other
   * balance is unchanged.
   */
  lemma CreateMovesDeposits(cfg: Config, s: State, req: Request, s': State)
    requires cfg.wrapped != NATIVE
    requires req.caller != req.poolAddr
    requires Create(cfg, s, req) == Ok(s')
    ensures req.token1 != NATIVE ==>
      BalanceOf(s'.balances, req.token1, req.caller) == BalanceOf(s.balances, req.token1, req.caller) - req.amount1
      && BalanceOf(s'.balances, req.token1, req.poolAddr) == BalanceOf(s.balances, req.token1, req.poolAddr) + req.amount1
    ensures req.token2 != NATIVE ==>
      BalanceOf(s'.balances, req.token2, req.caller) == BalanceOf(s.balances, req.token2, req.caller) - req.amount2
      && BalanceOf(s'.balances, req.token2, req.poolAddr) == BalanceOf(s.balances, req.token2, req.poolAddr) + req.amount2
    ensures forall t: nat, h: nat :: t != req.token1 && t != req.token2 ==>
      BalanceOf(s'.balances, t, h) == BalanceOf(s.balances, t, h)
    ensures forall t: nat, h: nat :: h != req.caller && h != req.poolAddr ==>
      BalanceOf(s'.balances, t, h) == BalanceOf(s.balances, t, h)
  {
    var b1 := PullLeg(s.balances, req.token1, req.caller, req.poolAddr, req.amount1).value;
    assert req.token1 != req.token2;
  }

  /**
   * On success the factory's own address holds exactly the burned seed and
   * the caller the rest of the bootstrap units.
   */
  lemma CreateSplitsUnits(cfg: Config, s: State, req: Request, s': State)
    requires cfg.factory != req.caller
    requires Create(cfg, s, req) == Ok(s')
    ensures var p := s'.pools[Key(req.token1, req.token2, cfg.wrapped)];
      p.supply == BootstrapUnits(cfg, req)
      && UnitsOf(p, cfg.factory) == cfg.burn
      && UnitsOf(p, req.caller) == BootstrapUnits(cfg, req) - cfg.burn
      && p.units.Keys == {cfg.factory, req.caller}
  {
  }

  /**
   * After a creation, `getPool` finds the new pool in either argument order,
   * and with the wrapped address standing for a native side.
   */
  lemma CreatedPoolFound(cfg: Config, s: State, req: Request, s': State)
    requires Create(cfg, s, req) == Ok(s')
    ensures var p := Some(s'.pools[Key(req.token1, req.token2, cfg.wrapped)]);
      Lookup(s'.pools, req.token1, req.token2, cfg.wrapped) == p
      && Lookup(s'.pools, req.token2, req.token1, cfg.wrapped) == p
      && Lookup(s'.pools, Resolve(req.token1, cfg.wrapped), Resolve(req.token2, cfg.wrapped), cfg.wrapped) == p
      && p.value.addr == req.poolAddr
  {
  }

  /**
   * Once a pair has a pool, creating it again fails with `Exists` for any
   * amounts above the floor and any naming of the same pair: the original
   * order, the swapped order, or native and wrapped forms exchanged.
   */
  lemma RecreateRejected(cfg: Config, s: State, req: Request, s': State, again: Request)
    requires Create(cfg, s, req) == Ok(s')
    requires again.amount1 > FLOOR && again.amount2 > FLOOR
    requires (Resolve(again.token1, cfg.wrapped), Resolve(again.token2, cfg.wrapped))
             == (Resolve(req.token1, cfg.wrapped), Resolve(req.token2, cfg.wrapped))
          || (Resolve(again.token1, cfg.wrapped), Resolve(again.token2, cfg.wrapped))
             == (Resolve(req.token2, cfg.wrapped), Resolve(req.token1, cfg.wrapped))
    ensures Create(cfg, s', again) == Err(Exists)
  {
    KeyDeterminesPair(again.token1, again.token2, req.token1, req.token2, cfg.wrapped);
    assert Key(req.token1, req.token2, cfg.wrapped) in s'.pools;
  }

  /** The test's two duplicate calls: the same request, and the swapped one, both fail with `Exists`. */
  lemma DuplicateRejected(cfg: Config, s: State, req: Request, s': State)
    requires Create(cfg, s, req) == Ok(s')
    ensures Create(cfg, s', req) == Err(Exists)
    ensures Create(cfg, s', Swapped(req)) == Err(Exists)
  {
  }

  /** The bootstrap formula gives the same units whichever deposit is named first. */
  ghost predicate BootstrapSymmetric(f: UnitsFormula)
  {
    forall x: nat, y: nat :: f(x, 0, y, 0, 0) == f(y, 0, x, 0, 0)
  }

  /**
   * When the bootstrap formula is symmetric, the swapped call succeeds
   * exactly when the original does, and then has exactly the same effect.
   */
  lemma SwappedRequestSameEffect(cfg: Config, s: State, req: Request)
    requires BootstrapSymmetric(cfg.calcUnits)
    ensures Create(cfg, s, Swapped(req)).Ok? <==> Create(cfg, s, req).Ok?
    ensures Create(cfg, s, req).Ok? ==> Create(cfg, s, Swapped(req)) == Create(cfg, s, req)
  {
    var w := cfg.wrapped;
    KeySymmetric(req.token1, req.token2, w);
    assert BootstrapUnits(cfg, Swapped(req)) == BootstrapUnits(cfg, req);
    CreateOutcome(cfg, s, req);
    CreateOutcome(cfg, s, Swapped(req));
    if Create(cfg, s, req).Ok? {
      var c, p := req.caller, req.poolAddr;
      var bal := s.balances;
      assert Resolve(req.token1, w) != Resolve(req.token2, w);
      var x1 := PullLeg(bal, req.token1, c, p, req.amount1).value;
      var x2 := PullLeg(x1, req.token2, c, p, req.amount2).value;
      var y1 := PullLeg(bal, req.token2, c, p, req.amount2).value;
      var y2 := PullLeg(y1, req.token1, c, p, req.amount1).value;
      PullsCommute(bal, req.token1, req.token2, c, p, req.amount1, req.amount2);
      assert y2 == x2;
    }
  }

  /** Pulling two different tokens gives the same balances in either order. */
  lemma PullsCommute(bal: Balances, t1: nat, t2: nat, c: nat, p: nat, a1: nat, a2: nat)
    requires t1 != t2
    requires PullLeg(bal, t1, c, p, a1).Ok? && PullLeg(bal, t2, c, p, a2).Ok?
    ensures PullLeg(PullLeg(bal, t1, c, p, a1).value, t2, c, p, a2).Ok?
    ensures PullLeg(PullLeg(bal, t2, c, p, a2).value, t1, c, p, a1).Ok?
    ensures PullLeg(PullLeg(bal, t1, c, p, a1).value, t2, c, p, a2).value
         == PullLeg(PullLeg(bal, t2, c, p, a2).value, t1, c, p, a1).value
  {
  }

  /** A successful creation with a fresh pool address keeps the registry invariant. */
  lemma CreatePreservesWellFormed(cfg: Config, s: State, req: Request, s': State)
    requires cfg.wrapped != NATIVE
    requires WellFormed(cfg, s.pools, s.log)
    requires FreshAddress(s, req.poolAddr)
    requires Create(cfg, s, req) == Ok(s')
    ensures WellFormed(cfg, s'.pools, s'.log)
  {
    var key := Key(req.token1, req.token2, cfg.wrapped);
    ValidKeyStrict(req.token1, req.token2, cfg.wrapped);
    CreateRegisters(cfg, s, req, s');
    assert |s'.pools| == |s.pools| + 1;
    assert PoolAt(cfg, key, s'.pools[key]);
    forall k | k in s'.pools ensures PoolAt(cfg, k, s'.pools[k]) {
      if k != key {
        assert s'.pools[k] == s.pools[k];
      }
    }
    forall k1, k2 | k1 in s'.pools && k2 in s'.pools && k1 != k2
      ensures s'.pools[k1].addr != s'.pools[k2].addr
    {
      if k1 != key && k2 != key {
        assert s'.pools[k1] == s.pools[k1] && s'.pools[k2] == s.pools[k2];
      }
    }
    forall i | 0 <= i < |s'.log|
      ensures (s'.log[i].tokenA, s'.log[i].tokenB) in s'.pools
      ensures s'.pools[(s'.log[i].tokenA, s'.log[i].tokenB)].addr == s'.log[i].pool
    {
      if i < |s.log| {
        assert s'.log[i] == s.log[i];
      }
    }
  }

  /**
   * Any sequence of `createPool` transactions with fresh, distinct pool
   * addresses keeps the registry invariant.
   */
  lemma {:induction false} RunPreservesWellFormed(cfg: Config, s: State, reqs: seq<Request>)
    requires cfg.wrapped != NATIVE
    requires WellFormed(cfg, s.pools, s.log)
    requires FreshAddresses(s, reqs)
    ensures var final := Run(cfg, s, reqs); WellFormed(cfg, final.pools, final.log)
    decreases |reqs|
  {
    if reqs != [] {
      var next := match Create(cfg, s, reqs[0]) case Ok(t) => t case Err(_) => s;
      if Create(cfg, s, reqs[0]).Ok? {
        CreatePreservesWellFormed(cfg, s, reqs[0], next);
        CreateRegisters(cfg, s, reqs[0], next);
      }
      var rest := reqs[1..];
      forall i | 0 <= i < |rest| ensures FreshAddress(next, rest[i].poolAddr) {
        assert rest[i] == reqs[i + 1];
      }
      forall i, j | 0 <= i < j < |rest| ensures rest[i].poolAddr != rest[j].poolAddr {
        assert rest[i] == reqs[i + 1] && rest[j] == reqs[j + 1];
      }
      RunPreservesWellFormed(cfg, next, rest);
    }
  }

  /**
   * The factory as deployed: its registry and notification log, updated in
   * place, and the token ledger it pulls deposits through.
   */
  class PoolFactory {
    const cfg: Config
    const ledger: TokenLedger
    var pools: map<(nat, nat), Pool>
    var log: seq<PoolCreated>

    /** The observable state, as the specification sees it. */
    function Snapshot(): State
      reads this, ledger
    {
      State(pools, ledger.balances, log)
    }

    ghost predicate Valid()
      reads this, ledger
    {
      cfg.wrapped != NATIVE && WellFormed(cfg, pools, log)
    }

    constructor (cfg: Config, ledger: TokenLedger)
      requires cfg.wrapped != NATIVE
      ensures Valid()
      ensures this.cfg == cfg && this.ledger == ledger
      ensures pools == map[] && log == []
    {
      this.cfg := cfg;
      this.ledger := ledger;
      pools := map[];
      log := [];
    }

    /**
     * `createPool`: checks, canonicalises, pulls both deposits, registers
     * the pool and logs the creation, exactly as `Create` specifies; a
     * reverted call changes nothing.
     */
    method CreatePool(caller: nat, amount1: nat, amount2: nat, token1: nat, token2: nat, poolAddr: nat)
      returns (r: Result<nat, Error>)
      requires Valid()
      requires FreshAddress(Snapshot(), poolAddr)
      modifies this, ledger
      ensures Valid()
      ensures r.Err? ==>
        Create(cfg, old(Snapshot()), Request(caller, amount1, amount2, token1, token2, poolAddr)) == Err(r.error)
        && Snapshot() == old(Snapshot())
      ensures r.Ok? ==>
        r.value == poolAddr
        && Create(cfg, old(Snapshot()), Request(caller, amount1, amount2, token1, token2, poolAddr)) == Ok(Snapshot())
    {
      var req := Request(caller, amount1, amount2, token1, token2, poolAddr);
      var admitted := Admission(req);
      if admitted.Err? {
        return Err(admitted.error);
      }
      ghost var before := Snapshot();
      Commit(req, admitted.value.0, admitted.value.1);
      CreatePreservesWellFormed(cfg, before, req, Snapshot());
      r := Ok(poolAddr);
    }

    /**
     * The checks of `createPool`, in order, before anything changes: on
     * success the canonical key and the bootstrap units, otherwise the
     * reason the call reverts.
     */
    method Admission(req: Request) returns (r: Result<((nat, nat), nat), Error>)
      ensures r.Ok? <==> Create(cfg, Snapshot(), req).Ok?
      ensures r.Err? ==> Create(cfg, Snapshot(), req) == Err(r.error)
      ensures r.Ok? ==> Admitted(cfg, Snapshot(), req) && Funded(Snapshot(), req)
      ensures r.Ok? ==> r.value == (Key(req.token1, req.token2, cfg.wrapped), BootstrapUnits(cfg, req))
    {
      CreateOutcome(cfg, Snapshot(), req);
      if req.amount1 <= FLOOR {
        return Err(Input1NotAboveFloor);
      }
      if req.amount2 <= FLOOR {
        return Err(Input2NotAboveFloor);
      }
      var first, second := CanonicalOrder(req.token1, req.token2, cfg.wrapped);
      if first == second {
        return Err(InvalidPair);
      }
      if (first, second) in pools {
        return Err(Exists);
      }
      var held1 := ledger.Balance(req.token1, req.caller);
      var held2 := ledger.Balance(req.token2, req.caller);
      if (req.token1 != NATIVE && req.amount1 > held1) || (req.token2 != NATIVE && req.amount2 > held2) {
        return Err(InsufficientBalance);
      }
      var total := cfg.calcUnits(req.amount1, 0, req.amount2, 0, 0);
      if total < cfg.burn {
        return Err(UnitsBelowBurn);
      }
      r := Ok(((first, second), total));
    }

    /**
     * The effects of an admitted `createPool`: both deposits pulled into the
     * pool, the pool registered under its key, the creation logged.
     */
    method Commit(req: Request, key: (nat, nat), total: nat)
      requires Admitted(cfg, Snapshot(), req) && Funded(Snapshot(), req) && cfg.burn <= BootstrapUnits(cfg, req)
      requires key == Key(req.token1, req.token2, cfg.wrapped) && total == BootstrapUnits(cfg, req)
      modifies this, ledger
      ensures Create(cfg, old(Snapshot()), req) == Ok(Snapshot())
    {
      ghost var s := Snapshot();
      var pool := NewPool(cfg, req, key, (cfg.burn, total - cfg.burn));
      var created := PoolCreated(key.0, key.1, req.poolAddr);
      ghost var b1 := PullLeg(s.balances, req.token1, req.caller, req.poolAddr, req.amount1).value;
      ghost var b2 := PullLeg(b1, req.token2, req.caller, req.poolAddr, req.amount2).value;
      ghost var target := State(s.pools[key := pool], b2, s.log + [created]);
      CreateSucceeds(cfg, s, req, key, total);
      PullDeposits(req);
      pools := pools[key := pool];
      log := log + [created];
      assert pools == target.pools && log == target.log && ledger.balances == target.balances;
      assert Snapshot() == target;
    }

    /** Both deposits pulled from the caller into the pool through the token ledger; the native leg is skipped. */
    method PullDeposits(req: Request)
      requires req.token1 != req.token2
      requires Funded(Snapshot(), req)
      modifies ledger
      ensures var b1 := PullLeg(old(ledger.balances), req.token1, req.caller, req.poolAddr, req.amount1);
        b1.Ok? && PullLeg(b1.value, req.token2, req.caller, req.poolAddr, req.amount2).Ok?
      ensures ledger.balances == PullLeg(
        PullLeg(old(ledger.balances), req.token1, req.caller, req.poolAddr, req.amount1).value,
        req.token2, req.caller, req.poolAddr, req.amount2).value
    {
      var ok: bool;
      if req.token1 != NATIVE {
        ok := ledger.TransferFrom(req.token1, req.caller, req.poolAddr, req.amount1);
      }
      if req.token2 != NATIVE {
        ok := ledger.TransferFrom(req.token2, req.caller, req.poolAddr, req.amount2);
      }
    }

    /** `getPool`: the address of the pool registered for a pair, if any. */
    method GetPool(token1: nat, token2: nat) returns (pool: Option<nat>)
      ensures pool.Some? <==> Lookup(pools, token1, token2, cfg.wrapped).Some?
      ensures pool.Some? ==> pool.value == Lookup(pools, token1, token2, cfg.wrapped).value.addr
    {
      var first, second := CanonicalOrder(token1, token2, cfg.wrapped);
      if (first, second) in pools {
        pool := Some(pools[(first, second)].addr);
      } else {
        pool := None;
      }
    }
  }
}
