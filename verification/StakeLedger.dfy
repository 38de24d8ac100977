/** Links, locks, votes (accounts pallet) and stakes (protos pallet): their storage and what each call does to it. */
module StakeLedger {
  import opened Basics

  /** A lock or unlock event of the Ethereum contract, as submitted. */
  datatype LockUpdate = LockUpdate(amount: nat, sender: Address, signature: Bytes, lock: bool, blockNumber: nat)

  datatype EthLock = EthLock(amount: nat, block: nat)
  datatype Stake = Stake(amount: nat, since: nat)

  datatype Error =
    | SystematicFailure | VerificationFailed | LinkAlreadyProcessed | AccountAlreadyLinked | AccountNotLinked
    | DifferentAccountLinked | ProtoNotFound | NoFragLink | InsufficientBalance | StakeNotFound | StakeLocked
    | Panic

  /** `stake` and `unstake` compute the new usage and drop it. `Intended` writes it back instead. */
  datatype Mode = AsWritten | Intended

  /** The constants of the pallets and the functions they call, uninterpreted: the hash of an event,
      the address recovered from a signature, and the account derived for staking. */
  datatype Params = Params(
    threshold: nat, lockup: nat,
    eventHash: LockUpdate -> Hash256,
    lockSigner: LockUpdate -> Option<Address>,
    linkSigner: (AccountId, Bytes) -> Option<Address>,
    lockedAccount: AccountId -> AccountId)

  datatype Chain = Chain(
    now: nat,
    links: map<AccountId, Address>,
    linksReverse: map<Address, AccountId>,
    usage: map<AccountId, nat>,
    locked: map<Address, EthLock>,
    votes: map<Hash256, nat>,
    closed: map<Hash256, nat>,
    pending: seq<AccountId>,
    stakes: map<(Hash256, AccountId), Stake>,
    accountStakes: map<AccountId, seq<Hash256>>)

  function Genesis(now: nat): Chain {
    Chain(now, map[], map[], map[], map[], map[], map[], [], map[], map[])
  }

  // ---- link, unlink ---------------------------------------------------------------------------

  function Linked(s: Chain, p: Params, who: AccountId, signature: Bytes): Result<Chain, Error> {
    var key := p.linkSigner(who, signature);
    if key.None? then Err(VerificationFailed)
    else if who in s.links || key.value in s.linksReverse then Err(AccountAlreadyLinked)
    else Ok(s.(links := s.links[who := key.value], linksReverse := s.linksReverse[key.value := who],
               usage := s.usage[who := 0]))
  }

  function Unlinked(s: Chain, who: AccountId, key: Address): Result<Chain, Error> {
    if who !in s.links then Err(AccountNotLinked)
    else if s.links[who] != key then Err(DifferentAccountLinked)
    else if key !in s.linksReverse then Err(AccountNotLinked)
    else if s.linksReverse[key] != who then Err(DifferentAccountLinked)
    else Ok(s.(links := s.links - {who}, linksReverse := s.linksReverse - {key}, usage := s.usage - {who},
               pending := s.pending + [who]))
  }

  // ---- internal_lock_update -------------------------------------------------------------------

  /** The checks before any vote is counted. */
  function LockRefusal(s: Chain, p: Params, u: LockUpdate): Option<Error> {
    if p.eventHash(u) in s.closed then Some(LinkAlreadyProcessed)
    else if p.lockSigner(u) != Some(u.sender) then Some(VerificationFailed)
    else if U128 <= u.amount then Some(SystematicFailure)
    else if u.lock != (0 < u.amount) then Some(SystematicFailure)
    else None
  }

  /** An accepted submission that is the last one needed. */
  predicate Completes(s: Chain, p: Params, u: LockUpdate) {
    && LockRefusal(s, p, u).None?
    && (p.threshold <= 1 || (p.eventHash(u) in s.votes && p.threshold <= s.votes[p.eventHash(u)] + 1))
  }

  function Voted(s: Chain, d: Hash256): Chain {
    s.(votes := s.votes[d := (if d in s.votes then s.votes[d] else 0) + 1])
  }

  /** A smaller lock than what the linked account uses takes its usage away and has its stakes dropped. */
  function Slashed(s: Chain, u: LockUpdate): Chain {
    if u.sender in s.linksReverse && s.linksReverse[u.sender] in s.usage
       && u.amount < s.usage[s.linksReverse[u.sender]] then
      var a := s.linksReverse[u.sender];
      s.(usage := s.usage - {a}, pending := s.pending + [a])
    else s
  }

  /** An unlock removes the sender's link, if there is one. */
  function ForceUnlinked(s: Chain, u: LockUpdate): Result<Chain, Error> {
    if u.sender in s.linksReverse then Unlinked(s, s.linksReverse[u.sender], u.sender) else Ok(s)
  }

  function Closed(s: Chain, p: Params, u: LockUpdate): Chain {
    s.(locked := s.locked[u.sender := EthLock(u.amount, s.now)], closed := s.closed[p.eventHash(u) := s.now])
  }

  function VotesSpent(s: Chain, p: Params, u: LockUpdate): Chain {
    if p.threshold <= 1 then s else s.(votes := s.votes - {p.eventHash(u)})
  }

  function Affected(s: Chain, u: LockUpdate): Result<Chain, Error> {
    if u.lock then Ok(Slashed(s, u)) else ForceUnlinked(s, u)
  }

  /** Carrying an event out. */
  function CarriedOut(s: Chain, p: Params, u: LockUpdate): Result<Chain, Error> {
    var r := Affected(VotesSpent(s, p, u), u);
    if r.Err? then r else Ok(Closed(r.value, p, u))
  }

  function LockUpdated(s: Chain, p: Params, u: LockUpdate): Result<Chain, Error> {
    var refusal := LockRefusal(s, p, u);
    if refusal.Some? then Err(refusal.value)
    else if Completes(s, p, u) then CarriedOut(s, p, u)
    else Ok(Voted(s, p.eventHash(u)))
  }

  // ---- stake, unstake -------------------------------------------------------------------------

  function WriteBack(mode: Mode, old_: nat, new_: nat): nat {
    if mode.AsWritten? then old_ else new_
  }

  /** u128 subtraction in a release build. */
  function WrappingSub(a: nat, b: nat): nat {
    if b <= a then a - b else (U128 + a - b) % U128
  }

  /** Checks and effects are those of the account derived from the caller, not of the caller. */
  function Staked(s: Chain, p: Params, mode: Mode, caller: AccountId, h: Hash256, amount: nat, protos: set<Hash256>)
    : Result<Chain, Error>
  {
    var a := p.lockedAccount(caller);
    if h !in protos then Err(ProtoNotFound)
    else if a !in s.links || s.links[a] !in s.locked || a !in s.usage then Err(NoFragLink)
    else if WrappingSub(s.locked[s.links[a]].amount, s.usage[a]) < amount then Err(InsufficientBalance)
    else Ok(s.(usage := s.usage[a := WriteBack(mode, s.usage[a], Min(s.usage[a] + amount, U128 - 1))],
               stakes := s.stakes[(h, a) := Stake(amount, s.now)],
               accountStakes := Append(s.accountStakes, a, h)))
  }

  function Unstaked(s: Chain, p: Params, mode: Mode, a: AccountId, h: Hash256, protos: set<Hash256>)
      : Result<Chain, Error>
  {
    if h !in protos then Err(ProtoNotFound)
    else if (h, a) !in s.stakes then Err(StakeNotFound)
    else if s.now <= s.stakes[(h, a)].since + p.lockup then Err(StakeLocked)
    else if a !in s.usage then Err(Panic)
    else Ok(s.(usage := s.usage[a := WriteBack(mode, s.usage[a], SaturatingSub(s.usage[a], s.stakes[(h, a)].amount))],
               stakes := s.stakes - {(h, a)},
               accountStakes := Retain(s.accountStakes, a, h)))
  }

  // ---- on_finalize of protos ------------------------------------------------------------------

  /** The simple reading of the clean-up: accounts pending unlink have no stakes left. */
  function Cleaned(s: Chain): Chain {
    s.(stakes := map k | k in s.stakes && k.1 !in s.pending :: s.stakes[k],
       accountStakes := map a | a in s.accountStakes && a !in s.pending :: s.accountStakes[a],
       pending := [])
  }

  // ---- Runs -----------------------------------------------------------------------------------

  datatype Call =
    | Link(who: AccountId, signature: Bytes)
    | Unlink(who: AccountId, key: Address)
    | Update(u: LockUpdate)
    | StakeOn(who: AccountId, h: Hash256, amount: nat, protos: set<Hash256>)
    | Unstake(who: AccountId, h: Hash256, protos: set<Hash256>)
    | EndBlock

  function Outcome(s: Chain, p: Params, mode: Mode, call: Call): Result<Chain, Error> {
    match call
    case Link(who, signature) => Linked(s, p, who, signature)
    case Unlink(who, key) => Unlinked(s, who, key)
    case Update(u) => LockUpdated(s, p, u)
    case StakeOn(who, h, amount, protos) => Staked(s, p, mode, who, h, amount, protos)
    case Unstake(who, h, protos) => Unstaked(s, p, mode, who, h, protos)
    case EndBlock => var c := Cleaned(s); Ok(c.(now := s.now + 1))
  }

  function Apply(s: Chain, p: Params, mode: Mode, call: Call): Chain {
    After(s, Outcome(s, p, mode, call))
  }

  function Run(s: Chain, p: Params, mode: Mode, calls: seq<Call>): Chain {
    if calls == [] then s else Apply(Run(s, p, mode, calls[..|calls| - 1]), p, mode, calls[|calls| - 1])
  }
}
