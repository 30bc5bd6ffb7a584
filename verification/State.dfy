/** The tables of the system contract together with what it shares with the other contracts. */
module State {
  import opened Base
  import L = Ledger
  import P = Permissions

  /** A public key; 0 stands for the default-constructed one. */
  type Key = nat

  datatype KeyWeight = KeyWeight(key: Key, weight: nat)
  datatype Authority = Authority(threshold: nat, keys: seq<KeyWeight>)

  datatype Producer = Producer(
    totalVotes: int, producerKey: Key, isActive: bool,
    unpaidBlocks: nat, lastClaimTime: nat, authority: Option<Authority>)
  {
    /** The value the vote index sorts by, smallest first. */
    function ByVotes(): int {
      if isActive then -totalVotes else totalVotes
    }

    function Deactivate(): Producer {
      this.(producerKey := 0, authority := None, isActive := false)
    }

    /** The stored authority unless it is missing or has threshold 0; then the legacy key. */
    function SigningAuthority(): Authority {
      if authority.Some? && authority.value.threshold != 0
      then authority.value
      else KeyAuthority(producerKey)
    }
  }

  function KeyAuthority(key: Key): Authority {
    Authority(1, [KeyWeight(key, 1)])
  }

  datatype Voter = Voter(producer: Name, staked: int)

  const STAKE_IN_PROGRESS: nat := 1

  /** A row of the stake table, which another contract writes; amounts are never negative. */
  datatype Stake = Stake(account: Name, amount: nat, status: nat)

  /** Slots count half seconds; times are in microseconds since the epoch. */
  datatype Global = Global(
    lastScheduleUpdate: nat, lastUpdatedReward: nat, totalUnpaidBlocks: nat, activatedTime: nat,
    lastScheduleSize: nat, totalVoteWeight: int, lastBlockSlot: nat)

  datatype Entry = Entry(producer: Name, authority: Authority)

  /** What committed actions did, in order: registrations, blocks, payouts, claims, proposed schedules. */
  datatype Event =
    | Registered(producer: Name, authority: Authority)
    | Produced(producer: Name)
    | Paid(producer: Name, rate: nat, blocks: nat)
    | Claimed(producer: Name, amount: int)
    | Proposed(schedule: seq<Entry>, accepted: bool)

  /**
   * `stakes`, `accounts`, `clock` and `headerSlot` belong to the environment: the stake contract,
   * the account list, and the time and header slot of the latest onblock, committed or not.
   */
  datatype Chain = Chain(
    producers: map<Name, Producer>, voters: map<Name, Voter>, payments: map<Name, int>, global: Global,
    ledger: L.Ledger, permissions: P.Table, journal: seq<Event>,
    stakes: map<nat, Stake>, accounts: set<Name>, clock: nat, headerSlot: nat)

  /** The chain before the first action: every table empty, the environment arbitrary. */
  predicate Genesis(c: Chain)
  {
    && c.producers == map[] && c.voters == map[] && c.payments == map[]
    && c.global == Global(0, 0, 0, 0, 0, 0, 0)
    && c.ledger == L.Ledger(map[], map[]) && c.permissions == map[] && c.journal == []
  }
}
