# A verified model of the Libre system contracts

Four contracts of the chain are modelled as one system: the system contract (`libre.system`: registration,
voting, schedule election, block rewards), the token ledger it mints through (`eosio.token`), the permission
table that gates registration (`eosio.libre`) and the multisig contract (`eosio.msig`).

Every action either commits or leaves all tables as they were. Inline actions run inside the same action. The
environment is part of the state: the stake table (written by another contract), the account list, the clock and
the header slot. Runs are arbitrary sequences of actions and environment moves from empty tables.

## How it is organised

Each contract appears twice. The `*Contract.dfy` files hold classes whose fields are the tables and whose methods
update them in place, in the order the source does, rolling back on failure. The specification files (`Ledger`,
`Permissions`, `Voting`, `Election`, `ProducerPay`, `Multisig`) say what each action does to the tables as a
function on values; every method is proved equal to its function. `Machine` joins the functions of the first three
contracts into one step function and defines runs. The theorems are about those functions and runs:

| file | subject |
|---|---|
| `Ledger`, `TokenOutcome`, `Solvency` | conservation, bounds, exact commit conditions; the pay account covers what is owed |
| `PermissionOutcome` | when permission actions commit, on whose authority, and every column they leave |
| `Registration` | when registrations and their ends commit; who is an active producer after any run |
| `Tally`, `VoteLaw` | incremental tallies equal the sums over voters; when votes commit and what they move; doubles stay exact |
| `Election`, `ElectionLaw`, `Schedules` | the early-exit scan elects the 21 best; when elections happen; schedules over runs; signing keys |
| `Books`, `Payout`, `RewardLaw` | block and reward accounting, real-time bound, the payout loop in closed form, amounts from the clock |
| `Kicked` | a kicked producer stays out until eosio.libre grants the right again |
| `MultisigLife`, `MultisigHistory` | one row per proposal, levels conserved, what exec presents, expiry |
| `MultisigOutcome` | when multisig actions commit; every event of a run was warranted, by the host included |

`State.Event` and `Multisig.Event` are a record of what committed, kept beside the tables so that properties of
whole histories can be stated; the contracts never read it.

## What the code does where its comments say otherwise

- Rewards fall after one and two days, not six and twelve months: `six_months` is set to one day
  (contracts/libre.system/src/producer_pay.cpp:10-21). Payouts are hourly (contracts/libre.system/src/producer_pay.cpp:53-56).
- The schedule is updated after more than 90 half-second slots, that is every 45.5 seconds at the earliest, not
  "once every minute" (contracts/libre.system/src/producer_pay.cpp:58-61).
- A voter names one producer; the action comment speaks of up to 30
  (contracts/libre.system/include/libre.system/libre.system.hpp:389-407).
- A vote fails when the producer being left is inactive, so a voter whose producer was deactivated cannot move its
  vote (`Tally.VoteOutcome`).
- A payout that the ledger cannot fund aborts the whole `onblock`, block count and election included
  (`Payout.OnBlockOutcome`).
- `eosio` and `libre` keep every permission, so a kick does not keep them out (`Kicked.ReturnAfterKick`).

## Model

| member | source | states |
|---|---|---|
| TokenContract.Token.Create | contracts/eosio.token/src/eosio.token.cpp:5-24 | a new symbol starts at supply 0 with a positive, valid maximum; otherwise nothing changes |
| TokenContract.Token.Issue | contracts/eosio.token/src/eosio.token.cpp:27-51 | supply and the issuer's row grow by the quantity, or both stay |
| TokenContract.Token.Retire | contracts/eosio.token/src/eosio.token.cpp:53-75 | supply and the issuer's row shrink by the quantity, or the supply change is rolled back |
| TokenContract.Token.Transfer | contracts/eosio.token/src/eosio.token.cpp:77-101 | the quantity moves between two rows, or the debit is rolled back |
| TokenContract.Token.SubBalance | contracts/eosio.token/src/eosio.token.cpp:103-112 | debits an existing, sufficient row, otherwise fails without change |
| TokenContract.Token.AddBalance | contracts/eosio.token/src/eosio.token.cpp:114-127 | credits a row, creating it when missing |
| TokenContract.Token.Open | contracts/eosio.token/src/eosio.token.cpp:129-147 | creates a zero row of the exact symbol unless one exists |
| TokenContract.Token.Close | contracts/eosio.token/src/eosio.token.cpp:149-157 | removes a zero row of the owner, otherwise fails |
| Ledger.IssueOutcome | contracts/eosio.token/src/eosio.token.cpp:27-51 | in a sound ledger issue commits exactly under its listed checks; its additions never overflow |
| Ledger.RetireOutcome | contracts/eosio.token/src/eosio.token.cpp:53-75 | retire commits exactly when the issuer holds the quantity, and then supply covers it although nothing checks that |
| Ledger.TransferOutcome | contracts/eosio.token/src/eosio.token.cpp:77-101 | transfer commits exactly under its checks and changes two rows and nothing else |
| TokenOutcome.CreateOutcome | contracts/eosio.token/src/eosio.token.cpp:5-24 | create commits exactly for a new, well-formed symbol with a positive 62-bit maximum on the token contract's authority, and stores that maximum, that issuer and supply 0 |
| TokenOutcome.OpenOutcome | contracts/eosio.token/src/eosio.token.cpp:129-147 | exactly when open commits; a missing row is created empty, an existing one is kept, nothing else changes |
| TokenOutcome.CloseOutcome | contracts/eosio.token/src/eosio.token.cpp:149-157 | exactly when close commits; the empty row goes, nothing else changes |
| TokenOutcome.OpenThenClose | contracts/eosio.token/src/eosio.token.cpp:129-157 | closing a freshly opened row restores the ledger |
| Ledger.StepKeepsSound | contracts/eosio.token/src/eosio.token.cpp:5-157 | every token action keeps supply = sum of balances, 0 <= supply <= maximum < 2^62, one precision per symbol |
| Ledger.BalanceFallsOnlyWithAuthority | contracts/eosio.token/src/eosio.token.cpp:77-157 | no token action lowers the balance of an account that did not authorize it |
| Solvency.LedgerSoundOnEveryRun | contracts/eosio.token/src/eosio.token.cpp:5-157 | conservation for every symbol in every reachable state of the whole system, inline actions included |
| PermissionContract.Libre.SetPerm2 | contracts/eosio.libre/src/eosio.libre.cpp:6-41 | on the authority of eosio.libre the nine columns become the first nine entries, in order |
| PermissionContract.Libre.SetPerm | contracts/eosio.libre/src/eosio.libre.cpp:43-91 | on the authority of eosio.libre recognised names are written over the stored or blank row, unknown names are ignored |
| PermissionContract.Libre.ReqPerm | contracts/eosio.libre/src/eosio.libre.cpp:93-134 | the permission becomes pending unless it is on or banned |
| PermissionContract.Libre.Remove | contracts/eosio.libre/src/eosio.libre.cpp:136-145 | the row is erased; fails when there is none |
| PermissionContract.Libre.KickBp | contracts/eosio.libre/src/eosio.libre.cpp:147-171 | regprod becomes off, in a blank row if none was stored |
| PermissionContract.Libre.GetPriv | contracts/eosio.libre/include/eosio.libre/eosio.libre.hpp:85-128 | full rights for two fixed names, else the stored row over zeros |
| Permissions.RightsNeedGrant | contracts/eosio.libre/src/eosio.libre.cpp:6-171 | the right to register appears only through setperm or setperm2 setting regprod to 1, and those always give it |
| PermissionOutcome.SetPerm2Outcome | contracts/eosio.libre/src/eosio.libre.cpp:6-41 | setperm2 commits exactly on the authority of eosio.libre for an existing account, and each of the nine permissions gets its entry |
| PermissionOutcome.SetPermOutcome | contracts/eosio.libre/src/eosio.libre.cpp:43-91 | setperm commits exactly under the same condition; a permission changes iff its name is in the argument |
| PermissionOutcome.ReqPermOutcome | contracts/eosio.libre/src/eosio.libre.cpp:93-134 | reqperm needs only the account's own authority and sets 2 unless the value is 1 or 4 |
| PermissionOutcome.RemoveOutcome | contracts/eosio.libre/src/eosio.libre.cpp:136-145 | exactly when remove commits; every permission of the account then reads 0 |
| PermissionOutcome.KickBpOutcome | contracts/eosio.libre/src/eosio.libre.cpp:147-171 | exactly when kickbp commits; regprod becomes 3 and every other permission is kept |
| PermissionOutcome.PrivilegesOutcome | contracts/eosio.libre/include/eosio.libre/eosio.libre.hpp:85-128 | what other contracts read, and who may register |
| PermissionOutcome.NewRightNeedsAuthority | contracts/eosio.libre/src/eosio.libre.cpp:6-171 | a right to register that an action creates was created on the authority of eosio.libre |
| PermissionOutcome.RightsComeFromContract | contracts/eosio.libre/src/eosio.libre.cpp:6-171 | so was every permission, of any kind, that an action raises to 1 |
| SystemContract.System.RegisterProducer | contracts/libre.system/src/voting.cpp:27-58 | the row becomes active with the authority; tally and blocks of an old row are kept |
| SystemContract.System.RegProducer | contracts/libre.system/src/voting.cpp:60-67 | registers under a single-key authority when regprod is 1 |
| SystemContract.System.RegProducer2 | contracts/libre.system/src/voting.cpp:69-80 | registers under a valid authority when regprod is 1 |
| SystemContract.System.UnregProd | contracts/libre.system/src/voting.cpp:82-90 | deactivates the row on the producer's own authority |
| SystemContract.System.RmvProducer | contracts/libre.system/src/libre.system.cpp:62-69 | deactivates the row on the system's authority |
| SystemContract.System.KickBp | contracts/libre.system/src/voting.cpp:230-246 | deactivates and switches regprod off, or neither |
| Registration.RegisterOutcome | contracts/libre.system/src/voting.cpp:27-67 | exactly when regproducer commits; the row is active under the key, keeps votes, unpaid blocks and claim time, and no other row changes |
| Registration.Register2Outcome | contracts/libre.system/src/voting.cpp:27-80 | the same for regproducer2, whose authority must be one its own keys can satisfy |
| Registration.UnregOutcome | contracts/libre.system/src/voting.cpp:82-90 | exactly when unregprod commits; the row is inactive without keys, votes and unpaid blocks are kept |
| Registration.RmvOutcome | contracts/libre.system/src/libre.system.cpp:62-69 | the same for rmvproducer, on the system's authority |
| Registration.KickOutcome | contracts/libre.system/src/voting.cpp:230-246 | exactly when kickbp commits; the row is shut and regprod alone becomes off |
| Registration.StatusOnEveryRun | contracts/libre.system/src/voting.cpp:27-246 | on every run the producer table says of each name exactly what the committed registrations and their ends say, authority included |
| Registration.ActiveIff | contracts/libre.system/src/voting.cpp:27-246 | a producer is active exactly when no committed unregprod, rmvproducer or kickbp came after its last committed registration |
| SystemContract.GetStaked | contracts/libre.system/src/voting.cpp:147-162 | the index scan returns the in-progress sum over the whole stake table, -1 exactly when the account has no row |
| SystemContract.System.AddVotes | contracts/libre.system/src/voting.cpp:193-211 | one delta: clamp, weight, and when it aborts |
| SystemContract.System.ApplyDeltas | contracts/libre.system/src/voting.cpp:193-212 | the loop commits exactly when both names are acceptable and leaves both tallies and the weight updated |
| SystemContract.System.UpdateVotes | contracts/libre.system/src/voting.cpp:164-227 | votes leave the old producer and go to the new one, the voter row is rewritten, or everything is rolled back |
| SystemContract.System.VoteProducer | contracts/libre.system/src/voting.cpp:131-135 | an update with the voter's authority |
| SystemContract.System.VOnStake | contracts/libre.system/src/voting.cpp:137-145 | refreshes a known voter's stake at its current producer |
| Tally.UpdateKeepsTally | contracts/libre.system/src/voting.cpp:164-227 | an update keeps all tallies equal to the stakes behind them and its clamp never fires |
| Tally.TallyOnEveryRun | contracts/libre.system/src/voting.cpp:27-227 | in every reachable state each tally is the sum of stakes naming it, unregistered names have none, and the weight is the sum of all tallies and of all stakes |
| Tally.UpdateRecordsStake | contracts/libre.system/src/voting.cpp:164-226 | an update that proceeds records exactly the table's in-progress sum; a refresh without stake rows changes nothing |
| Tally.FirstVoteIgnoresDanglingName | contracts/libre.system/src/voting.cpp:183-212 | the name read through the end iterator never reaches the tables; it aborts a first vote exactly when it is an inactive producer |
| Tally.VoteOutcome | contracts/libre.system/src/voting.cpp:164-212 | exactly when a known voter's vote commits; the producer being left must be active too |
| VoteLaw.FirstVoteOutcome | contracts/libre.system/src/voting.cpp:164-212 | exactly when a voter without a row can vote |
| VoteLaw.VoteMoves | contracts/libre.system/src/voting.cpp:164-227 | a committed vote takes the recorded stake from the producer named before, puts the present stake behind the one named now, and changes no other tally or table |
| VoteLaw.VOnStakeOutcome | contracts/libre.system/src/voting.cpp:137-145 | exactly when a refresh commits; a known voter with stake rows has its present stake recorded and tallied, otherwise nothing changes |
| VoteLaw.StakeRowCounts | contracts/libre.system/src/voting.cpp:147-162 | a new stake row adds its amount to its own account alone, and only in status 1 |
| Tally.VotesStayExactDoubles | contracts/libre.system/src/voting.cpp:199-206 | with recorded stakes totalling at most 2^52 every tally and the weight stay in that range |
| Tally.EveryStepExact | contracts/libre.system/src/voting.cpp:181-206 | every intermediate sum of an update stays within 2^53 under that premise |
| SystemContract.System.TopProducers | contracts/libre.system/src/voting.cpp:95-118 | the early-exit scan, sorted by name, is the schedule of the winners |
| SystemContract.System.UpdateElectedProducers | contracts/libre.system/src/voting.cpp:92-129 | proposes that schedule unless it is empty or smaller than the last accepted size |
| Election.ScanFindsWinners | contracts/libre.system/src/voting.cpp:101-109 | where the scan stops it holds exactly the qualified producers with fewer than 21 qualified ones ranked before them |
| Election.WinnersCount | contracts/libre.system/src/voting.cpp:101-109 | min(21, n) of the n qualified producers are elected |
| Election.WinnersAreBest | contracts/libre.system/include/libre.system/libre.system.hpp:178-180 | nobody left out has more votes than somebody elected; ties go by name |
| Election.NegativeVotesHideWinners | contracts/libre.system/include/libre.system/libre.system.hpp:179 | with a negative tally the early exit would lose a winner, so non-negativity is needed |
| Election.ScheduleUnique | contracts/libre.system/src/voting.cpp:115-124 | the name-sorted list of the winners' entries is unique |
| ElectionLaw.ElectionOutcome | contracts/libre.system/src/producer_pay.cpp:58-61 | a committed onblock more than 90 slots after the last update always holds the election and proposes the min(21, n) best of the n contenders unless that is none or fewer than last accepted; otherwise no proposal is made |
| ElectionLaw.NeverOverdue | contracts/libre.system/src/producer_pay.cpp:23-62 | on every run the last block is at most 90 slots past the last election |
| ElectionLaw.ElectionOnEveryRun | contracts/libre.system/src/producer_pay.cpp:23-62 | on every run a committed onblock elects exactly when its slot is more than 90 past the last election |
| Schedules.NextSafe | contracts/libre.system/src/voting.cpp:111-128 | no step decreases the last schedule size, whatever the host answers |
| Schedules.SchedulesSafeOnEveryRun | contracts/libre.system/src/voting.cpp:92-129 | every schedule ever proposed has 1 to 21 strictly increasing names and is no smaller than any accepted before it |
| Schedules.ElectedAreSigned | contracts/libre.system/include/libre.system/libre.system.hpp:183-194 | an elected entry carries the stored authority of the latest registration, never the legacy-key fallback |
| Schedules.SignedOnEveryRun | contracts/libre.system/src/voting.cpp:27-109 | in every reachable state active producers hold their latest authority with non-zero threshold, and every schedule in history was current when proposed |
| Kicked.KickPutsOut | contracts/libre.system/src/voting.cpp:230-246 | after a kick the producer is inactive and may not register |
| Kicked.KickedStaysOut | contracts/libre.system/src/voting.cpp:60-246 | over any run without a committed grant it stays so and appears in no later schedule |
| Kicked.OnlyTheContractReadmits | contracts/eosio.libre/src/eosio.libre.cpp:6-171 | over any run in which eosio.libre signs no permission action a kicked producer stays out, whoever else signs what |
| Kicked.NewRightIsSigned | contracts/eosio.libre/src/eosio.libre.cpp:6-91 | a right to register that any step of the chain creates comes from a grant signed by eosio.libre |
| Kicked.GrantLetsBack | contracts/eosio.libre/src/eosio.libre.cpp:6-91 | after a committed grant the next registration commits and makes it an active producer under its key |
| Kicked.ReturnAfterKick | contracts/eosio.libre/include/eosio.libre/eosio.libre.hpp:88-100 | right after a kick only `eosio` and `libre` can register again |
| SystemContract.System.CalculatePayPerBlock | contracts/libre.system/src/producer_pay.cpp:10-21 | the rate from the time since activation, which `RewardLaw.RateIsTariff` gives in microseconds |
| SystemContract.System.CountBlock | contracts/libre.system/src/producer_pay.cpp:32-51 | counts the block for a registered producer and in the total, with 32-bit wrap |
| SystemContract.System.PayProducer | contracts/libre.system/src/producer_pay.cpp:70-103 | one round: mint, move, credit, clear the row |
| SystemContract.System.PayLoop | contracts/libre.system/src/producer_pay.cpp:70-104 | the loop pays every row in order, or aborts |
| SystemContract.System.UpdRewards | contracts/libre.system/src/producer_pay.cpp:64-107 | the loop and the time of the payout |
| SystemContract.System.OnBlock | contracts/libre.system/src/producer_pay.cpp:23-62 | counting, hourly payout, election; rolled back as a whole |
| SystemContract.System.ClaimRewards | contracts/libre.system/src/producer_pay.cpp:109-122 | the owed amount moves to the owner and the row is zeroed, or nothing changes |
| Books.RewardExact | contracts/libre.system/src/producer_pay.cpp:73 | rate times blocks is at most 28804, so the 32-bit product is exact |
| Books.PayAllKeepsBooks | contracts/libre.system/src/producer_pay.cpp:70-104 | at every round the total equals the sum of unpaid blocks; paid rows end at zero, others are untouched |
| Books.CountBlockBounded | contracts/libre.system/src/producer_pay.cpp:38-56 | at most 7201 unpaid blocks when a payout starts, at most 7200 otherwise |
| Books.UpdRewardsClears | contracts/libre.system/src/producer_pay.cpp:64-107 | after a payout every row and the total are zero |
| Books.InBooksOnEveryRun | contracts/libre.system/src/producer_pay.cpp:10-122 | on every timed run: total = sum of unpaid blocks <= 7200; blocks made = paid + unpaid; earned = owed + claimed; rates never rise |
| Books.RewardsBounded | contracts/libre.system/src/producer_pay.cpp:10-21 | tokens paid lie between once and four times the blocks paid |
| Payout.PayoutInOneStroke | contracts/libre.system/src/producer_pay.cpp:70-104 | the issue-transfer pairs commit exactly when one pair of the total would, with the same ledger |
| Payout.UpdRewardsOutcome | contracts/libre.system/src/producer_pay.cpp:64-107 | a payout commits exactly when nothing is unpaid or the ledger can mint rate times the total unpaid blocks, and that is what moves |
| Payout.OnBlockOutcome | contracts/libre.system/src/producer_pay.cpp:23-62 | exactly when onblock aborts |
| RewardLaw.RateIsTariff | contracts/libre.system/src/producer_pay.cpp:10-21 | 4 tokens below 86400 seconds from activation to the last block, 2 below 172800, 1 from then on |
| RewardLaw.BlockPays | contracts/libre.system/src/producer_pay.cpp:23-107 | a committed onblock an hour after the last payout owes every producer the tariff for each unpaid block, this one included, and mints exactly that; otherwise it only counts the block |
| RewardLaw.BlockCommits | contracts/libre.system/src/producer_pay.cpp:23-107 | exactly when onblock commits, in the terms of the tables before it |
| RewardLaw.ClocksOnEveryRun | contracts/libre.system/src/producer_pay.cpp:32-43 | on every run activation is the time of the first committed onblock, and the last slot that of the last one |
| RewardLaw.PaysOnEveryRun | contracts/libre.system/src/producer_pay.cpp:10-107 | every committed onblock of every run pays by the time since the first one |
| Solvency.ClaimOutcome | contracts/libre.system/src/producer_pay.cpp:109-122 | exactly when a claim commits; the amount owed then moves from the pay account to the owner, is owed no longer, and nothing else changes |
| Solvency.SolventOnEveryRun | contracts/libre.system/src/producer_pay.cpp:64-122 | in every run in which the pay account signs no token action, its balance covers all payments |
| Solvency.PaymentsFit | contracts/libre.system/src/producer_pay.cpp:87-96 | a payment row stays below 2^62 |
| MultisigContract.Msig.Propose | contracts/eosio.msig/src/eosio.msig.cpp:9-57 | stores the bytes and one row of unapproved levels, or nothing |
| MultisigContract.Msig.Approve | contracts/eosio.msig/src/eosio.msig.cpp:59-92 | moves the first matching level to the provided list, in either format |
| MultisigContract.Msig.Unapprove | contracts/eosio.msig/src/eosio.msig.cpp:94-116 | moves the first matching level back, in either format |
| MultisigContract.Msig.Cancel | contracts/eosio.msig/src/eosio.msig.cpp:118-140 | erases the proposal and its row; others must wait for expiry |
| MultisigContract.Msig.Collect | contracts/eosio.msig/src/eosio.msig.cpp:152-175 | the filtering loop collects the approvals that still stand |
| MultisigContract.Msig.Exec | contracts/eosio.msig/src/eosio.msig.cpp:142-189 | erases the proposal and its row when the host accepts the collected levels, or restores them |
| MultisigContract.Msig.Invalidate | contracts/eosio.msig/src/eosio.msig.cpp:191-205 | stores the time of the account's latest invalidation |
| MultisigLife.ApproveMoves | contracts/eosio.msig/src/eosio.msig.cpp:59-92 | exactly when approve commits, and that one occurrence of the level moves |
| MultisigLife.UnapproveMoves | contracts/eosio.msig/src/eosio.msig.cpp:94-116 | exactly when unapprove commits, and that one occurrence moves back |
| MultisigLife.ApproveThenUnapprove | contracts/eosio.msig/src/eosio.msig.cpp:59-116 | the pair always commits and restores both multisets |
| MultisigLife.UnapproveThenApprove | contracts/eosio.msig/src/eosio.msig.cpp:59-116 | so does the opposite pair |
| MultisigLife.MatchedOnEveryRun | contracts/eosio.msig/src/eosio.msig.cpp:29-189 | from any matching tables each proposal keeps exactly one approvals row in one format and no row is orphaned |
| MultisigLife.SoundOnEveryRun | contracts/eosio.msig/src/eosio.msig.cpp:9-189 | on every run requested plus provided levels are those proposed, and executed bytes are the proposed bytes |
| MultisigLife.AtMostOneEnd | contracts/eosio.msig/src/eosio.msig.cpp:118-189 | between two ends of one name lies a new propose |
| MultisigHistory.HistoryOnEveryRun | contracts/eosio.msig/src/eosio.msig.cpp:59-205 | every execution presented each level exactly as often as it was approved since the proposal, not withdrawn, and not invalidated at or after its time |
| MultisigHistory.PresentedIff | contracts/eosio.msig/src/eosio.msig.cpp:152-164 | a level is presented iff one of its live approvals was not overtaken by an invalidation |
| MultisigHistory.LegacyPresented | contracts/eosio.msig/src/eosio.msig.cpp:165-175 | in the legacy format any invalidation in history silences all approvals of the actor |
| MultisigOutcome.ExecOutcome | contracts/eosio.msig/src/eosio.msig.cpp:142-189 | exec commits exactly when the executer signed, the proposal is stored and unexpired, and the host accepts the stored bytes with the presented levels, whose counts are read off the history in both formats |
| MultisigOutcome.ExecutedOnlyIfAccepted | contracts/eosio.msig/src/eosio.msig.cpp:142-189 | every execution in a run comes from a call whose host accepted exactly the bytes sent and the levels recorded |
| MultisigOutcome.EveryEventWarranted | contracts/eosio.msig/src/eosio.msig.cpp:9-205 | every event of a run was logged by one call entitled to it: signatures, expiry, host answers and times |
| MultisigOutcome.OldRowsExactOnEveryRun | contracts/eosio.msig/src/eosio.msig.cpp:59-116 | a legacy row holds its first approvals plus those given minus those withdrawn, level by level |
| MultisigOutcome.ProposeOutcome | contracts/eosio.msig/src/eosio.msig.cpp:9-57 | exactly when propose commits and what it stores |
| MultisigOutcome.CancelOutcome | contracts/eosio.msig/src/eosio.msig.cpp:118-140 | exactly when cancel commits: a third party must wait for expiry |
| MultisigOutcome.InvalidateOutcome | contracts/eosio.msig/src/eosio.msig.cpp:191-205 | exactly when invalidate commits and the one time it stores |
| MultisigHistory.ExpiredNeverExecutes | contracts/eosio.msig/src/eosio.msig.cpp:124-150 | once a third party may cancel, the instance is never executed |
| MultisigHistory.SecondsWrap | contracts/eosio.msig/src/eosio.msig.cpp:150 | why that needs the clock to stay within 32-bit seconds |

## Left out

- Tally.EveryStepExact: vote totals are integers instead of doubles; the lemma gives the range in which the two agree,
  larger totals are not modelled.
- SystemContract.GetStaked: the 64-bit sum of stakes is unbounded here; stake amounts are natural numbers, since the
  stake contract is not part of this model.
- SystemContract.System.UpdateVotes: `total_activated_stake` only ever grows and is read nowhere, so it is not kept.
- SystemContract.System.RegisterProducer: URL text and location are not stored; only the length check on the URL is kept.
- SystemContract.System.RegProducer2: the library's authority check is not part of the repository; its rules (threshold,
  distinct keys, enough weight) are those of tests/eosio.system_tests.cpp:842-871, without the 32-bit cap on the weight sum.
- SystemContract.System.UpdateElectedProducers: whether the host accepts a proposed schedule is an input.
- PermissionContract.Libre.SetPerm2: fewer than nine entries, which the contract reads past, are excluded by the
  argument's type.
- MultisigContract.Msig.Approve: the host's comparison of the optional hash with the stored bytes is an input.
- MultisigContract.Msig.Exec: the host's authorization check is an arbitrary function of the transaction and the
  presented levels; deferred sending is recorded as an event, not run.
- MultisigHistory.ExpiredNeverExecutes: needs the clock to stay within 32-bit seconds, as `SecondsWrap` shows.
- Error texts: an aborted action is only told apart from a committed one.
- Permission levels of chain and token actions: authorizations are account names there; in multisig they are levels.
- Whether the host lets the system contract use the pay account's authority in a claim is not modelled; it is taken to.
- Inline actions run where they are sent rather than after the sending action; the tables involved are disjoint and an
  abort undoes both.
- RAM payers, notifications, serialization and table sizes.
- `newaccount`, `setabi`, `setparams`, `setpriv`, `activate`, `setalimits`, `init`, `eosio.boot` and `eosio.wrap`: thin calls into the host.
