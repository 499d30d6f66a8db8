/**
 * The ETH donation leaderboard client: a browser component that binds a
 * wallet to a donation-competition contract, mirrors the contract's round
 * state and per-organisation totals, ranks the organisations, and submits
 * donations, pool funding, round starts and payouts.
 *
 * The wallet and the contract are outside the model. Every call the
 * component makes to them is recorded as an `ExternalCall`, and what
 * each call resolves to is given to the handler as a parameter (`Outcome`,
 * `RefreshReads`, `WriteReplies`, `WalletReplies`). Amounts are wei, as
 * `nat`.
 */
module EthLeaderboard {
  import opened Wrappers
  import opened Text
  import Sorting

  // ---------------------------------------------------------------------------
  // Configuration and the static registry

  /** The organisations the leaderboard asks the contract about, in this order. */
  const ORG_IDS: seq<nat> := [1, 2, 3, 4, 5]

  /** Display names, provisioned with the client rather than read from the contract. */
  const ORG_NAMES: map<nat, string> := map[
    1 := "Red Cross",
    2 := "Habitat for Humanity",
    3 := "Food Bank Network",
    4 := "Animal Rescue League",
    5 := "Youth Education Fund"]

  /** Sepolia, the only network the client accepts. */
  const SEPOLIA_CHAIN_ID: nat := 11155111
  /** The same chain id as the hex string the switch request carries. */
  const SEPOLIA_CHAIN_ID_HEX: string := "0xaa36a7"
  /** The wallet's error code for a chain it does not know. */
  const UNKNOWN_CHAIN_ERROR_CODE: int := 4902

  const NO_WALLET_ERROR: string := "Please install MetaMask"
  const ADD_SEPOLIA_ERROR: string := "Please add Sepolia network to MetaMask"
  const NOT_CONFIGURED_ERROR: string := "Contract address not configured. Set NEXT_PUBLIC_ETH_CONTRACT_ADDRESS in .env"
  const CONNECT_FAILED_ERROR: string := "Failed to connect wallet"
  const WAITING_MESSAGE: string := "Waiting for confirmation..."

  function HexDigit(c: char): nat {
    if '0' <= c <= '9' then c as nat - '0' as nat
    else if 'a' <= c <= 'f' then c as nat - 'a' as nat + 10
    else 0
  }

  /** The number a string of lower-case hex digits denotes. */
  function HexValue(digits: string): nat {
    if digits == [] then 0 else HexValue(digits[..|digits| - 1]) * 16 + HexDigit(digits[|digits| - 1])
  }

  /** The chain the switch request names is the chain the network check expects. */
  lemma SepoliaHexIsChainId()
    ensures SEPOLIA_CHAIN_ID_HEX[..2] == "0x"
    ensures HexValue(SEPOLIA_CHAIN_ID_HEX[2..]) == SEPOLIA_CHAIN_ID
  {
    var h := SEPOLIA_CHAIN_ID_HEX[2..];
    assert h == "aa36a7";
    assert "a"[..0] == "" && "aa"[..1] == "a" && "aa3"[..2] == "aa";
    assert "aa36"[..3] == "aa3" && "aa36a"[..4] == "aa36" && "aa36a7"[..5] == "aa36a";
    assert HexValue("a") == 10;
    assert HexValue("aa") == 170;
    assert HexValue("aa3") == 2723;
    assert HexValue("aa36") == 43574;
    assert HexValue("aa36a") == 697194;
  }

  // ---------------------------------------------------------------------------
  // The leaderboard

  datatype OrgEntry = OrgEntry(id: nat, name: string, donationsWei: nat)

  /** One entry per registry id, in registry order, carrying the total read for that position. */
  function BuildEntries(donations: seq<nat>): seq<OrgEntry>
    requires |donations| >= |ORG_IDS|
  {
    seq(|ORG_IDS|, i requires 0 <= i < |ORG_IDS| => OrgEntry(ORG_IDS[i], ORG_NAMES[ORG_IDS[i]], donations[i]))
  }

  function WeiKey(e: OrgEntry): real {
    e.donationsWei as real
  }

  /** The ranked leaderboard: the registry entries sorted by total, largest first. */
  function Ranking(donations: seq<nat>): seq<OrgEntry>
    requires |donations| >= |ORG_IDS|
  {
    Sorting.SortDesc(BuildEntries(donations), WeiKey)
  }

  /** The ranking order: larger total first, and on equal totals the smaller id first. */
  predicate Before(a: OrgEntry, b: OrgEntry) {
    a.donationsWei > b.donationsWei || (a.donationsWei == b.donationsWei && a.id < b.id)
  }

  ghost predicate Ranked(s: seq<OrgEntry>) {
    forall i, j :: 0 <= i < j < |s| ==> Before(s[i], s[j])
  }

  /** `Before` is a strict total order on entries with distinct ids. */
  lemma BeforeIsStrictTotalOrder(a: OrgEntry, b: OrgEntry, c: OrgEntry)
    ensures !Before(a, a)
    ensures Before(a, b) ==> !Before(b, a)
    ensures Before(a, b) && Before(b, c) ==> Before(a, c)
    ensures a.id != b.id ==> Before(a, b) || Before(b, a)
  {
  }

  /** The comparator the component passes to `Array.prototype.sort`, as written. */
  function SourceComparator(a: OrgEntry, b: OrgEntry): int {
    if b.donationsWei > a.donationsWei then 1 else -1
  }

  /**
   * On equal totals the comparator answers "a first" for both argument
   * orders, so it is not a consistent comparator and the order of tied
   * organisations is left to the JavaScript engine.
   */
  lemma SourceComparatorInconsistentOnTies(a: OrgEntry, b: OrgEntry)
    ensures a.donationsWei == b.donationsWei ==> SourceComparator(a, b) < 0 && SourceComparator(b, a) < 0
    ensures a.donationsWei != b.donationsWei ==> SourceComparator(a, b) == -SourceComparator(b, a)
  {
  }

  ghost predicate IdsIncreasing(s: seq<OrgEntry>) {
    forall i, j :: 0 <= i < j < |s| ==> s[i].id < s[j].id
  }

  /** Inserting an entry with a larger id than all others into a ranked, sorted sequence keeps it ranked. */
  lemma InsertDescRanked(t: seq<OrgEntry>, x: OrgEntry)
    requires Ranked(t) && Sorting.SortedDesc(t, WeiKey)
    requires forall k :: 0 <= k < |t| ==> t[k].id < x.id
    ensures Ranked(Sorting.InsertDesc(t, x, WeiKey))
  {
    Sorting.InsertDescAt(t, x, WeiKey);
    var p := Sorting.InsertPos(t, x, WeiKey);
    var r := t[..p] + [x] + t[p..];
    forall i, j | 0 <= i < j < |r| ensures Before(r[i], r[j]) {
      if j < p {
        assert r[i] == t[i] && r[j] == t[j];
      } else if i > p {
        assert r[i] == t[i - 1] && r[j] == t[j - 1];
      } else if i == p {
        assert r[j] == t[j - 1];
      } else if j == p {
        assert r[i] == t[i];
      } else {
        assert r[i] == t[i] && r[j] == t[j - 1];
      }
    }
  }

  /** Sorting id-ordered entries stably by total yields the `Before` order. */
  lemma {:induction false} SortDescRanked(s: seq<OrgEntry>)
    requires IdsIncreasing(s)
    ensures Ranked(Sorting.SortDesc(s, WeiKey))
  {
    if s != [] {
      var init, x := s[..|s| - 1], s[|s| - 1];
      SortDescRanked(init);
      Sorting.SortDescPermutes(init, WeiKey);
      var t := Sorting.SortDesc(init, WeiKey);
      forall k | 0 <= k < |t| ensures t[k].id < x.id {
        assert t[k] in multiset(init);
        var m :| 0 <= m < |init| && init[m] == t[k];
      }
      InsertDescRanked(t, x);
    }
  }

  /** The leaderboard is ordered by total, largest first, ties by ascending id. */
  lemma RankingOrdered(donations: seq<nat>)
    requires |donations| >= |ORG_IDS|
    ensures Ranked(Ranking(donations))
  {
    SortDescRanked(BuildEntries(donations));
  }

  /** The leaderboard holds exactly the registry entries, permuted. */
  lemma RankingPermutes(donations: seq<nat>)
    requires |donations| >= |ORG_IDS|
    ensures multiset(Ranking(donations)) == multiset(BuildEntries(donations))
  {
    Sorting.SortDescPermutes(BuildEntries(donations), WeiKey);
  }

  /** A registry entry carries its id's name and the total read at that id's position. */
  lemma EntryOfRegistry(donations: seq<nat>, e: OrgEntry)
    requires |donations| >= |ORG_IDS| && e in BuildEntries(donations)
    ensures 1 <= e.id <= 5 && e.name == ORG_NAMES[e.id] && e.donationsWei == donations[e.id - 1]
  {
    var k :| 0 <= k < |ORG_IDS| && BuildEntries(donations)[k] == e;
    assert ORG_IDS[k] == k + 1 by {
      assert k == 0 || k == 1 || k == 2 || k == 3 || k == 4;
    }
  }

  /**
   * Every leaderboard entry is a registry entry: it carries its id's
   * registry name and the total read at that id's position in the request.
   */
  lemma RankingEntries(donations: seq<nat>)
    requires |donations| >= |ORG_IDS|
    ensures |Ranking(donations)| == |ORG_IDS|
    ensures forall i :: 0 <= i < |Ranking(donations)| ==>
      var e := Ranking(donations)[i];
      1 <= e.id <= 5 && e.name == ORG_NAMES[e.id] && e.donationsWei == donations[e.id - 1]
  {
    var es := BuildEntries(donations);
    var r := Ranking(donations);
    Sorting.SortDescPermutes(es, WeiKey);
    forall i | 0 <= i < |r|
      ensures 1 <= r[i].id <= 5 && r[i].name == ORG_NAMES[r[i].id] && r[i].donationsWei == donations[r[i].id - 1]
    {
      assert r[i] in multiset(es);
      EntryOfRegistry(donations, r[i]);
    }
  }

  /** No organisation appears twice, and every registry id appears. */
  lemma RankingListsEachOrgOnce(donations: seq<nat>)
    requires |donations| >= |ORG_IDS|
    ensures forall i, j :: 0 <= i < j < |Ranking(donations)| ==> Ranking(donations)[i].id != Ranking(donations)[j].id
    ensures forall k :: k in ORG_IDS ==> exists i :: 0 <= i < |Ranking(donations)| && Ranking(donations)[i].id == k
  {
    var es := BuildEntries(donations);
    var r := Ranking(donations);
    RankingEntries(donations);
    RankingOrdered(donations);
    RankingPermutes(donations);
    forall i, j | 0 <= i < j < |r| ensures r[i].id != r[j].id {
      assert Before(r[i], r[j]);
    }
    forall k | k in ORG_IDS ensures exists i :: 0 <= i < |r| && r[i].id == k {
      assert es[k - 1].id == k;
      assert es[k - 1] in multiset(r);
    }
  }

  /** Two rankings of the same entries start with the same entry. */
  lemma RankedSameHead(s: seq<OrgEntry>, t: seq<OrgEntry>)
    requires Ranked(s) && Ranked(t) && multiset(s) == multiset(t) && s != []
    ensures t != [] && s[0] == t[0]
  {
    assert s[0] in multiset(t);
    var k :| 0 <= k < |t| && t[k] == s[0];
    assert t[0] in multiset(s);
    var m :| 0 <= m < |s| && s[m] == t[0];
    if k > 0 && m > 0 {
      assert false;
    }
  }

  lemma SameTail<T>(s: seq<T>, t: seq<T>)
    requires s != [] && t != [] && s[0] == t[0] && multiset(s) == multiset(t)
    ensures multiset(s[1..]) == multiset(t[1..])
  {
    assert s == [s[0]] + s[1..] && t == [t[0]] + t[1..];
    assert multiset(s[1..]) == multiset(s) - multiset{s[0]};
    assert multiset(t[1..]) == multiset(t) - multiset{t[0]};
  }

  lemma RankedTail(s: seq<OrgEntry>)
    requires Ranked(s) && s != []
    ensures Ranked(s[1..])
  {
    forall i, j | 0 <= i < j < |s| - 1 ensures Before(s[1..][i], s[1..][j]) {
      assert s[1..][i] == s[i + 1] && s[1..][j] == s[j + 1];
    }
  }

  /** Two rankings of the same entries are equal: the order leaves no choice. */
  lemma {:induction false} RankedUnique(s: seq<OrgEntry>, t: seq<OrgEntry>)
    requires Ranked(s) && Ranked(t) && multiset(s) == multiset(t)
    ensures s == t
  {
    if s == [] {
      assert |multiset(t)| == 0;
    } else {
      RankedSameHead(s, t);
      SameTail(s, t);
      RankedTail(s);
      RankedTail(t);
      RankedUnique(s[1..], t[1..]);
      assert s == [s[0]] + s[1..] && t == [t[0]] + t[1..];
    }
  }

  /** Any ordering of the registry entries by `Before` is the leaderboard. */
  lemma RankingIsTheRankedOrder(donations: seq<nat>, s: seq<OrgEntry>)
    requires |donations| >= |ORG_IDS|
    requires Ranked(s) && multiset(s) == multiset(BuildEntries(donations))
    ensures s == Ranking(donations)
  {
    RankingOrdered(donations);
    RankingPermutes(donations);
    RankedUnique(s, Ranking(donations));
  }

  /** The registry entries for the tied-totals example, in registry order. */
  lemma TiedTotalsEntries(d: seq<nat>)
    requires d == [2_000_000_000_000_000_000, 2_000_000_000_000_000_000, 500_000_000_000_000_000, 0, 0]
    ensures BuildEntries(d) == [OrgEntry(1, "Red Cross", 2_000_000_000_000_000_000),
                                OrgEntry(2, "Habitat for Humanity", 2_000_000_000_000_000_000),
                                OrgEntry(3, "Food Bank Network", 500_000_000_000_000_000),
                                OrgEntry(4, "Animal Rescue League", 0),
                                OrgEntry(5, "Youth Education Fund", 0)]
  {
    var es := BuildEntries(d);
    assert es[0] == OrgEntry(1, "Red Cross", 2_000_000_000_000_000_000);
    assert es[1] == OrgEntry(2, "Habitat for Humanity", 2_000_000_000_000_000_000);
    assert es[2] == OrgEntry(3, "Food Bank Network", 500_000_000_000_000_000);
    assert es[3] == OrgEntry(4, "Animal Rescue League", 0);
    assert es[4] == OrgEntry(5, "Youth Education Fund", 0);
  }

  /** Five entries whose totals do not increase and whose ids increase are ranked. */
  lemma RankedFive(s: seq<OrgEntry>)
    requires |s| == 5
    requires forall k :: 0 <= k < 4 ==> s[k].donationsWei >= s[k + 1].donationsWei && s[k].id < s[k + 1].id
    ensures Ranked(s)
  {
    forall i, j | 0 <= i < j < |s| ensures Before(s[i], s[j]) {
      var k := i;
      while k + 1 < j
        invariant i <= k < j
        invariant s[i].donationsWei >= s[k].donationsWei && s[i].id <= s[k].id
      {
        k := k + 1;
      }
      assert s[k].donationsWei >= s[j].donationsWei && s[k].id < s[j].id;
    }
  }

  /** Two organisations tied at 2 ETH are listed by id, ahead of one with 0.5 ETH. */
  lemma TiedTotalsRankById()
    ensures var r := Ranking([2_000_000_000_000_000_000, 2_000_000_000_000_000_000, 500_000_000_000_000_000, 0, 0]);
      r == [OrgEntry(1, "Red Cross", 2_000_000_000_000_000_000),
            OrgEntry(2, "Habitat for Humanity", 2_000_000_000_000_000_000),
            OrgEntry(3, "Food Bank Network", 500_000_000_000_000_000),
            OrgEntry(4, "Animal Rescue League", 0),
            OrgEntry(5, "Youth Education Fund", 0)]
  {
    var d: seq<nat> := [2_000_000_000_000_000_000, 2_000_000_000_000_000_000, 500_000_000_000_000_000, 0, 0];
    TiedTotalsEntries(d);
    RankedFive(BuildEntries(d));
    RankingIsTheRankedOrder(d, BuildEntries(d));
  }

  // ---------------------------------------------------------------------------
  // Pure display and identity helpers

  /** Admin detection: the two addresses agree after lower-casing. */
  predicate SameAddress(a: string, b: string) {
    Lower(a) == Lower(b)
  }

  /** The admin check is symmetric and ignores case, character by character. */
  lemma SameAddressIgnoresCase(a: string, b: string)
    ensures SameAddress(a, b) <==> SameAddress(b, a)
    ensures SameAddress(a, b) <==> |a| == |b| && forall i :: 0 <= i < |a| ==> LowerChar(a[i]) == LowerChar(b[i])
    ensures SameAddress(a, b) <==> SameAddress(Lower(a), b)
  {
    if |a| == |b| && forall i :: 0 <= i < |a| ==> LowerChar(a[i]) == LowerChar(b[i]) {
      assert Lower(a) == Lower(b);
    }
    assert Lower(Lower(a)) == Lower(a);
  }

  /** The header's account label: the first six characters, "...", the last four. */
  function AccountLabel(account: string): (shown: string)
    ensures |account| >= 10 ==> |shown| == 13
    ensures |account| >= 10 ==> shown[..6] == account[..6] && shown[6..9] == "..." && shown[9..] == account[|account| - 4..]
    ensures |shown| >= (if |account| < 6 then |account| else 6) + 3
    ensures shown[..if |account| < 6 then |account| else 6] == account[..if |account| < 6 then |account| else 6]
  {
    account[..if |account| < 6 then |account| else 6] + "..." + account[if |account| < 4 then 0 else |account| - 4..]
  }

  // ---------------------------------------------------------------------------
  // Ledger interface

  /** What one external call resolved to: a value, or a rejection. */
  datatype Outcome<T> = Resolved(value: T) | Rejected

  /** Every call the component makes to the wallet or to the contract. */
  datatype ExternalCall =
    | RequestAccounts | GetSigner | GetNetwork | SwitchChain(chainIdHex: string)
    | ReadAdmin | ReadCurrentRound | ReadRewardPool | ReadRewardAmount | ReadCanEndRound
    | ReadLeaderboard(orgIds: seq<nat>)
    | Donate(orgId: nat, valueWei: nat) | FundRewardPool(valueWei: nat)
    | StartNewRound | SelectWinnerAndPayoutTop
    | WaitForReceipt(hash: string)

  /** The contract's answers to one refresh. */
  datatype RefreshReads = RefreshReads(
    currentRound: Outcome<nat>,
    rewardPool: Outcome<nat>,
    rewardAmount: Outcome<nat>,
    canEndRound: Outcome<bool>,
    leaderboard: Outcome<seq<nat>>)

  /**
   * The answers to one write: the submission (the transaction hash), whether
   * the wait for the receipt resolved, and the refresh that follows.
   */
  datatype WriteReplies = WriteReplies(submitted: Outcome<string>, mined: bool, refresh: RefreshReads)

  /** The answers the wallet and the contract give while connecting. */
  datatype SwitchReply = Switched | SwitchFailed(code: Option<int>)
  datatype WalletReplies = WalletReplies(
    accounts: Outcome<string>,
    signer: bool,
    chainId: Outcome<nat>,
    switchReply: SwitchReply,
    admin: Outcome<string>,
    refresh: RefreshReads)

  /** The four reads a refresh issues together; if any rejects they all count as failed. */
  const STAT_READS: seq<ExternalCall> := [ReadCurrentRound, ReadRewardPool, ReadRewardAmount, ReadCanEndRound]

  predicate StatsResolved(r: RefreshReads) {
    r.currentRound.Resolved? && r.rewardPool.Resolved? && r.rewardAmount.Resolved? && r.canEndRound.Resolved?
  }

  /** The leaderboard read resolved with a total for every registry position. */
  predicate BoardResolved(r: RefreshReads) {
    r.leaderboard.Resolved? && |r.leaderboard.value| >= |ORG_IDS|
  }

  /** The calls one refresh makes: the leaderboard is read only after the four stats resolved. */
  function RefreshCalls(r: RefreshReads): seq<ExternalCall> {
    STAT_READS + if StatsResolved(r) then [ReadLeaderboard(ORG_IDS)] else []
  }

  /** The round state the component mirrors from the contract. */
  datatype RoundView = RoundView(
    currentRound: nat,
    rewardPool: nat,
    rewardAmount: nat,
    canEndRound: bool,
    leaderboard: seq<OrgEntry>)

  /** The round state after one refresh from `v`. */
  function Refreshed(v: RoundView, r: RefreshReads): RoundView {
    if !StatsResolved(r) then v
    else RoundView(r.currentRound.value, r.rewardPool.value, r.rewardAmount.value, r.canEndRound.value,
                   if BoardResolved(r) then Ranking(r.leaderboard.value) else v.leaderboard)
  }

  /**
   * A refresh is not all-or-nothing: a failed stats read changes nothing,
   * a failed leaderboard read keeps the previous leaderboard but not the
   * previous stats, and otherwise the leaderboard is rebuilt from the read.
   */
  lemma RefreshOutcomes(v: RoundView, r: RefreshReads)
    ensures !StatsResolved(r) ==> Refreshed(v, r) == v
    ensures StatsResolved(r) ==>
      var w := Refreshed(v, r);
      w.currentRound == r.currentRound.value && w.rewardPool == r.rewardPool.value
      && w.rewardAmount == r.rewardAmount.value && w.canEndRound == r.canEndRound.value
    ensures StatsResolved(r) && !BoardResolved(r) ==> Refreshed(v, r).leaderboard == v.leaderboard
    ensures StatsResolved(r) && BoardResolved(r) ==>
      Ranked(Refreshed(v, r).leaderboard)
      && multiset(Refreshed(v, r).leaderboard) == multiset(BuildEntries(r.leaderboard.value))
  {
    if StatsResolved(r) && BoardResolved(r) {
      RankingOrdered(r.leaderboard.value);
      RankingPermutes(r.leaderboard.value);
    }
  }

  // ---------------------------------------------------------------------------
  // Transactions

  datatype TxPhase = Pending | Confirmed | Failed
  datatype TxStatus = TxStatus(hash: string, status: TxPhase, message: string)

  datatype WriteKind = DonateWrite | FundPoolWrite | StartRoundWrite | SelectWinnerWrite

  function SubmittingMessage(k: WriteKind): string {
    match k
    case DonateWrite => "Submitting donation..."
    case FundPoolWrite => "Funding reward pool..."
    case StartRoundWrite => "Starting new round..."
    case SelectWinnerWrite => "Selecting winner and paying out..."
  }

  function ConfirmedMessage(k: WriteKind): string {
    match k
    case DonateWrite => "Donation confirmed!"
    case FundPoolWrite => "Pool funded!"
    case StartRoundWrite => "New round started!"
    case SelectWinnerWrite => "Winner paid!"
  }

  function FailedMessage(k: WriteKind): string {
    match k
    case DonateWrite => "Donation failed"
    case FundPoolWrite => "Funding failed"
    case StartRoundWrite => "Failed to start round"
    case SelectWinnerWrite => "Payout failed - check reward pool or org payout address"
  }

  /** Donate and fund-pool clear the error line when they start; the admin writes leave it. */
  predicate ClearsError(k: WriteKind) {
    k == DonateWrite || k == FundPoolWrite
  }

  /** The error line after a successful write. */
  function ErrorAfterSuccess(k: WriteKind, before: string): string {
    if ClearsError(k) then "" else before
  }

  /** The error line after a failed write: only a failed donation sets one. */
  function ErrorAfterFailure(k: WriteKind, before: string): string {
    if k == DonateWrite then "Donation failed" else ErrorAfterSuccess(k, before)
  }

  /**
   * The statuses a write shows, in order: pending without a hash, then (once
   * submitted) pending with the hash, then confirmed with that hash or failed
   * without one. Only the last is terminal.
   */
  ghost predicate IsWriteLifecycle(trace: seq<TxStatus>, k: WriteKind) {
    && 2 <= |trace| <= 3
    && trace[0] == TxStatus("", Pending, SubmittingMessage(k))
    && (|trace| == 3 ==> trace[1].status == Pending && trace[1].message == WAITING_MESSAGE)
    && (trace[|trace| - 1] == TxStatus("", Failed, FailedMessage(k))
        || (|trace| == 3 && trace[2] == TxStatus(trace[1].hash, Confirmed, ConfirmedMessage(k))))
  }

  /** Every lifecycle ends in exactly one terminal status, as its last step. */
  lemma LifecycleTerminatesOnce(trace: seq<TxStatus>, k: WriteKind)
    requires IsWriteLifecycle(trace, k)
    ensures forall i :: 0 <= i < |trace| - 1 ==> trace[i].status == Pending
    ensures trace[|trace| - 1].status != Pending
    ensures trace[|trace| - 1].status == Confirmed ==> trace[|trace| - 1].hash == trace[1].hash
    ensures trace[|trace| - 1].status == Failed ==> trace[|trace| - 1].hash == ""
  {
    if |trace| == 2 {
      assert trace[1] == TxStatus("", Failed, FailedMessage(k));
    } else {
      assert trace[0].status == Pending && trace[1].status == Pending;
    }
  }

  /** The call a write submits, or `Rejected` when computing its arguments throws (the amount does not parse). */
  function Submission(k: WriteKind, selectedOrg: nat, parsedWei: Outcome<nat>): Outcome<ExternalCall> {
    match k
    case DonateWrite => if parsedWei.Resolved? then Resolved(Donate(selectedOrg, parsedWei.value)) else Rejected
    case FundPoolWrite => if parsedWei.Resolved? then Resolved(FundRewardPool(parsedWei.value)) else Rejected
    case StartRoundWrite => Resolved(StartNewRound)
    case SelectWinnerWrite => Resolved(SelectWinnerAndPayoutTop)
  }

  predicate WriteSucceeds(submission: Outcome<ExternalCall>, replies: WriteReplies) {
    submission.Resolved? && replies.submitted.Resolved? && replies.mined
  }

  /** The calls a failed write made before it failed; no refresh follows. */
  function FailedWriteCalls(submission: Outcome<ExternalCall>, replies: WriteReplies): seq<ExternalCall> {
    if submission.Rejected? then []
    else if replies.submitted.Rejected? then [submission.value]
    else [submission.value, WaitForReceipt(replies.submitted.value)]
  }

  /** The part of the component's state a handler may change, as one value. */
  datatype ClientState = ClientState(
    contract: Option<string>,
    account: string,
    isAdmin: bool,
    view: RoundView,
    selectedOrg: nat,
    txStatus: Option<TxStatus>,
    isLoading: bool,
    error: string)

  /**
   * Everything one write handler promises once its guard has passed, from
   * state `before` to state `after`: one status lifecycle ending in the
   * shown status, loading over, the connection and selection untouched; a
   * confirmed write makes exactly the submission, the wait and one refresh;
   * a failed write refreshes nothing and keeps the round state.
   */
  ghost predicate WriteCompleted(k: WriteKind, submission: Outcome<ExternalCall>, replies: WriteReplies,
                                 before: ClientState, after: ClientState,
                                 calls: seq<ExternalCall>, trace: seq<TxStatus>)
  {
    && IsWriteLifecycle(trace, k)
    && after.txStatus == Some(trace[|trace| - 1])
    && !after.isLoading
    && after.contract == before.contract && after.account == before.account
    && after.isAdmin == before.isAdmin && after.selectedOrg == before.selectedOrg
    && (WriteSucceeds(submission, replies) <==> trace[|trace| - 1].status == Confirmed)
    && (WriteSucceeds(submission, replies) ==>
          && trace[1].hash == replies.submitted.value
          && calls == [submission.value, WaitForReceipt(replies.submitted.value)] + RefreshCalls(replies.refresh)
          && after.view == Refreshed(before.view, replies.refresh)
          && after.error == ErrorAfterSuccess(k, before.error))
    && (!WriteSucceeds(submission, replies) ==>
          && calls == FailedWriteCalls(submission, replies)
          && after.view == before.view
          && after.error == ErrorAfterFailure(k, before.error))
  }

  /** The statuses a confirmed write shows. */
  function ConfirmTrace(k: WriteKind, hash: string): seq<TxStatus> {
    [TxStatus("", Pending, SubmittingMessage(k)), TxStatus(hash, Pending, WAITING_MESSAGE),
     TxStatus(hash, Confirmed, ConfirmedMessage(k))]
  }

  /** The statuses a failed write shows: the waiting status only once the transaction was submitted. */
  function FailTrace(k: WriteKind, submission: Outcome<ExternalCall>, replies: WriteReplies): seq<TxStatus> {
    var failed := TxStatus("", Failed, FailedMessage(k));
    if submission.Resolved? && replies.submitted.Resolved? then
      [TxStatus("", Pending, SubmittingMessage(k)), TxStatus(replies.submitted.value, Pending, WAITING_MESSAGE), failed]
    else [TxStatus("", Pending, SubmittingMessage(k)), failed]
  }

  /** The state a confirmed write leaves behind. */
  function AfterConfirm(k: WriteKind, hash: string, refresh: RefreshReads, before: ClientState): ClientState {
    before.(view := Refreshed(before.view, refresh),
            txStatus := Some(TxStatus(hash, Confirmed, ConfirmedMessage(k))),
            isLoading := false,
            error := ErrorAfterSuccess(k, before.error))
  }

  /** The state a failed write leaves behind. */
  function AfterFailure(k: WriteKind, before: ClientState): ClientState {
    before.(txStatus := Some(TxStatus("", Failed, FailedMessage(k))),
            isLoading := false,
            error := ErrorAfterFailure(k, before.error))
  }

  /** A confirmed write, with its calls, statuses and resulting state, completes the write protocol. */
  lemma ConfirmCompletes(k: WriteKind, submission: Outcome<ExternalCall>, replies: WriteReplies, before: ClientState)
    requires before.contract.Some? && WriteSucceeds(submission, replies)
    ensures WriteCompleted(k, submission, replies, before,
      AfterConfirm(k, replies.submitted.value, replies.refresh, before),
      [submission.value, WaitForReceipt(replies.submitted.value)] + RefreshCalls(replies.refresh),
      ConfirmTrace(k, replies.submitted.value))
  {
  }

  /** A failed write, with its calls, statuses and resulting state, completes the write protocol. */
  lemma FailureCompletes(k: WriteKind, submission: Outcome<ExternalCall>, replies: WriteReplies, before: ClientState)
    requires !WriteSucceeds(submission, replies)
    ensures WriteCompleted(k, submission, replies, before, AfterFailure(k, before),
      FailedWriteCalls(submission, replies), FailTrace(k, submission, replies))
  {
    var trace := FailTrace(k, submission, replies);
    var failed := TxStatus("", Failed, FailedMessage(k));
    if submission.Resolved? && replies.submitted.Resolved? {
      assert |trace| == 3 && trace[2] == failed;
    } else {
      assert |trace| == 2 && trace[1] == failed;
    }
  }

  /** The formatting step: the registry entries for the read totals, sorted in place by total. */
  method RankOrgs(donations: seq<nat>) returns (ranked: seq<OrgEntry>)
    requires |donations| >= |ORG_IDS|
    ensures ranked == Ranking(donations)
  {
    var orgData := BuildEntries(donations);
    var a := new OrgEntry[|orgData|](i requires 0 <= i < |orgData| => orgData[i]);
    assert a[..] == orgData;
    Sorting.InsertionSortDesc(a, WeiKey);
    ranked := a[..];
  }

  // ---------------------------------------------------------------------------
  // The component

  class LeaderboardClient {
    /** The configured contract address; empty when it was not set. */
    const contractAddress: string

    var contract: Option<string>
    var account: string
    var isAdmin: bool
    var currentRound: nat
    var rewardPool: nat
    var rewardAmount: nat
    var canEndRound: bool
    var leaderboard: seq<OrgEntry>
    var selectedOrg: nat
    var txStatus: Option<TxStatus>
    var isLoading: bool
    var error: string

    ghost predicate Valid()
      reads this
    {
      && (contract.Some? ==> contract.value == contractAddress && contractAddress != "")
      && (account != "" ==> contract.Some?)
    }

    /** The mirrored round state. */
    function View(): RoundView
      reads this
    {
      RoundView(currentRound, rewardPool, rewardAmount, canEndRound, leaderboard)
    }

    function State(): ClientState
      reads this
    {
      ClientState(contract, account, isAdmin, View(), selectedOrg, txStatus, isLoading, error)
    }

    constructor (address: string)
      ensures Valid()
      ensures contractAddress == address && contract == None && account == "" && !isAdmin
      ensures View() == RoundView(0, 0, 0, false, [])
      ensures selectedOrg == 1 && txStatus == None && !isLoading && error == ""
    {
      contractAddress := address;
      contract := None;
      account := "";
      isAdmin := false;
      currentRound := 0;
      rewardPool := 0;
      rewardAmount := 0;
      canEndRound := false;
      leaderboard := [];
      selectedOrg := 1;
      txStatus := None;
      isLoading := false;
      error := "";
    }

    /** The connect button, shown before an account is connected, is enabled while nothing is loading. */
    predicate ConnectEnabled()
      reads this
    {
      account == "" && !isLoading
    }

    /** The donate and fund buttons, shown once connected, are enabled while nothing is loading. */
    predicate DonateEnabled()
      reads this
    {
      account != "" && !isLoading
    }

    /** The admin controls are rendered for the admin only, and enabled once the round may end. */
    predicate AdminButtonsEnabled()
      reads this
    {
      account != "" && isAdmin && !isLoading && canEndRound
    }

    /** The organisation picker offers the registry ids. */
    method SelectOrg(id: nat)
      requires Valid() && id in ORG_IDS
      modifies this
      ensures Valid()
      ensures selectedOrg == id
      ensures contract == old(contract) && account == old(account) && isAdmin == old(isAdmin)
      ensures View() == old(View()) && txStatus == old(txStatus) && isLoading == old(isLoading) && error == old(error)
    {
      selectedOrg := id;
    }

    /**
     * Refresh: a no-op without a contract; otherwise the four stats are read
     * together, then the totals for the registry ids, and the result is
     * `Refreshed`. Read errors are swallowed.
     */
    method LoadContractData(answers: RefreshReads) returns (calls: seq<ExternalCall>)
      requires Valid()
      modifies this
      ensures Valid()
      ensures contract.None? ==> calls == [] && unchanged(this)
      ensures contract.Some? ==> calls == RefreshCalls(answers) && View() == Refreshed(old(View()), answers)
      ensures contract == old(contract) && account == old(account) && isAdmin == old(isAdmin)
      ensures selectedOrg == old(selectedOrg) && txStatus == old(txStatus)
      ensures isLoading == old(isLoading) && error == old(error)
    {
      calls := [];
      if contract.None? {
        return;
      }
      calls := STAT_READS;
      if !StatsResolved(answers) {
        return;
      }
      currentRound := answers.currentRound.value;
      rewardPool := answers.rewardPool.value;
      rewardAmount := answers.rewardAmount.value;
      canEndRound := answers.canEndRound.value;
      calls := calls + [ReadLeaderboard(ORG_IDS)];
      if !BoardResolved(answers) {
        // a missing total makes the formatting step throw; the old leaderboard stays
        return;
      }
      leaderboard := RankOrgs(answers.leaderboard.value);
    }

    /**
     * The protocol every write handler follows once its guard has passed:
     * loading starts, donate and fund-pool clear the error line, the
     * submitting status is shown, and the write then confirms or fails.
     */
    method ExecuteWrite(k: WriteKind, submission: Outcome<ExternalCall>, replies: WriteReplies)
      returns (calls: seq<ExternalCall>, trace: seq<TxStatus>)
      requires Valid() && contract.Some?
      modifies this
      ensures Valid()
      ensures WriteCompleted(k, submission, replies, old(State()), State(), calls, trace)
    {
      if WriteSucceeds(submission, replies) {
        ConfirmCompletes(k, submission, replies, State());
        calls, trace := ConfirmWrite(k, submission, replies);
      } else {
        FailureCompletes(k, submission, replies, State());
        calls, trace := FailWrite(k, submission, replies);
      }
    }

    /** A write whose transaction is submitted and mined: confirmation, then one refresh. */
    method ConfirmWrite(k: WriteKind, submission: Outcome<ExternalCall>, replies: WriteReplies)
      returns (calls: seq<ExternalCall>, trace: seq<TxStatus>)
      requires Valid() && contract.Some? && WriteSucceeds(submission, replies)
      modifies this
      ensures Valid()
      ensures State() == AfterConfirm(k, replies.submitted.value, replies.refresh, old(State()))
      ensures calls == [submission.value, WaitForReceipt(replies.submitted.value)] + RefreshCalls(replies.refresh)
      ensures trace == ConfirmTrace(k, replies.submitted.value)
    {
      BeginWrite(k);
      var hash := replies.submitted.value;
      trace := ConfirmTrace(k, hash);
      txStatus := Some(trace[1]);
      txStatus := Some(trace[2]);
      var refreshCalls := LoadContractData(replies.refresh);
      calls := [submission.value, WaitForReceipt(hash)] + refreshCalls;
      isLoading := false;
    }

    /**
     * A write that fails while its arguments are computed, when it is
     * submitted, or while it is awaited: the failure status, a donation's
     * error line, and no refresh.
     */
    method FailWrite(k: WriteKind, submission: Outcome<ExternalCall>, replies: WriteReplies)
      returns (calls: seq<ExternalCall>, trace: seq<TxStatus>)
      requires Valid() && contract.Some? && !WriteSucceeds(submission, replies)
      modifies this
      ensures Valid()
      ensures State() == AfterFailure(k, old(State()))
      ensures calls == FailedWriteCalls(submission, replies) && trace == FailTrace(k, submission, replies)
    {
      ghost var before := State();
      BeginWrite(k);
      trace := FailTrace(k, submission, replies);
      if |trace| == 3 {
        txStatus := Some(trace[1]);
      }
      EndFailure(k, before);
      calls := FailedWriteCalls(submission, replies);
    }

    /** The end of a failed write begun from `before`: the failed status, the failure's error line, loading over. */
    method EndFailure(k: WriteKind, ghost before: ClientState)
      requires Valid()
      requires contract == before.contract && account == before.account && isAdmin == before.isAdmin
      requires View() == before.view && selectedOrg == before.selectedOrg
      requires error == (if ClearsError(k) then "" else before.error)
      modifies this
      ensures Valid()
      ensures State() == AfterFailure(k, before)
    {
      ghost var view := View();
      txStatus, isLoading, error := Some(TxStatus("", Failed, FailedMessage(k))), false, if k == DonateWrite then "Donation failed" else error;
      assert View() == view;
      assert State() == ClientState(before.contract, before.account, before.isAdmin, before.view, before.selectedOrg,
        Some(TxStatus("", Failed, FailedMessage(k))), false, ErrorAfterFailure(k, before.error));
    }

    /** The start of every write: loading, donate and fund-pool clear the error line, the submitting status. */
    method BeginWrite(k: WriteKind)
      requires Valid()
      modifies this
      ensures Valid()
      ensures isLoading && txStatus == Some(TxStatus("", Pending, SubmittingMessage(k)))
      ensures error == (if ClearsError(k) then "" else old(error))
      ensures contract == old(contract) && account == old(account) && isAdmin == old(isAdmin)
      ensures View() == old(View()) && selectedOrg == old(selectedOrg)
    {
      isLoading := true;
      if ClearsError(k) {
        error := "";
      }
      txStatus := Some(TxStatus("", Pending, SubmittingMessage(k)));
    }

    /** Donate `parsedWei` (the parsed amount field) to the selected organisation. */
    method HandleDonate(parsedWei: Outcome<nat>, replies: WriteReplies)
      returns (calls: seq<ExternalCall>, trace: seq<TxStatus>)
      requires Valid()
      modifies this
      ensures Valid()
      ensures old(contract).None? ==> calls == [] && trace == [] && unchanged(this)
      ensures old(contract).Some? ==>
        WriteCompleted(DonateWrite, Submission(DonateWrite, old(selectedOrg), parsedWei),
          replies, old(State()), State(), calls, trace)
    {
      calls, trace := [], [];
      if contract.None? {
        return;
      }
      calls, trace := ExecuteWrite(DonateWrite, Submission(DonateWrite, selectedOrg, parsedWei), replies);
    }

    /** Add `parsedWei` to the reward pool. */
    method HandleFundPool(parsedWei: Outcome<nat>, replies: WriteReplies)
      returns (calls: seq<ExternalCall>, trace: seq<TxStatus>)
      requires Valid()
      modifies this
      ensures Valid()
      ensures old(contract).None? ==> calls == [] && trace == [] && unchanged(this)
      ensures old(contract).Some? ==>
        WriteCompleted(FundPoolWrite, Submission(FundPoolWrite, old(selectedOrg), parsedWei),
          replies, old(State()), State(), calls, trace)
    {
      calls, trace := [], [];
      if contract.None? {
        return;
      }
      calls, trace := ExecuteWrite(FundPoolWrite, Submission(FundPoolWrite, selectedOrg, parsedWei), replies);
    }

    /** Start a new round; refused client-side without a contract or for a non-admin. */
    method HandleStartRound(replies: WriteReplies) returns (calls: seq<ExternalCall>, trace: seq<TxStatus>)
      requires Valid()
      modifies this
      ensures Valid()
      ensures (old(contract).None? || !old(isAdmin)) ==> calls == [] && trace == [] && unchanged(this)
      ensures old(contract).Some? && old(isAdmin) ==>
        WriteCompleted(StartRoundWrite, Resolved(StartNewRound),
          replies, old(State()), State(), calls, trace)
    {
      calls, trace := [], [];
      if contract.None? || !isAdmin {
        return;
      }
      calls, trace := ExecuteWrite(StartRoundWrite, Resolved(StartNewRound), replies);
    }

    /** Pay the round's winner; refused client-side without a contract or for a non-admin. */
    method HandleSelectWinner(replies: WriteReplies) returns (calls: seq<ExternalCall>, trace: seq<TxStatus>)
      requires Valid()
      modifies this
      ensures Valid()
      ensures (old(contract).None? || !old(isAdmin)) ==> calls == [] && trace == [] && unchanged(this)
      ensures old(contract).Some? && old(isAdmin) ==>
        WriteCompleted(SelectWinnerWrite, Resolved(SelectWinnerAndPayoutTop),
          replies, old(State()), State(), calls, trace)
    {
      calls, trace := [], [];
      if contract.None? || !isAdmin {
        return;
      }
      calls, trace := ExecuteWrite(SelectWinnerWrite, Resolved(SelectWinnerAndPayoutTop), replies);
    }

    /** A click on Start New Round: nothing happens while the button is disabled. */
    method ClickStartRound(replies: WriteReplies) returns (calls: seq<ExternalCall>, trace: seq<TxStatus>)
      requires Valid()
      modifies this
      ensures Valid()
      ensures !old(AdminButtonsEnabled()) ==> calls == [] && trace == [] && unchanged(this)
      ensures old(AdminButtonsEnabled()) ==>
        WriteCompleted(StartRoundWrite, Resolved(StartNewRound),
          replies, old(State()), State(), calls, trace)
    {
      calls, trace := [], [];
      if !AdminButtonsEnabled() {
        return;
      }
      calls, trace := HandleStartRound(replies);
    }

    /** A click on Select Winner & Payout: nothing happens while the button is disabled. */
    method ClickSelectWinner(replies: WriteReplies) returns (calls: seq<ExternalCall>, trace: seq<TxStatus>)
      requires Valid()
      modifies this
      ensures Valid()
      ensures !old(AdminButtonsEnabled()) ==> calls == [] && trace == [] && unchanged(this)
      ensures old(AdminButtonsEnabled()) ==>
        WriteCompleted(SelectWinnerWrite, Resolved(SelectWinnerAndPayoutTop),
          replies, old(State()), State(), calls, trace)
    {
      calls, trace := [], [];
      if !AdminButtonsEnabled() {
        return;
      }
      calls, trace := HandleSelectWinner(replies);
    }

    /** A click on Donate: nothing happens while the button is disabled. */
    method ClickDonate(parsedWei: Outcome<nat>, replies: WriteReplies)
      returns (calls: seq<ExternalCall>, trace: seq<TxStatus>)
      requires Valid()
      modifies this
      ensures Valid()
      ensures !old(DonateEnabled()) ==> calls == [] && trace == [] && unchanged(this)
      ensures old(DonateEnabled()) ==>
        WriteCompleted(DonateWrite, Submission(DonateWrite, old(selectedOrg), parsedWei),
          replies, old(State()), State(), calls, trace)
    {
      calls, trace := [], [];
      if !DonateEnabled() {
        return;
      }
      calls, trace := HandleDonate(parsedWei, replies);
    }

    /** A click on Fund Pool: nothing happens while the button is disabled. */
    method ClickFundPool(parsedWei: Outcome<nat>, replies: WriteReplies)
      returns (calls: seq<ExternalCall>, trace: seq<TxStatus>)
      requires Valid()
      modifies this
      ensures Valid()
      ensures !old(DonateEnabled()) ==> calls == [] && trace == [] && unchanged(this)
      ensures old(DonateEnabled()) ==>
        WriteCompleted(FundPoolWrite, Submission(FundPoolWrite, old(selectedOrg), parsedWei),
          replies, old(State()), State(), calls, trace)
    {
      calls, trace := [], [];
      if !DonateEnabled() {
        return;
      }
      calls, trace := HandleFundPool(parsedWei, replies);
    }

    /**
     * A click on Connect MetaMask: nothing happens while the button is
     * disabled; otherwise the connect handler runs, and loading is over
     * when it returns.
     */
    method ClickConnect(hasWallet: bool, replies: WalletReplies) returns (calls: seq<ExternalCall>)
      requires Valid()
      modifies this
      ensures Valid()
      ensures !old(ConnectEnabled()) ==> calls == [] && unchanged(this)
      ensures old(ConnectEnabled()) && !hasWallet ==>
        && calls == [] && error == NO_WALLET_ERROR && account == ""
        && contract == old(contract) && isAdmin == old(isAdmin) && View() == old(View())
      ensures old(ConnectEnabled()) ==> !isLoading
      ensures old(ConnectEnabled()) && hasWallet && !(ReachesConfigCheck(replies) && contractAddress != "") ==>
        && calls == WalletCalls(replies)
        && error == ConnectError(replies, contractAddress)
        && contract == old(contract) && account == old(account) && isAdmin == old(isAdmin)
        && View() == old(View())
      ensures old(ConnectEnabled()) && hasWallet && ReachesConfigCheck(replies) && contractAddress != "" ==>
        && contract == Some(contractAddress) && account == replies.accounts.value
        && (replies.admin.Rejected? ==>
              calls == WalletCalls(replies) + [ReadAdmin]
              && error == CONNECT_FAILED_ERROR && isAdmin == old(isAdmin) && View() == old(View()))
        && (replies.admin.Resolved? ==>
              calls == WalletCalls(replies) + [ReadAdmin] + RefreshCalls(replies.refresh)
              && error == "" && isAdmin == SameAddress(replies.admin.value, replies.accounts.value)
              && View() == Refreshed(old(View()), replies.refresh))
      ensures selectedOrg == old(selectedOrg) && txStatus == old(txStatus)
    {
      calls := [];
      if !ConnectEnabled() {
        return;
      }
      calls := ConnectWallet(hasWallet, replies);
    }

    /** The wallet binds: the account is known and the network is (or was switched to) Sepolia. */
    static predicate ReachesConfigCheck(r: WalletReplies) {
      r.accounts.Resolved? && r.signer && r.chainId.Resolved?
      && (r.chainId.value == SEPOLIA_CHAIN_ID || r.switchReply == Switched)
    }

    /** The error a connection attempt that never binds the contract leaves. */
    static function ConnectError(r: WalletReplies, address: string): string {
      if !(r.accounts.Resolved? && r.signer && r.chainId.Resolved?) then CONNECT_FAILED_ERROR
      else if r.chainId.value != SEPOLIA_CHAIN_ID && r.switchReply == SwitchFailed(Some(UNKNOWN_CHAIN_ERROR_CODE)) then ADD_SEPOLIA_ERROR
      else if r.chainId.value != SEPOLIA_CHAIN_ID && r.switchReply != Switched then CONNECT_FAILED_ERROR
      else NOT_CONFIGURED_ERROR
    }

    /** The wallet calls a connection attempt makes before the contract checks. */
    static function WalletCalls(r: WalletReplies): seq<ExternalCall> {
      if r.accounts.Rejected? then [RequestAccounts]
      else if !r.signer then [RequestAccounts, GetSigner]
      else if r.chainId.Rejected? || r.chainId.value == SEPOLIA_CHAIN_ID then [RequestAccounts, GetSigner, GetNetwork]
      else [RequestAccounts, GetSigner, GetNetwork, SwitchChain(SEPOLIA_CHAIN_ID_HEX)]
    }

    /**
     * Connect: without a wallet only the error is set. Otherwise the account,
     * signer and network are requested; off Sepolia a switch is requested,
     * and an unknown-chain reply ends with its own error. An unset contract
     * address ends with an error and binds nothing. Then the contract and
     * account are bound, the admin is read and compared ignoring case, and
     * the data is refreshed. Any other failure sets the generic error, and
     * loading ends in every case.
     */
    method ConnectWallet(hasWallet: bool, replies: WalletReplies) returns (calls: seq<ExternalCall>)
      requires Valid()
      modifies this
      ensures Valid()
      ensures !hasWallet ==> calls == [] && error == NO_WALLET_ERROR && View() == old(View())
                             && contract == old(contract) && account == old(account) && isAdmin == old(isAdmin)
                             && isLoading == old(isLoading)
      ensures hasWallet ==> !isLoading
      ensures hasWallet && !(ReachesConfigCheck(replies) && contractAddress != "") ==>
        && calls == WalletCalls(replies)
        && error == ConnectError(replies, contractAddress)
        && contract == old(contract) && account == old(account) && isAdmin == old(isAdmin)
        && View() == old(View())
      ensures hasWallet && ReachesConfigCheck(replies) && contractAddress != "" ==>
        && contract == Some(contractAddress) && account == replies.accounts.value
        && (replies.admin.Rejected? ==>
              calls == WalletCalls(replies) + [ReadAdmin]
              && error == CONNECT_FAILED_ERROR && isAdmin == old(isAdmin) && View() == old(View()))
        && (replies.admin.Resolved? ==>
              calls == WalletCalls(replies) + [ReadAdmin] + RefreshCalls(replies.refresh)
              && error == "" && isAdmin == SameAddress(replies.admin.value, replies.accounts.value)
              && View() == Refreshed(old(View()), replies.refresh))
      ensures selectedOrg == old(selectedOrg) && txStatus == old(txStatus)
    {
      calls := [];
      if !hasWallet {
        error := NO_WALLET_ERROR;
        return;
      }
      isLoading := true;
      error := "";
      calls := WalletCalls(replies);
      if !(replies.accounts.Resolved? && replies.signer && replies.chainId.Resolved?) {
        error := CONNECT_FAILED_ERROR;
      } else if replies.chainId.value != SEPOLIA_CHAIN_ID && replies.switchReply != Switched {
        error := if replies.switchReply.code == Some(UNKNOWN_CHAIN_ERROR_CODE) then ADD_SEPOLIA_ERROR else CONNECT_FAILED_ERROR;
      } else if contractAddress == "" {
        error := NOT_CONFIGURED_ERROR;
      } else {
        var bindCalls := BindContract(replies);
        calls := calls + bindCalls;
      }
      isLoading := false;
    }

    /**
     * The end of a connection on Sepolia with a configured address: the
     * contract and account are bound, the admin is read and, when the read
     * resolves, compared ignoring case, and the data is refreshed.
     */
    method BindContract(replies: WalletReplies) returns (calls: seq<ExternalCall>)
      requires Valid() && contractAddress != "" && replies.accounts.Resolved?
      modifies this
      ensures Valid()
      ensures contract == Some(contractAddress) && account == replies.accounts.value
      ensures replies.admin.Rejected? ==>
        calls == [ReadAdmin] && error == CONNECT_FAILED_ERROR && isAdmin == old(isAdmin) && View() == old(View())
      ensures replies.admin.Resolved? ==>
        && calls == [ReadAdmin] + RefreshCalls(replies.refresh)
        && error == old(error) && isAdmin == SameAddress(replies.admin.value, replies.accounts.value)
        && View() == Refreshed(old(View()), replies.refresh)
      ensures selectedOrg == old(selectedOrg) && txStatus == old(txStatus) && isLoading == old(isLoading)
    {
      var acct := replies.accounts.value;
      contract := Some(contractAddress);
      account := acct;
      calls := [ReadAdmin];
      if replies.admin.Rejected? {
        error := CONNECT_FAILED_ERROR;
      } else {
        isAdmin := SameAddress(replies.admin.value, acct);
        var refreshCalls := LoadContractData(replies.refresh);
        calls := calls + refreshCalls;
      }
    }
  }
}
