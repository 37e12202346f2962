// What each account holds after each Vault rule, said account by account: which payments of a batch reach it, which
// deposits a fetch empties, and on whose authority anything leaves it.
module VaultAccounts {
  import opened Books
  import opened Common
  import opened Protocol
  import opened Batches
  import KeyManager
  import opened VaultSpec

  // ---- Payments ----

  /** What the first `i` entries of a batch bring an account: those of the asset that name it and that the funds allow
      after the entries before them. */
  function PaidTo(tokens: seq<Asset>, recipients: seq<Address>, amounts: seq<nat>, asset: Asset, funds: int,
                  a: Address, i: nat): nat
    requires i <= |tokens| == |recipients| == |amounts|
  {
    if i == 0 then 0
    else
      PaidTo(tokens, recipients, amounts, asset, funds, a, i - 1)
      + if recipients[i - 1] == a && Fits(tokens, amounts, asset, funds, i - 1) then amounts[i - 1] else 0
  }

  // Payments in order, each made only if the Vault still covers it, bring each account exactly that.
  lemma {:induction false} PaymentsReach(s: Vault, tokens: seq<Asset>, recipients: seq<Address>, amounts: seq<nat>,
                                         asset: Asset, a: Address, i: nat)
    requires i <= |tokens| == |recipients| == |amounts| && AllUsers(recipients) && a != s.Self()
    ensures PayAll(s, tokens, recipients, amounts, i).Balance(asset, a)
         == s.Balance(asset, a) + PaidTo(tokens, recipients, amounts, asset, s.Balance(asset, s.Self()), a, i)
  {
    if i == 0 {
    } else {
      PaymentsReach(s, tokens, recipients, amounts, asset, a, i - 1);
      SelectionMatchesSequentialRun(s, tokens, recipients, amounts, i - 1);
    }
  }

  lemma {:induction false} PaidToNobodyElse(tokens: seq<Asset>, recipients: seq<Address>, amounts: seq<nat>,
                                            asset: Asset, funds: int, a: Address, i: nat)
    requires i <= |tokens| == |recipients| == |amounts| && AllUsers(recipients) && !a.User?
    ensures PaidTo(tokens, recipients, amounts, asset, funds, a, i) == 0
  {
    if i == 0 {
    } else {
      PaidToNobodyElse(tokens, recipients, amounts, asset, funds, a, i - 1);
    }
  }

  // ---- Fetches ----

  /** Where the deposit of a swap ID is, if it is fetched: where it was deployed, or the address for the asset it is
      first fetched for. */
  function DepositOf(s: Vault, swapIDs: seq<nat>, assets: seq<Asset>, id: nat): Address
    requires |swapIDs| == |assets| && id in swapIDs
  {
    if id in s.deployed then s.deployed[id] else Deposit(s.vault, id, assets[FirstIndex(swapIDs, id)])
  }

  /** One of the first `i` fetches empties the account. */
  predicate Emptied(s: Vault, swapIDs: seq<nat>, assets: seq<Asset>, asset: Asset, a: Address, i: nat)
    requires i <= |swapIDs| == |assets|
  {
    exists j | 0 <= j < i :: assets[j] == asset && DepositOf(s, swapIDs, assets, swapIDs[j]) == a
  }

  // The deposits that are deployed after some fetches, and where.
  lemma {:induction false} DeployedAfter(s: Vault, swapIDs: seq<nat>, assets: seq<Asset>, i: nat, id: nat)
    requires i <= |swapIDs| == |assets|
    ensures var after := FetchAll(s, swapIDs, assets, i).deployed;
            && (id in after <==> id in s.deployed || (id in swapIDs && FirstIndex(swapIDs, id) < i))
            && (id in after ==>
                  after[id] == if id in s.deployed then s.deployed[id] else DepositOf(s, swapIDs, assets, id))
  {
    if i == 0 {
    } else {
      DeployedAfter(s, swapIDs, assets, i - 1, id);
    }
  }

  lemma NextSource(s: Vault, swapIDs: seq<nat>, assets: seq<Asset>, i: nat)
    requires i < |swapIDs| == |assets|
    ensures FetchAll(s, swapIDs, assets, i).Source(swapIDs[i], assets[i]) == DepositOf(s, swapIDs, assets, swapIDs[i])
  {
    DeployedAfter(s, swapIDs, assets, i, swapIDs[i]);
  }

  lemma EmptiedByLast(s: Vault, swapIDs: seq<nat>, assets: seq<Asset>, asset: Asset, a: Address, i: nat)
    requires 0 < i <= |swapIDs| == |assets|
    ensures Emptied(s, swapIDs, assets, asset, a, i)
       <==> || Emptied(s, swapIDs, assets, asset, a, i - 1)
            || (assets[i - 1] == asset && DepositOf(s, swapIDs, assets, swapIDs[i - 1]) == a)
  {
  }

  lemma FetchEmpties(s: Vault, swapID: nat, t: Asset, asset: Asset, a: Address)
    requires Inv(s) && a != s.Self()
    ensures Fetch(s, swapID, t).Balance(asset, a)
         == if t == asset && s.Source(swapID, t) == a then 0 else s.Balance(asset, a)
  {
  }

  // Fetches empty exactly the deposits they name, of the assets they name, and leave all other accounts alone.
  lemma {:induction false} FetchesEmpty(s: Vault, swapIDs: seq<nat>, assets: seq<Asset>, i: nat, asset: Asset,
                                        a: Address)
    requires i <= |swapIDs| == |assets| && Inv(s) && a != s.Self()
    ensures FetchAll(s, swapIDs, assets, i).Balance(asset, a)
         == if Emptied(s, swapIDs, assets, asset, a, i) then 0 else s.Balance(asset, a)
  {
    if i == 0 {
    } else {
      FetchesEmpty(s, swapIDs, assets, i - 1, asset, a);
      FetchAllKeeps(s, swapIDs, assets, i - 1);
      FetchEmpties(FetchAll(s, swapIDs, assets, i - 1), swapIDs[i - 1], assets[i - 1], asset, a);
      NextSource(s, swapIDs, assets, i - 1);
      EmptiedByLast(s, swapIDs, assets, asset, a, i);
    }
  }

  /** What the first `i` fetches bring the Vault: each deposit that is emptied counts once. */
  function Collected(s: Vault, swapIDs: seq<nat>, assets: seq<Asset>, asset: Asset, i: nat): int
    requires i <= |swapIDs| == |assets|
  {
    if i == 0 then 0
    else
      var source := DepositOf(s, swapIDs, assets, swapIDs[i - 1]);
      Collected(s, swapIDs, assets, asset, i - 1)
      + if assets[i - 1] == asset && !Emptied(s, swapIDs, assets, asset, source, i - 1)
        then s.Balance(asset, source) else 0
  }

  lemma DepositsAreNotTheVault(s: Vault, swapIDs: seq<nat>, assets: seq<Asset>, id: nat)
    requires Inv(s) && |swapIDs| == |assets| && id in swapIDs
    ensures DepositOf(s, swapIDs, assets, id) != s.Self()
  {
  }

  lemma {:induction false} FetchesCollect(s: Vault, swapIDs: seq<nat>, assets: seq<Asset>, i: nat, asset: Asset)
    requires i <= |swapIDs| == |assets| && Inv(s)
    ensures FetchAll(s, swapIDs, assets, i).Balance(asset, s.Self())
         == s.Balance(asset, s.Self()) + Collected(s, swapIDs, assets, asset, i)
  {
    if i == 0 {
    } else {
      FetchesCollect(s, swapIDs, assets, i - 1, asset);
      FetchAllKeeps(s, swapIDs, assets, i - 1);
      FetchBrings(FetchAll(s, swapIDs, assets, i - 1), swapIDs[i - 1], assets[i - 1], asset);
      NextSource(s, swapIDs, assets, i - 1);
      DepositsAreNotTheVault(s, swapIDs, assets, swapIDs[i - 1]);
      FetchesEmpty(s, swapIDs, assets, i - 1, asset, DepositOf(s, swapIDs, assets, swapIDs[i - 1]));
    }
  }

  /** The swap IDs that are not deployed yet, each once. */
  function NotDeployed(s: Vault, swapIDs: seq<nat>, i: nat): (ids: seq<nat>)
    requires i <= |swapIDs|
    ensures forall id :: id in ids <==> id in swapIDs[..i] && id !in s.deployed
    ensures Distinct(ids)
  {
    if i == 0 then []
    else
      assert swapIDs[..i] == swapIDs[..i - 1] + [swapIDs[i - 1]];
      var before := NotDeployed(s, swapIDs, i - 1);
      if swapIDs[i - 1] in s.deployed || swapIDs[i - 1] in swapIDs[..i - 1] then before else before + [swapIDs[i - 1]]
  }

  function AllNative(n: nat): (assets: seq<Asset>)
    ensures |assets| == n && forall i | 0 <= i < n :: assets[i] == Native
  {
    seq(n, (i: nat) => Native)
  }

  lemma {:induction false} FetchAllPrefix(s: Vault, swapIDs: seq<nat>, assets: seq<Asset>, id: nat, asset: Asset,
                                          i: nat)
    requires i <= |swapIDs| == |assets|
    ensures FetchAll(s, swapIDs + [id], assets + [asset], i) == FetchAll(s, swapIDs, assets, i)
  {
    if i == 0 {
    } else {
      FetchAllPrefix(s, swapIDs, assets, id, asset, i - 1);
    }
  }

  function NativeFetches(s: Vault, ids: seq<nat>): Vault {
    FetchAll(s, ids, AllNative(|ids|), |ids|)
  }

  lemma FetchesOneMore(s: Vault, ids: seq<nat>, id: nat)
    ensures NativeFetches(s, ids + [id]) == Fetch(NativeFetches(s, ids), id, Native)
    ensures id in NativeFetches(s, ids).deployed <==> id in s.deployed || id in ids
  {
    DeployedAfter(s, ids, AllNative(|ids|), |ids|, id);
    FetchAllPrefix(s, ids, AllNative(|ids|), id, Native, |ids|);
    assert AllNative(|ids| + 1) == AllNative(|ids|) + [Native];
  }

  ghost predicate FreshSoFar(s: Vault, swapIDs: seq<nat>, i: nat)
    requires i <= |swapIDs|
  {
    FetchFresh(s, swapIDs, i) == NativeFetches(s, NotDeployed(s, swapIDs, i))
  }

  lemma FreshNext(s: Vault, swapIDs: seq<nat>, i: nat)
    requires 0 < i <= |swapIDs| && FreshSoFar(s, swapIDs, i - 1)
    ensures FreshSoFar(s, swapIDs, i)
  {
    FetchesOneMore(s, NotDeployed(s, swapIDs, i - 1), swapIDs[i - 1]);
  }

  lemma {:induction false} FreshIsFetchAll(s: Vault, swapIDs: seq<nat>, i: nat)
    requires i <= |swapIDs|
    ensures FreshSoFar(s, swapIDs, i)
  {
    if i == 0 {
    } else {
      FreshIsFetchAll(s, swapIDs, i - 1);
      FreshNext(s, swapIDs, i);
    }
  }

  // ---- Statements ----

  function FetchedBalance(s: Vault, swapIDs: seq<nat>, assets: seq<Asset>, asset: Asset, a: Address): int
    requires |swapIDs| == |assets|
  {
    if a == s.Self() then s.Balance(asset, a) + Collected(s, swapIDs, assets, asset, |swapIDs|)
    else if Emptied(s, swapIDs, assets, asset, a, |swapIDs|) then 0
    else s.Balance(asset, a)
  }

  /** A batch collects the deposits it names and then pays what the funds allow. */
  function BatchBalance(s: Vault, swapIDs: seq<nat>, assets: seq<Asset>, tokens: seq<Asset>, recipients: seq<Address>,
                        amounts: seq<nat>, asset: Asset, a: Address): int
    requires |swapIDs| == |assets| && |tokens| == |recipients| == |amounts|
  {
    var funds := FetchedBalance(s, swapIDs, assets, asset, s.Self());
    if a == s.Self() then funds - Spent(tokens, amounts, asset, funds, |tokens|)
    else
      FetchedBalance(s, swapIDs, assets, asset, a)
      + PaidTo(tokens, recipients, amounts, asset, funds, a, |tokens|)
  }

  /** What an account holds after an accepted rule. */
  function BalanceAfter(s: Vault, op: VaultOp, asset: Asset, a: Address): int
    requires WellFormed(op)
  {
    match op
    case AllBatch(_, swapIDs, assets, tokens, recipients, amounts) =>
      BatchBalance(s, swapIDs, assets, tokens, recipients, amounts, asset, a)
    case Transfer(_, t, recipient, amount) => BatchBalance(s, [], [], [t], [recipient], [amount], asset, a)
    case TransferBatch(_, tokens, recipients, amounts) =>
      BatchBalance(s, [], [], tokens, recipients, amounts, asset, a)
    case NativeToDeposit(sender, swapID, amount) =>
      s.Balance(asset, a)
      + if asset != Native then 0
        else Flow(a, sender, if swapID in s.deployed then s.Self() else Deposit(s.vault, swapID, Native), amount)
    case TokenToDeposit(t, sender, swapID, amount) =>
      s.Balance(asset, a) + if asset != t then 0 else Flow(a, sender, Deposit(s.vault, swapID, t), amount)
    case FetchNative(_, swapID) => FetchedBalance(s, [swapID], [Native], asset, a)
    case FetchNativeBatch(_, swapIDs) =>
      var ids := NotDeployed(s, swapIDs, |swapIDs|);
      FetchedBalance(s, ids, AllNative(|ids|), asset, a)
    case FetchToken(_, t, swapID) => FetchedBalance(s, [swapID], [t], asset, a)
    case FetchTokenBatch(_, swapIDs, assets) => FetchedBalance(s, swapIDs, assets, asset, a)
    case PayIn(_, t, sender, amount) =>
      s.Balance(asset, a) + if asset != t then 0 else Flow(a, sender, s.Self(), amount)
    case ExecuteSwapAndCall(_, t, amount) => s.Balance(asset, a) - if asset == t && a == s.Self() then amount else 0
    case _ => s.Balance(asset, a)
  }

  lemma FetchAllBalances(s: Vault, swapIDs: seq<nat>, assets: seq<Asset>, asset: Asset, a: Address)
    requires |swapIDs| == |assets| && Inv(s)
    ensures FetchAll(s, swapIDs, assets, |swapIDs|).Balance(asset, a) == FetchedBalance(s, swapIDs, assets, asset, a)
  {
    if a == s.Self() {
      FetchesCollect(s, swapIDs, assets, |swapIDs|, asset);
    } else {
      FetchesEmpty(s, swapIDs, assets, |swapIDs|, asset, a);
    }
  }

  lemma BatchBalances(s: Vault, swapIDs: seq<nat>, assets: seq<Asset>, tokens: seq<Asset>, recipients: seq<Address>,
                      amounts: seq<nat>, asset: Asset, a: Address)
    requires |swapIDs| == |assets| && |tokens| == |recipients| == |amounts| && AllUsers(recipients) && Inv(s)
    ensures PayAll(FetchAll(s, swapIDs, assets, |swapIDs|), tokens, recipients, amounts, |tokens|).Balance(asset, a)
         == BatchBalance(s, swapIDs, assets, tokens, recipients, amounts, asset, a)
  {
    var fetched := FetchAll(s, swapIDs, assets, |swapIDs|);
    FetchAllBalances(s, swapIDs, assets, asset, a);
    FetchAllBalances(s, swapIDs, assets, asset, s.Self());
    if a == s.Self() {
      PaidSoFar(fetched, tokens, recipients, amounts, asset, |tokens|);
    } else {
      PaymentsReach(fetched, tokens, recipients, amounts, asset, a, |tokens|);
    }
  }

  /** Every account holds what the batch leaves it. */
  ghost predicate Settled(s: Vault, after: Vault, swapIDs: seq<nat>, assets: seq<Asset>, tokens: seq<Asset>,
                          recipients: seq<Address>, amounts: seq<nat>)
    requires |swapIDs| == |assets| && |tokens| == |recipients| == |amounts|
  {
    forall asset, a ::
      after.Balance(asset, a) == BatchBalance(s, swapIDs, assets, tokens, recipients, amounts, asset, a)
  }

  lemma BatchSettles(s: Vault, swapIDs: seq<nat>, assets: seq<Asset>, tokens: seq<Asset>, recipients: seq<Address>,
                     amounts: seq<nat>)
    requires |swapIDs| == |assets| && |tokens| == |recipients| == |amounts| && AllUsers(recipients) && Inv(s)
    ensures Settled(s, PayAll(FetchAll(s, swapIDs, assets, |swapIDs|), tokens, recipients, amounts, |tokens|),
                    swapIDs, assets, tokens, recipients, amounts)
  {
    forall asset, a {
      BatchBalances(s, swapIDs, assets, tokens, recipients, amounts, asset, a);
    }
  }

  lemma OnePayment(s: Vault, t: Asset, recipient: Address, amount: nat)
    ensures PayAll(FetchAll(s, [], [], 0), [t], [recipient], [amount], 1) == Pay(s, t, recipient, amount)
  {
    assert PayAll(s, [t], [recipient], [amount], 0) == s;
  }

  lemma OneFetch(s: Vault, swapID: nat, t: Asset)
    ensures FetchAll(s, [swapID], [t], 1) == Fetch(s, swapID, t)
  {
    assert FetchAll(s, [swapID], [t], 0) == s;
  }

  predicate IsPayment(op: VaultOp) {
    op.AllBatch? || op.Transfer? || op.TransferBatch?
  }

  predicate IsFetch(op: VaultOp) {
    op.FetchNative? || op.FetchNativeBatch? || op.FetchToken? || op.FetchTokenBatch?
  }

  lemma PaymentBalances(s: Vault, op: VaultOp, asset: Asset, a: Address)
    requires WellFormed(op) && Inv(s) && IsPayment(op)
    ensures Effect(s, op).Balance(asset, a) == BalanceAfter(s, op, asset, a)
  {
    match op
    case AllBatch(_, swapIDs, assets, tokens, recipients, amounts) =>
      BatchBalances(s, swapIDs, assets, tokens, recipients, amounts, asset, a);
    case Transfer(_, t, recipient, amount) =>
      OnePayment(s, t, recipient, amount);
      BatchBalances(s, [], [], [t], [recipient], [amount], asset, a);
    case TransferBatch(_, tokens, recipients, amounts) =>
      assert FetchAll(s, [], [], 0) == s;
      BatchBalances(s, [], [], tokens, recipients, amounts, asset, a);
  }

  lemma FetchBalances(s: Vault, op: VaultOp, asset: Asset, a: Address)
    requires WellFormed(op) && Inv(s) && IsFetch(op) && (op.FetchNative? ==> op.swapID !in s.deployed)
    ensures Effect(s, op).Balance(asset, a) == BalanceAfter(s, op, asset, a)
  {
    match op
    case FetchNative(_, swapID) =>
      assert FetchFresh(s, [swapID], 0) == s;
      OneFetch(s, swapID, Native);
      FetchAllBalances(s, [swapID], [Native], asset, a);
    case FetchNativeBatch(_, swapIDs) =>
      var ids := NotDeployed(s, swapIDs, |swapIDs|);
      FreshIsFetchAll(s, swapIDs, |swapIDs|);
      FetchAllBalances(s, ids, AllNative(|ids|), asset, a);
    case FetchToken(_, t, swapID) =>
      OneFetch(s, swapID, t);
      FetchAllBalances(s, [swapID], [t], asset, a);
    case FetchTokenBatch(_, swapIDs, assets) => FetchAllBalances(s, swapIDs, assets, asset, a);
  }

  lemma OtherBalances(s: Vault, op: VaultOp, asset: Asset, a: Address)
    requires WellFormed(op) && !IsPayment(op) && !IsFetch(op)
    ensures Effect(s, op).Balance(asset, a) == BalanceAfter(s, op, asset, a)
  {
  }

  // Every rule leaves every account with exactly that.
  lemma EffectBalances(s: Vault, k: KeyManager.Keys, op: VaultOp, asset: Asset, a: Address)
    requires WellFormed(op) && Inv(s) && Verdict(s, k, op).Done?
    ensures Effect(s, op).Balance(asset, a) == BalanceAfter(s, op, asset, a)
  {
    if IsPayment(op) {
      PaymentBalances(s, op, asset, a);
    } else if IsFetch(op) {
      FetchBalances(s, op, asset, a);
    } else {
      OtherBalances(s, op, asset, a);
    }
  }

  lemma StepBalances(s: Vault, k: KeyManager.Keys, op: VaultOp, asset: Asset, a: Address)
    requires WellFormed(op) && Inv(s)
    ensures Step(s, k, op).Balance(asset, a)
         == if Verdict(s, k, op).Done? then BalanceAfter(s, op, asset, a) else s.Balance(asset, a)
  {
    if Verdict(s, k, op).Done? {
      EffectBalances(s, k, op, asset, a);
    }
  }

  // ---- Authority ----

  /** The key that signed the call, for the rules that need a signature. */
  function Signer(op: VaultOp): Option<Key> {
    match op
    case AllBatch(signer, _, _, _, _, _) => Some(signer)
    case Transfer(signer, _, _, _) => Some(signer)
    case TransferBatch(signer, _, _, _) => Some(signer)
    case FetchNative(signer, _) => Some(signer)
    case FetchNativeBatch(signer, _) => Some(signer)
    case FetchToken(signer, _, _) => Some(signer)
    case FetchTokenBatch(signer, _, _) => Some(signer)
    case ExecuteSwapAndCall(signer, _, _) => Some(signer)
    case ExecuteCall(signer) => Some(signer)
    case _ => None
  }

  /** The account that pays with its own funds. */
  function Payer(op: VaultOp): Option<Address> {
    match op
    case NativeToDeposit(sender, _, _) => Some(sender)
    case TokenToDeposit(_, sender, _, _) => Some(sender)
    case PayIn(_, _, sender, _) => Some(sender)
    case _ => None
  }

  // A signed call by another key than the aggregate key changes nothing at all, and neither does any on a suspended
  // Vault; with the right key on a Vault in use it is refused only for an empty or uncovered amount.
  lemma SignedCallsNeedTheKey(s: Vault, k: KeyManager.Keys, op: VaultOp)
    requires WellFormed(op) && Signer(op).Some?
    ensures Signer(op).value != k.aggKey || s.suspended ==> Verdict(s, k, op).Reverted? && Step(s, k, op) == s
    ensures Signer(op).value == k.aggKey && !s.suspended ==>
              match op
              case Transfer(_, _, _, amount) =>
                Verdict(s, k, op) == if amount == 0 then Reverted(EmptyUint) else Done(true)
              case FetchNative(_, swapID) => Verdict(s, k, op) == if swapID in s.deployed then Skipped else Done(true)
              case ExecuteSwapAndCall(_, asset, amount) =>
                Verdict(s, k, op).Done? <==> s.Balance(asset, s.Self()) >= amount
              case _ => Verdict(s, k, op) == Done(true)
  {
  }

  // Which of the other calls the Vault accepts, whatever it says of the rest.
  lemma AcceptedExactlyIf(s: Vault, k: KeyManager.Keys, op: VaultOp)
    requires Signer(op).None?
    ensures Verdict(s, k, op).Done? <==>
              match op
              case NativeToDeposit(sender, swapID, amount) => swapID != 0 && amount <= s.Balance(Native, sender)
              case TokenToDeposit(asset, sender, swapID, amount) => swapID != 0 && amount <= s.Balance(asset, sender)
              case PayIn(_, asset, sender, amount) => !s.suspended && 0 < amount <= s.Balance(asset, sender)
              case Suspend(sender) => sender == k.governor && !s.suspended
              case Resume(sender) => sender == k.governor && s.suspended
              case EnableGuard(sender) => sender == k.communityKey && s.guardDisabled
              case DisableGuard(sender) => sender == k.communityKey && !s.guardDisabled
              case GovWithdraw(sender) =>
                && sender == k.governor && s.suspended && s.guardDisabled
                && k.now - k.lastValidateTime >= AGG_KEY_EMERGENCY_TIMEOUT
              case _ => false
    ensures Verdict(s, k, op) != Done(true)
  {
  }

  // An ordinary account loses funds only by paying itself.
  lemma UsersLoseOnlyWhatTheyPay(s: Vault, k: KeyManager.Keys, op: VaultOp, asset: Asset, a: Address)
    requires WellFormed(op) && Inv(s) && a.User?
    requires Step(s, k, op).Balance(asset, a) < s.Balance(asset, a)
    ensures Payer(op) == Some(a)
  {
    StepBalances(s, k, op, asset, a);
  }

  // The Vault and the deposits lose funds only by a call that the aggregate key signed, on a Vault that is not
  // suspended; nothing else loses any.
  lemma FundsLeaveOnlyByKey(s: Vault, k: KeyManager.Keys, op: VaultOp, asset: Asset, a: Address)
    requires WellFormed(op) && Inv(s) && !a.User?
    requires Step(s, k, op).Balance(asset, a) < s.Balance(asset, a)
    ensures Signer(op) == Some(k.aggKey) && !s.suspended && (a == s.Self() || a.Deposit?)
  {
    StepBalances(s, k, op, asset, a);
    if Signer(op).Some? {
      SignedCallsNeedTheKey(s, k, op);
    }
  }

  // A suspended Vault pays, fetches and sends nothing, and takes nothing in by a call; what still can happen is that
  // an account sends funds to a deposit.
  lemma SuspendedVaultIsStill(s: Vault, k: KeyManager.Keys, op: VaultOp, asset: Asset)
    requires WellFormed(op) && Inv(s) && s.suspended
    ensures Step(s, k, op).deployed == s.deployed && Step(s, k, op).sent == s.sent
    ensures Step(s, k, op).Balance(asset, s.Self()) >= s.Balance(asset, s.Self())
    ensures !op.NativeToDeposit? && !op.TokenToDeposit? ==> Step(s, k, op).books == s.books
  {
    if Step(s, k, op).Balance(asset, s.Self()) < s.Balance(asset, s.Self()) {
      FundsLeaveOnlyByKey(s, k, op, asset, s.Self());
    }
  }

  // ---- Deployments ----

  /** Where a rule finds the deposit of a swap ID that it fetches. */
  function FetchedAt(s: Vault, op: VaultOp, id: nat): Option<Address>
    requires WellFormed(op)
  {
    match op
    case AllBatch(_, swapIDs, assets, _, _, _) =>
      if id in swapIDs then Some(DepositOf(s, swapIDs, assets, id)) else None
    case FetchNative(_, swapID) => if id == swapID then Some(s.Source(id, Native)) else None
    case FetchNativeBatch(_, swapIDs) => if id in swapIDs then Some(s.Source(id, Native)) else None
    case FetchToken(_, t, swapID) => if id == swapID then Some(s.Source(id, t)) else None
    case FetchTokenBatch(_, swapIDs, assets) => if id in swapIDs then Some(DepositOf(s, swapIDs, assets, id)) else None
    case _ => None
  }

  lemma FreshDeploys(s: Vault, swapIDs: seq<nat>, id: nat)
    ensures var after := FetchFresh(s, swapIDs, |swapIDs|).deployed;
            && (id in after <==> id in s.deployed || id in swapIDs)
            && (id in after ==> after[id] == s.Source(id, Native))
  {
    var ids := NotDeployed(s, swapIDs, |swapIDs|);
    assert swapIDs[..|swapIDs|] == swapIDs;
    FreshIsFetchAll(s, swapIDs, |swapIDs|);
    DeployedAfter(s, ids, AllNative(|ids|), |ids|, id);
  }

  // The deposits deployed after a rule are those before and those it fetched, where it found them.
  lemma StepDeploys(s: Vault, k: KeyManager.Keys, op: VaultOp, id: nat)
    requires WellFormed(op) && Verdict(s, k, op).Done?
    ensures var after := Step(s, k, op).deployed;
            && (id in after <==> id in s.deployed || FetchedAt(s, op, id).Some?)
            && (id in s.deployed ==> after[id] == s.deployed[id])
            && (id !in s.deployed && id in after ==> Some(after[id]) == FetchedAt(s, op, id))
  {
    match op
    case AllBatch(_, swapIDs, assets, _, _, _) => DeployedAfter(s, swapIDs, assets, |swapIDs|, id);
    case FetchNative(_, swapID) => FreshDeploys(s, [swapID], id);
    case FetchNativeBatch(_, swapIDs) => FreshDeploys(s, swapIDs, id);
    case FetchToken(_, t, swapID) =>
      OneFetch(s, swapID, t);
    case FetchTokenBatch(_, swapIDs, assets) => DeployedAfter(s, swapIDs, assets, |swapIDs|, id);
    case _ =>
  }
}
