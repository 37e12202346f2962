// The Vault machine of tests/stateful/test_vault.py and test_all.py, as a step function: balances of
// native and two tokens, deployed deposits, suspension and community guard. Batches are specified the
// slow way, one fetch and one payment at a time in order.
module VaultSpec {
  import opened Books
  import opened Protocol
  import opened Batches
  import opened Common
  import KeyManager

  type Ledgers = PerAsset<Book<Address>>

  /** `sent` counts what left the tracked addresses for the CFTester receivers. */
  datatype Vault = Vault(books: Ledgers, sent: PerAsset<int>, vault: nat, deployed: map<nat, Address>,
                         suspended: bool, guardDisabled: bool)
  {
    function Self(): Address {
      Contract(vault)
    }

    function Balance(asset: Asset, a: Address): int {
      At(books.Of(asset), a)
    }

    function Moved(asset: Asset, from: Address, to: Address, amount: int): Vault {
      this.(books := books.With(asset, Move(books.Of(asset), from, to, amount)))
    }

    /** The address a fetch of this swap ID and asset empties. */
    function Source(swapID: nat, asset: Asset): Address {
      if swapID in deployed then deployed[swapID] else Deposit(vault, swapID, asset)
    }
  }

  datatype Entry = Swap | Call | AddGas

  datatype VaultOp =
    | AllBatch(signer: Key, swapIDs: seq<nat>, fetchTokens: seq<Asset>,
               tokens: seq<Asset>, recipients: seq<Address>, amounts: seq<nat>)
    | Transfer(signer: Key, asset: Asset, recipient: Address, amount: nat)
    | TransferBatch(signer: Key, tokens: seq<Asset>, recipients: seq<Address>, amounts: seq<nat>)
    | NativeToDeposit(sender: Address, swapID: nat, amount: nat)
    | TokenToDeposit(asset: Asset, sender: Address, swapID: nat, amount: nat)
    | FetchNative(signer: Key, swapID: nat)
    | FetchNativeBatch(signer: Key, swapIDs: seq<nat>)
    | FetchToken(signer: Key, asset: Asset, swapID: nat)
    | FetchTokenBatch(signer: Key, swapIDs: seq<nat>, fetchTokens: seq<Asset>)
    | PayIn(entry: Entry, asset: Asset, sender: Address, amount: nat)
    | ExecuteSwapAndCall(signer: Key, asset: Asset, amount: nat)
    | ExecuteCall(signer: Key)
    | Suspend(sender: Address)
    | Resume(sender: Address)
    | EnableGuard(sender: Address)
    | DisableGuard(sender: Address)
    | GovWithdraw(sender: Address)

  predicate AllUsers(addresses: seq<Address>) {
    forall i | 0 <= i < |addresses| :: addresses[i].User?
  }

  /** What the tests' input strategies guarantee: senders and recipients are accounts, the swap IDs of a batch
      are unique, and parallel lists have one length. */
  predicate WellFormed(op: VaultOp) {
    match op
    case AllBatch(_, swapIDs, fetchTokens, tokens, recipients, amounts) =>
      |swapIDs| == |fetchTokens| && Distinct(swapIDs) && |tokens| == |recipients| == |amounts| && AllUsers(recipients)
    case Transfer(_, _, recipient, _) => recipient.User?
    case TransferBatch(_, tokens, recipients, amounts) => |tokens| == |recipients| == |amounts| && AllUsers(recipients)
    case NativeToDeposit(sender, _, _) => sender.User?
    case TokenToDeposit(asset, sender, _, _) => asset != Native && sender.User?
    case FetchToken(_, asset, _) => asset != Native
    case FetchTokenBatch(_, swapIDs, fetchTokens) =>
      |swapIDs| == |fetchTokens| && forall i | 0 <= i < |fetchTokens| :: fetchTokens[i] != Native
    case PayIn(_, _, sender, _) => sender.User?
    case _ => true
  }

  /** Refused while suspended, then unless the current aggregate key signed. */
  function Guarded(s: Vault, k: KeyManager.Keys, signer: Key, otherwise: Outcome): Outcome {
    if s.suspended then Reverted(GovSuspended)
    else if signer != k.aggKey then Reverted(BadSignature)
    else otherwise
  }

  function Verdict(s: Vault, k: KeyManager.Keys, op: VaultOp): Outcome {
    match op
    case AllBatch(signer, _, _, _, _, _) => Guarded(s, k, signer, Done(true))
    case Transfer(signer, _, _, amount) =>
      if !s.suspended && amount == 0 then Reverted(EmptyUint) else Guarded(s, k, signer, Done(true))
    case TransferBatch(signer, _, _, _) => Guarded(s, k, signer, Done(true))
    case NativeToDeposit(sender, swapID, amount) =>
      if swapID != 0 && s.Balance(Native, sender) >= amount then Done(false) else Skipped
    case TokenToDeposit(asset, sender, swapID, amount) =>
      if swapID != 0 && s.Balance(asset, sender) >= amount then Done(false) else Skipped
    case FetchNative(signer, swapID) => Guarded(s, k, signer, if swapID in s.deployed then Skipped else Done(true))
    case FetchNativeBatch(signer, _) => Guarded(s, k, signer, Done(true))
    case FetchToken(signer, _, _) => Guarded(s, k, signer, Done(true))
    case FetchTokenBatch(signer, _, _) => Guarded(s, k, signer, Done(true))
    case PayIn(entry, asset, sender, amount) =>
      if s.suspended then Reverted(GovSuspended)
      else if amount == 0 then (if entry == AddGas && asset == Native then Skipped else Reverted(EmptyUint))
      else if s.Balance(asset, sender) >= amount then Done(false)
      else if asset == Native then Skipped
      else Reverted(ExceedsBalance)
    case ExecuteSwapAndCall(signer, asset, amount) =>
      Guarded(s, k, signer,
              if s.Balance(asset, s.Self()) >= amount then Done(true)
              else if asset == Native then Skipped
              else Reverted(ExceedsBalance))
    case ExecuteCall(signer) => Guarded(s, k, signer, Done(true))
    case Suspend(sender) =>
      if sender != k.governor then Reverted(NotGovernor)
      else if s.suspended then Reverted(GovSuspended)
      else Done(false)
    case Resume(sender) =>
      if sender != k.governor then Reverted(NotGovernor)
      else if s.suspended then Done(false)
      else Reverted(NotSuspended)
    case EnableGuard(sender) =>
      if sender != k.communityKey then Reverted(NotCommunity)
      else if s.guardDisabled then Done(false)
      else Reverted(GuardEnabled)
    case DisableGuard(sender) =>
      if sender != k.communityKey then Reverted(NotCommunity)
      else if s.guardDisabled then Reverted(GuardDisabled)
      else Done(false)
    case GovWithdraw(sender) =>
      if sender != k.governor then Reverted(NotGovernor)
      else if !s.guardDisabled then Reverted(GuardEnabled)
      else if !s.suspended then Reverted(NotSuspended)
      else if k.now - k.lastValidateTime < AGG_KEY_EMERGENCY_TIMEOUT then Reverted(VaultDelay)
      else Done(false)
  }

  // A payment out of the Vault that fails softly: nothing moves when the Vault cannot cover it.
  function Pay(s: Vault, asset: Asset, recipient: Address, amount: nat): Vault {
    if s.Balance(asset, s.Self()) < amount then s else s.Moved(asset, s.Self(), recipient, amount)
  }

  function PayAll(s: Vault, tokens: seq<Asset>, recipients: seq<Address>, amounts: seq<nat>, i: nat): (r: Vault)
    requires i <= |tokens| == |recipients| == |amounts|
    ensures r == s.(books := r.books)
  {
    if i == 0 then s
    else Pay(PayAll(s, tokens, recipients, amounts, i - 1), tokens[i - 1], recipients[i - 1], amounts[i - 1])
  }

  // Empties one deposit address into the Vault, deploying it first when needed.
  function Fetch(s: Vault, swapID: nat, asset: Asset): (r: Vault)
    ensures r == s.(books := r.books, deployed := r.deployed)
  {
    var source := s.Source(swapID, asset);
    s.Moved(asset, source, s.Self(), s.Balance(asset, source)).(deployed := s.deployed[swapID := source])
  }

  function FetchAll(s: Vault, swapIDs: seq<nat>, assets: seq<Asset>, i: nat): (r: Vault)
    requires i <= |swapIDs| == |assets|
    ensures r == s.(books := r.books, deployed := r.deployed)
  {
    if i == 0 then s else Fetch(FetchAll(s, swapIDs, assets, i - 1), swapIDs[i - 1], assets[i - 1])
  }

  // Native deposits are fetched by deploying them; a deployed one has forwarded its funds already.
  function FetchFresh(s: Vault, swapIDs: seq<nat>, i: nat): (r: Vault)
    requires i <= |swapIDs|
    ensures r == s.(books := r.books, deployed := r.deployed)
  {
    if i == 0 then s
    else
      var before := FetchFresh(s, swapIDs, i - 1);
      if swapIDs[i - 1] in before.deployed then before else Fetch(before, swapIDs[i - 1], Native)
  }

  /** The Vault while the governor holds both its tokens; the rule that withdraws them gives them back. */
  function Withdrawn(s: Vault, governor: Address): Vault {
    var a := s.Moved(TokenA, s.Self(), governor, s.Balance(TokenA, s.Self()));
    a.Moved(TokenB, s.Self(), governor, s.Balance(TokenB, s.Self()))
  }

  function GivenBack(s: Vault, governor: Address, amountA: int, amountB: int): Vault {
    s.Moved(TokenA, governor, s.Self(), amountA).Moved(TokenB, governor, s.Self(), amountB)
  }

  function SendOut(s: Vault, asset: Asset, amount: nat): Vault {
    var book := s.books.Of(asset);
    s.(books := s.books.With(asset, book[s.Self() := At(book, s.Self()) - amount]),
       sent := s.sent.With(asset, s.sent.Of(asset) + amount))
  }

  function Effect(s: Vault, op: VaultOp): Vault
    requires WellFormed(op)
  {
    match op
    case AllBatch(_, swapIDs, fetchTokens, tokens, recipients, amounts) =>
      PayAll(FetchAll(s, swapIDs, fetchTokens, |swapIDs|), tokens, recipients, amounts, |tokens|)
    case Transfer(_, asset, recipient, amount) => Pay(s, asset, recipient, amount)
    case TransferBatch(_, tokens, recipients, amounts) => PayAll(s, tokens, recipients, amounts, |tokens|)
    case NativeToDeposit(sender, swapID, amount) =>
      s.Moved(Native, sender, if swapID in s.deployed then s.Self() else Deposit(s.vault, swapID, Native), amount)
    case TokenToDeposit(asset, sender, swapID, amount) =>
      s.Moved(asset, sender, Deposit(s.vault, swapID, asset), amount)
    case FetchNative(_, swapID) => FetchFresh(s, [swapID], 1)
    case FetchNativeBatch(_, swapIDs) => FetchFresh(s, swapIDs, |swapIDs|)
    case FetchToken(_, asset, swapID) => Fetch(s, swapID, asset)
    case FetchTokenBatch(_, swapIDs, fetchTokens) => FetchAll(s, swapIDs, fetchTokens, |swapIDs|)
    case PayIn(_, asset, sender, amount) => s.Moved(asset, sender, s.Self(), amount)
    case ExecuteSwapAndCall(_, asset, amount) => SendOut(s, asset, amount)
    case ExecuteCall(_) => s
    case Suspend(_) => s.(suspended := true)
    case Resume(_) => s.(suspended := false)
    case EnableGuard(_) => s.(guardDisabled := false)
    case DisableGuard(_) => s.(guardDisabled := true)
    case GovWithdraw(_) => s
  }

  function Step(s: Vault, k: KeyManager.Keys, op: VaultOp): Vault
    requires WellFormed(op)
  {
    if Verdict(s, k, op).Done? then Effect(s, op) else s
  }

  // ---- What every step keeps ----

  /** No balance is negative; a deployed deposit sits at the CREATE2 address of its own swap ID; and neither a
      token's deposit address nor a deployed deposit holds any native funds. */
  ghost predicate Inv(s: Vault) {
    && (forall asset :: NonNegative(s.books.Of(asset)))
    && (forall id | id in s.deployed ::
          s.deployed[id].Deposit? && s.deployed[id].vault == s.vault && s.deployed[id].swapID == id)
    && (forall v, id, asset | asset != Native :: s.Balance(Native, Deposit(v, id, asset)) == 0)
    && (forall id | id in s.deployed :: s.Balance(Native, s.deployed[id]) == 0)
  }

  /** Everything there is of an asset: held by tracked addresses or sent out of them. */
  ghost function Total(s: Vault, asset: Asset): int {
    Sum(s.books.Of(asset)) + s.sent.Of(asset)
  }

  predicate Future(a: Address, n: nat) {
    match a
    case Contract(m) => n <= m
    case Deposit(m, _, _) => n <= m
    case _ => false
  }

  /** Nothing is recorded yet for the contracts and deposit addresses that serial `n` or later will bring. */
  ghost predicate Fresh(books: Ledgers, n: nat) {
    forall asset, a | Future(a, n) :: At(books.Of(asset), a) == 0
  }

  ghost predicate Kept(s: Vault, s': Vault) {
    && (Inv(s) ==> Inv(s'))
    && (forall asset :: Total(s', asset) == Total(s, asset))
    && (forall n | s.vault < n && Fresh(s.books, n) :: Fresh(s'.books, n))
  }

  lemma FreshMoved(s: Vault, asset: Asset, from: Address, to: Address, amount: nat, n: nat)
    requires s.vault < n && Fresh(s.books, n)
    requires amount <= s.Balance(asset, from) && !Future(to, n)
    ensures Fresh(s.Moved(asset, from, to, amount).books, n)
  {
    assert Future(from, n) ==> At(s.books.Of(asset), from) == 0;
    forall other, a | Future(a, n) ensures At(s.Moved(asset, from, to, amount).books.Of(other), a) == 0 {
      assert At(s.books.Of(other), a) == 0;
    }
  }

  // Moving what `from` can cover, to or from anywhere but a token deposit or a deployed deposit, keeps it all.
  lemma MovedKeeps(s: Vault, asset: Asset, from: Address, to: Address, amount: nat)
    requires Inv(s)
    requires amount <= s.Balance(asset, from)
    requires to.User? || to == s.Self()
             || (to.Deposit? && to.vault == s.vault
                 && (asset == Native ==> to.asset == Native && to.swapID !in s.deployed))
    ensures Kept(s, s.Moved(asset, from, to, amount))
  {
    SumMove(s.books.Of(asset), from, to, amount);
    var s' := s.Moved(asset, from, to, amount);
    forall other ensures NonNegative(s'.books.Of(other)) && Total(s', other) == Total(s, other) {
      assert NonNegative(s.books.Of(other));
    }
    forall n | s.vault < n && Fresh(s.books, n) ensures Fresh(s'.books, n) {
      FreshMoved(s, asset, from, to, amount, n);
    }
  }

  lemma PayKeeps(s: Vault, asset: Asset, recipient: Address, amount: nat)
    requires Inv(s) && recipient.User?
    ensures Kept(s, Pay(s, asset, recipient, amount))
  {
    if s.Balance(asset, s.Self()) >= amount {
      MovedKeeps(s, asset, s.Self(), recipient, amount);
    }
  }

  lemma {:induction false} PayAllKeeps(s: Vault, tokens: seq<Asset>, recipients: seq<Address>, amounts: seq<nat>,
                                       i: nat)
    requires i <= |tokens| == |recipients| == |amounts|
    requires Inv(s) && AllUsers(recipients)
    ensures Kept(s, PayAll(s, tokens, recipients, amounts, i))
  {
    if i == 0 {
    } else {
      PayAllKeeps(s, tokens, recipients, amounts, i - 1);
      PayKeeps(PayAll(s, tokens, recipients, amounts, i - 1), tokens[i - 1], recipients[i - 1], amounts[i - 1]);
    }
  }

  lemma FetchKeeps(s: Vault, swapID: nat, asset: Asset)
    requires Inv(s)
    ensures Kept(s, Fetch(s, swapID, asset))
  {
    var source := s.Source(swapID, asset);
    assert NonNegative(s.books.Of(asset));
    MovedKeeps(s, asset, source, s.Self(), s.Balance(asset, source));
  }

  lemma {:induction false} FetchAllKeeps(s: Vault, swapIDs: seq<nat>, assets: seq<Asset>, i: nat)
    requires i <= |swapIDs| == |assets|
    requires Inv(s)
    ensures Kept(s, FetchAll(s, swapIDs, assets, i))
  {
    if i == 0 {
    } else {
      FetchAllKeeps(s, swapIDs, assets, i - 1);
      FetchKeeps(FetchAll(s, swapIDs, assets, i - 1), swapIDs[i - 1], assets[i - 1]);
    }
  }

  lemma {:induction false} FetchFreshKeeps(s: Vault, swapIDs: seq<nat>, i: nat)
    requires i <= |swapIDs|
    requires Inv(s)
    ensures Kept(s, FetchFresh(s, swapIDs, i))
  {
    if i == 0 {
    } else {
      FetchFreshKeeps(s, swapIDs, i - 1);
      FetchKeeps(FetchFresh(s, swapIDs, i - 1), swapIDs[i - 1], Native);
    }
  }

  lemma SendOutKeeps(s: Vault, asset: Asset, amount: nat)
    requires Inv(s) && amount <= s.Balance(asset, s.Self())
    ensures Kept(s, SendOut(s, asset, amount))
  {
    var book := s.books.Of(asset);
    SumPut(book, s.Self(), At(book, s.Self()) - amount);
    var s' := SendOut(s, asset, amount);
    forall other ensures NonNegative(s'.books.Of(other)) {
      assert NonNegative(s.books.Of(other));
      forall a ensures At(s'.books.Of(other), a) >= 0 {
        assert At(s.books.Of(other), a) >= 0;
      }
    }
    forall n | s.vault < n && Fresh(s.books, n) ensures Fresh(s'.books, n) {
      assert !Future(s.Self(), n);
      forall other, a | Future(a, n) ensures At(s'.books.Of(other), a) == 0 {
        assert At(s.books.Of(other), a) == 0;
      }
    }
  }

  // Every rule conserves every asset, keeps every balance nonnegative and keeps deployed deposits empty of native.
  lemma StepKeeps(s: Vault, k: KeyManager.Keys, op: VaultOp)
    requires WellFormed(op) && Inv(s)
    ensures Kept(s, Step(s, k, op))
  {
    if Verdict(s, k, op).Done? {
      match op
      case AllBatch(_, swapIDs, fetchTokens, tokens, recipients, amounts) =>
        FetchAllKeeps(s, swapIDs, fetchTokens, |swapIDs|);
        PayAllKeeps(FetchAll(s, swapIDs, fetchTokens, |swapIDs|), tokens, recipients, amounts, |tokens|);
      case Transfer(_, asset, recipient, amount) => PayKeeps(s, asset, recipient, amount);
      case TransferBatch(_, tokens, recipients, amounts) => PayAllKeeps(s, tokens, recipients, amounts, |tokens|);
      case NativeToDeposit(sender, swapID, amount) =>
        MovedKeeps(s, Native, sender,
                   if swapID in s.deployed then s.Self() else Deposit(s.vault, swapID, Native), amount);
      case TokenToDeposit(asset, sender, swapID, amount) =>
        MovedKeeps(s, asset, sender, Deposit(s.vault, swapID, asset), amount);
      case FetchNative(_, swapID) => FetchFreshKeeps(s, [swapID], 1);
      case FetchNativeBatch(_, swapIDs) => FetchFreshKeeps(s, swapIDs, |swapIDs|);
      case FetchToken(_, asset, swapID) => FetchKeeps(s, swapID, asset);
      case FetchTokenBatch(_, swapIDs, fetchTokens) => FetchAllKeeps(s, swapIDs, fetchTokens, |swapIDs|);
      case PayIn(_, asset, sender, amount) => MovedKeeps(s, asset, sender, s.Self(), amount);
      case ExecuteSwapAndCall(_, asset, amount) => SendOutKeeps(s, asset, amount);
      case _ =>
    }
  }

  // Only swap and call executions send anything out.
  lemma StepSends(s: Vault, k: KeyManager.Keys, op: VaultOp, asset: Asset)
    requires WellFormed(op)
    ensures Step(s, k, op).sent.Of(asset)
         == s.sent.Of(asset)
            + if op.ExecuteSwapAndCall? && op.asset == asset && Verdict(s, k, op).Done? then op.amount else 0
  {
  }

  lemma StepStaysAtHome(s: Vault, k: KeyManager.Keys, op: VaultOp)
    requires WellFormed(op)
    ensures Step(s, k, op).vault == s.vault
  {
  }

  lemma WithdrawalKeeps(s: Vault, governor: Address)
    requires Inv(s) && governor.User?
    ensures Kept(s, Withdrawn(s, governor))
  {
    assert NonNegative(s.books.Of(TokenA)) && NonNegative(s.books.Of(TokenB));
    MovedKeeps(s, TokenA, s.Self(), governor, s.Balance(TokenA, s.Self()));
    var m := s.Moved(TokenA, s.Self(), governor, s.Balance(TokenA, s.Self()));
    assert m.Balance(TokenB, s.Self()) == s.Balance(TokenB, s.Self());
    MovedKeeps(m, TokenB, s.Self(), governor, s.Balance(TokenB, s.Self()));
  }

  lemma GivenBackRestores(s: Vault, governor: Address, t: Asset, a: Address)
    requires governor.User?
    ensures var w, amountA, amountB := Withdrawn(s, governor), s.Balance(TokenA, s.Self()), s.Balance(TokenB, s.Self());
            GivenBack(w, governor, amountA, amountB).Balance(t, a) == s.Balance(t, a)
  {
  }

  // In a governance withdrawal the governor receives all of both tokens and nothing else moves; meanwhile nothing is
  // lost and no balance is negative; and what it gives back restores every balance.
  lemma WithdrawalTakesAll(s: Vault, governor: Address, a: Address)
    requires Inv(s) && governor.User?
    ensures var w := Withdrawn(s, governor);
            && Kept(s, w)
            && w.Balance(Native, a) == s.Balance(Native, a)
            && (forall t | t != Native ::
                  w.Balance(t, a) == if a == governor then s.Balance(t, a) + s.Balance(t, s.Self())
                                     else if a == s.Self() then 0
                                     else s.Balance(t, a))
            && (forall t ::
                  GivenBack(w, governor, s.Balance(TokenA, s.Self()), s.Balance(TokenB, s.Self())).Balance(t, a)
                  == s.Balance(t, a))
  {
    WithdrawalKeeps(s, governor);
    forall t {
      GivenBackRestores(s, governor, t, a);
    }
  }

  /** Every deposit deployed in `s` is still the deployed one in `s'`. */
  ghost predicate DeploymentsStay(s: Vault, s': Vault) {
    forall id | id in s.deployed :: id in s'.deployed && s'.deployed[id] == s.deployed[id]
  }

  lemma {:induction false} FetchAllDeploysOnce(s: Vault, swapIDs: seq<nat>, assets: seq<Asset>, i: nat)
    requires i <= |swapIDs| == |assets|
    ensures DeploymentsStay(s, FetchAll(s, swapIDs, assets, i))
  {
    if i == 0 {
    } else {
      FetchAllDeploysOnce(s, swapIDs, assets, i - 1);
    }
  }

  lemma {:induction false} FetchFreshDeploysOnce(s: Vault, swapIDs: seq<nat>, i: nat)
    requires i <= |swapIDs|
    ensures DeploymentsStay(s, FetchFresh(s, swapIDs, i))
  {
    if i == 0 {
    } else {
      FetchFreshDeploysOnce(s, swapIDs, i - 1);
    }
  }

  // A swap ID is deployed at most once per Vault: whatever a rule fetches, deployed deposits stay where they are.
  lemma StepDeploysOnce(s: Vault, k: KeyManager.Keys, op: VaultOp)
    requires WellFormed(op)
    ensures DeploymentsStay(s, Step(s, k, op))
  {
    match op
    case AllBatch(_, swapIDs, fetchTokens, _, _, _) => FetchAllDeploysOnce(s, swapIDs, fetchTokens, |swapIDs|);
    case FetchNative(_, swapID) => FetchFreshDeploysOnce(s, [swapID], 1);
    case FetchNativeBatch(_, swapIDs) => FetchFreshDeploysOnce(s, swapIDs, |swapIDs|);
    case FetchTokenBatch(_, swapIDs, fetchTokens) => FetchAllDeploysOnce(s, swapIDs, fetchTokens, |swapIDs|);
    case _ =>
  }

  // ---- The precomputed batch selection agrees with the sequential run ----

  // After `i` sequential payments the Vault has spent exactly what that asset's own pass has counted.
  lemma {:induction false} PaidSoFar(s: Vault, tokens: seq<Asset>, recipients: seq<Address>, amounts: seq<nat>,
                                     asset: Asset, i: nat)
    requires i <= |tokens| == |recipients| == |amounts| && AllUsers(recipients)
    ensures PayAll(s, tokens, recipients, amounts, i).Balance(asset, s.Self())
            == s.Balance(asset, s.Self()) - Spent(tokens, amounts, asset, s.Balance(asset, s.Self()), i)
  {
    if i == 0 {
    } else {
      PaidSoFar(s, tokens, recipients, amounts, asset, i - 1);
    }
  }

  // The pass made for one asset alone marks entry `i` exactly when, in the mixed batch run in order, the Vault
  // can cover payment `i` at its turn.
  lemma SelectionMatchesSequentialRun(s: Vault, tokens: seq<Asset>, recipients: seq<Address>, amounts: seq<nat>, i: nat)
    requires i < |tokens| == |recipients| == |amounts| && AllUsers(recipients)
    ensures Fits(tokens, amounts, tokens[i], s.Balance(tokens[i], s.Self()), i)
            <==> PayAll(s, tokens, recipients, amounts, i).Balance(tokens[i], s.Self()) >= amounts[i]
  {
    PaidSoFar(s, tokens, recipients, amounts, tokens[i], i);
  }

  /** What the fetches of `asset` among the first `i` will bring, all read off the state before the batch. */
  function FetchTotal(s: Vault, swapIDs: seq<nat>, assets: seq<Asset>, asset: Asset, i: nat): int
    requires i <= |swapIDs| == |assets|
  {
    if i == 0 then 0
    else
      FetchTotal(s, swapIDs, assets, asset, i - 1)
      + if assets[i - 1] == asset then s.Balance(asset, s.Source(swapIDs[i - 1], asset)) else 0
  }

  // Fetching one swap ID leaves what a fetch of another one would empty, and brings the Vault what it empties itself.
  lemma FetchLeavesOthers(s: Vault, swapID: nat, asset: Asset, other: nat, t: Asset)
    requires Inv(s) && other != swapID
    ensures Fetch(s, swapID, asset).Source(other, t) == s.Source(other, t)
    ensures Fetch(s, swapID, asset).Balance(t, s.Source(other, t)) == s.Balance(t, s.Source(other, t))
  {
    assert s.Source(swapID, asset).Deposit? && s.Source(swapID, asset).swapID == swapID;
    assert s.Source(other, t).Deposit? && s.Source(other, t).swapID == other;
  }

  lemma FetchBrings(s: Vault, swapID: nat, asset: Asset, t: Asset)
    requires Inv(s)
    ensures Fetch(s, swapID, asset).Balance(t, s.Self())
         == s.Balance(t, s.Self()) + if t == asset then s.Balance(t, s.Source(swapID, asset)) else 0
  {
    assert s.Source(swapID, asset).Deposit?;
  }

  /** By now, nothing has touched what a fetch of this swap ID empties. */
  ghost predicate SourceIntact(s: Vault, now: Vault, swapID: nat, asset: Asset) {
    && Inv(now) && now.Self() == s.Self() && now.Source(swapID, asset) == s.Source(swapID, asset)
    && now.Balance(asset, s.Source(swapID, asset)) == s.Balance(asset, s.Source(swapID, asset))
  }

  lemma FetchBringsAsBefore(s: Vault, now: Vault, swapID: nat, asset: Asset, t: Asset)
    requires SourceIntact(s, now, swapID, asset)
    ensures Fetch(now, swapID, asset).Balance(t, s.Self())
         == now.Balance(t, s.Self()) + if asset == t then s.Balance(t, s.Source(swapID, t)) else 0
  {
    FetchBrings(now, swapID, asset, t);
  }

  // With distinct swap IDs, fetching leaves the sources of later fetches as they were
  lemma {:induction false} LaterSourcesStay(s: Vault, swapIDs: seq<nat>, assets: seq<Asset>, i: nat, j: nat, t: Asset)
    requires i <= j < |swapIDs| == |assets| && Distinct(swapIDs) && Inv(s)
    ensures FetchAll(s, swapIDs, assets, i).Source(swapIDs[j], t) == s.Source(swapIDs[j], t)
    ensures FetchAll(s, swapIDs, assets, i).Balance(t, s.Source(swapIDs[j], t)) == s.Balance(t, s.Source(swapIDs[j], t))
  {
    if i == 0 {
    } else {
      LaterSourcesStay(s, swapIDs, assets, i - 1, j, t);
      FetchAllKeeps(s, swapIDs, assets, i - 1);
      FetchLeavesOthers(FetchAll(s, swapIDs, assets, i - 1), swapIDs[i - 1], assets[i - 1], swapIDs[j], t);
    }
  }

  lemma NextSourceIntact(s: Vault, swapIDs: seq<nat>, assets: seq<Asset>, i: nat)
    requires i < |swapIDs| == |assets| && Distinct(swapIDs) && Inv(s)
    ensures SourceIntact(s, FetchAll(s, swapIDs, assets, i), swapIDs[i], assets[i])
  {
    FetchAllKeeps(s, swapIDs, assets, i);
    LaterSourcesStay(s, swapIDs, assets, i, i, assets[i]);
  }

  lemma NextFetchBrings(s: Vault, swapIDs: seq<nat>, assets: seq<Asset>, i: nat, t: Asset)
    requires 0 < i <= |swapIDs| == |assets| && Distinct(swapIDs) && Inv(s)
    ensures FetchAll(s, swapIDs, assets, i).Balance(t, s.Self())
         == FetchAll(s, swapIDs, assets, i - 1).Balance(t, s.Self())
            + if assets[i - 1] == t then s.Balance(t, s.Source(swapIDs[i - 1], t)) else 0
  {
    NextSourceIntact(s, swapIDs, assets, i - 1);
    FetchBringsAsBefore(s, FetchAll(s, swapIDs, assets, i - 1), swapIDs[i - 1], assets[i - 1], t);
  }

  // and brings the Vault exactly the precomputed total.
  lemma {:induction false} FetchedSoFar(s: Vault, swapIDs: seq<nat>, assets: seq<Asset>, i: nat, t: Asset)
    requires i <= |swapIDs| == |assets| && Distinct(swapIDs) && Inv(s)
    ensures FetchAll(s, swapIDs, assets, i).Balance(t, s.Self())
         == s.Balance(t, s.Self()) + FetchTotal(s, swapIDs, assets, t, i)
  {
    if i == 0 {
    } else {
      FetchedSoFar(s, swapIDs, assets, i - 1, t);
      NextFetchBrings(s, swapIDs, assets, i, t);
    }
  }
}
