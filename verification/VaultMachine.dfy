// The Vault rules as they are written in the tests: methods that update the balance dictionaries, with the
// batch rules computing fetch totals and valid indices before they touch any balance.
module VaultMachine {
  import opened Books
  import opened Common
  import opened Protocol
  import opened Batches
  import KeyManager
  import opened VaultSpec
  import opened VaultAccounts

  /** The indices were selected for `asset` against the Vault's balance plus the precomputed fetch total. */
  ghost predicate SelectedFor(s: Vault, swapIDs: seq<nat>, fetchTokens: seq<Asset>, tokens: seq<Asset>,
                              amounts: seq<nat>, asset: Asset, valid: seq<nat>)
    requires |swapIDs| == |fetchTokens| && |tokens| <= |amounts|
  {
    var funds := s.Balance(asset, s.Self()) + FetchTotal(s, swapIDs, fetchTokens, asset, |swapIDs|);
    forall i: nat :: i in valid <==> Fits(tokens, amounts, asset, funds, i)
  }

  // The funds a batch's payments are selected against are the Vault's balance once the fetches are done.
  lemma BatchFunds(s: Vault, swapIDs: seq<nat>, assets: seq<Asset>, asset: Asset)
    requires Inv(s) && |swapIDs| == |assets| && Distinct(swapIDs)
    ensures FetchAll(s, swapIDs, assets, |swapIDs|).Balance(asset, s.Self())
            == s.Balance(asset, s.Self()) + FetchTotal(s, swapIDs, assets, asset, |swapIDs|) >= 0
  {
    FetchedSoFar(s, swapIDs, assets, |swapIDs|, asset);
    FetchAllKeeps(s, swapIDs, assets, |swapIDs|);
    assert NonNegative(FetchAll(s, swapIDs, assets, |swapIDs|).books.Of(asset));
  }

  class Rules {
    const km: KeyManager.Machine
    var nativeBals: Book<Address>
    var tokenABals: Book<Address>
    var tokenBBals: Book<Address>
    ghost var sent: PerAsset<int>
    var vault: nat
    var deployedDeposits: map<nat, Address>
    var suspended: bool
    var communityGuardDisabled: bool

    ghost function State(): Vault
      reads this
    {
      Vault(PerAsset(nativeBals, tokenABals, tokenBBals), sent, vault, deployedDeposits,
            suspended, communityGuardDisabled)
    }

    ghost predicate Valid()
      reads this
    {
      Inv(State())
    }

    // The rule `op` ended with `r`: it did what the step function says, and stamped the KeyManager if it was signed.
    twostate predicate Ran(op: VaultOp, r: Outcome)
      requires WellFormed(op)
      reads this, km
    {
      && r == Verdict(old(State()), old(km.State()), op)
      && State() == Step(old(State()), old(km.State()), op)
      && km.State() == KeyManager.Stamp(old(km.State()), r)
      && Valid()
    }

    constructor (km: KeyManager.Machine, vault: nat,
                 native: Book<Address>, tokenA: Book<Address>, tokenB: Book<Address>)
      requires forall a :: At(native, a) >= 0 && At(tokenA, a) >= 0 && At(tokenB, a) >= 0
      requires forall a: Address | a.Deposit? :: At(native, a) == 0
      ensures Valid() && this.km == km
      ensures State() == Vault(PerAsset(native, tokenA, tokenB), PerAsset(0, 0, 0), vault, map[], false, false)
    {
      this.km, this.vault := km, vault;
      nativeBals, tokenABals, tokenBBals := native, tokenA, tokenB;
      sent, deployedDeposits := PerAsset(0, 0, 0), map[];
      suspended, communityGuardDisabled := false, false;
    }

    function Bals(asset: Asset): Book<Address>
      reads this
    {
      match asset
      case Native => nativeBals
      case TokenA => tokenABals
      case TokenB => tokenBBals
    }

    method MoveFunds(asset: Asset, from: Address, to: Address, amount: int)
      modifies this`nativeBals, this`tokenABals, this`tokenBBals
      ensures State() == old(State()).Moved(asset, from, to, amount)
    {
      match asset
      case Native => nativeBals := Move(nativeBals, from, to, amount);
      case TokenA => tokenABals := Move(tokenABals, from, to, amount);
      case TokenB => tokenBBals := Move(tokenBBals, from, to, amount);
    }

    // The address a fetch uses, and its deployment when it was not there yet.
    method Deploy(swapID: nat, asset: Asset) returns (addr: Address)
      modifies this`deployedDeposits
      ensures addr == old(State()).Source(swapID, asset)
      ensures State() == old(State()).(deployed := old(deployedDeposits)[swapID := addr])
    {
      if swapID in deployedDeposits {
        addr := deployedDeposits[swapID];
      } else {
        addr := Deposit(vault, swapID, asset);
      }
      deployedDeposits := deployedDeposits[swapID := addr];
    }

    method FetchInto(swapID: nat, asset: Asset)
      modifies this`nativeBals, this`tokenABals, this`tokenBBals, this`deployedDeposits
      ensures State() == Fetch(old(State()), swapID, asset)
    {
      var addr := Deploy(swapID, asset);
      MoveFunds(asset, addr, Contract(vault), At(Bals(asset), addr));
    }

    method FetchEach(swapIDs: seq<nat>, fetchTokens: seq<Asset>)
      requires |swapIDs| == |fetchTokens|
      modifies this`nativeBals, this`tokenABals, this`tokenBBals, this`deployedDeposits
      ensures State() == FetchAll(old(State()), swapIDs, fetchTokens, |swapIDs|)
    {
      for i := 0 to |swapIDs|
        invariant State() == FetchAll(old(State()), swapIDs, fetchTokens, i)
      {
        FetchInto(swapIDs[i], fetchTokens[i]);
      }
    }

    // The sum comprehension over a batch's fetches, on the balances before the batch.
    method SumFetches(swapIDs: seq<nat>, fetchTokens: seq<Asset>, asset: Asset) returns (total: int)
      requires |swapIDs| == |fetchTokens|
      ensures total == FetchTotal(State(), swapIDs, fetchTokens, asset, |swapIDs|)
    {
      total := 0;
      for i := 0 to |swapIDs|
        invariant total == FetchTotal(State(), swapIDs, fetchTokens, asset, i)
      {
        if fetchTokens[i] == asset {
          if swapIDs[i] !in deployedDeposits {
            total := total + At(Bals(asset), Deposit(vault, swapIDs[i], asset));
          } else {
            total := total + At(Bals(asset), deployedDeposits[swapIDs[i]]);
          }
        }
      }
    }

    // Pays the entries whose index was found valid for their asset, without looking at any balance again.
    method PaySelected(tokens: seq<Asset>, recipients: seq<Address>, amounts: seq<nat>,
                       validNative: seq<nat>, validTokenA: seq<nat>, validTokenB: seq<nat>)
      requires |tokens| == |recipients| == |amounts| && AllUsers(recipients)
      requires forall i: nat :: i in validNative <==> Fits(tokens, amounts, Native, At(nativeBals, Contract(vault)), i)
      requires forall i: nat :: i in validTokenA <==> Fits(tokens, amounts, TokenA, At(tokenABals, Contract(vault)), i)
      requires forall i: nat :: i in validTokenB <==> Fits(tokens, amounts, TokenB, At(tokenBBals, Contract(vault)), i)
      modifies this`nativeBals, this`tokenABals, this`tokenBBals
      ensures State() == PayAll(old(State()), tokens, recipients, amounts, |tokens|)
    {
      for i := 0 to |tokens|
        invariant State() == PayAll(old(State()), tokens, recipients, amounts, i)
      {
        SelectionMatchesSequentialRun(old(State()), tokens, recipients, amounts, i);
        match tokens[i]
        case Native =>
          if i in validNative {
            MoveFunds(Native, Contract(vault), recipients[i], amounts[i]);
          }
        case TokenA =>
          if i in validTokenA {
            MoveFunds(TokenA, Contract(vault), recipients[i], amounts[i]);
          }
        case TokenB =>
          if i in validTokenB {
            MoveFunds(TokenB, Contract(vault), recipients[i], amounts[i]);
          }
      }
    }

    // Suspension first, then the signature. `None` of the two applies when the result is not a revert.
    method CheckSigned(signer: Key) returns (r: Outcome)
      modifies km`lastValidateTime
      ensures r == Guarded(State(), old(km.State()), signer, Done(true))
      ensures km.State() == KeyManager.Stamp(old(km.State()), r)
    {
      if suspended {
        return Reverted(GovSuspended);
      }
      var ok := km.Validate(signer);
      return if ok then Done(true) else Reverted(BadSignature);
    }

    // The accepted part of `allBatch`: all fetches, then the payments selected before any of them.
    method ApplyBatch(swapIDs: seq<nat>, fetchTokens: seq<Asset>, fetchA: int, fetchB: int,
                      tokens: seq<Asset>, recipients: seq<Address>, amounts: seq<nat>,
                      validEth: seq<nat>, validA: seq<nat>, validB: seq<nat>)
      requires Valid() && |swapIDs| == |fetchTokens| && Distinct(swapIDs)
      requires |tokens| == |recipients| == |amounts| && AllUsers(recipients)
      requires fetchA == FetchTotal(State(), swapIDs, fetchTokens, TokenA, |swapIDs|)
      requires fetchB == FetchTotal(State(), swapIDs, fetchTokens, TokenB, |swapIDs|)
      requires SelectedFor(State(), swapIDs, fetchTokens, tokens, amounts, Native, validEth)
      requires SelectedFor(State(), swapIDs, fetchTokens, tokens, amounts, TokenA, validA)
      requires SelectedFor(State(), swapIDs, fetchTokens, tokens, amounts, TokenB, validB)
      modifies this`nativeBals, this`tokenABals, this`tokenBBals, this`deployedDeposits
      ensures State()
           == PayAll(FetchAll(old(State()), swapIDs, fetchTokens, |swapIDs|), tokens, recipients, amounts, |tokens|)
      ensures Settled(old(State()), State(), swapIDs, fetchTokens, tokens, recipients, amounts)
    {
      BatchSettles(State(), swapIDs, fetchTokens, tokens, recipients, amounts);
      BatchFunds(State(), swapIDs, fetchTokens, Native);
      BatchFunds(State(), swapIDs, fetchTokens, TokenA);
      BatchFunds(State(), swapIDs, fetchTokens, TokenB);
      var fundsA, fundsB := At(tokenABals, Contract(vault)) + fetchA, At(tokenBBals, Contract(vault)) + fetchB;
      var totalA := SelectedTotal(tokens, amounts, validA, fundsA, TokenA);
      var totalB := SelectedTotal(tokens, amounts, validB, fundsB, TokenB);
      SpentWithinFunds(tokens, amounts, TokenA, fundsA, |tokens|);
      SpentWithinFunds(tokens, amounts, TokenB, fundsB, |tokens|);
      if totalA - fetchA > At(tokenABals, Contract(vault)) || totalB - fetchB > At(tokenBBals, Contract(vault)) {
        // "NOT ENOUGH TOKENS IN VAULT": the selected totals never exceed the funds.
        assert false;
      }
      FetchEach(swapIDs, fetchTokens);
      PaySelected(tokens, recipients, amounts, validEth, validA, validB);
    }

    // The payments of one asset that the balance and the coming fetches allow.
    method SelectPayments(swapIDs: seq<nat>, fetchTokens: seq<Asset>, tokens: seq<Asset>, amounts: seq<nat>,
                          asset: Asset)
      returns (fetched: int, valid: seq<nat>)
      requires |swapIDs| == |fetchTokens| && |tokens| <= |amounts|
      ensures fetched == FetchTotal(State(), swapIDs, fetchTokens, asset, |swapIDs|)
      ensures SelectedFor(State(), swapIDs, fetchTokens, tokens, amounts, asset, valid)
    {
      fetched := SumFetches(swapIDs, fetchTokens, asset);
      valid := GetValidTranIdxs(tokens, amounts, At(Bals(asset), Contract(vault)) + fetched, asset);
    }

    // The batch with its lists cut to one length: the payments are selected, the call is made, its effects applied.
    method CallAllBatch(signer: Key, swapIDs: seq<nat>, fetchTokens: seq<Asset>,
                        tokens: seq<Asset>, recipients: seq<Address>, amounts: seq<nat>)
      returns (r: Outcome)
      requires Valid() && |swapIDs| == |fetchTokens| && Distinct(swapIDs)
      requires |tokens| == |recipients| == |amounts| && AllUsers(recipients)
      modifies this, km`lastValidateTime
      ensures r == Guarded(old(State()), old(km.State()), signer, Done(true))
      ensures km.State() == KeyManager.Stamp(old(km.State()), r)
      ensures if r.Reverted? then State() == old(State())
              else && State() == PayAll(FetchAll(old(State()), swapIDs, fetchTokens, |swapIDs|),
                                        tokens, recipients, amounts, |tokens|)
                   && Settled(old(State()), State(), swapIDs, fetchTokens, tokens, recipients, amounts)
    {
      var fetchEth, validEth := SelectPayments(swapIDs, fetchTokens, tokens, amounts, Native);
      var fetchA, validA := SelectPayments(swapIDs, fetchTokens, tokens, amounts, TokenA);
      var fetchB, validB := SelectPayments(swapIDs, fetchTokens, tokens, amounts, TokenB);
      r := CheckSigned(signer);
      if r.Done? {
        ApplyBatch(swapIDs, fetchTokens, fetchA, fetchB, tokens, recipients, amounts, validEth, validA, validB);
      }
    }

    method RuleAllBatch(signer: Key, swapIDs: seq<nat>, fetchTokens: seq<Asset>,
                        recips: seq<Address>, amnts: seq<nat>, tokens: seq<Asset>)
      returns (r: Outcome, ghost op: VaultOp)
      requires Valid()
      requires |swapIDs| == |fetchTokens| && Distinct(swapIDs) && AllUsers(recips)
      requires |tokens| == Min(|recips|, |amnts|)
      modifies this, km`lastValidateTime
      ensures op == AllBatch(signer, swapIDs, fetchTokens, tokens, recips[..|tokens|], amnts[..|tokens|])
      ensures WellFormed(op) && Ran(op, r)
      ensures r == if old(suspended) then Reverted(GovSuspended)
                   else if signer != old(km.aggKey) then Reverted(BadSignature)
                   else Done(true)
      ensures if r.Reverted? then State() == old(State())
              else Settled(old(State()), State(), swapIDs, fetchTokens, tokens, op.recipients, op.amounts)
    {
      var minLen, recipients, amounts := TrimToShortest(recips, amnts);
      op := AllBatch(signer, swapIDs, fetchTokens, tokens, recipients, amounts);
      StepKeeps(State(), km.State(), op);
      r := CallAllBatch(signer, swapIDs, fetchTokens, tokens, recipients, amounts);
    }

    method RuleTransfer(signer: Key, asset: Asset, recipient: Address, amount: nat) returns (r: Outcome)
      requires Valid() && recipient.User?
      modifies this, km`lastValidateTime
      ensures Ran(Transfer(signer, asset, recipient, amount), r)
    {
      StepKeeps(State(), km.State(), Transfer(signer, asset, recipient, amount));
      if !suspended && amount == 0 {
        return Reverted(EmptyUint);
      }
      r := CheckSigned(signer);
      if r.Done? && At(Bals(asset), Contract(vault)) >= amount {
        MoveFunds(asset, Contract(vault), recipient, amount);
      }
    }

    method RuleTransferBatch(signer: Key, recips: seq<Address>, amnts: seq<nat>, tokens: seq<Asset>)
      returns (r: Outcome, ghost op: VaultOp)
      requires Valid() && AllUsers(recips)
      requires |tokens| == Min(|recips|, |amnts|)
      modifies this, km`lastValidateTime
      ensures op == TransferBatch(signer, tokens, recips[..|tokens|], amnts[..|tokens|])
      ensures WellFormed(op) && Ran(op, r)
      ensures if r.Reverted? then State() == old(State())
              else Settled(old(State()), State(), [], [], tokens, op.recipients, op.amounts)
    {
      var minLen, recipients, amounts := TrimToShortest(recips, amnts);
      op := TransferBatch(signer, tokens, recipients, amounts);
      StepKeeps(State(), km.State(), op);
      var fundsA, fundsB := At(tokenABals, Contract(vault)), At(tokenBBals, Contract(vault));
      var validEth := GetValidTranIdxs(tokens, amounts, At(nativeBals, Contract(vault)), Native);
      var validA := GetValidTranIdxs(tokens, amounts, fundsA, TokenA);
      var validB := GetValidTranIdxs(tokens, amounts, fundsB, TokenB);
      var totalA := SelectedTotal(tokens, amounts, validA, fundsA, TokenA);
      var totalB := SelectedTotal(tokens, amounts, validB, fundsB, TokenB);
      r := CheckSigned(signer);
      if r.Reverted? {
        return;
      }
      assert NonNegative(State().books.Of(TokenA)) && NonNegative(State().books.Of(TokenB));
      SpentWithinFunds(tokens, amounts, TokenA, fundsA, |tokens|);
      SpentWithinFunds(tokens, amounts, TokenB, fundsB, |tokens|);
      if totalA > fundsA || totalB > fundsB {
        // "NOT ENOUGH TOKENS IN VAULT": this branch would drop the whole batch; it is never taken.
        assert false;
      } else {
        PaySelected(tokens, recipients, amounts, validEth, validA, validB);
        assert FetchAll(old(State()), [], [], 0) == old(State());
        BatchSettles(old(State()), [], [], tokens, recipients, amounts);
      }
    }

    method RuleNativeToDeposit(sender: Address, swapID: nat, amount: nat) returns (r: Outcome)
      requires Valid() && sender.User?
      modifies this
      ensures Ran(NativeToDeposit(sender, swapID, amount), r)
    {
      StepKeeps(State(), km.State(), NativeToDeposit(sender, swapID, amount));
      if swapID == 0 || At(nativeBals, sender) < amount {
        return Skipped;
      }
      if swapID in deployedDeposits {
        MoveFunds(Native, sender, Contract(vault), amount);
      } else {
        MoveFunds(Native, sender, Deposit(vault, swapID, Native), amount);
      }
      return Done(false);
    }

    method RuleTokenToDeposit(asset: Asset, sender: Address, swapID: nat, amount: nat) returns (r: Outcome)
      requires Valid() && asset != Native && sender.User?
      modifies this
      ensures Ran(TokenToDeposit(asset, sender, swapID, amount), r)
    {
      StepKeeps(State(), km.State(), TokenToDeposit(asset, sender, swapID, amount));
      if swapID == 0 || At(Bals(asset), sender) < amount {
        return Skipped;
      }
      MoveFunds(asset, sender, Deposit(vault, swapID, asset), amount);
      return Done(false);
    }

    method RuleFetchNative(signer: Key, swapID: nat) returns (r: Outcome)
      requires Valid()
      modifies this, km`lastValidateTime
      ensures Ran(FetchNative(signer, swapID), r)
    {
      StepKeeps(State(), km.State(), FetchNative(signer, swapID));
      if suspended {
        return Reverted(GovSuspended);
      } else if signer != km.aggKey {
        return Reverted(BadSignature);
      }
      if swapID in deployedDeposits {
        return Skipped;
      }
      r := CheckSigned(signer);
      FetchInto(swapID, Native);
      assert [swapID][0] == swapID;
      assert FetchFresh(old(State()), [swapID], 0) == old(State());
    }

    method RuleFetchNativeBatch(signer: Key, swapIDs: seq<nat>) returns (r: Outcome)
      requires Valid()
      modifies this, km`lastValidateTime
      ensures Ran(FetchNativeBatch(signer, swapIDs), r)
    {
      StepKeeps(State(), km.State(), FetchNativeBatch(signer, swapIDs));
      r := CheckSigned(signer);
      if r.Reverted? {
        return;
      }
      for i := 0 to |swapIDs|
        invariant State() == FetchFresh(old(State()), swapIDs, i)
        invariant km.State() == KeyManager.Stamp(old(km.State()), r)
      {
        if swapIDs[i] !in deployedDeposits {
          FetchInto(swapIDs[i], Native);
        }
      }
    }

    method RuleFetchToken(signer: Key, asset: Asset, swapID: nat) returns (r: Outcome)
      requires Valid() && asset != Native
      modifies this, km`lastValidateTime
      ensures Ran(FetchToken(signer, asset, swapID), r)
    {
      StepKeeps(State(), km.State(), FetchToken(signer, asset, swapID));
      r := CheckSigned(signer);
      if r.Done? {
        FetchInto(swapID, asset);
      }
    }

    method RuleFetchTokenBatch(signer: Key, ids: seq<nat>, toks: seq<Asset>) returns (r: Outcome, ghost op: VaultOp)
      requires Valid() && forall i | 0 <= i < |toks| :: toks[i] != Native
      modifies this, km`lastValidateTime
      ensures op == FetchTokenBatch(signer, ids[..Min(|ids|, |toks|)], toks[..Min(|ids|, |toks|)])
      ensures WellFormed(op) && Ran(op, r)
    {
      var minLen, swapIDs, fetchTokens := TrimToShortest(ids, toks);
      op := FetchTokenBatch(signer, swapIDs, fetchTokens);
      StepKeeps(State(), km.State(), op);
      r := CheckSigned(signer);
      if r.Reverted? {
        return;
      }
      FetchEach(swapIDs, fetchTokens);
    }

    // The swap, call and gas top-up rules differ only in their payloads and in how an empty native amount ends.
    method RulePayIn(entry: Entry, asset: Asset, sender: Address, amount: nat) returns (r: Outcome)
      requires Valid() && sender.User?
      modifies this
      ensures Ran(PayIn(entry, asset, sender, amount), r)
    {
      StepKeeps(State(), km.State(), PayIn(entry, asset, sender, amount));
      if suspended {
        return Reverted(GovSuspended);
      }
      if amount == 0 {
        return if entry == AddGas && asset == Native then Skipped else Reverted(EmptyUint);
      }
      if At(Bals(asset), sender) < amount {
        return if asset == Native then Skipped else Reverted(ExceedsBalance);
      }
      MoveFunds(asset, sender, Contract(vault), amount);
      return Done(false);
    }

    method RuleExecuteSwapAndCall(signer: Key, asset: Asset, amount: nat) returns (r: Outcome)
      requires Valid()
      modifies this, km`lastValidateTime
      ensures Ran(ExecuteSwapAndCall(signer, asset, amount), r)
    {
      StepKeeps(State(), km.State(), ExecuteSwapAndCall(signer, asset, amount));
      if suspended {
        return Reverted(GovSuspended);
      } else if signer != km.aggKey {
        return Reverted(BadSignature);
      }
      var balance := At(Bals(asset), Contract(vault));
      if balance < amount {
        return if asset == Native then Skipped else Reverted(ExceedsBalance);
      }
      r := CheckSigned(signer);
      match asset {
        case Native => nativeBals := nativeBals[Contract(vault) := balance - amount];
        case TokenA => tokenABals := tokenABals[Contract(vault) := balance - amount];
        case TokenB => tokenBBals := tokenBBals[Contract(vault) := balance - amount];
      }
      sent := sent.With(asset, sent.Of(asset) + amount);
    }

    method RuleExecuteCall(signer: Key) returns (r: Outcome)
      requires Valid()
      modifies km`lastValidateTime
      ensures Ran(ExecuteCall(signer), r)
    {
      StepKeeps(State(), km.State(), ExecuteCall(signer));
      r := CheckSigned(signer);
    }

    // What the machine tracks from here on is a newly deployed Vault.
    method Follow(newVault: nat)
      modifies this`vault, this`communityGuardDisabled, this`suspended, this`deployedDeposits
      ensures State() == old(State()).(vault := newVault, deployed := map[], suspended := false, guardDisabled := false)
    {
      vault := newVault;
      communityGuardDisabled := false;
      suspended := false;
      deployedDeposits := map[];
    }

    // ---- Calls that governance and community make ----

    method CallSuspend(sender: Address) returns (r: Outcome)
      requires Valid()
      modifies this`suspended
      ensures Ran(Suspend(sender), r)
    {
      if sender != km.governor {
        return Reverted(NotGovernor);
      } else if suspended {
        return Reverted(GovSuspended);
      }
      suspended := true;
      return Done(false);
    }

    method CallResume(sender: Address) returns (r: Outcome)
      requires Valid()
      modifies this`suspended
      ensures Ran(Resume(sender), r)
    {
      if sender != km.governor {
        return Reverted(NotGovernor);
      } else if !suspended {
        return Reverted(NotSuspended);
      }
      suspended := false;
      return Done(false);
    }

    method CallEnableCommunityGuard(sender: Address) returns (r: Outcome)
      requires Valid()
      modifies this`communityGuardDisabled
      ensures Ran(EnableGuard(sender), r)
    {
      if sender != km.communityKey {
        return Reverted(NotCommunity);
      } else if !communityGuardDisabled {
        return Reverted(GuardEnabled);
      }
      communityGuardDisabled := false;
      return Done(false);
    }

    method CallDisableCommunityGuard(sender: Address) returns (r: Outcome)
      requires Valid()
      modifies this`communityGuardDisabled
      ensures Ran(DisableGuard(sender), r)
    {
      if sender != km.communityKey {
        return Reverted(NotCommunity);
      } else if communityGuardDisabled {
        return Reverted(GuardDisabled);
      }
      communityGuardDisabled := true;
      return Done(false);
    }

    // Calls `govWithdraw` and gives the tokens back; `during` is what everyone held in between.
    method CallGovWithdraw(sender: Address) returns (r: Outcome, during: Ledgers)
      requires Valid() && km.governor.User?
      ensures Ran(GovWithdraw(sender), r)
      ensures during == if r.Done? then Withdrawn(State(), sender).books else State().books
    {
      during := PerAsset(nativeBals, tokenABals, tokenBBals);
      if sender != km.governor {
        return Reverted(NotGovernor), during;
      } else if !communityGuardDisabled {
        return Reverted(GuardEnabled), during;
      } else if !suspended {
        return Reverted(NotSuspended), during;
      } else if km.now - km.lastValidateTime < AGG_KEY_EMERGENCY_TIMEOUT {
        return Reverted(VaultDelay), during;
      }
      var self, amountA, amountB := Contract(vault), At(tokenABals, Contract(vault)), At(tokenBBals, Contract(vault));
      during := PerAsset(nativeBals, Move(tokenABals, self, sender, amountA), Move(tokenBBals, self, sender, amountB));
      // The rule's own checks, and the transfers back.
      WithdrawalTakesAll(State(), sender, sender);
      WithdrawalTakesAll(State(), sender, self);
      assert At(during.tokenA, sender) == At(tokenABals, sender) + amountA && At(during.tokenA, self) == 0;
      assert At(during.tokenB, sender) == At(tokenBBals, sender) + amountB && At(during.tokenB, self) == 0;
      var afterA, afterB := Move(during.tokenA, sender, self, amountA), Move(during.tokenB, sender, self, amountB);
      assert forall a :: At(afterA, a) == At(tokenABals, a) && At(afterB, a) == At(tokenBBals, a);
      r := Done(false);
    }

    // ---- The rules around them: a wrong sender is refused first, then the right one calls ----

    // The governor is drawn twice, so that the Vault is not suspended too often.
    method RuleSuspend(sender: Address, addr: Address) returns (r: Outcome)
      requires Valid()
      modifies this`suspended
      ensures sender == km.governor && addr != sender ==> r == Skipped && State() == old(State()) && Valid()
      ensures !(sender == km.governor && addr != sender) ==> Ran(Suspend(sender), r)
    {
      if sender == km.governor && addr != sender {
        return Skipped;
      }
      r := CallSuspend(sender);
    }

    method RuleResume(sender: Address) returns (refused: Outcome, r: Outcome)
      requires Valid()
      modifies this`suspended
      ensures refused == if old(suspended) && sender != km.governor then Reverted(NotGovernor) else Skipped
      ensures Ran(Resume(km.governor), r)
    {
      refused := Skipped;
      if suspended && sender != km.governor {
        refused := CallResume(sender);
      }
      r := CallResume(km.governor);
    }

    method RuleEnableCommunityGuard(sender: Address) returns (refused: Outcome, r: Outcome)
      requires Valid()
      modifies this`communityGuardDisabled
      ensures refused
           == if old(communityGuardDisabled) && sender != km.communityKey then Reverted(NotCommunity) else Skipped
      ensures Ran(EnableGuard(km.communityKey), r)
    {
      refused := Skipped;
      if communityGuardDisabled && sender != km.communityKey {
        refused := CallEnableCommunityGuard(sender);
      }
      r := CallEnableCommunityGuard(km.communityKey);
    }

    method RuleDisableCommunityGuard(sender: Address) returns (refused: Outcome, r: Outcome)
      requires Valid()
      modifies this`communityGuardDisabled
      ensures refused
           == if !old(communityGuardDisabled) && sender != km.communityKey then Reverted(NotCommunity) else Skipped
      ensures Ran(DisableGuard(km.communityKey), r)
    {
      refused := Skipped;
      if !communityGuardDisabled && sender != km.communityKey {
        refused := CallDisableCommunityGuard(sender);
      }
      r := CallDisableCommunityGuard(km.communityKey);
    }

    // The governor takes both tokens out and, after the checks, gives them back.
    method RuleGovWithdrawal(sender: Address) returns (refused: Outcome, r: Outcome, during: Ledgers)
      requires Valid() && km.governor.User?
      ensures refused == if communityGuardDisabled && sender != km.governor then Reverted(NotGovernor) else Skipped
      ensures r == if communityGuardDisabled && suspended then Verdict(State(), km.State(), GovWithdraw(km.governor))
                   else Skipped
      ensures during == if r.Done? then Withdrawn(State(), km.governor).books else State().books
    {
      refused, r, during := Skipped, Skipped, PerAsset(nativeBals, tokenABals, tokenBBals);
      if communityGuardDisabled {
        if sender != km.governor {
          refused, during := CallGovWithdraw(sender);
        }
        if suspended {
          r, during := CallGovWithdraw(km.governor);
        }
      }
    }

    /** Runs any rule. */
    method RunRule(op: VaultOp) returns (r: Outcome)
      requires Valid() && WellFormed(op) && km.governor.User?
      modifies this, km`lastValidateTime
      ensures Ran(op, r)
    {
      match op
      case AllBatch(signer, swapIDs, fetchTokens, tokens, recipients, amounts) =>
        ghost var done;
        r, done := RuleAllBatch(signer, swapIDs, fetchTokens, recipients, amounts, tokens);
        assert done == op;
      case Transfer(signer, asset, recipient, amount) => r := RuleTransfer(signer, asset, recipient, amount);
      case TransferBatch(signer, tokens, recipients, amounts) =>
        ghost var done;
        r, done := RuleTransferBatch(signer, recipients, amounts, tokens);
        assert done == op;
      case NativeToDeposit(sender, swapID, amount) => r := RuleNativeToDeposit(sender, swapID, amount);
      case TokenToDeposit(asset, sender, swapID, amount) => r := RuleTokenToDeposit(asset, sender, swapID, amount);
      case FetchNative(signer, swapID) => r := RuleFetchNative(signer, swapID);
      case FetchNativeBatch(signer, swapIDs) => r := RuleFetchNativeBatch(signer, swapIDs);
      case FetchToken(signer, asset, swapID) => r := RuleFetchToken(signer, asset, swapID);
      case FetchTokenBatch(signer, swapIDs, fetchTokens) =>
        ghost var done;
        r, done := RuleFetchTokenBatch(signer, swapIDs, fetchTokens);
        assert done == op;
      case PayIn(entry, asset, sender, amount) => r := RulePayIn(entry, asset, sender, amount);
      case ExecuteSwapAndCall(signer, asset, amount) => r := RuleExecuteSwapAndCall(signer, asset, amount);
      case ExecuteCall(signer) => r := RuleExecuteCall(signer);
      case Suspend(sender) => r := CallSuspend(sender);
      case Resume(sender) => r := CallResume(sender);
      case EnableGuard(sender) => r := CallEnableCommunityGuard(sender);
      case DisableGuard(sender) => r := CallDisableCommunityGuard(sender);
      case GovWithdraw(sender) =>
        var during;
        r, during := CallGovWithdraw(sender);
    }
  }
}
