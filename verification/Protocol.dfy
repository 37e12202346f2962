// The vocabulary the three state machines share: assets, addresses, outcomes and time constants.
module Protocol {

  datatype Asset = Native | TokenA | TokenB

  /** Addresses. Ordinary accounts and deployed contracts are numbered. `Deposit` is the CREATE2 address
      (EIP-1014) that the Vault with serial `vault` gives to a swap ID and an asset: as a constructor it is
      injective in its three arguments and never meets an account or a contract. */
  datatype Address =
    | Zero
    | User(id: nat)
    | Contract(serial: nat)
    | Deposit(vault: nat, swapID: nat, asset: Asset)

  type Key = nat

  /** One value for each asset the Vault holds. */
  datatype PerAsset<T> = PerAsset(native: T, tokenA: T, tokenB: T) {
    function Of(asset: Asset): T {
      match asset
      case Native => native
      case TokenA => tokenA
      case TokenB => tokenB
    }

    function With(asset: Asset, value: T): (r: PerAsset<T>)
      ensures r.Of(asset) == value
      ensures forall other | other != asset :: r.Of(other) == Of(other)
    {
      match asset
      case Native => this.(native := value)
      case TokenA => this.(tokenA := value)
      case TokenB => this.(tokenB := value)
    }
  }

  /** Why the contracts refuse a call. */
  datatype Reason =
    | GovSuspended
    | NotSuspended
    | NotGovernor
    | NotCommunity
    | GuardEnabled
    | GuardDisabled
    | BadSignature
    | EmptyUint
    | EmptyBytes32
    | ExceedsBalance
    | KeyDelay
    | VaultDelay
    | BelowMinFunding
    | RedemptionPending
    | ExpiryTooSoon
    | NotOnTime
    | OldSupplyUpdate
    | BurnExceedsBalance

  /** How one rule ends: it took effect, consuming an aggregate-key signature or not; it made no call at all;
      or its call reverted. Only the first changes any state. */
  datatype Outcome = Done(signed: bool) | Skipped | Reverted(reason: Reason)

  const DAY: nat := 24 * 60 * 60
  const AGG_KEY_TIMEOUT: nat := 2 * DAY
  const AGG_KEY_EMERGENCY_TIMEOUT: nat := 3 * DAY
  const REDEMPTION_DELAY: nat := 2 * DAY
}
