// The list helpers of tests/utils.py that the batch rules build on: which transfers of a mixed batch an
// asset's funds allow, and cutting two lists to a common length.
module Batches {
  import opened Protocol

  /** What the first `i` entries of a batch cost `asset` when each is paid exactly if the remaining funds allow. */
  function Spent(tokens: seq<Asset>, amounts: seq<nat>, asset: Asset, funds: int, i: nat): (r: nat)
    requires i <= |tokens| <= |amounts|
  {
    if i == 0 then 0
    else
      var before := Spent(tokens, amounts, asset, funds, i - 1);
      if tokens[i - 1] == asset && before + amounts[i - 1] <= funds then before + amounts[i - 1] else before
  }

  /** Entry `i` is of this asset and still fits after the entries before it. */
  predicate Fits(tokens: seq<Asset>, amounts: seq<nat>, asset: Asset, funds: int, i: nat)
    requires |tokens| <= |amounts|
  {
    i < |tokens| && tokens[i] == asset && Spent(tokens, amounts, asset, funds, i) + amounts[i] <= funds
  }

  lemma {:induction false} SpentWithinFunds(tokens: seq<Asset>, amounts: seq<nat>, asset: Asset, funds: int, i: nat)
    requires i <= |tokens| <= |amounts|
    ensures Spent(tokens, amounts, asset, funds, i) <= (if funds < 0 then 0 else funds)
  {
    if i == 0 {
    } else {
      SpentWithinFunds(tokens, amounts, asset, funds, i - 1);
    }
  }

  method GetValidTranIdxs(tokens: seq<Asset>, amounts: seq<nat>, prevBal: int, tok: Asset) returns (validIdxs: seq<nat>)
    requires |tokens| <= |amounts|
    ensures forall i: nat :: i in validIdxs <==> Fits(tokens, amounts, tok, prevBal, i)
    ensures forall j, k | 0 <= j < k < |validIdxs| :: validIdxs[j] < validIdxs[k]
  {
    var cumul := 0;
    validIdxs := [];
    for i := 0 to |tokens|
      invariant cumul == Spent(tokens, amounts, tok, prevBal, i)
      invariant forall j | 0 <= j < |validIdxs| :: validIdxs[j] < i
      invariant forall j: nat :: j in validIdxs <==> j < i && Fits(tokens, amounts, tok, prevBal, j)
      invariant forall j, k | 0 <= j < k < |validIdxs| :: validIdxs[j] < validIdxs[k]
    {
      if tokens[i] == tok {
        if cumul + amounts[i] <= prevBal {
          validIdxs := validIdxs + [i];
          cumul := cumul + amounts[i];
        }
      }
    }
  }

  // The total of the selected entries, as the rules recompute it from the indices.
  method SelectedTotal(tokens: seq<Asset>, amounts: seq<nat>, validIdxs: seq<nat>, ghost funds: int, tok: Asset)
    returns (total: nat)
    requires |tokens| <= |amounts|
    requires forall i: nat :: i in validIdxs <==> Fits(tokens, amounts, tok, funds, i)
    ensures total == Spent(tokens, amounts, tok, funds, |tokens|)
  {
    total := 0;
    for i := 0 to |tokens|
      invariant total == Spent(tokens, amounts, tok, funds, i)
    {
      if tokens[i] == tok && i in validIdxs {
        total := total + amounts[i];
      }
    }
  }

  function Min(a: nat, b: nat): nat {
    if a <= b then a else b
  }

  method TrimToShortest<A, B>(xs: seq<A>, ys: seq<B>) returns (minLen: nat, xs': seq<A>, ys': seq<B>)
    ensures minLen == |xs'| == |ys'|
    ensures xs' <= xs && ys' <= ys && (xs' == xs || ys' == ys)
  {
    minLen := Min(|xs|, |ys|);
    xs', ys' := xs[..minLen], ys[..minLen];
  }
}
