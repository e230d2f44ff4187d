/**
  The marketplace hook: the marketplace contract handle, created on mount
  when a marketplace address is configured, and the three actions on it
  (list, buy, cancel) with the shared `loading` flag and `error` text that
  the pages display.

  Each awaited call's settled result is a parameter, and the calls an
  action makes on the contracts are returned in order as a log.
  `ethers.parseEther` is one of those results: the price in wei, or the
  error it throws.
 */
module UseMarketplace {
  import opened Js
  import opened Web3Config

  /** The marketplace contract bound to a signer. */
  datatype MarketplaceContract = MarketplaceContract(address: string, signer: Signer)

  /** The contract calls the actions make, in the order made; `Wait` is
      `tx.wait()` on the transaction just submitted. */
  datatype ContractCall =
    | IsApprovedForAll(nftContract: string, owner: string, operator: string)
    | SetApprovalForAll(nftContract: string, operator: string, approved: bool)
    | CreateListing(nftContract: string, tokenId: int, priceWei: nat)
    | BuyNow(nftContract: string, tokenId: int, value: nat)
    | CancelListing(nftContract: string, tokenId: int)
    | Wait

  /** How a submitted transaction settled: its submission, then its receipt. */
  datatype TxReplies = TxReplies(submit: Outcome, wait: Outcome)

  /** What the awaited steps of `listNFT` settle to, in the order they run. */
  datatype ListReplies = ListReplies(
    hasWallet: bool,
    signer: Result<Signer>,
    isApproved: Result<bool>,
    approval: TxReplies,
    priceWei: Result<nat>,
    listing: TxReplies)

  const NotInitializedMessage: string := "Contract not initialized"
  const ListFallbackMessage: string := "Error creating listing"
  const BuyFallbackMessage: string := "Error buying NFT"

  /** How a transaction ends: a failed submission, otherwise its receipt. */
  function TxOutcome(replies: TxReplies): Outcome
  {
    if replies.submit.Failed? then replies.submit else replies.wait
  }

  /** The calls a transaction makes: the call, then `Wait` only when the
      submission succeeded. */
  function TxCalls(call: ContractCall, replies: TxReplies): (calls: seq<ContractCall>)
    ensures |calls| >= 1 && calls[0] == call
    ensures |calls| == 2 <==> replies.submit.Done?
  {
    if replies.submit.Done? then [call, Wait] else [call]
  }

  /** The calls a submitted transaction makes and how it ends: the call, then
      `Wait` when the submission succeeded; the first failure is the outcome. */
  method SendTransaction(call: ContractCall, replies: TxReplies)
    returns (calls: seq<ContractCall>, outcome: Outcome)
    ensures calls == TxCalls(call, replies)
    ensures outcome == TxOutcome(replies)
    ensures outcome.Done? <==> replies.submit.Done? && replies.wait.Done?
  {
    calls := [call];
    if replies.submit.Failed? {
      return calls, replies.submit;
    }
    calls := calls + [Wait];
    outcome := replies.wait;
  }

  /** `listNFT` succeeds exactly when every awaited step does; when the
      token is not yet approved that includes the approval transaction. */
  predicate ListSucceeds(r: ListReplies)
  {
    && r.hasWallet && r.signer.Ok? && r.isApproved.Ok? && ApprovalHolds(r)
    && r.priceWei.Ok? && r.listing.submit.Done? && r.listing.wait.Done?
  }

  /** After the approval step of `listNFT` the marketplace may move the
      token: it already could, or the approval transaction was confirmed. */
  predicate ApprovalHolds(r: ListReplies)
    requires r.isApproved.Ok?
  {
    r.isApproved.value || (r.approval.submit.Done? && r.approval.wait.Done?)
  }

  class MarketplaceHook {
    var contract: Option<MarketplaceContract>
    var loading: bool
    var error: Option<string>
    /** Every value written to `loading`, oldest first. */
    ghost var loadingWrites: seq<bool>
    /** `CONTRACT_ADDRESSES.marketplace` */
    const marketplaceAddress: string

    constructor (marketplaceAddress: string)
      ensures contract.None? && !loading && error.None? && loadingWrites == []
      ensures this.marketplaceAddress == marketplaceAddress
    {
      contract, loading, error := None, false, None;
      loadingWrites := [];
      this.marketplaceAddress := marketplaceAddress;
    }

    /** Sets `loading`, recording the write. */
    method SetLoading(value: bool)
      modifies this
      ensures loading == value && loadingWrites == old(loadingWrites) + [value]
      ensures contract == old(contract) && error == old(error)
    {
      loading := value;
      loadingWrites := loadingWrites + [value];
    }

    /**
      The mount effect: only with a configured marketplace address, a signer
      is requested and the contract bound to it; a failure to get a signer
      is swallowed and leaves the hook without a contract.
     */
    method InitContract(hasWallet: bool, signerReply: Result<Signer>)
      modifies this
      ensures marketplaceAddress != "" && hasWallet && signerReply.Ok? ==>
                contract == Some(MarketplaceContract(marketplaceAddress, signerReply.value))
      ensures !(marketplaceAddress != "" && hasWallet && signerReply.Ok?) ==> contract == old(contract)
      ensures loading == old(loading) && error == old(error) && loadingWrites == old(loadingWrites)
    {
      if marketplaceAddress != "" {
        var signer := GetSigner(hasWallet, signerReply);
        if signer.Ok? {
          contract := Some(MarketplaceContract(marketplaceAddress, signer.value));
        }
      }
    }

    /**
      `listNFT(nftContract, tokenId, price)`. Without a contract it throws
      before touching `loading` or `error`. Otherwise `loading` is set and
      `error` cleared; the approval of the marketplace as operator is
      checked, and when missing it is granted and confirmed before the
      listing is submitted; the call resolves after the listing's receipt.
      On any failure `error` takes the error's message, or the fallback text,
      and the error is rethrown. `loading` is false again at the end.
     */
    method ListNFT(nftContract: string, tokenId: int, replies: ListReplies)
      returns (outcome: Outcome, calls: seq<ContractCall>)
      modifies this
      ensures old(contract).None? ==>
                && outcome == Failed(Error(NotInitializedMessage)) && calls == []
                && loading == old(loading) && error == old(error) && loadingWrites == old(loadingWrites)
      ensures contract == old(contract)
      ensures old(contract).Some? ==>
                && loadingWrites == old(loadingWrites) + [true, false] && !loading
                && (outcome.Done? <==> ListSucceeds(replies))
                && (outcome.Done? ==> error.None?)
                && (outcome.Failed? ==> error == Some(MessageOr(outcome.error, ListFallbackMessage)))
      ensures old(contract).Some? ==>
                && (!replies.hasWallet ==> outcome == Failed(Error(NoWalletMessage)))
                && (replies.hasWallet && replies.signer.Err? ==> outcome == Failed(replies.signer.error))
                && (replies.hasWallet && replies.signer.Ok? && replies.isApproved.Err? ==>
                      outcome == Failed(replies.isApproved.error))
                && (replies.hasWallet && replies.signer.Ok? && replies.isApproved.Ok? && !ApprovalHolds(replies) ==>
                      outcome == TxOutcome(replies.approval))
                && (replies.hasWallet && replies.signer.Ok? && replies.isApproved.Ok? && ApprovalHolds(replies) ==>
                      outcome == (if replies.priceWei.Err? then Failed(replies.priceWei.error)
                                  else TxOutcome(replies.listing)))
      ensures old(contract).Some? && ListSucceeds(replies) ==>
                var approve := if replies.isApproved.value then []
                               else [SetApprovalForAll(nftContract, marketplaceAddress, true), Wait];
                calls == [IsApprovedForAll(nftContract, replies.signer.value.address, marketplaceAddress)]
                         + approve + [CreateListing(nftContract, tokenId, replies.priceWei.value), Wait]
      ensures forall i :: 0 <= i < |calls| && calls[i].CreateListing? ==>
                && replies.isApproved.Ok?
                && (replies.isApproved.value ==> i == 1)
                && (!replies.isApproved.value ==>
                      i == 3 && calls[1] == SetApprovalForAll(nftContract, marketplaceAddress, true)
                      && calls[2] == Wait && ApprovalHolds(replies))
      ensures old(contract).Some? ==>
                calls == (if !replies.hasWallet || replies.signer.Err? then []
                          else [IsApprovedForAll(nftContract, replies.signer.value.address, marketplaceAddress)]
                               + (if replies.isApproved.Err? || replies.isApproved.value then []
                                  else TxCalls(SetApprovalForAll(nftContract, marketplaceAddress, true),
                                               replies.approval))
                               + (if replies.isApproved.Err? || !ApprovalHolds(replies) || replies.priceWei.Err?
                                  then []
                                  else TxCalls(CreateListing(nftContract, tokenId, replies.priceWei.value),
                                               replies.listing)))
    {
      calls := [];
      if contract.None? {
        return Failed(Error(NotInitializedMessage)), calls;
      }
      SetLoading(true);
      error := None;
      outcome := Done;
      var signer := GetSigner(replies.hasWallet, replies.signer);
      if signer.Err? {
        outcome := Failed(signer.error);
      } else {
        calls := calls + [IsApprovedForAll(nftContract, signer.value.address, marketplaceAddress)];
        if replies.isApproved.Err? {
          outcome := Failed(replies.isApproved.error);
        } else {
          if !replies.isApproved.value {
            var approveCalls, approveOutcome :=
              SendTransaction(SetApprovalForAll(nftContract, marketplaceAddress, true), replies.approval);
            calls := calls + approveCalls;
            outcome := approveOutcome;
          }
          if outcome.Done? {
            if replies.priceWei.Err? {
              outcome := Failed(replies.priceWei.error);
            } else {
              var listCalls;
              listCalls, outcome :=
                SendTransaction(CreateListing(nftContract, tokenId, replies.priceWei.value), replies.listing);
              calls := calls + listCalls;
            }
          }
        }
      }
      if outcome.Failed? {
        error := Some(MessageOr(outcome.error, ListFallbackMessage));
      }
      SetLoading(false);
    }

    /**
      `buyNFT(nftContract, tokenId, price)`: the same guard and `loading` /
      `error` discipline as listing; the purchase carries the price in wei as
      its value, and the call resolves after its receipt.
     */
    method BuyNFT(nftContract: string, tokenId: int, priceWei: Result<nat>, purchase: TxReplies)
      returns (outcome: Outcome, calls: seq<ContractCall>)
      modifies this
      ensures old(contract).None? ==>
                && outcome == Failed(Error(NotInitializedMessage)) && calls == []
                && loading == old(loading) && error == old(error) && loadingWrites == old(loadingWrites)
      ensures contract == old(contract)
      ensures old(contract).Some? ==>
                && loadingWrites == old(loadingWrites) + [true, false] && !loading
                && (outcome.Done? <==> priceWei.Ok? && purchase.submit.Done? && purchase.wait.Done?)
                && outcome == (if priceWei.Err? then Failed(priceWei.error) else TxOutcome(purchase))
                && (outcome.Done? ==> error.None?)
                && (outcome.Failed? ==> error == Some(MessageOr(outcome.error, BuyFallbackMessage)))
                && (priceWei.Err? ==> calls == [])
                && (priceWei.Ok? ==> |calls| >= 1 && calls[0] == BuyNow(nftContract, tokenId, priceWei.value))
                && (priceWei.Ok? ==> calls == TxCalls(BuyNow(nftContract, tokenId, priceWei.value), purchase))
                && (outcome.Done? ==> calls == [BuyNow(nftContract, tokenId, priceWei.value), Wait])
    {
      calls := [];
      if contract.None? {
        return Failed(Error(NotInitializedMessage)), calls;
      }
      SetLoading(true);
      error := None;
      if priceWei.Err? {
        outcome := Failed(priceWei.error);
      } else {
        calls, outcome := SendTransaction(BuyNow(nftContract, tokenId, priceWei.value), purchase);
      }
      if outcome.Failed? {
        error := Some(MessageOr(outcome.error, BuyFallbackMessage));
      }
      SetLoading(false);
    }

    /**
      `cancelListing(nftContract, tokenId)`: the same guard; `loading` is set
      but `error` is not cleared at entry, and on failure `error` takes the
      error's message as it is, with no fallback text.
     */
    method CancelListingAction(nftContract: string, tokenId: int, cancellation: TxReplies)
      returns (outcome: Outcome, calls: seq<ContractCall>)
      modifies this
      ensures old(contract).None? ==>
                && outcome == Failed(Error(NotInitializedMessage)) && calls == []
                && loading == old(loading) && error == old(error) && loadingWrites == old(loadingWrites)
      ensures contract == old(contract)
      ensures old(contract).Some? ==>
                && loadingWrites == old(loadingWrites) + [true, false] && !loading
                && (outcome.Done? <==> cancellation.submit.Done? && cancellation.wait.Done?)
                && outcome == TxOutcome(cancellation)
                && (outcome.Done? ==> error == old(error))
                && (outcome.Failed? ==> error == outcome.error.message)
                && |calls| >= 1 && calls[0] == CancelListing(nftContract, tokenId)
                && calls == TxCalls(CancelListing(nftContract, tokenId), cancellation)
                && (outcome.Done? ==> calls == [CancelListing(nftContract, tokenId), Wait])
    {
      calls := [];
      if contract.None? {
        return Failed(Error(NotInitializedMessage)), calls;
      }
      SetLoading(true);
      calls, outcome := SendTransaction(CancelListing(nftContract, tokenId), cancellation);
      if outcome.Failed? {
        error := outcome.error.message;
      }
      SetLoading(false);
    }
  }

  /** A hook mounted with no marketplace address never gets a contract, so
      every action is refused before any call is made. */
  method UnconfiguredHookRefusesListing(hasWallet: bool, signerReply: Result<Signer>,
                                        nftContract: string, tokenId: int, replies: ListReplies)
    returns (outcome: Outcome, calls: seq<ContractCall>)
    ensures outcome == Failed(Error(NotInitializedMessage)) && calls == []
  {
    var hook := new MarketplaceHook("");
    hook.InitContract(hasWallet, signerReply);
    outcome, calls := hook.ListNFT(nftContract, tokenId, replies);
  }
}
