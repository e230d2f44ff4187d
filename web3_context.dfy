/**
  The second wallet session of the application: address, chain id and the
  provider and signer handles, with the derived flags `isConnected` and
  `isCorrectNetwork`, the mount-time connection check, `connect`,
  `disconnect`, `switchNetwork` and the two wallet notifications.

  `switchNetwork` reads the provider captured when the surrounding render
  happened. Inside `connect` that is the provider from before the
  connection, so the switch re-reads the chain id only when a provider was
  already held. `SwitchNetworkWith` takes that captured provider explicitly.
 */
module Web3Context {
  import opened Js
  import opened Web3Config

  /** A snapshot of the four session fields. */
  datatype Session = Session(
    address: Option<string>,
    chainId: Option<Number>,
    provider: Option<Provider>,
    signer: Option<Signer>)

  const Disconnected: Session := Session(None, None, None, None)

  /** `isCorrectNetwork` for a chain-id field: the Syscoin testnet or mainnet id. */
  predicate IsCorrectChain(chainId: Option<Number>)
  {
    chainId.Some? && chainId.value.Int? && IsSyscoinChain(chainId.value.value)
  }

  /** The only chain ids that make the session report the correct network. */
  lemma CorrectChainIds(chainId: Option<Number>)
    ensures IsCorrectChain(chainId) <==> chainId == Some(Int(57000)) || chainId == Some(Int(570))
  {
  }

  /** Whether `switchToSyscoin('testnet')` returns normally: there is no
      wallet, the switch succeeds, or the chain is unknown (code 4902) and
      adding it succeeds. */
  predicate SwitchSucceeds(hasWallet: bool, switchReply: Outcome, addReply: Outcome)
  {
    !hasWallet || switchReply.Done? || (switchReply.error.code == Some(UnrecognizedChainCode) && addReply.Done?)
  }

  /** The outcome `switchToSyscoin` rethrows when it fails: the add request's
      after code 4902, otherwise the switch's own. */
  function SwitchFailure(switchReply: Outcome, addReply: Outcome): Outcome
  {
    if switchReply.Failed? && switchReply.error.code == Some(UnrecognizedChainCode) then addReply else switchReply
  }

  class Web3Provider {
    var address: Option<string>
    var chainId: Option<Number>
    var provider: Option<Provider>
    var signer: Option<Signer>

    function State(): Session
      reads this
    {
      Session(address, chainId, provider, signer)
    }

    /** `isConnected`: the address is present and non-empty. */
    predicate IsConnected()
      reads this
      ensures IsConnected() <==> address.Some? && |address.value| > 0
    {
      Truthy(address)
    }

    /** `isCorrectNetwork`: the chain id is the testnet's or the mainnet's. */
    predicate IsCorrectNetwork()
      reads this
      ensures IsCorrectNetwork() <==> chainId == Some(Int(57000)) || chainId == Some(Int(570))
    {
      IsCorrectChain(chainId)
    }

    constructor ()
      ensures State() == Disconnected
      ensures !IsConnected() && !IsCorrectNetwork()
    {
      address, chainId, provider, signer := None, None, None, None;
    }

    /**
      The check run once on mount: when a wallet is injected and already
      lists an account, the session takes the signer's address, the network's
      chain id and the new provider and signer. Any error is swallowed and
      leaves the session as it was.
     */
    method CheckConnection(hasWallet: bool, mountProvider: Provider,
                           listReply: Result<seq<string>>, signerReply: Result<Signer>,
                           networkReply: Result<int>)
      modifies this
      ensures (hasWallet && listReply.Ok? && |listReply.value| > 0
               && signerReply.Ok? && networkReply.Ok?) ==>
                State() == Session(Some(signerReply.value.address), Some(Int(networkReply.value)),
                                   Some(mountProvider), Some(signerReply.value))
      ensures !(hasWallet && listReply.Ok? && |listReply.value| > 0
                && signerReply.Ok? && networkReply.Ok?) ==>
                State() == old(State())
    {
      if hasWallet && listReply.Ok? && |listReply.value| > 0 {
        if signerReply.Err? || networkReply.Err? {
          return;
        }
        address := Some(signerReply.value.address);
        chainId := Some(Int(networkReply.value));
        provider := Some(mountProvider);
        signer := Some(signerReply.value);
      }
    }

    /**
      `switchNetwork` as run with `captured` as the provider its closure saw:
      always asks for the testnet; a failed switch is rethrown with the chain
      id untouched; after a successful switch the chain id is re-read only
      when `captured` is a provider, and a failed re-read is rethrown.
     */
    method SwitchNetworkWith(captured: Option<Provider>, hasWallet: bool,
                             switchReply: Outcome, addReply: Outcome, rereadReply: Result<int>)
      returns (sent: seq<WalletRequest>, outcome: Outcome)
      modifies this
      ensures hasWallet ==>
                |sent| >= 1 && sent[0] == SwitchEthereumChain(ChainIdHex(SyscoinNetwork(Testnet).chainId))
      ensures sent == SwitchLog(hasWallet, Testnet, switchReply)
      ensures address == old(address) && provider == old(provider) && signer == old(signer)
      ensures var switched := SwitchSucceeds(hasWallet, switchReply, addReply);
              && (!switched ==> outcome.Failed? && outcome == SwitchFailure(switchReply, addReply)
                                && chainId == old(chainId))
              && (switched && captured.None? ==> outcome == Done && chainId == old(chainId))
              && (switched && captured.Some? && rereadReply.Ok? ==>
                    outcome == Done && chainId == Some(Int(rereadReply.value)))
              && (switched && captured.Some? && rereadReply.Err? ==>
                    outcome == Failed(rereadReply.error) && chainId == old(chainId))
    {
      var switchOutcome;
      sent, switchOutcome := SwitchToSyscoin(hasWallet, Testnet, switchReply, addReply);
      if switchOutcome.Failed? {
        return sent, switchOutcome;
      }
      if captured.Some? {
        if rereadReply.Err? {
          return sent, Failed(rereadReply.error);
        }
        chainId := Some(Int(rereadReply.value));
      }
      outcome := Done;
    }

    /** `switchNetwork()` called from outside `connect`: the captured provider
        is the current one. */
    method SwitchNetwork(hasWallet: bool, switchReply: Outcome, addReply: Outcome,
                         rereadReply: Result<int>)
      returns (sent: seq<WalletRequest>, outcome: Outcome)
      modifies this
      ensures hasWallet ==>
                |sent| >= 1 && sent[0] == SwitchEthereumChain(ChainIdHex(SyscoinNetwork(Testnet).chainId))
      ensures sent == SwitchLog(hasWallet, Testnet, switchReply)
      ensures address == old(address) && provider == old(provider) && signer == old(signer)
      ensures var switched := SwitchSucceeds(hasWallet, switchReply, addReply);
              && (!switched ==> outcome.Failed? && outcome == SwitchFailure(switchReply, addReply)
                                && chainId == old(chainId))
              && (switched && old(provider).None? ==> outcome == Done && chainId == old(chainId))
              && (switched && old(provider).Some? && rereadReply.Ok? ==>
                    outcome == Done && chainId == Some(Int(rereadReply.value)))
              && (switched && old(provider).Some? && rereadReply.Err? ==>
                    outcome == Failed(rereadReply.error) && chainId == old(chainId))
    {
      sent, outcome := SwitchNetworkWith(provider, hasWallet, switchReply, addReply, rereadReply);
    }

    /**
      `connect()`: runs `connectWallet`; if that throws, the error is rethrown
      and nothing changes. Otherwise address, chain id, provider and signer
      are set from its result, and when the chain is neither Syscoin id the
      network is switched using the provider held before this call; a failed
      switch is rethrown, leaving the new fields in place.
     */
    method Connect(hasWallet: bool, freshProvider: Provider, accountsReply: Outcome,
                   signerReply: Result<Signer>, networkReply: Result<int>,
                   switchReply: Outcome, addReply: Outcome, rereadReply: Result<int>)
      returns (sent: seq<WalletRequest>, outcome: Outcome)
      modifies this
      ensures var connected := hasWallet && accountsReply.Done? && signerReply.Ok? && networkReply.Ok?;
              && (!connected ==>
                    && State() == old(State())
                    && sent == (if hasWallet then [RequestAccounts] else [])
                    && outcome == Failed(if !hasWallet then Error(InstallWalletMessage)
                                         else if accountsReply.Failed? then accountsReply.error
                                         else if signerReply.Err? then signerReply.error
                                         else networkReply.error))
              && (connected ==>
                    && address == Some(signerReply.value.address)
                    && provider == Some(freshProvider) && signer == Some(signerReply.value)
                    && |sent| >= 1 && sent[0] == RequestAccounts)
              && (connected && IsSyscoinChain(networkReply.value) ==>
                    outcome == Done && sent == [RequestAccounts]
                    && chainId == Some(Int(networkReply.value)))
              && (connected && !IsSyscoinChain(networkReply.value) ==>
                    |sent| >= 2
                    && sent[1] == SwitchEthereumChain(ChainIdHex(SyscoinNetwork(Testnet).chainId))
                    && sent == [RequestAccounts] + SwitchLog(true, Testnet, switchReply)
                    && var switched := SwitchSucceeds(true, switchReply, addReply);
                    && (!switched ==> outcome == SwitchFailure(switchReply, addReply) && outcome.Failed?
                                      && chainId == Some(Int(networkReply.value)))
                    && (switched && old(provider).None? ==> outcome == Done)
                    && (switched && old(provider).Some? ==>
                          && (outcome.Done? <==> rereadReply.Ok?)
                          && (rereadReply.Ok? ==> chainId == Some(Int(rereadReply.value)))
                          && (rereadReply.Err? ==> outcome == Failed(rereadReply.error)
                                                   && chainId == Some(Int(networkReply.value)))))
              && (connected && old(provider).None? ==> chainId == Some(Int(networkReply.value)))
    {
      var prior := provider;
      var wallet;
      sent, wallet := ConnectWallet(hasWallet, freshProvider, accountsReply, signerReply, networkReply);
      if wallet.Err? {
        return sent, Failed(wallet.error);
      }
      address := Some(wallet.value.address);
      chainId := Some(Int(wallet.value.chainId));
      provider := Some(wallet.value.provider);
      signer := Some(wallet.value.signer);
      outcome := Done;
      if !IsSyscoinChain(wallet.value.chainId) {
        var switchSent;
        switchSent, outcome := SwitchNetworkWith(prior, hasWallet, switchReply, addReply, rereadReply);
        sent := sent + switchSent;
      }
    }

    /** `disconnect()`: all four fields cleared; idempotent. */
    method Disconnect()
      modifies this
      ensures State() == Disconnected
      ensures !IsConnected() && !IsCorrectNetwork()
    {
      address := None;
      chainId := None;
      provider := None;
      signer := None;
    }

    /** The "accounts changed" listener: an empty list disconnects; otherwise
        only the address changes, to the first account. */
    method HandleAccountsChanged(accounts: seq<string>)
      modifies this
      ensures |accounts| == 0 ==> State() == Disconnected
      ensures |accounts| > 0 ==> State() == old(State()).(address := Some(accounts[0]))
    {
      if |accounts| == 0 {
        Disconnect();
      } else {
        address := Some(accounts[0]);
      }
    }

    /** The "chain changed" listener: only the chain id changes, to the
        notification's hex string read with `parseInt(_, 16)`. */
    method HandleChainChanged(chainIdHex: string)
      modifies this
      ensures State() == old(State()).(chainId := Some(ParseIntHex(chainIdHex)))
    {
      chainId := Some(ParseIntHex(chainIdHex));
    }
  }

  /** A chain-changed notification carrying the testnet id as a switch request
      spells it puts the session on the correct network. */
  lemma SwitchedChainIsCorrect(network: NetworkName)
    ensures IsCorrectChain(Some(ParseIntHex(ChainIdHex(SyscoinNetwork(network).chainId))))
  {
    ChainIdHexRoundTrip(SyscoinNetwork(network).chainId);
  }
}
