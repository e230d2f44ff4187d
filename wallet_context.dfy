/**
  The wallet session that the header uses: the connected address, the
  signer and provider handles, the chain id and the displayed balance, with
  the connect and disconnect actions and the two wallet notifications
  ("accounts changed", "chain changed") that update the session in place.

  Every awaited wallet call is a parameter holding what it settled to. The
  balance is kept as the already formatted string the display shows.
 */
module WalletContext {
  import opened Js
  import opened Web3Config

  /** A snapshot of the five session fields. */
  datatype Session = Session(
    address: Option<string>,
    signer: Option<Signer>,
    provider: Option<Provider>,
    chainId: Option<Number>,
    currentBalance: string)

  /** The session before any connection and after a disconnection. */
  const Disconnected: Session := Session(None, None, None, None, "0")

  const NotInstalledAlert: string := "MetaMask not installed!"

  /** Whether every awaited step of `connectWallet` up to the state updates
      settles normally, with at least one account granted. */
  predicate ConnectReaches(hasWallet: bool, accountsReply: Result<seq<string>>,
                           signerReply: Result<Signer>, networkReply: Result<int>)
  {
    hasWallet && accountsReply.Ok? && |accountsReply.value| > 0
    && signerReply.Ok? && networkReply.Ok?
  }

  class WalletProvider {
    var address: Option<string>
    var signer: Option<Signer>
    var provider: Option<Provider>
    var chainId: Option<Number>
    var currentBalance: string

    function State(): Session
      reads this
    {
      Session(address, signer, provider, chainId, currentBalance)
    }

    /** `isConnected`: the address is present and non-empty. */
    predicate IsConnected()
      reads this
      ensures IsConnected() <==> address.Some? && |address.value| > 0
    {
      Truthy(address)
    }

    constructor ()
      ensures State() == Disconnected
      ensures !IsConnected()
    {
      address, signer, provider, chainId, currentBalance := None, None, None, None, "0";
    }

    /** `updateBalance`: a fetched balance replaces the shown one; a failed
        fetch is swallowed and the previous value stays. */
    method UpdateBalance(balanceReply: Result<string>)
      modifies this
      ensures balanceReply.Ok? ==> currentBalance == balanceReply.value
      ensures balanceReply.Err? ==> currentBalance == old(currentBalance)
      ensures address == old(address) && signer == old(signer)
      ensures provider == old(provider) && chainId == old(chainId)
    {
      if balanceReply.Ok? {
        currentBalance := balanceReply.value;
      }
    }

    /**
      `connectWallet()`: with no wallet it raises an alert and changes nothing.
      Otherwise it asks for accounts; only when some account is granted and
      the signer and network are obtained are the four connection fields set,
      from the first account, and the balance refreshed. Any error before the
      state updates is caught and leaves the session as it was.
     */
    method ConnectWallet(hasWallet: bool, browserProvider: Provider,
                         accountsReply: Result<seq<string>>, signerReply: Result<Signer>,
                         networkReply: Result<int>, balanceReply: Result<string>)
      returns (alert: Option<string>, sent: seq<WalletRequest>)
      modifies this
      ensures !hasWallet ==> alert == Some(NotInstalledAlert) && sent == []
      ensures hasWallet ==> alert == None && sent == [RequestAccounts]
      ensures !ConnectReaches(hasWallet, accountsReply, signerReply, networkReply) ==>
                State() == old(State())
      ensures ConnectReaches(hasWallet, accountsReply, signerReply, networkReply) ==>
                && address == Some(accountsReply.value[0])
                && signer == Some(signerReply.value)
                && provider == Some(browserProvider)
                && chainId == Some(Int(networkReply.value))
                && currentBalance == (if balanceReply.Ok? then balanceReply.value else old(currentBalance))
      ensures ConnectReaches(hasWallet, accountsReply, signerReply, networkReply) ==>
                (IsConnected() <==> accountsReply.value[0] != "")
    {
      if !hasWallet {
        return Some(NotInstalledAlert), [];
      }
      alert, sent := None, [RequestAccounts];
      if accountsReply.Err? {
        return;
      }
      var accounts := accountsReply.value;
      if |accounts| > 0 {
        if signerReply.Err? || networkReply.Err? {
          return;
        }
        provider := Some(browserProvider);
        signer := Some(signerReply.value);
        address := Some(accounts[0]);
        chainId := Some(Int(networkReply.value));
        UpdateBalance(balanceReply);
      }
    }

    /** `disconnectWallet()`: every field back to its initial value. Applying
        it twice is the same as applying it once. */
    method DisconnectWallet()
      modifies this
      ensures State() == Disconnected
      ensures !IsConnected()
    {
      address := None;
      signer := None;
      provider := None;
      chainId := None;
      currentBalance := "0";
    }

    /**
      The "accounts changed" listener: an empty list disconnects; otherwise the
      address becomes the first account, the chain id and handles stay, and the
      balance is refreshed only when a provider is held.
     */
    method HandleAccountsChanged(accounts: seq<string>, balanceReply: Result<string>)
      modifies this
      ensures |accounts| == 0 ==> State() == Disconnected
      ensures |accounts| > 0 ==>
                && address == Some(accounts[0])
                && chainId == old(chainId) && signer == old(signer) && provider == old(provider)
                && currentBalance == (if old(provider).Some? && balanceReply.Ok?
                                      then balanceReply.value else old(currentBalance))
    {
      if |accounts| > 0 {
        address := Some(accounts[0]);
        if provider.Some? {
          UpdateBalance(balanceReply);
        }
      } else {
        DisconnectWallet();
      }
    }

    /** The "chain changed" listener: the chain id becomes the notification's
        hex string read with `parseInt(_, 16)`; nothing else changes. */
    method HandleChainChanged(chainIdHex: string)
      modifies this
      ensures chainId == Some(ParseIntHex(chainIdHex))
      ensures address == old(address) && signer == old(signer)
      ensures provider == old(provider) && currentBalance == old(currentBalance)
      ensures chainIdHex == ChainIdHex(SyscoinNetwork(Testnet).chainId) ==>
                chainId == Some(Int(SyscoinNetwork(Testnet).chainId))
    {
      chainId := Some(ParseIntHex(chainIdHex));
      ChainIdHexRoundTrip(SyscoinNetwork(Testnet).chainId);
    }
  }

  /** Connecting and then disconnecting always ends in the initial session,
      whatever the wallet answered. */
  method ConnectThenDisconnect(hasWallet: bool, browserProvider: Provider,
                               accountsReply: Result<seq<string>>, signerReply: Result<Signer>,
                               networkReply: Result<int>, balanceReply: Result<string>)
    returns (session: Session)
    ensures session == Disconnected
  {
    var w := new WalletProvider();
    var _, _ := w.ConnectWallet(hasWallet, browserProvider, accountsReply, signerReply,
                                networkReply, balanceReply);
    w.DisconnectWallet();
    session := w.State();
  }
}
