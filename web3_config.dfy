/**
  The Rollux (Syscoin L2) network table and the wallet helpers built on it:
  the chain-id encoding a switch request carries, the switch-then-add fallback,
  the wallet connection sequence, the signer lookup and address shortening.

  The injected wallet (`window.ethereum`) is not modelled as code: whether it
  is present and what each of its requests settles to are parameters, and the
  requests a helper sends are returned as a log.
 */
module Web3Config {
  import opened Js

  datatype NativeCurrency = NativeCurrency(name: string, symbol: string, decimals: nat)

  datatype NetworkConfig = NetworkConfig(
    chainId: nat,
    name: string,
    rpcUrl: string,
    blockExplorer: string,
    nativeCurrency: NativeCurrency)

  datatype NetworkName = Mainnet | Testnet

  /** The `SYSCOIN_NETWORKS` table. */
  function SyscoinNetwork(network: NetworkName): (c: NetworkConfig)
    ensures c.nativeCurrency.decimals == 18
    ensures c.chainId == (if network == Mainnet then 570 else 57000)
  {
    match network
    case Mainnet =>
      NetworkConfig(570, "Rollux", "https://rpc.rollux.com", "https://explorer.rollux.com",
        NativeCurrency("Syscoin", "SYS", 18))
    case Testnet =>
      NetworkConfig(57000, "Rollux Testnet", "https://rpc-tanenbaum.rollux.com",
        "https://rollux.tanenbaum.io", NativeCurrency("Syscoin", "tSYS", 18))
  }

  /** The chain ids the application treats as Syscoin. */
  predicate IsSyscoinChain(chainId: int)
  {
    chainId == SyscoinNetwork(Testnet).chainId || chainId == SyscoinNetwork(Mainnet).chainId
  }

  /** The deployed contract addresses, each read from the environment; an
      unset or empty variable leaves the address empty. */
  datatype ContractAddresses = ContractAddresses(rewardToken: string, marketplace: string, aggregator: string)

  /** `process.env.X || ''` */
  function EnvAddress(variable: Option<string>): (a: string)
    ensures a == "" <==> !Truthy(variable)
    ensures a != "" ==> variable == Some(a)
  {
    if Truthy(variable) then variable.value else ""
  }

  /** `CONTRACT_ADDRESSES` for the given values of the three environment
      variables. */
  function ContractAddressesFrom(rewardTokenVar: Option<string>, marketplaceVar: Option<string>,
                                 aggregatorVar: Option<string>): (c: ContractAddresses)
    ensures Truthy(rewardTokenVar) ==> c.rewardToken == rewardTokenVar.value
    ensures !Truthy(rewardTokenVar) ==> c.rewardToken == ""
    ensures Truthy(marketplaceVar) ==> c.marketplace == marketplaceVar.value
    ensures !Truthy(marketplaceVar) ==> c.marketplace == ""
    ensures Truthy(aggregatorVar) ==> c.aggregator == aggregatorVar.value
    ensures !Truthy(aggregatorVar) ==> c.aggregator == ""
  {
    ContractAddresses(EnvAddress(rewardTokenVar), EnvAddress(marketplaceVar), EnvAddress(aggregatorVar))
  }

  /** A read-only JSON-RPC endpoint (`ethers.JsonRpcProvider`). */
  datatype RpcProvider = JsonRpcProvider(url: string)

  /** `getSyscoinProvider(network)`: an RPC provider on that network's endpoint. */
  function GetSyscoinProvider(network: NetworkName): (p: RpcProvider)
    ensures p.url == SyscoinNetwork(network).rpcUrl
  {
    JsonRpcProvider(SyscoinNetwork(network).rpcUrl)
  }

  // ---------------------------------------------------------------------------
  // Wallet handles and requests

  /** An `ethers.BrowserProvider` wrapped around the injected wallet; `id`
      tells apart the providers the application creates. */
  datatype Provider = BrowserProvider(id: nat)

  /** A signer bound to one account. */
  datatype Signer = JsonRpcSigner(address: string)

  /** The requests the application sends to the injected wallet. */
  datatype WalletRequest =
    | RequestAccounts
    | SwitchEthereumChain(chainId: string)
    | AddEthereumChain(chainId: string, chainName: string, nativeCurrency: NativeCurrency,
                       rpcUrls: seq<string>, blockExplorerUrls: seq<string>)

  /** The `chainId` parameter of a switch or add request: "0x" then the id in
      lower-case hex, unpadded. */
  function ChainIdHex(chainId: nat): (s: string)
    ensures |s| >= 3 && s[..2] == "0x"
  {
    "0x" + ToHexString(chainId)
  }

  /** The chain-changed handlers read the id back with `parseInt(hex, 16)`:
      every encoded id decodes to itself. */
  lemma ChainIdHexRoundTrip(chainId: nat)
    ensures ParseIntHex(ChainIdHex(chainId)) == Int(chainId)
  {
    HexRoundTrip(chainId);
  }

  /** The two configured ids as a switch request spells them. */
  lemma SyscoinChainIdsInHex()
    ensures ChainIdHex(SyscoinNetwork(Testnet).chainId) == "0xdea8"
    ensures ChainIdHex(SyscoinNetwork(Mainnet).chainId) == "0x23a"
  {
    TestnetHex();
    MainnetHex();
  }

  lemma TestnetHex()
    ensures ToHexString(57000) == "dea8"
  {
    assert LowerHexDigits[13] == 'd' && LowerHexDigits[14] == 'e';
    assert LowerHexDigits[10] == 'a' && LowerHexDigits[8] == '8';
    calc {
      ToHexString(57000);
      ToHexString(3562) + [LowerHexDigits[8]];
      ToHexString(222) + [LowerHexDigits[10]] + [LowerHexDigits[8]];
      ToHexString(13) + [LowerHexDigits[14]] + [LowerHexDigits[10]] + [LowerHexDigits[8]];
      "dea8";
    }
  }

  lemma MainnetHex()
    ensures ToHexString(570) == "23a"
  {
    assert LowerHexDigits[2] == '2' && LowerHexDigits[3] == '3' && LowerHexDigits[10] == 'a';
    calc {
      ToHexString(570);
      ToHexString(35) + [LowerHexDigits[10]];
      ToHexString(2) + [LowerHexDigits[3]] + [LowerHexDigits[10]];
      "23a";
    }
  }

  /** The add-chain request built from one network entry. */
  function AddChainRequest(config: NetworkConfig): (r: WalletRequest)
    ensures r.AddEthereumChain?
    ensures r.chainId == ChainIdHex(config.chainId)
    ensures r.chainName == config.name && r.nativeCurrency == config.nativeCurrency
    ensures r.rpcUrls == [config.rpcUrl] && r.blockExplorerUrls == [config.blockExplorer]
  {
    AddEthereumChain(ChainIdHex(config.chainId), config.name, config.nativeCurrency,
      [config.rpcUrl], [config.blockExplorer])
  }

  /** The wallet's error code for "this chain has not been added". */
  const UnrecognizedChainCode: int := 4902

  /** The requests `switchToSyscoin(network)` sends: none without a wallet;
      otherwise the switch request, followed by the add-chain request only
      when the switch fails with code 4902. */
  function SwitchLog(hasWallet: bool, network: NetworkName, switchReply: Outcome): (sent: seq<WalletRequest>)
    ensures |sent| <= 2
    ensures forall i :: 0 <= i < |sent| ==> !sent[i].RequestAccounts?
  {
    if !hasWallet then []
    else [SwitchEthereumChain(ChainIdHex(SyscoinNetwork(network).chainId))]
         + (if switchReply.Failed? && switchReply.error.code == Some(UnrecognizedChainCode)
            then [AddChainRequest(SyscoinNetwork(network))] else [])
  }

  /**
    `switchToSyscoin(network)`: with no injected wallet, nothing is sent and the
    call returns normally. Otherwise a switch request is sent; if it fails with
    code 4902 exactly one add-chain request built from the same network entry
    follows and its outcome is the call's; any other switch failure is rethrown
    without an add request.
   */
  method SwitchToSyscoin(hasWallet: bool, network: NetworkName,
                         switchReply: Outcome, addReply: Outcome)
    returns (sent: seq<WalletRequest>, outcome: Outcome)
    ensures !hasWallet ==> sent == [] && outcome == Done
    ensures hasWallet ==> 1 <= |sent| <= 2
    ensures hasWallet ==> sent[0] == SwitchEthereumChain(ChainIdHex(SyscoinNetwork(network).chainId))
    ensures hasWallet && switchReply.Done? ==> |sent| == 1 && outcome == Done
    ensures hasWallet && switchReply.Failed? && switchReply.error.code == Some(UnrecognizedChainCode) ==>
              sent == [sent[0], AddChainRequest(SyscoinNetwork(network))] && outcome == addReply
    ensures hasWallet && switchReply.Failed? && switchReply.error.code != Some(UnrecognizedChainCode) ==>
              |sent| == 1 && outcome == switchReply
    ensures forall i :: 0 <= i < |sent| ==> !sent[i].RequestAccounts?
    ensures sent == SwitchLog(hasWallet, network, switchReply)
  {
    sent, outcome := [], Done;
    if hasWallet {
      var config := SyscoinNetwork(network);
      sent := sent + [SwitchEthereumChain(ChainIdHex(config.chainId))];
      match switchReply
      case Done =>
      case Failed(switchError) =>
        if switchError.code == Some(UnrecognizedChainCode) {
          sent := sent + [AddChainRequest(config)];
          outcome := addReply;
        } else {
          outcome := Failed(switchError);
        }
    }
  }

  /** What a successful `connectWallet()` returns. */
  datatype Connection = Connection(address: string, chainId: int, provider: Provider, signer: Signer)

  const InstallWalletMessage: string := "Please install MetaMask or another Web3 wallet"

  /**
    `connectWallet()`: with no injected wallet it throws without sending
    anything. Otherwise it wraps the wallet in `provider`, asks for accounts,
    obtains the signer and the network, and returns the signer's address and
    the network's chain id; the first of those steps that fails makes the call
    fail with that step's error.
   */
  method ConnectWallet(hasWallet: bool, provider: Provider, accountsReply: Outcome,
                       signerReply: Result<Signer>, networkReply: Result<int>)
    returns (sent: seq<WalletRequest>, r: Result<Connection>)
    ensures !hasWallet ==> sent == [] && r == Err(Error(InstallWalletMessage))
    ensures hasWallet ==> sent == [RequestAccounts]
    ensures hasWallet && accountsReply.Failed? ==> r == Err(accountsReply.error)
    ensures hasWallet && accountsReply.Done? && signerReply.Err? ==> r == Err(signerReply.error)
    ensures r.Ok? <==> hasWallet && accountsReply.Done? && signerReply.Ok? && networkReply.Ok?
    ensures r.Ok? ==> r.value == Connection(signerReply.value.address, networkReply.value,
                                            provider, signerReply.value)
    ensures r.Err? && hasWallet && accountsReply.Done? && signerReply.Ok? ==> r == Err(networkReply.error)
  {
    if !hasWallet {
      return [], Err(Error(InstallWalletMessage));
    }
    sent := [RequestAccounts];
    if accountsReply.Failed? {
      return sent, Err(accountsReply.error);
    }
    if signerReply.Err? {
      return sent, Err(signerReply.error);
    }
    var signer := signerReply.value;
    if networkReply.Err? {
      return sent, Err(networkReply.error);
    }
    r := Ok(Connection(signer.address, networkReply.value, provider, signer));
  }

  const NoWalletMessage: string := "No ethereum wallet detected"

  /** `getSigner()`: throws when no wallet is injected, otherwise yields what
      the wallet yields. */
  method GetSigner(hasWallet: bool, signerReply: Result<Signer>) returns (r: Result<Signer>)
    ensures !hasWallet ==> r == Err(Error(NoWalletMessage))
    ensures hasWallet ==> r == signerReply
  {
    if hasWallet {
      r := signerReply;
    } else {
      r := Err(Error(NoWalletMessage));
    }
  }

  // ---------------------------------------------------------------------------
  // Display

  /** `formatAddress(address)`: empty for an empty address; otherwise the
      first six characters, "...", and the last four (`substring` clamps). */
  function FormatAddress(address: string): (r: string)
    ensures address == "" <==> r == ""
    ensures address != "" ==>
      |r| == Min(6, |address|) + 3 + Min(4, |address|)
      && r[Min(6, |address|)..Min(6, |address|) + 3] == "..."
      && StartsWith(address, r[..Min(6, |address|)])
      && r[|r| - Min(4, |address|)..] == address[|address| - Min(4, |address|)..]
  {
    if address == "" then ""
    else Substring(address, 0, 6) + "..." + SubstringFrom(address, |address| - 4)
  }

  /** For an address of ten characters or more, the shortened form is exactly
      its first six and last four characters around "...". */
  lemma FormatLongAddress(address: string)
    requires |address| >= 10
    ensures FormatAddress(address) == address[..6] + "..." + address[|address| - 4..]
    ensures |FormatAddress(address)| == 13
  {
  }
}
