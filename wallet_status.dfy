/** The wallet status panel (client/src/Components/Web3/WalletStatus.jsx).

    It receives a wallet address and a connected flag from its parent and
    keeps two pieces of state of its own: a five-valued connection status
    and the network the wallet is on. The status is set by a check against
    the wallet's authorised accounts and by the wallet's `accountsChanged`
    event; `chainChanged` only relabels the network. What it shows is a
    pure choice among four views. */
module WalletStatus {
  import opened Wrappers
  import opened Text
  import opened Browser

  datatype ConnectionStatus = Checking | Connected | Disconnected | AccountChanged | Error

  datatype NetworkInfo = NetworkInfo(chainId: string, name: string)

  /** Outcome of `ethereum.request({ method: 'eth_chainId' })`. */
  datatype ChainReply = ChainId(chainId: string) | ChainThrows

  /** The four panels the component can render. */
  datatype View = NoWalletView | AccountChangedView | ErrorView | ConnectedView

  /** The chain ids the panel knows by name. */
  const Networks: map<string, string> := map[
    "0x1" := "Ethereum Mainnet",
    "0x3" := "Ropsten Testnet",
    "0x4" := "Rinkeby Testnet",
    "0x5" := "Goerli Testnet",
    "0xaa36a7" := "Sepolia Testnet",
    "0x89" := "Polygon Mainnet",
    "0x13881" := "Polygon Mumbai",
    "0xa86a" := "Avalanche Mainnet",
    "0xa869" := "Avalanche Fuji Testnet"
  ]

  const UnknownPrefix := "Unknown Network ("

  /** The label for a chain id: its name when listed, otherwise a fallback
      label that quotes the id. No listed name looks like a fallback label,
      so the label alone tells whether the id was known, and the id can be
      read back out of a fallback label. */
  function GetNetworkName(chainId: string): (name: string)
    ensures chainId in Networks ==> name == Networks[chainId]
    ensures chainId in Networks <==> !(UnknownPrefix <= name)
    ensures chainId !in Networks ==>
              && |name| == |UnknownPrefix| + |chainId| + 1
              && name[|UnknownPrefix|..|name| - 1] == chainId
              && name[|name| - 1] == ')'
  {
    var name := if chainId in Networks then Networks[chainId] else UnknownPrefix + chainId + ")";
    assert chainId in Networks ==> name[0] != 'U';
    name
  }

  /** The table has exactly the nine listed ids. */
  lemma NetworkTable()
    ensures Networks.Keys == {"0x1", "0x3", "0x4", "0x5", "0xaa36a7", "0x89", "0x13881", "0xa86a", "0xa869"}
    ensures GetNetworkName("0x1") == "Ethereum Mainnet"
    ensures GetNetworkName("0xaa36a7") == "Sepolia Testnet"
    ensures GetNetworkName("0xdead") == "Unknown Network (0xdead)"
  {
  }

  /** `formatAddress`: empty for an empty address, otherwise the first six
      characters, an ellipsis, and the last four (fewer when the address is
      shorter, following `slice`). */
  function FormatAddress(address: string): (r: string)
    ensures r == "" <==> address == ""
    ensures address != "" ==>
              && |r| == Min(6, |address|) + 3 + Min(4, |address|)
              && r[..Min(6, |address|)] == address[..Min(6, |address|)]
              && r[Min(6, |address|)..Min(6, |address|) + 3] == "..."
              && r[|r| - Min(4, |address|)..] == address[|address| - Min(4, |address|)..]
  {
    if address == "" then "" else Take(address, 6) + "..." + TakeLast(address, 4)
  }

  /** On a full-length address (`0x` and forty hex digits) the short form
      is thirteen characters: six leading, `...`, four trailing. */
  lemma FormatFullAddress(address: string)
    requires |address| == 42
    ensures |FormatAddress(address)| == 13
    ensures FormatAddress(address)[..6] == address[..6]
    ensures FormatAddress(address)[6..9] == "..."
    ensures FormatAddress(address)[9..] == address[38..]
  {
    var r := FormatAddress(address);
    assert r[9..] == TakeLast(address, 4);
  }

  /** Which panel renders, given the parent's flag, the address and the
      status. The no-wallet panel wins over every status; `checking` and
      `connected` both show the connected panel. */
  function SelectView(isConnected: bool, walletAddress: string, status: ConnectionStatus): (v: View)
    ensures v == NoWalletView <==> !isConnected || walletAddress == "" || status == Disconnected
    ensures v == AccountChangedView <==> isConnected && walletAddress != "" && status == AccountChanged
    ensures v == ErrorView <==> isConnected && walletAddress != "" && status == Error
    ensures v == ConnectedView <==>
              isConnected && walletAddress != "" && (status == Checking || status == Connected)
  {
    if !isConnected || walletAddress == "" || status == Disconnected then NoWalletView
    else match status
      case AccountChanged => AccountChangedView
      case Error => ErrorView
      case _ => ConnectedView
  }

  /** The status an `accountsChanged` event sets: only the first account
      counts, compared without regard to letter case. */
  function AccountChangeStatus(accounts: seq<string>, walletAddress: string): (status: ConnectionStatus)
    ensures accounts == [] ==> status == Disconnected
    ensures accounts != [] && SameAddress(accounts[0], walletAddress) ==> status == Connected
    ensures accounts != [] && !SameAddress(accounts[0], walletAddress) ==> status == AccountChanged
  {
    if |accounts| == 0 then Disconnected
    else if Lower(accounts[0]) == Lower(walletAddress) then Connected
    else AccountChanged
  }

  /** Accounts after the first never matter, even one equal to the tracked
      address; the old status never matters either. */
  lemma OnlyFirstAccountCounts(first: string, rest1: seq<string>, rest2: seq<string>, walletAddress: string)
    ensures AccountChangeStatus([first] + rest1, walletAddress) == AccountChangeStatus([first] + rest2, walletAddress)
    ensures !SameAddress(first, walletAddress) ==>
              AccountChangeStatus([first] + [walletAddress], walletAddress) == AccountChanged
  {
  }

  /** The component's state, with its two props. */
  class StatusTracker {
    var walletAddress: string
    var isConnected: bool
    /** Whether `window.ethereum` exists. */
    const hasProvider: bool
    var status: ConnectionStatus
    var networkInfo: Option<NetworkInfo>

    constructor (walletAddress: string, isConnected: bool, hasProvider: bool)
      ensures this.walletAddress == walletAddress && this.isConnected == isConnected
      ensures this.hasProvider == hasProvider
      ensures status == Checking && networkInfo == None
    {
      this.walletAddress := walletAddress;
      this.isConnected := isConnected;
      this.hasProvider := hasProvider;
      status := Checking;
      networkInfo := None;
    }

    /** The parent re-renders with new props. The status is kept as it is:
        nothing returns it to `checking` when the address changes. */
    method ReceiveProps(walletAddress: string, isConnected: bool)
      modifies this
      ensures this.walletAddress == walletAddress && this.isConnected == isConnected
      ensures status == old(status) && networkInfo == old(networkInfo)
    {
      this.walletAddress := walletAddress;
      this.isConnected := isConnected;
    }

    /** `checkRealTimeConnection`: ask the wallet for its authorised
        accounts; when the tracked address is among them (in any position,
        any letter case) the status is `connected` and the network is
        looked up, otherwise `disconnected`; a throw from either request
        makes it `error`. */
    method CheckRealTimeConnection(accounts: AccountsReply, chain: ChainReply)
      modifies this
      ensures walletAddress == old(walletAddress) && isConnected == old(isConnected)
      ensures !hasProvider || walletAddress == "" ==>
                status == old(status) && networkInfo == old(networkInfo)
      ensures hasProvider && walletAddress != "" ==>
                match accounts
                case AccountsThrows => status == Error && networkInfo == old(networkInfo)
                case Accounts(list) =>
                  if !AnyMatches(list, walletAddress) then
                    status == Disconnected && networkInfo == old(networkInfo)
                  else match chain
                    case ChainThrows => status == Error && networkInfo == old(networkInfo)
                    case ChainId(id) => status == Connected && networkInfo == Some(NetworkInfo(id, GetNetworkName(id)))
    {
      if hasProvider && walletAddress != "" {
        match accounts
        case AccountsThrows =>
          status := Error;
        case Accounts(list) =>
          var stillConnected := AnyMatches(list, walletAddress);
          if stillConnected {
            status := Connected;
            match chain
            case ChainThrows =>
              status := Error;
            case ChainId(id) =>
              networkInfo := Some(NetworkInfo(id, GetNetworkName(id)));
          } else {
            status := Disconnected;
          }
      }
    }

    /** The `accountsChanged` listener installed for the address
        `captured`, the tracked address of the render that installed it.
        Its cleanup is discarded, so it stays installed after the address
        changes or is cleared and keeps comparing with `captured`. */
    method HandleAccountChange(accounts: seq<string>, captured: string)
      requires hasProvider && captured != ""
      modifies this`status
      ensures status == AccountChangeStatus(accounts, captured)
    {
      status := AccountChangeStatus(accounts, captured);
    }

    /** The `chainChanged` listener, which also stays installed once an
        address has been tracked: relabels the network and leaves the
        status alone. */
    method HandleChainChange(chainId: string)
      requires hasProvider
      modifies this`networkInfo
      ensures networkInfo == Some(NetworkInfo(chainId, GetNetworkName(chainId)))
    {
      networkInfo := Some(NetworkInfo(chainId, GetNetworkName(chainId)));
    }
  }
}
