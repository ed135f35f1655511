/** The wallet login button (client/src/Components/Web3/Web3Auth.jsx).

    Connecting asks the wallet for accounts, has the first one sign a fresh
    challenge, sends the signed challenge to the backend through the
    `web3Login` store action, and on success stores the two session markers
    and goes to the dashboard. The wallet's events are followed by
    listeners installed once, when the component mounts.

    Two traits of the code are kept as they are:
    - `signMessage` and `authenticateWithBackend` catch every error
      themselves, so a failed sign-in never reaches the caller's error
      branch: a failed re-authentication after an account switch clears
      the account but does not tear the session down;
    - the listeners close over the state of the first render, so the
      account they compare a switched account with is always the empty
      string of that render, and the comparison is case-sensitive. */
module Web3Auth {
  import opened Wrappers
  import opened Text
  import opened Browser
  import WalletStatus

  /** Outcome of `ethereum.request({ method: 'eth_requestAccounts' })`;
      a failure carries the error's `code`. */
  datatype RequestReply = Granted(accounts: seq<string>) | RequestFails(code: int)

  /** Outcome of getting a signer and signing the challenge. */
  datatype SignReply = Signed(signature: string) | SignFails

  /** Outcome of `await dispatch(web3Login(...))`: it completes, or it throws. */
  datatype BackendReply = Completes | DispatchThrows

  /** The toasts the user sees. */
  datatype Notice =
    | NotInstalled        // MetaMask is not installed
    | PleaseConnect       // the user refused the account request (code 4001)
    | ConnectFailed       // any other account-request failure
    | SignFailed          // signing failed: authentication cancelled
    | AuthFailed          // the backend dispatch threw
    | LoggedIn(shortAddress: string)
    | Switched(shortAddress: string)
    | WalletDisconnected  // the teardown
    | DisconnectDone      // the manual disconnect button
    | NetworkChanged

  /** The observable state of the component: the account it shows, the
      browser's storage, the store actions and navigations it issued, and
      the toasts it raised. */
  datatype Ui = Ui(
    account: string,
    storage: Storage,
    actions: seq<Action>,
    navigations: seq<string>,
    notices: seq<Notice>)

  const ChallengeIntro := "Sign this message to authenticate with your wallet."
  const WalletLabel := "\nWallet: "
  const TimestampLabel := "\nTimestamp: "

  /** The text the wallet is asked to sign; `timestamp` is `Date.now()`. */
  function Challenge(walletAddress: string, timestamp: nat): string {
    ChallengeIntro + WalletLabel + walletAddress + TimestampLabel + Decimal(timestamp)
  }

  /** The challenge has three lines: the fixed sentence, then the address
      after `Wallet: `, then the timestamp in decimal after `Timestamp: `;
      the address and the timestamp can be read back from their places. */
  lemma ChallengeFormat(walletAddress: string, timestamp: nat)
    ensures var m := Challenge(walletAddress, timestamp);
      var p := |ChallengeIntro + WalletLabel|;
      && ChallengeIntro + WalletLabel <= m
      && m[p..p + |walletAddress|] == walletAddress
      && m[p + |walletAddress|..p + |walletAddress| + |TimestampLabel|] == TimestampLabel
      && m[p + |walletAddress| + |TimestampLabel|..] == Decimal(timestamp)
  {
    var m := Challenge(walletAddress, timestamp);
    assert m == (ChallengeIntro + WalletLabel) + walletAddress + TimestampLabel + Decimal(timestamp);
  }

  /** The challenge ends in the digits of the timestamp, and the
      character just before them is the space that ends its label. */
  lemma ChallengeEndsInDigits(walletAddress: string, timestamp: nat)
    ensures var m := Challenge(walletAddress, timestamp);
      var n := |m| - |Decimal(timestamp)|;
      && 1 <= n <= |m|
      && m[n - 1] == ' '
      && m[n..] == Decimal(timestamp)
      && (forall i :: n <= i < |m| ==> IsDigit(m[i]))
  {
    var m := Challenge(walletAddress, timestamp);
    var h := ChallengeIntro + WalletLabel + walletAddress + TimestampLabel;
    assert m == h + Decimal(timestamp);
    assert h[|h| - 1] == ' ';
  }

  /** Each challenge names one address and one instant: two equal
      challenges come from the same address at the same millisecond.
      The timestamp is the run of digits at the end, since the label
      before it ends in a space; what precedes the label is the address. */
  lemma ChallengeUnique(a1: string, t1: nat, a2: string, t2: nat)
    requires Challenge(a1, t1) == Challenge(a2, t2)
    ensures a1 == a2 && t1 == t2
  {
    var m := Challenge(a1, t1);
    ChallengeEndsInDigits(a1, t1);
    ChallengeEndsInDigits(a2, t2);
    // A longer digit run would have to swallow the space that ends the
    // other challenge's label.
    if |Decimal(t1)| != |Decimal(t2)| {
      assert false;
    }
    DecimalInjective(t1, t2);
    var p := |ChallengeIntro + WalletLabel|;
    var h1 := ChallengeIntro + WalletLabel + a1 + TimestampLabel;
    var h2 := ChallengeIntro + WalletLabel + a2 + TimestampLabel;
    assert m == h1 + Decimal(t1) && m == h2 + Decimal(t2);
    assert a1 == h1[p..|h1| - |TimestampLabel|] == m[p..|h1| - |TimestampLabel|];
    assert a2 == h2[p..|h2| - |TimestampLabel|] == m[p..|h2| - |TimestampLabel|];
  }

  /** `formatAddress` of this component: unlike the status panel's, it
      has no guard for an empty address. */
  function FormatAddress(address: string): (r: string)
    ensures |r| == Min(6, |address|) + 3 + Min(4, |address|)
    ensures r[..Min(6, |address|)] == address[..Min(6, |address|)]
    ensures r[Min(6, |address|)..Min(6, |address|) + 3] == "..."
    ensures r[|r| - Min(4, |address|)..] == address[|address| - Min(4, |address|)..]
  {
    Take(address, 6) + "..." + TakeLast(address, 4)
  }

  /** The two short forms agree on every non-empty address; on the empty
      one this component shows `...` where the status panel shows nothing. */
  lemma FormatAddressesAgree(address: string)
    ensures address != "" ==> FormatAddress(address) == WalletStatus.FormatAddress(address)
    ensures FormatAddress("") == "..." && WalletStatus.FormatAddress("") == ""
  {
  }

  /** `signMessage(walletAddress)` together with `authenticateWithBackend`:
      sign the challenge, send it, and only when the dispatch completes
      store the markers and go to the dashboard. Every failure clears the
      account and raises one toast; none logs out. */
  function SignIn(ui: Ui, walletAddress: string, signing: SignReply, backend: BackendReply, now: nat): (r: Ui)
    ensures ui.actions <= r.actions && Logout !in r.actions[|ui.actions|..]
    ensures signing.Signed? ==>
              r.actions == ui.actions + [Web3Login(walletAddress, Challenge(walletAddress, now), signing.signature)]
    ensures signing.SignFails? ==> r.actions == ui.actions
    ensures signing.Signed? && backend.Completes? ==>
              && r.account == ui.account
              && r.storage == SaveMarkers(ui.storage, walletAddress)
              && r.navigations == ui.navigations + [DashboardPath]
              && r.notices == ui.notices + [LoggedIn(FormatAddress(walletAddress))]
    ensures !(signing.Signed? && backend.Completes?) ==>
              && r.account == ""
              && r.storage == ui.storage
              && r.navigations == ui.navigations
              && r.notices == ui.notices + [if signing.SignFails? then SignFailed else AuthFailed]
  {
    match signing
    case SignFails =>
      ui.(account := "", notices := ui.notices + [SignFailed])
    case Signed(signature) =>
      var sent := ui.(actions := ui.actions + [Web3Login(walletAddress, Challenge(walletAddress, now), signature)]);
      match backend
      case DispatchThrows =>
        sent.(account := "", notices := sent.notices + [AuthFailed])
      case Completes =>
        sent.(storage := SaveMarkers(sent.storage, walletAddress),
              notices := sent.notices + [LoggedIn(FormatAddress(walletAddress))],
              navigations := sent.navigations + [DashboardPath])
  }

  /** `handleWalletDisconnection`: clear the account and both markers,
      dispatch `LOGOUT`, and leave for the login page only from a
      dashboard path. */
  function Teardown(ui: Ui, pathname: string): (r: Ui)
    ensures r.account == ""
    ensures r.storage == ClearMarkers(ui.storage)
    ensures r.actions == ui.actions + [Logout]
    ensures r.navigations == ui.navigations + (if Includes(pathname, DashboardPath) then [LoginPath] else [])
    ensures r.notices == ui.notices + [WalletDisconnected]
  {
    Ui("", ClearMarkers(ui.storage), ui.actions + [Logout],
       if Includes(pathname, DashboardPath) then ui.navigations + [LoginPath] else ui.navigations,
       ui.notices + [WalletDisconnected])
  }

  /** `disconnectWallet`, the button: clears the account and the markers,
      but neither logs out of the store nor navigates. */
  function Disconnect(ui: Ui): (r: Ui)
    ensures r.account == "" && r.storage == ClearMarkers(ui.storage)
    ensures r.actions == ui.actions && r.navigations == ui.navigations
    ensures r.notices == ui.notices + [DisconnectDone]
  {
    ui.(account := "", storage := ClearMarkers(ui.storage), notices := ui.notices + [DisconnectDone])
  }

  /** `connectWallet`, apart from the busy flag. */
  function Connect(ui: Ui, installed: bool, reply: RequestReply, signing: SignReply,
                   backend: BackendReply, now: nat): (r: Ui)
    ensures !installed ==> r == ui.(notices := ui.notices + [NotInstalled])
    ensures installed && reply.RequestFails? ==>
              r == ui.(notices := ui.notices + [if reply.code == 4001 then PleaseConnect else ConnectFailed])
    ensures installed && reply.Granted? && reply.accounts == [] ==> r == ui
    ensures installed && reply.Granted? && reply.accounts != [] ==>
              r == SignIn(ui.(account := reply.accounts[0]), reply.accounts[0], signing, backend, now)
  {
    if !installed then ui.(notices := ui.notices + [NotInstalled])
    else match reply
      case RequestFails(code) =>
        ui.(notices := ui.notices + [if code == 4001 then PleaseConnect else ConnectFailed])
      case Granted(accounts) =>
        if |accounts| > 0 then SignIn(ui.(account := accounts[0]), accounts[0], signing, backend, now)
        else ui
  }

  /** The `accountsChanged` listener; `seen` is the account its closure
      captured. No accounts: tear down. A first account that differs from
      `seen` (exactly, letter case included): show it and sign in again.
      Otherwise nothing. */
  function AccountsChanged(ui: Ui, seen: string, accounts: seq<string>, signing: SignReply,
                           backend: BackendReply, now: nat, pathname: string): (r: Ui)
    ensures accounts == [] ==> r == Teardown(ui, pathname)
    ensures accounts != [] && accounts[0] == seen ==> r == ui
    ensures accounts != [] && accounts[0] != seen ==>
              r == SignIn(ui.(account := accounts[0], notices := ui.notices + [Switched(FormatAddress(accounts[0]))]),
                          accounts[0], signing, backend, now)
  {
    if |accounts| == 0 then Teardown(ui, pathname)
    else if accounts[0] != seen then
      var switched := ui.(account := accounts[0], notices := ui.notices + [Switched(FormatAddress(accounts[0]))]);
      SignIn(switched, accounts[0], signing, backend, now)
    else ui
  }

  /** The markers are written only when the backend dispatch completes,
      and then they name the address that signed. */
  lemma MarkersOnlyAfterBackend(ui: Ui, walletAddress: string, signing: SignReply, backend: BackendReply, now: nat)
    requires SignIn(ui, walletAddress, signing, backend, now).storage != ui.storage
    ensures signing.Signed? && backend.Completes?
    ensures SignIn(ui, walletAddress, signing, backend, now).storage[WalletAddressKey] == walletAddress
    ensures SignIn(ui, walletAddress, signing, backend, now).storage[AuthMethodKey] == Web3Method
  {
  }

  /** A failed re-authentication after an account switch does not tear the
      session down: no `LOGOUT`, no redirect, and the markers of the
      previous login stay in storage; only the account is cleared. */
  lemma FailedReauthKeepsMarkers(ui: Ui, seen: string, accounts: seq<string>, signing: SignReply,
                                 backend: BackendReply, now: nat, pathname: string)
    requires accounts != [] && accounts[0] != seen
    requires !(signing.Signed? && backend.Completes?)
    ensures var r := AccountsChanged(ui, seen, accounts, signing, backend, now, pathname);
      && r.account == ""
      && r.storage == ui.storage
      && Logout !in r.actions[|ui.actions|..]
      && r.navigations == ui.navigations
  {
  }

  /** Because the listener's captured account is the empty string of the
      first render, an `accountsChanged` event that repeats the account
      already signed in still starts a new signature request. */
  lemma SameAccountSignsAgain(ui: Ui, accounts: seq<string>, signature: string,
                              backend: BackendReply, now: nat, pathname: string)
    requires accounts != [] && accounts[0] == ui.account && ui.account != ""
    ensures var r := AccountsChanged(ui, "", accounts, Signed(signature), backend, now, pathname);
      r.actions == ui.actions + [Web3Login(ui.account, Challenge(ui.account, now), signature)]
  {
  }

  /** The button and the teardown leave the same storage and account, but
      only the teardown logs out. A teardown after a login leaves no
      marker behind. */
  lemma DisconnectVersusTeardown(ui: Ui, pathname: string, walletAddress: string, signature: string, now: nat)
    ensures Disconnect(ui).storage == Teardown(ui, pathname).storage
    ensures Disconnect(ui).account == Teardown(ui, pathname).account
    ensures Logout !in Disconnect(ui).actions[|ui.actions|..]
    ensures Teardown(ui, pathname).actions[|ui.actions|] == Logout
    ensures Teardown(SignIn(ui, walletAddress, Signed(signature), Completes, now), pathname).storage ==
            ClearMarkers(ui.storage)
  {
    ClearUndoesSave(ui.storage, walletAddress);
  }

  /** The component's state and what it does to the browser. */
  class AuthController {
    var account: string
    var isConnecting: bool
    /** Whether `window.ethereum` existed at mount. */
    const isMetaMaskInstalled: bool
    /** The `account` that the listeners installed at mount closed over. */
    const listenerAccount: string
    var storage: Storage
    var actions: seq<Action>
    var navigations: seq<string>
    var notices: seq<Notice>

    function Snapshot(): Ui
      reads this
    {
      Ui(account, storage, actions, navigations, notices)
    }

    /** The first render and its mount effect: nothing shown yet, and the
        listeners capture the empty account. */
    constructor (hasProvider: bool, storage: Storage)
      ensures account == "" && !isConnecting
      ensures isMetaMaskInstalled == hasProvider && listenerAccount == ""
      ensures this.storage == storage && actions == [] && navigations == [] && notices == []
    {
      account := "";
      isConnecting := false;
      isMetaMaskInstalled := hasProvider;
      listenerAccount := "";
      this.storage := storage;
      actions := [];
      navigations := [];
      notices := [];
    }

    /** `checkIfWalletIsConnected`, run at mount: show the first authorised
        account if there is one; a failed query is ignored. */
    method CheckIfWalletIsConnected(reply: AccountsReply)
      modifies this`account
      ensures isMetaMaskInstalled && reply.Accounts? && reply.accounts != [] ==> account == reply.accounts[0]
      ensures !(isMetaMaskInstalled && reply.Accounts? && reply.accounts != []) ==> account == old(account)
    {
      if isMetaMaskInstalled {
        match reply
        case Accounts(list) =>
          if |list| > 0 {
            account := list[0];
          }
        case AccountsThrows =>
      }
    }

    /** `authenticateWithBackend` */
    method AuthenticateWithBackend(walletAddress: string, message: string, signature: string, backend: BackendReply)
      modifies this`account, this`storage, this`actions, this`navigations, this`notices
      ensures actions == old(actions) + [Web3Login(walletAddress, message, signature)]
      ensures backend.Completes? ==>
                && account == old(account)
                && storage == SaveMarkers(old(storage), walletAddress)
                && navigations == old(navigations) + [DashboardPath]
                && notices == old(notices) + [LoggedIn(FormatAddress(walletAddress))]
      ensures backend.DispatchThrows? ==>
                && account == ""
                && storage == old(storage)
                && navigations == old(navigations)
                && notices == old(notices) + [AuthFailed]
    {
      actions := actions + [Web3Login(walletAddress, message, signature)];
      if backend.DispatchThrows? {
        notices := notices + [AuthFailed];
        account := "";
        return;
      }
      storage := storage[WalletAddressKey := walletAddress];
      storage := storage[AuthMethodKey := Web3Method];
      notices := notices + [LoggedIn(FormatAddress(walletAddress))];
      navigations := navigations + [DashboardPath];
    }

    /** `signMessage`: never lets an error out. */
    method SignMessage(walletAddress: string, signing: SignReply, backend: BackendReply, now: nat)
      modifies this`account, this`storage, this`actions, this`navigations, this`notices
      ensures Snapshot() == SignIn(old(Snapshot()), walletAddress, signing, backend, now)
    {
      match signing
      case SignFails =>
        notices := notices + [SignFailed];
        account := "";
      case Signed(signature) =>
        var message := Challenge(walletAddress, now);
        AuthenticateWithBackend(walletAddress, message, signature, backend);
    }

    /** `connectWallet`: the busy flag is up for the whole attempt and down
        after it, on every path. */
    method ConnectWallet(reply: RequestReply, signing: SignReply, backend: BackendReply, now: nat)
      modifies this
      ensures !isMetaMaskInstalled ==> isConnecting == old(isConnecting)
      ensures isMetaMaskInstalled ==> !isConnecting
      ensures Snapshot() == Connect(old(Snapshot()), isMetaMaskInstalled, reply, signing, backend, now)
    {
      if !isMetaMaskInstalled {
        notices := notices + [NotInstalled];
        return;
      }
      isConnecting := true;
      match reply {
        case RequestFails(code) =>
          notices := notices + [if code == 4001 then PleaseConnect else ConnectFailed];
        case Granted(accounts) =>
          if |accounts| > 0 {
            var selected := accounts[0];
            account := selected;
            SignMessage(selected, signing, backend, now);
            assert isConnecting;
          }
      }
      isConnecting := false;
    }

    /** `disconnectWallet` */
    method DisconnectWallet()
      modifies this`account, this`storage, this`notices
      ensures Snapshot() == Disconnect(old(Snapshot()))
    {
      account := "";
      storage := storage - {WalletAddressKey};
      storage := storage - {AuthMethodKey};
      notices := notices + [DisconnectDone];
    }

    /** `handleWalletDisconnection`; `pathname` is the current location's path. */
    method HandleWalletDisconnection(pathname: string)
      modifies this`account, this`storage, this`actions, this`navigations, this`notices
      ensures Snapshot() == Teardown(old(Snapshot()), pathname)
    {
      account := "";
      storage := storage - {WalletAddressKey};
      storage := storage - {AuthMethodKey};
      actions := actions + [Logout];
      notices := notices + [WalletDisconnected];
      if Includes(pathname, DashboardPath) {
        navigations := navigations + [LoginPath];
      }
    }

    /** The `accountsChanged` listener installed at mount. Its error branch
        is unreachable: `SignMessage` never fails. */
    method HandleAccountsChanged(accounts: seq<string>, signing: SignReply, backend: BackendReply,
                                 now: nat, pathname: string)
      requires isMetaMaskInstalled
      modifies this`account, this`storage, this`actions, this`navigations, this`notices
      ensures Snapshot() == AccountsChanged(old(Snapshot()), listenerAccount, accounts, signing, backend, now, pathname)
    {
      if |accounts| == 0 {
        HandleWalletDisconnection(pathname);
      } else if accounts[0] != listenerAccount {
        var newAccount := accounts[0];
        account := newAccount;
        notices := notices + [Switched(FormatAddress(newAccount))];
        SignMessage(newAccount, signing, backend, now);
      }
    }

    /** The `disconnect` listener. */
    method HandleDisconnect(pathname: string)
      requires isMetaMaskInstalled
      modifies this`account, this`storage, this`actions, this`navigations, this`notices
      ensures Snapshot() == Teardown(old(Snapshot()), pathname)
    {
      HandleWalletDisconnection(pathname);
    }

    /** The `chainChanged` listener: a toast, no change of state. */
    method HandleChainChanged(chainId: string)
      requires isMetaMaskInstalled
      modifies this`notices
      ensures notices == old(notices) + [NetworkChanged]
    {
      notices := notices + [NetworkChanged];
    }
  }
}
