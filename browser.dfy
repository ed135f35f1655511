/** What the client components share with their surroundings: the replies
    of the injected wallet provider, the two `localStorage` markers that
    let a wallet session survive a reload, and the store actions the
    components dispatch. */
module Browser {
  import opened Wrappers

  /** Outcome of `ethereum.request({ method: 'eth_accounts' })`. */
  datatype AccountsReply = Accounts(accounts: seq<string>) | AccountsThrows

  /** A store action: the `web3Login` thunk with its request body, or `LOGOUT`. */
  datatype Action = Web3Login(walletAddress: string, message: string, signature: string) | Logout

  /** `localStorage`: string keys to string values. */
  type Storage = map<string, string>

  const WalletAddressKey := "walletAddress"
  const AuthMethodKey := "authMethod"
  const Web3Method := "web3"

  const LoginPath := "/auth/login"
  const DashboardPath := "/dashboard"

  /** `localStorage.getItem(key)`, with `null` as `None`. */
  function GetItem(storage: Storage, key: string): (r: Option<string>)
    ensures r.Some? <==> key in storage
    ensures r.Some? ==> r.value == storage[key]
  {
    if key in storage then Some(storage[key]) else None
  }

  /** The two `setItem` calls made after a successful wallet login. */
  function SaveMarkers(storage: Storage, walletAddress: string): (r: Storage)
    ensures r.Keys == storage.Keys + {WalletAddressKey, AuthMethodKey}
    ensures r[WalletAddressKey] == walletAddress && r[AuthMethodKey] == Web3Method
    ensures forall k :: k in storage && k != WalletAddressKey && k != AuthMethodKey ==> r[k] == storage[k]
  {
    storage[WalletAddressKey := walletAddress][AuthMethodKey := Web3Method]
  }

  /** The two `removeItem` calls of every wallet teardown. */
  function ClearMarkers(storage: Storage): (r: Storage)
    ensures r.Keys == storage.Keys - {WalletAddressKey, AuthMethodKey}
    ensures forall k :: k in r ==> r[k] == storage[k]
  {
    storage - {WalletAddressKey, AuthMethodKey}
  }

  /** Clearing undoes saving: a login followed by a teardown leaves every
      other key as it was and no marker behind; clearing twice is clearing
      once. */
  lemma ClearUndoesSave(storage: Storage, walletAddress: string)
    ensures ClearMarkers(SaveMarkers(storage, walletAddress)) == ClearMarkers(storage)
    ensures ClearMarkers(ClearMarkers(storage)) == ClearMarkers(storage)
  {
    assert ClearMarkers(SaveMarkers(storage, walletAddress)).Keys == ClearMarkers(storage).Keys;
  }
}
