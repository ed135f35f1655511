# Wallet login: a Dafny model

This project models the wallet ("Web3") login path of a point-of-sale web
application. It covers four parts of the system:

- **Server handlers.** `web3Login` and `web3Register`
  (`server/controllers/web3Auth.js`) check a signed challenge. They recover
  the signer's address and compare it, ignoring letter case, with the
  claimed wallet address. They then find or create the user record, which
  is keyed by the lower-cased address, and answer with the user and a
  token.
- **Login button.** The `Web3Auth` component
  (`client/src/Components/Web3/Web3Auth.jsx`) asks the wallet for
  accounts and has the first account sign a challenge. The challenge is a
  fixed sentence, the address and a millisecond timestamp. The component
  sends the signed challenge to the backend. On success it stores two
  `localStorage` markers (`walletAddress`, `authMethod = web3`) and goes to
  the dashboard. It follows the wallet's `accountsChanged`, `disconnect` and
  `chainChanged` events.
- **Dashboard page.** The `WalletInfo` page
  (`client/src/Pages/DashBoard/WalletInfo.jsx`) restores a session from
  the signed-in user or the markers. It re-checks that session against the
  wallet and keeps a log of the last five connection events. It tears the
  session down when the wallet goes away: the markers are removed, `LOGOUT`
  is dispatched and a redirect to `/auth/login` is scheduled.
- **Status panel.** The `WalletStatus` panel
  (`client/src/Components/Web3/WalletStatus.jsx`) tracks a five-valued
  connection status and the network name. It renders one of four views.

Modules:

| module | file | contents |
|---|---|---|
| `Wrappers` | `wrappers.dfy` | `Option` |
| `Text` | `text.dfy` | The JavaScript string operations the code uses: ASCII `toLowerCase`, `slice`, `includes`, and the decimal text of `Date.now()`. |
| `Browser` | `browser.dfy` | Wallet-provider replies, the `localStorage` markers, and store actions. |
| `ServerAuth` | `server_auth.dfy` | Value-level specifications `Login` and `Register` over a `Store`. The class `UserCollection` holds the collection: `FindOne` and `Create` state the lookup and the insertion directly, and the handlers `Web3Login` and `Web3Register` run step by step and are proved equal to `Login` and `Register`. |
| `WalletStatus` | `wallet_status.dfy` | Network table, view selection, and the class `StatusTracker`. |
| `WalletInfo` | `wallet_info.dfy` | Event log, session restore, and the class `DashboardWallet`. |
| `Web3Auth` | `web3_auth.dfy` | Challenge text. The functions `SignIn`, `Connect`, `Teardown`, `Disconnect` and `AccountsChanged` work on the observable state `Ui`. In the class `AuthController`, `SignMessage`, `ConnectWallet`, `DisconnectWallet`, `HandleWalletDisconnection`, `HandleAccountsChanged` and `HandleDisconnect` are proved equal to one of them; `CheckIfWalletIsConnected`, `AuthenticateWithBackend` and `HandleChainChanged` state their new state directly. |

Conventions:

- JavaScript falsy strings (`undefined`, `null`, `''`) are written `""`.
- The effects of a React component live on its class's fields:
  - state;
  - `localStorage`;
  - dispatched actions;
  - navigations;
  - toasts, in the login button only.
- Anything the code awaits from outside becomes a parameter of the operation:
  - a wallet reply;
  - the result of signing;
  - the backend dispatch;
  - `Date.now()`;
  - the signature-recovery function `ethers.verifyMessage`.

## Model

| member | source | states |
|---|---|---|
| Text.Lower | server/controllers/web3Auth.js:18 | `toLowerCase` keeps the length and lower-cases each character on its own. |
| Text.LowerIdempotent | server/controllers/web3Auth.js:23 | Lower-casing an already lower-cased address changes nothing, so the stored key is canonical. |
| Text.SameAddressIsEquivalence | server/controllers/web3Auth.js:18 | Case-insensitive address comparison is reflexive, symmetric and transitive, and every address matches its lower-case form. |
| Text.AnyMatches | client/src/Components/Web3/WalletStatus.jsx:23-25 | `accounts.some(...)` holds exactly when some account equals the address up to letter case. |
| Text.Take | server/controllers/web3Auth.js:30 | `slice(0, n)` is a prefix of length `min(n, length)`. |
| Text.TakeLast | client/src/Components/Web3/WalletStatus.jsx:93 | `slice(-n)` is the last `min(n, length)` characters. |
| Text.Decimal | server/controllers/web3Auth.js:82 | `Date.now()` in a template literal renders as digits only, with at least one digit and no leading zero. |
| Text.DecimalRoundTrip | server/controllers/web3Auth.js:82 | Parsing the decimal text gives back the number. |
| Text.DecimalInjective | client/src/Components/Web3/Web3Auth.jsx:85 | Different timestamps give different decimal texts. |
| Browser.GetItem | client/src/Pages/DashBoard/WalletInfo.jsx:19-20 | `getItem` returns the stored value exactly when the key is present, and `null` otherwise. |
| Browser.SaveMarkers | client/src/Components/Web3/Web3Auth.jsx:105-106 | Sets `walletAddress` to the address and `authMethod` to `web3`. Every other key is kept. |
| Browser.ClearMarkers | client/src/Components/Web3/Web3Auth.jsx:189-190 | Removes exactly the two markers. |
| Browser.ClearUndoesSave | client/src/Pages/DashBoard/WalletInfo.jsx:112-113 | Clearing after saving equals clearing alone. Clearing twice equals clearing once. |
| ServerAuth.CheckProof | server/controllers/web3Auth.js:11-20 | Returns 400 if a field is missing, 500 if recovery throws, and 401 if the recovered address differs. It lets the request through if and only if the proof is accepted. |
| ServerAuth.Login | server/controllers/web3Auth.js:7-55 | The status is one of 200, 400, 401 or 500, with each error case stated. A failure leaves the store unchanged. Success happens if and only if the proof is accepted. A known address returns its record unchanged. An unknown address inserts one default record. The token carries the id, the role and the lower-cased address. The store invariant is kept. |
| ServerAuth.Register | server/controllers/web3Auth.js:57-106 | The status is one of 201, 400, 401 or 500. An address that already exists gets a 400. Success happens if and only if the proof is accepted and the address is new, and then exactly one record is inserted. The store invariant is kept. |
| ServerAuth.LoginCreatesDefaults | server/controllers/web3Auth.js:27-36 | A first login creates exactly one record: `Web3 User`, city `Digital`, a `web3_` username from the first 8 characters, the lower-cased address, the placeholder password, role `client` and method `web3`. |
| ServerAuth.RegisterCreatesDefaults | server/controllers/web3Auth.js:79-88 | Empty name and city fields fall back to `Web3`, `User` and `Digital`. The username ends with `_` and the timestamp. The other fields are fixed. |
| ServerAuth.LoginIdempotent | server/controllers/web3Auth.js:23-37 | Two logins for the same address, in any letter case, return the same user. Only the first login can add a record. |
| ServerAuth.RegisterRejectsSecond | server/controllers/web3Auth.js:73-76 | Registering an address a second time, in any letter case, gives a 400 and leaves the store unchanged. |
| ServerAuth.LoginFindsRegistered | server/controllers/web3Auth.js:23-25 | After registration, login returns the registered user and creates nothing. |
| ServerAuth.LoginUsernamesCanCollide | server/controllers/web3Auth.js:30 | Two different wallets can be given the same login username. |
| ServerAuth.UserCollection.FindOne | server/controllers/web3Auth.js:23 | `findOne` finds the record stored under that exact key. |
| ServerAuth.UserCollection.Create | server/controllers/web3Auth.js:27-36 | `create` stores the draft under a fresh id and keeps the invariant. |
| ServerAuth.UserCollection.Web3Login | server/controllers/web3Auth.js:7-55 | The step-by-step handler returns the response that `Login` specifies and leaves the store in the state `Login` specifies. |
| ServerAuth.UserCollection.Web3Register | server/controllers/web3Auth.js:57-106 | The step-by-step handler returns the response that `Register` specifies and leaves the store in the state `Register` specifies. |
| WalletStatus.GetNetworkName | client/src/Components/Web3/WalletStatus.jsx:76-89 | A listed id gets its name. An unlisted id gets `Unknown Network (id)`: the prefix, the id, then `)`, with its length stated. A label starts with the unknown prefix if and only if the id is not listed. |
| WalletStatus.NetworkTable | client/src/Components/Web3/WalletStatus.jsx:77-87 | The table lists exactly the nine chain ids. |
| WalletStatus.FormatAddress | client/src/Components/Web3/WalletStatus.jsx:91-94 | Returns empty if and only if the address is empty. Otherwise it gives the first six characters, `...`, then the last four. |
| WalletStatus.FormatFullAddress | client/src/Components/Web3/WalletStatus.jsx:93 | A 42-character address has a 13-character short form. |
| WalletStatus.SelectView | client/src/Components/Web3/WalletStatus.jsx:96-138 | For each of the four views, an if-and-only-if states when it is shown. No-wallet takes precedence over every status. |
| WalletStatus.AccountChangeStatus | client/src/Components/Web3/WalletStatus.jsx:47-58 | No accounts gives disconnected. If the first account equals the tracked address up to letter case, the status is connected. Otherwise it is account-changed. |
| WalletStatus.OnlyFirstAccountCounts | client/src/Components/Web3/WalletStatus.jsx:51-52 | Accounts after the first never change the status. |
| WalletStatus.StatusTracker.constructor | client/src/Components/Web3/WalletStatus.jsx:7-9 | The status starts as checking, with no network info. |
| WalletStatus.StatusTracker.ReceiveProps | client/src/Components/Web3/WalletStatus.jsx:7-16 | New props replace the address and the flag. The status and the network are kept. |
| WalletStatus.StatusTracker.CheckRealTimeConnection | client/src/Components/Web3/WalletStatus.jsx:18-43 | With no address or no wallet, nothing happens. Otherwise: a failed query gives error, no match gives disconnected, and a match gives connected plus the network info. A failed chain query after a match gives error. |
| WalletStatus.StatusTracker.HandleAccountChange | client/src/Components/Web3/WalletStatus.jsx:47-58 | The status becomes `AccountChangeStatus` against the address the listener captured, which may no longer be the tracked one. |
| WalletStatus.StatusTracker.HandleChainChange | client/src/Components/Web3/WalletStatus.jsx:60-63 | Only the network info changes, to the id and its label, whether or not an address is still tracked. |
| WalletInfo.PushEvent | client/src/Pages/DashBoard/WalletInfo.jsx:106 | The new event goes first, followed by the first four of the old log; equivalently, the first five of the event prepended to the log. |
| WalletInfo.ReplayKeepsNewest | client/src/Pages/DashBoard/WalletInfo.jsx:99-107 | After any sequence of events, the log holds the five most recent, newest first. |
| WalletInfo.RestoredAddress | client/src/Pages/DashBoard/WalletInfo.jsx:17-31 | The restored address is the user's wallet when `authMethod` is `web3` and the user has one. Otherwise it is exactly the stored `walletAddress` marker when that is non-empty. Otherwise there is none, and that is stated as an if-and-only-if. |
| WalletInfo.RestoreAfterSaveAndClear | client/src/Pages/DashBoard/WalletInfo.jsx:19-25 | Saved markers restore the session. Cleared markers restore nothing, whoever the user is. |
| WalletInfo.DashboardWallet.constructor | client/src/Pages/DashBoard/WalletInfo.jsx:13-15 | No address, not connected, and an empty log. |
| WalletInfo.DashboardWallet.AddConnectionEvent | client/src/Pages/DashBoard/WalletInfo.jsx:99-107 | The log becomes `PushEvent` of the old log, and stays at five events or fewer. |
| WalletInfo.DashboardWallet.SyncWithUser | client/src/Pages/DashBoard/WalletInfo.jsx:17-31 | The address and flag follow `RestoredAddress`. With nothing to restore, the old address is kept. |
| WalletInfo.DashboardWallet.CheckConnection | client/src/Pages/DashBoard/WalletInfo.jsx:35-53 | The flag becomes whether any account matches. A loss is logged as a warning and a failed query as an error. Nothing happens when not listening. |
| WalletInfo.DashboardWallet.HandleWalletDisconnection | client/src/Pages/DashBoard/WalletInfo.jsx:109-124 | Clears the address, the flag and the markers. Appends `LOGOUT`, and schedules `/auth/login`. |
| WalletInfo.DashboardWallet.HandleManualDisconnect | client/src/Pages/DashBoard/WalletInfo.jsx:126-129 | Does the teardown and logs `Manual disconnect`. |
| WalletInfo.DashboardWallet.HandleAccountsChanged | client/src/Pages/DashBoard/WalletInfo.jsx:57-67 | No accounts: logs it and tears down. Another first account: logs the switch and follows it, keeping the flag. The same account in any letter case: no change. |
| WalletInfo.DashboardWallet.HandleDisconnect | client/src/Pages/DashBoard/WalletInfo.jsx:69-73 | Logs the event and tears down. |
| WalletInfo.DashboardWallet.HandleChainChanged | client/src/Pages/DashBoard/WalletInfo.jsx:75-78 | Only the log changes, by one info line. |
| Web3Auth.ChallengeFormat | client/src/Components/Web3/Web3Auth.jsx:85 | The challenge is the sentence, then `\nWallet: ` and the address, then `\nTimestamp: ` and the decimal time. Each part can be read back from its place. |
| Web3Auth.ChallengeEndsInDigits | client/src/Components/Web3/Web3Auth.jsx:85 | The challenge ends in the timestamp's digits, preceded by the space of `Timestamp: `. |
| Web3Auth.ChallengeUnique | client/src/Components/Web3/Web3Auth.jsx:85 | Equal challenges come from the same address at the same millisecond, whatever characters the addresses contain. |
| Web3Auth.FormatAddress | client/src/Components/Web3/Web3Auth.jsx:127-129 | Gives the first six characters, `...`, then the last four. It has no guard for an empty address. |
| Web3Auth.FormatAddressesAgree | client/src/Components/Web3/Web3Auth.jsx:127-129 | Agrees with the panel's `formatAddress` on every non-empty address. They differ on the empty one. |
| Web3Auth.SignIn | client/src/Components/Web3/Web3Auth.jsx:79-118 | A signature leads to one `web3Login` dispatch with the challenge. The markers, the dashboard navigation and the success toast happen only when the dispatch completes. Every failure clears the account and never logs out. |
| Web3Auth.Teardown | client/src/Components/Web3/Web3Auth.jsx:187-201 | Clears the account and the markers, and appends `LOGOUT`. Goes to `/auth/login` only from a path that contains `/dashboard`. |
| Web3Auth.Disconnect | client/src/Components/Web3/Web3Auth.jsx:120-125 | Clears the account and the markers. There is no `LOGOUT` and no navigation. |
| Web3Auth.Connect | client/src/Components/Web3/Web3Auth.jsx:47-77 | Not installed: only a toast. Error code 4001 gets one toast and any other error gets another. An empty grant does nothing. Otherwise it shows the first account and signs in with it. |
| Web3Auth.AccountsChanged | client/src/Components/Web3/Web3Auth.jsx:152-174 | No accounts: teardown. A first account different from the captured one, compared case-sensitively: show it and sign in again. Otherwise nothing. |
| Web3Auth.MarkersOnlyAfterBackend | client/src/Components/Web3/Web3Auth.jsx:100-106 | The storage changes only when signing and the dispatch both succeed, and then the markers name the signer. |
| Web3Auth.FailedReauthKeepsMarkers | client/src/Components/Web3/Web3Auth.jsx:152-174 | A failed re-authentication after a switch clears only the account. The markers stay, and there is no `LOGOUT` and no redirect. |
| Web3Auth.SameAccountSignsAgain | client/src/Components/Web3/Web3Auth.jsx:152-167 | The listener captured an empty account, so a repeat of the current account still starts a new signature request. |
| Web3Auth.DisconnectVersusTeardown | client/src/Components/Web3/Web3Auth.jsx:120-125 | The button and the teardown leave the same storage and account, but only the teardown logs out. A teardown after a login leaves no marker. |
| Web3Auth.AuthController.constructor | client/src/Components/Web3/Web3Auth.jsx:10-32 | No account and not connecting. The listeners capture the empty account. |
| Web3Auth.AuthController.CheckIfWalletIsConnected | client/src/Components/Web3/Web3Auth.jsx:34-45 | Shows the first authorised account if there is one. A failed query is ignored. |
| Web3Auth.AuthController.AuthenticateWithBackend | client/src/Components/Web3/Web3Auth.jsx:100-118 | Dispatches once. On completion it saves the markers, navigates to the dashboard and raises a toast. If the dispatch throws, it clears the account and raises one toast. |
| Web3Auth.AuthController.SignMessage | client/src/Components/Web3/Web3Auth.jsx:79-98 | The new state equals `SignIn` of the old state. |
| Web3Auth.AuthController.ConnectWallet | client/src/Components/Web3/Web3Auth.jsx:47-77 | The new state equals `Connect` of the old state. When the wallet is installed, the busy flag is down afterwards. |
| Web3Auth.AuthController.DisconnectWallet | client/src/Components/Web3/Web3Auth.jsx:120-125 | The new state equals `Disconnect` of the old state. |
| Web3Auth.AuthController.HandleWalletDisconnection | client/src/Components/Web3/Web3Auth.jsx:187-201 | The new state equals `Teardown` of the old state. |
| Web3Auth.AuthController.HandleAccountsChanged | client/src/Components/Web3/Web3Auth.jsx:152-174 | The new state equals `AccountsChanged` of the old state, using the listener's captured account. |
| Web3Auth.AuthController.HandleDisconnect | client/src/Components/Web3/Web3Auth.jsx:176-179 | The new state equals `Teardown` of the old state. |
| Web3Auth.AuthController.HandleChainChanged | client/src/Components/Web3/Web3Auth.jsx:181-185 | Only one toast is added. |

## Behaviour of the code worth knowing

The model follows the code in each case.

- In `Web3Auth.jsx`, re-authentication after an account switch goes through `signMessage` (lines 166-172). `signMessage` and `authenticateWithBackend` catch every error themselves. The catch that would tear the session down is therefore never reached. A failed re-authentication clears only the account, and the previous markers stay (`FailedReauthKeepsMarkers`).
- The `Web3Auth.jsx` listeners are installed once, at mount (lines 18-32). They compare against the `account` of the first render, which is `''`. The comparison is case-sensitive (line 158). Any non-empty first account therefore triggers a new signature (`SameAccountSignsAgain`).
- In `WalletStatus.jsx`, nothing resets the status to `checking` when the address changes. A changed address keeps its old status until a check or an event arrives (`ReceiveProps`).
- The cleanup function that `setupConnectionMonitoring` returns is thrown away by its caller's effect (`WalletStatus.jsx` lines 11-16). Listeners are never removed, so every address the panel has tracked leaves an `accountsChanged` and a `chainChanged` listener behind. `HandleAccountChange` therefore takes the address its listener captured, and `HandleChainChange` does not need an address at all.
- No counter or sequence number orders concurrent connection attempts. Overlapping attempts are not modelled.

## Left out

- ServerAuth.Login: assumes `jwt.sign` does not throw. In the code it runs after `User.create` (`web3Auth.js` lines 27-43). If it throws, for example with no `JWT_SECRET`, the answer is a 500 but the new record stays in the database, while the model promises that every failure leaves the store unchanged.
- ServerAuth.Register: assumes `jwt.sign` does not throw. In the code it runs after `User.create` (`web3Auth.js` lines 79-94). If it throws, the answer is a 500 but the record stays, so a retry gets the duplicate-address 400; the model has no such path.
- Signature recovery (`ethers.verifyMessage`) and JWT signing. Recovery is a parameter `Verifier` that either recovers an address or throws. The token is the payload it would sign (`_id`, `role`, address). No ECDSA and no secret key are modelled.
- Database failures. `User.findOne` and `User.create` throwing would turn into a 500. The collection is a map, and its ids come from a counter.
- Concurrent requests that race `findOne` against `create`, which could create duplicate users in the database, are not modelled. The handlers run one at a time.
- Non-string request fields. Absent, `null` and empty fields are all `""`. A non-string field that would make `toLowerCase` throw is not modelled.
- `Text.Lower` lower-cases only ASCII `A`–`Z`, where JavaScript's `toLowerCase` covers all of Unicode. Wallet addresses are hexadecimal.
- The network lookup in `WalletStatus.jsx` is a plain object, so an id such as `constructor` would pick up a prototype member. The model treats the table as a map of the nine ids.
- The toasts of `WalletInfo.jsx` and `WalletStatus.jsx`, the rendering beyond the choice of view, and the event ids and times of day (`Date.now()`, `toLocaleTimeString`).
- The order of React effects, scheduling, re-renders, and the 2-second redirect delay. A scheduled navigation is recorded in a list. Listener registration and removal are left out.
- The `web3Login` action creator and the Redux store. The store module under `client/src/redux/` is not part of this model. A dispatch either completes or throws.
- WalletStatus.StatusTracker.HandleAccountChange: the panel discards the cleanup of its listeners (`WalletStatus.jsx` lines 11-16), so a listener installed for every address ever tracked stays installed. Each call models one such listener, with the address it captured. The order in which several leaked listeners run on one event, and so whose status is left last, is not modelled.
- WalletInfo.DashboardWallet.HandleAccountsChanged, `HandleDisconnect` and `HandleChainChanged` require a wallet and a held address: the page installs its listeners only then and removes them when the address changes (`WalletInfo.jsx` lines 84-96).
- `Web3Auth.AuthController.HandleAccountsChanged`, `HandleDisconnect` and `HandleChainChanged` require `isMetaMaskInstalled`, because the listeners exist only when a wallet is present.
- The `isFetching` flag and the install link of `Web3Auth.jsx` concern only rendering.
