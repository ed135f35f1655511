/** The dashboard's wallet page (client/src/Pages/DashBoard/WalletInfo.jsx).

    It restores a wallet session from the signed-in user or the stored
    markers, re-checks it against the wallet, follows the wallet's events,
    and keeps a short log of what happened, newest first and at most five
    entries long. Losing the wallet (no accounts left, a `disconnect`
    event, or the user's button) tears the session down: markers removed,
    `LOGOUT` dispatched, a redirect to the login page scheduled. */
module WalletInfo {
  import opened Wrappers
  import opened Text
  import opened Browser

  datatype Severity = Info | Warning | Error

  /** One line of the connection log; its id and time of day are not modelled. */
  datatype ConnectionEvent = ConnectionEvent(message: string, severity: Severity)

  const MaxEvents := 5

  /** `addConnectionEvent` on the log: `[event, ...prev.slice(0, 4)]`. */
  function PushEvent(log: seq<ConnectionEvent>, event: ConnectionEvent): (r: seq<ConnectionEvent>)
    ensures |r| <= MaxEvents
    ensures r == Take([event] + log, MaxEvents)
  {
    [event] + Take(log, MaxEvents - 1)
  }

  /** The events of `es` with the latest first. */
  function NewestFirst(es: seq<ConnectionEvent>): seq<ConnectionEvent> {
    if es == [] then [] else [es[|es| - 1]] + NewestFirst(es[..|es| - 1])
  }

  /** The log after recording the events of `es` one after the other. */
  function Replay(log: seq<ConnectionEvent>, es: seq<ConnectionEvent>): seq<ConnectionEvent> {
    if es == [] then log else PushEvent(Replay(log, es[..|es| - 1]), es[|es| - 1])
  }

  /** Keeping the first five of a log that was already cut to five changes nothing. */
  lemma TakeTake(event: ConnectionEvent, log: seq<ConnectionEvent>)
    ensures Take([event] + Take(log, MaxEvents), MaxEvents) == Take([event] + log, MaxEvents)
  {
  }

  /** Whatever was recorded, the log holds the five most recent events
      (fewer if there were fewer), latest first, followed by what survives
      of the older log. */
  lemma {:induction false} ReplayKeepsNewest(log: seq<ConnectionEvent>, es: seq<ConnectionEvent>)
    requires |log| <= MaxEvents
    ensures Replay(log, es) == Take(NewestFirst(es) + log, MaxEvents)
    ensures |Replay(log, es)| <= MaxEvents
  {
    if es != [] {
      var init, last := es[..|es| - 1], es[|es| - 1];
      ReplayKeepsNewest(log, init);
      calc {
        Replay(log, es);
        PushEvent(Replay(log, init), last);
        Take([last] + Take(NewestFirst(init) + log, MaxEvents), MaxEvents);
        { TakeTake(last, NewestFirst(init) + log); }
        Take([last] + (NewestFirst(init) + log), MaxEvents);
        { assert [last] + (NewestFirst(init) + log) == NewestFirst(es) + log; }
        Take(NewestFirst(es) + log, MaxEvents);
      }
    }
  }

  /** The address a fresh page picks: the signed-in user's wallet when the
      stored auth method is `web3` and the user has one, otherwise a
      non-empty stored `walletAddress` marker, otherwise none.
      `userWallet` is `currentUser?.walletAddress`, with `""` for none. */
  function RestoredAddress(storage: Storage, userWallet: string): (r: Option<string>)
    ensures r.Some? ==> r.value != ""
    ensures GetItem(storage, AuthMethodKey) == Some(Web3Method) && userWallet != "" ==> r == Some(userWallet)
    ensures !(GetItem(storage, AuthMethodKey) == Some(Web3Method) && userWallet != "") && r.Some? ==>
              WalletAddressKey in storage && r == Some(storage[WalletAddressKey])
    ensures r.None? <==>
              !(GetItem(storage, AuthMethodKey) == Some(Web3Method) && userWallet != "") &&
              GetItem(storage, WalletAddressKey).GetOr("") == ""
  {
    var authMethod := GetItem(storage, AuthMethodKey);
    var stored := GetItem(storage, WalletAddressKey);
    if authMethod == Some(Web3Method) && userWallet != "" then Some(userWallet)
    else if stored.GetOr("") != "" then stored
    else None
  }

  /** The markers a wallet login saves bring the session back on a fresh
      page even before the user is known; after a teardown has cleared
      them there is nothing to restore, whoever the user is. */
  lemma RestoreAfterSaveAndClear(storage: Storage, walletAddress: string, userWallet: string)
    requires walletAddress != ""
    ensures RestoredAddress(SaveMarkers(storage, walletAddress), "") == Some(walletAddress)
    ensures RestoredAddress(SaveMarkers(storage, walletAddress), userWallet) ==
            Some(if userWallet != "" then userWallet else walletAddress)
    ensures RestoredAddress(ClearMarkers(storage), userWallet) == None
  {
  }

  /** The log line for an account switch. */
  function SwitchEvent(from: string, to: string): ConnectionEvent {
    ConnectionEvent("Account switched from " + Take(from, 6) + "... to " + Take(to, 6) + "...", Info)
  }

  /** The page's state and what it does to the browser. */
  class DashboardWallet {
    var walletAddress: string
    var isConnected: bool
    var events: seq<ConnectionEvent>
    var storage: Storage
    /** Actions dispatched to the store, in order. */
    var actions: seq<Action>
    /** Navigations scheduled by `setTimeout`, in order. */
    var scheduled: seq<string>
    /** Whether `window.ethereum` exists. */
    const hasProvider: bool

    ghost predicate Valid()
      reads this
    {
      |events| <= MaxEvents
    }

    /** The wallet checks and listeners exist only while an address is
        held and a wallet is present. */
    predicate Listening()
      reads this
    {
      hasProvider && walletAddress != ""
    }

    constructor (storage: Storage, hasProvider: bool)
      ensures Valid()
      ensures walletAddress == "" && !isConnected && events == []
      ensures this.storage == storage && actions == [] && scheduled == []
      ensures this.hasProvider == hasProvider
    {
      walletAddress := "";
      isConnected := false;
      events := [];
      this.storage := storage;
      actions := [];
      scheduled := [];
      this.hasProvider := hasProvider;
    }

    /** `addConnectionEvent` */
    method AddConnectionEvent(message: string, severity: Severity)
      requires Valid()
      modifies this`events
      ensures Valid()
      ensures events == PushEvent(old(events), ConnectionEvent(message, severity))
    {
      events := [ConnectionEvent(message, severity)] + Take(events, MaxEvents - 1);
    }

    /** The effect that runs when the signed-in user changes. With nothing
        to restore it clears the flag but keeps the address it had. */
    method SyncWithUser(userWallet: string)
      modifies this`walletAddress, this`isConnected
      ensures match RestoredAddress(storage, userWallet)
              case Some(address) => walletAddress == address && isConnected
              case None => walletAddress == old(walletAddress) && !isConnected
    {
      var authMethod := GetItem(storage, AuthMethodKey);
      var stored := GetItem(storage, WalletAddressKey);
      if authMethod == Some(Web3Method) && userWallet != "" {
        walletAddress := userWallet;
        isConnected := true;
      } else if stored.GetOr("") != "" {
        walletAddress := stored.value;
        isConnected := true;
      } else {
        isConnected := false;
      }
    }

    /** `checkConnection`: the flag becomes whether any authorised account
        is the held address up to letter case; a lost wallet is logged as a
        warning, a failed query as an error. */
    method CheckConnection(reply: AccountsReply)
      requires Valid()
      modifies this`isConnected, this`events
      ensures Valid()
      ensures !Listening() ==> isConnected == old(isConnected) && events == old(events)
      ensures Listening() ==>
                match reply
                case Accounts(list) =>
                  && isConnected == AnyMatches(list, walletAddress)
                  && events == if isConnected then old(events)
                               else PushEvent(old(events), ConnectionEvent("Wallet disconnected", Warning))
                case AccountsThrows =>
                  !isConnected && events == PushEvent(old(events), ConnectionEvent("Connection check failed", Error))
    {
      if hasProvider && walletAddress != "" {
        match reply
        case Accounts(list) =>
          var stillConnected := AnyMatches(list, walletAddress);
          isConnected := stillConnected;
          if !stillConnected {
            AddConnectionEvent("Wallet disconnected", Warning);
          }
        case AccountsThrows =>
          isConnected := false;
          AddConnectionEvent("Connection check failed", Error);
      }
    }

    /** `handleWalletDisconnection`: the teardown. */
    method HandleWalletDisconnection()
      modifies this`walletAddress, this`isConnected, this`storage, this`actions, this`scheduled
      ensures walletAddress == "" && !isConnected
      ensures storage == ClearMarkers(old(storage))
      ensures actions == old(actions) + [Logout]
      ensures scheduled == old(scheduled) + [LoginPath]
    {
      walletAddress := "";
      isConnected := false;
      storage := storage - {WalletAddressKey};
      storage := storage - {AuthMethodKey};
      actions := actions + [Logout];
      scheduled := scheduled + [LoginPath];
    }

    /** `handleManualDisconnect`: the teardown, then one more log line; the
        log itself is kept. */
    method HandleManualDisconnect()
      requires Valid()
      modifies this
      ensures Valid()
      ensures walletAddress == "" && !isConnected
      ensures storage == ClearMarkers(old(storage))
      ensures actions == old(actions) + [Logout]
      ensures scheduled == old(scheduled) + [LoginPath]
      ensures events == PushEvent(old(events), ConnectionEvent("Manual disconnect", Info))
    {
      HandleWalletDisconnection();
      AddConnectionEvent("Manual disconnect", Info);
    }

    /** The `accountsChanged` listener. No accounts: tear down. A first
        account that is another address: follow it, leaving the flag as it
        is. The same address in any letter case: nothing. */
    method HandleAccountsChanged(accounts: seq<string>)
      requires Valid() && Listening()
      modifies this
      ensures Valid()
      ensures accounts == [] ==>
                && walletAddress == "" && !isConnected
                && events == PushEvent(old(events), ConnectionEvent("All accounts disconnected", Error))
                && storage == ClearMarkers(old(storage))
                && actions == old(actions) + [Logout]
                && scheduled == old(scheduled) + [LoginPath]
      ensures accounts != [] && !SameAddress(accounts[0], old(walletAddress)) ==>
                && walletAddress == accounts[0] && isConnected == old(isConnected)
                && events == PushEvent(old(events), SwitchEvent(old(walletAddress), accounts[0]))
                && storage == old(storage) && actions == old(actions) && scheduled == old(scheduled)
      ensures accounts != [] && SameAddress(accounts[0], old(walletAddress)) ==>
                && walletAddress == old(walletAddress) && isConnected == old(isConnected)
                && events == old(events)
                && storage == old(storage) && actions == old(actions) && scheduled == old(scheduled)
    {
      if |accounts| == 0 {
        isConnected := false;
        AddConnectionEvent("All accounts disconnected", Error);
        HandleWalletDisconnection();
      } else if walletAddress != "" && Lower(accounts[0]) != Lower(walletAddress) {
        AddConnectionEvent("Account switched from " + Take(walletAddress, 6) + "... to " + Take(accounts[0], 6) + "...", Info);
        walletAddress := accounts[0];
      }
    }

    /** The `disconnect` listener: log it and tear down. */
    method HandleDisconnect()
      requires Valid() && Listening()
      modifies this
      ensures Valid()
      ensures walletAddress == "" && !isConnected
      ensures events == PushEvent(old(events), ConnectionEvent("Wallet disconnected", Error))
      ensures storage == ClearMarkers(old(storage))
      ensures actions == old(actions) + [Logout]
      ensures scheduled == old(scheduled) + [LoginPath]
    {
      isConnected := false;
      AddConnectionEvent("Wallet disconnected", Error);
      HandleWalletDisconnection();
    }

    /** The `chainChanged` listener: a log line and nothing else. */
    method HandleChainChanged(chainId: string)
      requires Valid() && Listening()
      modifies this`events
      ensures Valid()
      ensures events == PushEvent(old(events), ConnectionEvent("Network changed to chain ID: " + chainId, Info))
    {
      AddConnectionEvent("Network changed to chain ID: " + chainId, Info);
    }
  }
}
