/**
 * The wallet session held by the `WalletProvider` component: whether a wallet is connected,
 * the active account, the ethers provider, the chain id and the last connection error,
 * together with the number of `accountsChanged`/`chainChanged` listener pairs the session
 * has registered on the injected wallet.
 *
 * The injected wallet (`window.ethereum`) is not called: it is given as the answers it
 * settles to, so every operation is a deterministic transition. The class `WalletProvider`
 * updates its fields in place, as the component's state setters do; the functions on
 * `Session` values say what each transition computes, and the lemmas relate several of them.
 */
module WalletContext {
  import opened Wrappers
  import Decimal

  const NotInstalledMessage: string := "MetaMask is not installed"
  const NoAccountsMessage: string := "No accounts found"
  const FallbackMessage: string := "Failed to connect wallet"

  /** A value thrown by a provider call: an `Error` object with its message, or anything else. */
  datatype Thrown = ErrorObject(message: string) | OtherValue

  /** How one awaited provider call settles. */
  datatype Answer<T> = Returns(value: T) | Throws(thrown: Thrown)

  /**
   * The injected wallet, described by the answers it gives to the three calls
   * `connectWallet` makes: `eth_requestAccounts` (which may resolve to null), the network
   * lookup and the signer's address lookup.
   */
  datatype Injected =
    | Absent
    | Present(requestAccounts: Answer<Option<seq<string>>>, getNetwork: Answer<int>, getAddress: Answer<string>)

  /** The ethers provider built around the injected wallet. */
  datatype Web3Provider = Web3Provider(wrapped: Injected)

  /** A snapshot of the session's fields. */
  datatype Session = Session(
    isConnected: bool,
    account: Option<string>,
    provider: Option<Web3Provider>,
    chainId: Option<string>,
    error: Option<string>,
    listenerPairs: nat)

  /** The state the component starts in, and returns to when the page reloads. */
  function Initial(): Session {
    Session(false, None, None, None, None, 0)
  }

  /** The message the catch block stores for a thrown value. */
  function ErrorMessage(t: Thrown): string {
    match t
    case ErrorObject(m) => m
    case OtherValue => FallbackMessage
  }

  /** The account request resolved to null or to an empty list. */
  predicate NoAccounts(w: Injected) {
    w.Present? && w.requestAccounts.Returns? &&
    (w.requestAccounts.value.None? || |w.requestAccounts.value.value| == 0)
  }

  /** Every step of the connection succeeds: a wallet is present and grants at least one account. */
  predicate Grants(w: Injected) {
    && w.Present?
    && w.requestAccounts.Returns? && w.requestAccounts.value.Some? && |w.requestAccounts.value.value| > 0
    && w.getNetwork.Returns?
    && w.getAddress.Returns?
  }

  /** How the try block of `connectWallet` ends: the values it commits, or what it threw. */
  datatype Outcome = Granted(provider: Web3Provider, network: int, address: string) | Failed(thrown: Thrown)

  function Settle(w: Injected): Outcome {
    match w
    case Absent => Failed(ErrorObject(NotInstalledMessage))
    case Present(request, network, address) =>
      if request.Throws? then Failed(request.thrown)
      else if request.value.None? || |request.value.value| == 0 then Failed(ErrorObject(NoAccountsMessage))
      else if network.Throws? then Failed(network.thrown)
      else if address.Throws? then Failed(address.thrown)
      else Granted(Web3Provider(w), network.value, address.value)
  }

  /** The state after the first statement of `connectWallet`, visible while the wallet is asked. */
  function Pending(s: Session): (r: Session)
    ensures r.error == None
    ensures r.(error := s.error) == s
  {
    s.(error := None)
  }

  /** One call of `connectWallet` against the wallet `w`. */
  function Connect(s: Session, w: Injected): (r: Session)
    // every attempt clears the previous error; only a failure sets one again
    ensures r.error.None? <==> Grants(w)
    ensures r.isConnected <==> Grants(w)
    // success: the signer's address, the decimal network id, one more listener pair
    ensures Grants(w) ==>
      && r.account == Some(w.getAddress.value)
      && r.provider == Some(Web3Provider(w))
      && r.chainId == Some(Decimal.IntToString(w.getNetwork.value))
      && r.listenerPairs == s.listenerPairs + 1
    // failure: disconnected, no account, no provider; chain id and listeners untouched
    ensures !Grants(w) ==>
      && r.account == None
      && r.provider == None
      && r.chainId == s.chainId
      && r.listenerPairs == s.listenerPairs
    // the error stored for each way of failing, in the order the calls are made
    ensures w.Absent? ==> r.error == Some(NotInstalledMessage)
    ensures NoAccounts(w) ==> r.error == Some(NoAccountsMessage)
    ensures w.Present? && w.requestAccounts == Throws(OtherValue) ==> r.error == Some(FallbackMessage)
    ensures w.Present? && w.requestAccounts.Throws? && w.requestAccounts.thrown.ErrorObject? ==>
      r.error == Some(w.requestAccounts.thrown.message)
    ensures w.Present? && w.requestAccounts.Returns? && !NoAccounts(w) && w.getNetwork.Throws? ==>
      r.error == Some(ErrorMessage(w.getNetwork.thrown))
    ensures w.Present? && w.requestAccounts.Returns? && !NoAccounts(w) && w.getNetwork.Returns? && w.getAddress.Throws? ==>
      r.error == Some(ErrorMessage(w.getAddress.thrown))
  {
    match Settle(w)
    case Granted(provider, network, address) =>
      Pending(s).(isConnected := true, account := Some(address), provider := Some(provider),
                  chainId := Some(Decimal.IntToString(network)), listenerPairs := s.listenerPairs + 1)
    case Failed(t) =>
      Pending(s).(error := Some(ErrorMessage(t)), isConnected := false, account := None, provider := None)
  }

  /** One run of the `accountsChanged` handler. */
  function AccountsChanged(s: Session, accounts: seq<string>): (r: Session)
    ensures r.isConnected <==> |accounts| > 0
    ensures r.account == if |accounts| > 0 then Some(accounts[0]) else None
    ensures r.chainId == s.chainId && r.error == s.error && r.provider == s.provider
    ensures r.listenerPairs == s.listenerPairs
  {
    if |accounts| > 0 then s.(account := Some(accounts[0]), isConnected := true)
    else s.(account := None, isConnected := false)
  }

  /** The wallet emitting `accountsChanged` to `k` registered handlers, one after the other. */
  function EmitAccountsChanged(s: Session, accounts: seq<string>, k: nat): (r: Session)
    ensures k == 0 ==> r == s
    ensures r.chainId == s.chainId && r.error == s.error && r.provider == s.provider
    ensures r.listenerPairs == s.listenerPairs
    decreases k
  {
    if k == 0 then s else EmitAccountsChanged(AccountsChanged(s, accounts), accounts, k - 1)
  }

  /** What happens to the session, from the user clicking connect or from the wallet. */
  datatype Event =
    | UserConnect(wallet: Injected)
    | WalletAccountsChanged(accounts: seq<string>)
    | WalletChainChanged(chainId: string)

  /**
   * One event. Notifications reach the session only through registered handlers; the
   * chain handler sets the chain id and reloads the page, which restarts the session.
   */
  function Step(s: Session, e: Event): (r: Session)
    ensures s.listenerPairs == 0 && !e.UserConnect? ==> r == s
    ensures s.listenerPairs > 0 && e.WalletAccountsChanged? ==> r == AccountsChanged(s, e.accounts)
    ensures s.listenerPairs > 0 && e.WalletChainChanged? ==> r == Initial()
    ensures e.UserConnect? ==> r == Connect(s, e.wallet)
  {
    match e
    case UserConnect(w) => Connect(s, w)
    case WalletAccountsChanged(accounts) =>
      var r := EmitAccountsChanged(s, accounts, s.listenerPairs);
      assert s.listenerPairs > 0 ==> r == AccountsChanged(s, accounts) by {
        if s.listenerPairs > 0 { EmitAccountsChangedActsOnce(s, accounts, s.listenerPairs); }
      }
      r
    case WalletChainChanged(_) => if s.listenerPairs > 0 then Initial() else s
  }

  function Run(s: Session, events: seq<Event>): Session
    decreases |events|
  {
    if events == [] then s else Run(Step(s, events[0]), events[1..])
  }

  /**
   * What holds in every reachable state: connected exactly when an account is known; a
   * chain id is known exactly when listeners are registered; a provider is kept only
   * while listeners are registered; an error and a provider never coexist.
   */
  predicate Consistent(s: Session) {
    && (s.isConnected <==> s.account.Some?)
    && (s.chainId.Some? <==> s.listenerPairs > 0)
    && (s.provider.Some? ==> s.listenerPairs > 0)
    && (s.error.Some? ==> s.provider.None?)
  }

  /** However many handler pairs are registered, the wallet's notification acts as one run. */
  lemma {:induction false} EmitAccountsChangedActsOnce(s: Session, accounts: seq<string>, k: nat)
    requires k > 0
    ensures EmitAccountsChanged(s, accounts, k) == AccountsChanged(s, accounts)
    decreases k
  {
    if k > 1 {
      EmitAccountsChangedActsOnce(AccountsChanged(s, accounts), accounts, k - 1);
    }
  }

  lemma StepKeepsConsistent(s: Session, e: Event)
    requires Consistent(s)
    ensures Consistent(Step(s, e))
  {
    if e.WalletAccountsChanged? && s.listenerPairs > 0 {
      EmitAccountsChangedActsOnce(s, e.accounts, s.listenerPairs);
    }
  }

  lemma {:induction false} RunKeepsConsistent(s: Session, events: seq<Event>)
    requires Consistent(s)
    ensures Consistent(Run(s, events))
    decreases |events|
  {
    if events != [] {
      StepKeepsConsistent(s, events[0]);
      RunKeepsConsistent(Step(s, events[0]), events[1..]);
    }
  }

  /** Every state the page can reach from its start is consistent. */
  lemma ReachableConsistent(events: seq<Event>)
    ensures Consistent(Run(Initial(), events))
  {
    RunKeepsConsistent(Initial(), events);
  }

  predicate NoConnect(events: seq<Event>) {
    forall i :: 0 <= i < |events| ==> !events[i].UserConnect?
  }

  /** Until `connectWallet` has succeeded no handler is registered, so the wallet's notifications change nothing. */
  lemma {:induction false} NothingHappensBeforeConnect(s: Session, events: seq<Event>)
    requires s.listenerPairs == 0 && NoConnect(events)
    ensures Run(s, events) == s
    decreases |events|
  {
    if events != [] {
      assert !events[0].UserConnect?;
      assert Step(s, events[0]) == s;
      NothingHappensBeforeConnect(s, events[1..]);
    }
  }

  predicate OnlyConnects(events: seq<Event>) {
    forall i :: 0 <= i < |events| ==> events[i].UserConnect?
  }

  /** The number of connection attempts in `events` that succeed. */
  function Successes(events: seq<Event>): nat
    requires OnlyConnects(events)
    decreases |events|
  {
    if events == [] then 0
    else (if Grants(events[0].wallet) then 1 else 0) + Successes(events[1..])
  }

  /** Listener pairs are added once per successful connect and never de-duplicated. */
  lemma {:induction false} ListenerPairsCountSuccesses(s: Session, events: seq<Event>)
    requires OnlyConnects(events)
    ensures Run(s, events).listenerPairs == s.listenerPairs + Successes(events)
    decreases |events|
  {
    if events != [] {
      assert events[0].UserConnect?;
      ListenerPairsCountSuccesses(Step(s, events[0]), events[1..]);
    }
  }

  /** A wallet that grants `account` on network 1 and signs as `account`. */
  function MainnetWallet(account: string): Injected {
    Present(Returns(Some([account])), Returns(1), Returns(account))
  }

  /**
   * An error can stand beside a connected account: a success registers handlers, a
   * later rejected attempt stores an error, and the next `accountsChanged` reconnects
   * without clearing it.
   */
  lemma ErrorWhileConnected()
    ensures var s := Run(Initial(), [
                UserConnect(MainnetWallet("0xab")),
                UserConnect(Present(Throws(ErrorObject("User rejected the request.")), Returns(1), Returns("0xab"))),
                WalletAccountsChanged(["0xcd"])]);
            s.isConnected && s.account == Some("0xcd") && s.error == Some("User rejected the request.")
  {
  }

  /** A second chain change right after the first finds no handlers on the new page and changes nothing. */
  lemma ChainChangedTwice(s: Session, first: string, second: string)
    ensures Step(Step(s, WalletChainChanged(first)), WalletChainChanged(second)) == Step(s, WalletChainChanged(first))
  {
  }

  /** A wallet on network 1 whose signer is the granted account: connected on chain "1", no error. */
  lemma MainnetConnect(account: string)
    ensures var s := Connect(Initial(), MainnetWallet(account));
            s.isConnected && s.account == Some(account) && s.chainId == Some("1") && s.error == None
            && s.listenerPairs == 1
  {
  }

  /** Calls the session's users make, in the order they are made. */
  datatype Call = ConnectWalletCall | ActionCall

  class WalletProvider {
    var isConnected: bool
    var account: Option<string>
    var provider: Option<Web3Provider>
    var chainId: Option<string>
    var error: Option<string>
    /** `accountsChanged`/`chainChanged` listener pairs registered on the injected wallet. */
    var listenerPairs: nat
    /** What `WithWallet` has invoked so far. */
    var calls: seq<Call>

    function Snapshot(): Session
      reads this
    {
      Session(isConnected, account, provider, chainId, error, listenerPairs)
    }

    constructor ()
      ensures Snapshot() == Initial()
      ensures !isConnected && account == None && provider == None && chainId == None && error == None
      ensures listenerPairs == 0 && calls == []
    {
      isConnected := false;
      account := None;
      provider := None;
      chainId := None;
      error := None;
      listenerPairs := 0;
      calls := [];
    }

    /** The catch block of `connectWallet`. */
    method Catch(t: Thrown)
      modifies this
      ensures Snapshot() == old(Snapshot()).(error := Some(ErrorMessage(t)), isConnected := false, account := None, provider := None)
      ensures calls == old(calls)
    {
      error := Some(ErrorMessage(t));
      isConnected := false;
      account := None;
      provider := None;
    }

    method ConnectWallet(w: Injected)
      modifies this
      ensures Snapshot() == Connect(old(Snapshot()), w)
      ensures calls == old(calls)
    {
      error := None;
      match w {
        case Absent =>
          Catch(ErrorObject(NotInstalledMessage));
        case Present(request, network, signer) =>
          if request.Throws? {
            Catch(request.thrown);
          } else if request.value.None? || |request.value.value| == 0 {
            Catch(ErrorObject(NoAccountsMessage));
          } else {
            var web3 := Web3Provider(w);
            if network.Throws? {
              Catch(network.thrown);
            } else if signer.Throws? {
              Catch(signer.thrown);
            } else {
              isConnected := true;
              account := Some(signer.value);
              provider := Some(web3);
              chainId := Some(Decimal.IntToString(network.value));
              listenerPairs := listenerPairs + 1;
            }
          }
      }
    }

    method HandleAccountsChanged(accounts: seq<string>)
      modifies this
      ensures Snapshot() == AccountsChanged(old(Snapshot()), accounts)
      ensures calls == old(calls)
    {
      if |accounts| > 0 {
        account := Some(accounts[0]);
        isConnected := true;
      } else {
        account := None;
        isConnected := false;
      }
    }

    /** The page reload: a new page starts with a new session and a wallet without listeners. */
    method Reload()
      modifies this
      ensures Snapshot() == Initial()
      ensures calls == old(calls)
    {
      isConnected, account, provider, chainId, error, listenerPairs := false, None, None, None, None, 0;
    }

    method HandleChainChanged(newChainId: string)
      modifies this
      ensures Snapshot() == Initial()
      ensures calls == old(calls)
    {
      chainId := Some(newChainId);
      Reload();
    }

    /**
     * `withWallet` of `useProtectedAction`: connects first when the session is not
     * connected, then runs the action once, whether or not the connection succeeded.
     */
    method WithWallet(w: Injected)
      modifies this
      ensures old(isConnected) ==> Snapshot() == old(Snapshot()) && calls == old(calls) + [ActionCall]
      ensures !old(isConnected) ==>
        Snapshot() == Connect(old(Snapshot()), w) && calls == old(calls) + [ConnectWalletCall, ActionCall]
    {
      if !isConnected {
        calls := calls + [ConnectWalletCall];
        ConnectWallet(w);
      }
      calls := calls + [ActionCall];
    }
  }
}
