/**
 * The connect control: which of its three views it shows for a session, the abbreviated
 * account and network label of the account view, and the `isConnecting` flag it keeps
 * around a connection attempt.
 */
module ConnectButton {
  import opened Wrappers
  import Decimal
  import opened WalletContext

  const ConnectingText: string := "Connecting..."
  const ConnectText: string := "Connect Wallet"
  const ChainIdPrefix: string := "Chain ID: "

  /** The three things the control renders. */
  datatype View =
    | ErrorButton(text: string)
    | AccountBadge(address: string, network: string)
    | ConnectPrompt(disabled: bool, text: string)

  /** JavaScript truthiness of a `string | null`: null and the empty string are false. */
  predicate Truthy(s: Option<string>) {
    s.Some? && s.value != ""
  }

  function Min(a: int, b: int): int {
    if a < b then a else b
  }

  /** Where a `slice` bound lands in a string of length `len`: negative counts from the end, and it is clamped. */
  function SliceBound(i: int, len: nat): (k: nat)
    ensures k <= len
    ensures 0 <= i <= len ==> k == i
    ensures -(len as int) <= i < 0 ==> k == len + i
    ensures i < -(len as int) ==> k == 0
    ensures i > len ==> k == len
  {
    if i < 0 then (if len + i < 0 then 0 else len + i) else if i > len then len else i
  }

  /** `s.slice(start, end)`, `end` omitted when `None`. */
  function Slice(s: string, start: int, end: Option<int>): (r: string)
    ensures |r| <= |s|
    ensures 0 <= start && end.Some? && start <= end.value <= |s| ==> r == s[start..end.value]
    ensures 0 <= start <= |s| && end.Some? && end.value > |s| ==> r == s[start..]
    ensures 0 <= start <= |s| && end.None? ==> r == s[start..]
    ensures end.Some? && -|s| <= end.value < 0 && 0 <= start <= |s| + end.value ==> r == s[start..|s| + end.value]
    ensures -|s| <= start < 0 && end.None? ==> r == s[|s| + start..]
    ensures start < -|s| && end.None? ==> r == s
    ensures end.Some? && SliceBound(end.value, |s|) <= SliceBound(start, |s|) ==> r == ""
  {
    var from := SliceBound(start, |s|);
    var to := if end.None? then |s| else SliceBound(end.value, |s|);
    if from < to then s[from..to] else ""
  }

  /** The account as shown: `account.slice(0, 6) + "..." + account.slice(-4)`. */
  function Abbreviate(account: string): (r: string)
    ensures |r| == Min(|account|, 6) + 3 + Min(|account|, 4)
    ensures r[..Min(|account|, 6)] == account[..Min(|account|, 6)]
    ensures r[Min(|account|, 6)..Min(|account|, 6) + 3] == "..."
    ensures r[|r| - Min(|account|, 4)..] == account[|account| - Min(|account|, 4)..]
  {
    var head := Slice(account, 0, Some(6));
    var tail := Slice(account, -4, None);
    var h, t := Min(|account|, 6), Min(|account|, 4);
    assert head == account[..h] by {
      if |account| < 6 { assert SliceBound(6, |account|) == |account|; }
    }
    assert tail == account[|account| - t..] by {
      if |account| < 4 { assert SliceBound(-4, |account|) == 0; }
    }
    var r := head + "..." + tail;
    assert r[..h] == head;
    assert r[h..h + 3] == "...";
    assert r[|r| - t..] == tail;
    r
  }

  /** The network label of the account view. */
  function ChainLabel(chainId: Option<string>): (text: string)
    ensures text == "" <==> !Truthy(chainId)
    ensures text == "Ethereum" <==> chainId == Some("1")
    ensures text == "Polygon" <==> chainId == Some("137")
    ensures text == "Goerli" <==> chainId == Some("5")
    ensures Truthy(chainId) && chainId.value !in {"1", "137", "5"} ==> text == ChainIdPrefix + chainId.value
  {
    if chainId == Some("1") then "Ethereum"
    else if chainId == Some("137") then "Polygon"
    else if chainId == Some("5") then "Goerli"
    else if Truthy(chainId) then ChainIdPrefix + chainId.value
    else ""
  }

  /** The view for a session and the control's `isConnecting` flag. */
  function Render(s: Session, isConnecting: bool): (v: View)
    // a truthy error wins, even over a connected account
    ensures v.ErrorButton? <==> Truthy(s.error)
    ensures v.ErrorButton? ==> v.text == s.error.value
    ensures v.AccountBadge? <==> !Truthy(s.error) && s.isConnected && Truthy(s.account)
    ensures v.AccountBadge? ==> v.address == Abbreviate(s.account.value) && v.network == ChainLabel(s.chainId)
    ensures v.ConnectPrompt? ==> v.disabled == isConnecting
    ensures v.ConnectPrompt? ==> v.text == (if isConnecting then ConnectingText else ConnectText)
  {
    if Truthy(s.error) then ErrorButton(s.error.value)
    else if s.isConnected && Truthy(s.account) then AccountBadge(Abbreviate(s.account.value), ChainLabel(s.chainId))
    else ConnectPrompt(isConnecting, if isConnecting then ConnectingText else ConnectText)
  }

  /** A full 42-character address is shown in 13 characters. */
  lemma AbbreviatedAddressLength(account: string)
    requires |account| == 42
    ensures |Abbreviate(account)| == 13
  {
  }

  /** After a successful connect the label names the network whose id the wallet reported. */
  lemma ConnectedChainLabel(s: Session, w: Injected)
    requires Grants(w)
    ensures var shown := ChainLabel(Connect(s, w).chainId);
            var n := w.getNetwork.value;
            && (shown == "Ethereum" <==> n == 1)
            && (shown == "Polygon" <==> n == 137)
            && (shown == "Goerli" <==> n == 5)
            && (n !in {1, 137, 5} ==> shown == ChainIdPrefix + Decimal.IntToString(n))
  {
    var n := w.getNetwork.value;
    assert Decimal.IntToString(1) == "1";
    assert Decimal.IntToString(137) == "137";
    assert Decimal.IntToString(5) == "5";
    Decimal.IntToStringInjective(n, 1);
    Decimal.IntToStringInjective(n, 137);
    Decimal.IntToStringInjective(n, 5);
  }

  /** What the control shows once `connectWallet` has returned and `isConnecting` is reset. */
  lemma ViewAfterConnect(s: Session, w: Injected)
    ensures Grants(w) && w.getAddress.value != "" ==>
      Render(Connect(s, w), false) == AccountBadge(Abbreviate(w.getAddress.value), ChainLabel(Connect(s, w).chainId))
    ensures !Grants(w) && Truthy(Connect(s, w).error) ==> Render(Connect(s, w), false) == ErrorButton(Connect(s, w).error.value)
    ensures !Grants(w) && !Truthy(Connect(s, w).error) ==> Render(Connect(s, w), false) == ConnectPrompt(false, ConnectText)
    ensures w.Absent? ==> Render(Connect(s, w), false) == ErrorButton(NotInstalledMessage)
    ensures NoAccounts(w) ==> Render(Connect(s, w), false) == ErrorButton(NoAccountsMessage)
  {
  }

  /** While the wallet is being asked, a disconnected session shows the disabled "Connecting..." button. */
  lemma ViewWhileConnecting(s: Session)
    requires !s.isConnected
    ensures Render(Pending(s), true) == ConnectPrompt(true, ConnectingText)
  {
  }

  /** The control's own state: the `isConnecting` flag, and the session it reads. */
  class ConnectControl {
    var isConnecting: bool
    const wallet: WalletProvider
    /** The first view rendered with `isConnecting` raised during the last attempt. */
    ghost var viewWhileConnecting: View

    constructor (wallet: WalletProvider)
      ensures this.wallet == wallet && !isConnecting
    {
      this.wallet := wallet;
      isConnecting := false;
      viewWhileConnecting := ConnectPrompt(false, ConnectText);
    }

    function CurrentView(): View
      reads this, wallet
    {
      Render(wallet.Snapshot(), isConnecting)
    }

    /**
     * `handleConnect`: raises `isConnecting`, awaits `connectWallet` and lowers the flag
     * again; `connectWallet` never throws, so the catch branch has nothing to do. With a
     * wallet present the first render comes at the wallet's first await, after the error
     * was cleared; with none, `connectWallet` throws and catches before any await, so the
     * first render already shows its outcome.
     */
    method HandleConnect(w: Injected)
      modifies this, wallet
      ensures !isConnecting
      ensures viewWhileConnecting ==
        Render(if w.Absent? then Connect(old(wallet.Snapshot()), w) else Pending(old(wallet.Snapshot())), true)
      ensures wallet.Snapshot() == Connect(old(wallet.Snapshot()), w)
      ensures wallet.calls == old(wallet.calls)
      ensures CurrentView() == Render(Connect(old(wallet.Snapshot()), w), false)
    {
      isConnecting := true;
      if w.Absent? {
        wallet.ConnectWallet(w);
        viewWhileConnecting := Render(wallet.Snapshot(), isConnecting);
      } else {
        viewWhileConnecting := Render(Pending(wallet.Snapshot()), isConnecting);
        wallet.ConnectWallet(w);
      }
      isConnecting := false;
    }
  }
}
