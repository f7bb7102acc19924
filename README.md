# Wallet session of the tutoring marketplace front-end

This project models the wallet connection of the marketplace's browser front-end,
verified in Dafny. Three parts are modelled:

- the session state that `WalletProvider` holds: `isConnected`, `account`, `provider`,
  `chainId`, `error`, and the listener pairs it registers on the injected wallet;
- its three transitions: `connectWallet`, the `accountsChanged` handler and the
  `chainChanged` handler;
- the two consumers that depend only on that state: the connect button's view logic
  and `handleConnect`, and the `withWallet` guard of `useProtectedAction`.

The injected wallet (`window.ethereum`) and the ethers calls made through it are not
executed. They are a parameter instead: `Injected` is either `Absent` or the answers its
three awaited calls settle to. Each of those calls can return a value or throw. A thrown
value is either an `Error` carrying a message or some other value. The account request
may also resolve to null. Each transition is then deterministic.

Modules:

- `Wrappers`: the `Option` type used for the nullable fields.
- `Decimal`: `Number.prototype.toString()` for an integer network id, the parser that
  inverts it, and the round trip between them.
- `WalletContext`: the `Session` value and the pure transitions `Connect`,
  `AccountsChanged`, `Step` and `Run`, with lemmas about event traces. The class
  `WalletProvider` updates its fields in place, and each of its methods is tied to one of
  those functions through `Snapshot()`. `WithWallet` is a method of this class.
- `ConnectButton`: `Render` (the three views), JavaScript `slice`, address abbreviation,
  the chain label, and the class `ConnectControl` with the `isConnecting` flag.

The code keeps these behaviours, which a reader might not expect:

- Each successful connect registers one more listener pair; nothing de-duplicates them
  (`ListenerPairsCountSuccesses`).
- The session's account after a connect is the signer's address, not `accounts[0]`.
- Error texts are the code's fixed strings: "MetaMask is not installed",
  "No accounts found" and "Failed to connect wallet". A thrown `Error`'s message is
  passed through unchanged.
- An error does not imply a disconnected session: an `accountsChanged` after a failed
  attempt reconnects and leaves the error in place (`ErrorWhileConnected`). The invariant
  the code does keep is `Consistent`.
- The connect button tests JavaScript truthiness, not null. An empty error message does
  not select the error view, and an empty account does not select the account view
  (`Truthy`).

## Model

| member | source | states |
|---|---|---|
| `WalletContext.WalletProvider.constructor` | src/context/WalletContext.tsx:23-27 | the session starts disconnected with account, provider, chain id and error all null and no listeners |
| `WalletContext.Connect` | src/context/WalletContext.tsx:29-78 | the error is cleared, then set again exactly when the attempt fails. Success means connected, the signer's address, the decimal network id and one more listener pair. Failure means disconnected, no account, no provider, chain id and listeners unchanged. It also gives the error text for each way of failing, in call order |
| `WalletContext.WalletProvider.ConnectWallet` | src/context/WalletContext.tsx:29-78 | the step-by-step connect flow leaves the fields exactly as `Connect` says |
| `WalletContext.WalletProvider.Catch` | src/context/WalletContext.tsx:71-77 | the catch block stores the error text (an `Error`'s message, else the fixed fallback) and clears connected, account and provider; the chain id is kept |
| `WalletContext.Pending` | src/context/WalletContext.tsx:31 | while the wallet is asked, the session is the old one with the error cleared and nothing else changed |
| `WalletContext.AccountsChanged` | src/context/WalletContext.tsx:80-89 | a non-empty list connects the first account; an empty list disconnects and clears the account; chain id, error, provider and listeners are unchanged |
| `WalletContext.WalletProvider.HandleAccountsChanged` | src/context/WalletContext.tsx:80-89 | the handler updates the fields as `AccountsChanged` says |
| `WalletContext.WalletProvider.HandleChainChanged` | src/context/WalletContext.tsx:91-95 | the handler sets the chain id and then reloads, which leaves the initial state |
| `WalletContext.WalletProvider.Reload` | src/context/WalletContext.tsx:94 | a reload returns every session field to its initial value, listeners included |
| `WalletContext.EmitAccountsChanged` | src/context/WalletContext.tsx:69-89 | the wallet runs each of the k registered `accountsChanged` handlers in turn: none leaves the session as it was, and any number leaves chain id, error, provider and listener count unchanged |
| `WalletContext.EmitAccountsChangedActsOnce` | src/context/WalletContext.tsx:69-89 | with any positive number of registered handlers, an accounts notification has the effect of one handler run |
| `WalletContext.Step` | src/context/WalletContext.tsx:69-95 | notifications act only through registered handlers: without listeners an accounts or chain change does nothing; with listeners an accounts change acts as one handler run and a chain change reloads to the initial session; a click runs `Connect` |
| `WalletContext.StepKeepsConsistent` | src/context/WalletContext.tsx:29-95 | connect, accounts change and chain change each preserve `Consistent`. That invariant says: connected iff an account is known; chain id known iff listeners are registered; a provider only with listeners; never an error together with a provider |
| `WalletContext.RunKeepsConsistent` | src/context/WalletContext.tsx:29-95 | any sequence of events preserves `Consistent` |
| `WalletContext.ReachableConsistent` | src/context/WalletContext.tsx:23-95 | every state reachable from the initial one is `Consistent` |
| `WalletContext.NothingHappensBeforeConnect` | src/context/WalletContext.tsx:69-70 | without registered listeners, wallet notifications on their own leave the session unchanged |
| `WalletContext.ListenerPairsCountSuccesses` | src/context/WalletContext.tsx:69-70 | over a run of connects, the listener-pair count grows by exactly the number of successful attempts |
| `WalletContext.ErrorWhileConnected` | src/context/WalletContext.tsx:80-89 | a success, a rejected attempt and an accounts change reach a connected session that still carries an error |
| `WalletContext.ChainChangedTwice` | src/context/WalletContext.tsx:91-95 | a second chain change right after a first one changes nothing more |
| `WalletContext.MainnetConnect` | src/context/WalletContext.tsx:58-70 | connecting to network 1 from the start gives connected, the signer as account, chain id "1", no error, one listener pair |
| `WalletContext.WalletProvider.WithWallet` | src/hooks/useProtectedAction.ts:6-11 | when connected, no connect call and the session is unchanged. When not connected, exactly one connect call, strictly before the action, and the session then changes as `Connect` says. Either way the action runs exactly once, also after a failed connect |
| `Decimal.NatToString` | src/context/WalletContext.tsx:66 | the rendering is a non-empty digit string without a leading zero |
| `Decimal.IntToString` | src/context/WalletContext.tsx:66 | the rendering starts with a minus sign exactly for negative ids; a non-negative id is rendered in digits only |
| `Decimal.DigitsValueOfNatToString` | src/context/WalletContext.tsx:66 | reading the digits of a natural number's rendering back gives the number |
| `Decimal.ParseIntToString` | src/context/WalletContext.tsx:66 | parsing the rendered chain id gives the network id back |
| `Decimal.IntToStringInjective` | src/context/WalletContext.tsx:66 | two network ids are rendered alike exactly when they are equal |
| `ConnectButton.Render` | src/components/ConnectButton.tsx:19-56 | a truthy error selects the error view showing that text, even when connected. The account view is chosen exactly when there is no error, the session is connected and the account is truthy. The connect view is disabled exactly while connecting, and labelled "Connecting..." then and "Connect Wallet" otherwise |
| `ConnectButton.SliceBound` | src/components/ConnectButton.tsx:36 | a `slice` bound counts from the end when negative and is clamped to the string |
| `ConnectButton.Slice` | src/components/ConnectButton.tsx:36 | `slice` gives the plain substring for in-range bounds and, with the end omitted, the rest of the string. It clamps an end that is too large, counts a negative end from the end of the string, and counts a negative start from the end (the whole string when it reaches before the start). Bounds that cross give the empty string |
| `ConnectButton.Abbreviate` | src/components/ConnectButton.tsx:36 | the shown account is the first up-to-6 characters, then "...", then the last up-to-4 characters |
| `ConnectButton.AbbreviatedAddressLength` | src/components/ConnectButton.tsx:36 | a 42-character address gives a 13-character label |
| `ConnectButton.ChainLabel` | src/components/ConnectButton.tsx:39-42 | "1", "137" and "5" give Ethereum, Polygon and Goerli, and only they do. Any other truthy id gives "Chain ID: " plus the id. Null or empty gives the empty string |
| `ConnectButton.ConnectedChainLabel` | src/components/ConnectButton.tsx:39-42 | after a successful connect the label is Ethereum, Polygon or Goerli exactly when the wallet reported network 1, 137 or 5; otherwise it is "Chain ID: " plus the decimal id |
| `ConnectButton.ViewAfterConnect` | src/components/ConnectButton.tsx:19-56 | after a connect returns: a success with a non-empty address shows the account view; a failure with a non-empty message shows that message; "MetaMask is not installed" and "No accounts found" are shown as such |
| `ConnectButton.ViewWhileConnecting` | src/components/ConnectButton.tsx:48-55 | while a disconnected session awaits the wallet, the disabled "Connecting..." button is shown |
| `ConnectButton.ConnectControl.constructor` | src/components/ConnectButton.tsx:6 | the control starts not connecting |
| `ConnectButton.ConnectControl.HandleConnect` | src/components/ConnectButton.tsx:8-17 | the first view rendered with `isConnecting` raised is the connecting session when a wallet is asked, and already the error outcome when no wallet is installed (connect then finishes before any await); the flag is false again afterwards; the session changes as `Connect` says |

## Left out

- The injected wallet's requests and the ethers calls are I/O. They are inputs (`Injected`) whose answers are fixed in advance.
- Concurrency: overlapping `connectWallet` calls, where the last to finish wins, and React's batching of state setters. Each connect is one atomic transition. The only intermediate state modelled is `Pending`.
- `console.log` and `console.error` output.
- `window.location.reload` is modelled only as a return to the initial session (`Reload`). It does not reset the `calls` log, which only observes `WithWallet`.
- The listener-cleanup effect (src/context/WalletContext.tsx:98-105). It captures the first render's handlers, so whether it removes later registrations depends on React closure identity. Teardown is not modelled.
- `window.ethereum.on` throwing during registration is not modelled. In the source that would set an error after the chain id was already committed.
- `Web3Provider` is a value wrapping the injected wallet. Object identity of successive providers is not modelled.
- A network id is an unbounded integer. JavaScript rendering of non-integer or very large numbers is not modelled. Strings are Dafny `char` sequences, not UTF-16 code units.
- `WalletContext.WalletProvider.WithWallet`: the action's own effects are not modelled. It is recorded only as a call, and a rejection from the action is not modelled.
- `ConnectButton.ConnectControl.HandleConnect`: the catch branch is not modelled, because `connectWallet` catches all its errors and never rejects.
- The contract wrappers, the booking and rating modals, the pages, the other presentational components and the configuration are not part of this model. Their logic is either in an external contract or is presentation only. The account abbreviation in the header and the profile page repeats `Abbreviate`.
