# Wallet session of the wallet-assignment app, in Dafny

`src/App.tsx` is a single React component that connects a browser wallet (MetaMask), shows the
connected address and three balances (ether, wrapped ether, one ERC-20 token with its symbol),
and reacts to the wallet's `accountsChanged` and `chainChanged` events. This project models the
component's state and handlers:

- `wrappers.dfy` — `Option` and `Result` (an awaited call that answers or rejects with a message).
- `address_format.dfy` — `truncateAddress`, the display form of an address.
- `ledger.dfy` — the remote ledger as a value of total functions: the provider's `getBalance`,
  a contract's `balanceOf` and `symbol`, each of which may reject; the contract addresses are
  the source's constants. `QueryBalances` is the chain of four awaits shared by connect and
  refresh.
- `app.dfy` — class `App`, whose fields are the component's `useState` variables (`provider` is
  held as `hasProvider`), plus the log of emitted notifications and the handlers registered on
  the wallet. `connectWallet`, `handleAccountChange`, `handleChainChange` and `updateBalances`
  are methods, each one atomic step. `formatEther` is a constant function fixed when the app is
  built and otherwise uninterpreted. `Valid()` is the invariant every handler keeps between
  events. It says the component is not loading. It says that without a provider nothing is
  connected, shown or registered. It also says that the first `accountsChanged` handler was
  registered from a render that held no provider.
- `account_switch.dfy` — the account-switch finding below, as two concrete runs.

Three behaviours of the code are worth stating plainly, since the model keeps each:

- On disconnect (an empty account list), the code clears only the account, the ether balance
  and the wrapped-ether balance. The ERC-20 balance and symbol keep their old values until a
  later update sets them again.
- On an account switch, the handler registered by the page's first connect adopts the new
  account but does not refresh its balances; see "## Findings". After a disconnect and a
  reconnect, the later connect registers a second handler that holds the provider, so from
  then on every switch also refreshes all four display fields through that handler.
- The code never calls `decimals()`, and it calls `symbol()` again on every refresh.

## Model

| member | source | states |
|---|---|---|
| AddressFormat.TruncateAddress | src/App.tsx:111-113 | the first six characters, "..." and the last four; for an address of ten or more characters the result has 13 characters; a shorter address contributes all of itself to each end, as the slices do |
| AddressFormat.TruncateAddressIdempotent | src/App.tsx:111-113 | for an address of ten or more characters, truncating the truncated form changes nothing |
| AddressFormat.TruncateAddressSameDisplay | src/App.tsx:111-113 | two such addresses display alike exactly when their first six and last four characters agree |
| Ledger.QueryBalances | src/App.tsx:95-102 | a refresh succeeds exactly when all four queries answer, and then carries exactly their values; otherwise it fails with the rejection of the first failing query in await order |
| WalletApp.Count | src/App.tsx:59-69 | helper for the notification count of `ConnectWallet`: the number of notifications of one severity is at most the log's length, and is zero exactly when none has that severity |
| WalletApp.CountAppend | src/App.tsx:59-69 | helper for the notification count of `ConnectWallet`: counting notifications distributes over appending to the log |
| WalletApp.Connection | src/App.tsx:42-50 | connect obtains the first authorised account and its complete balances exactly when the account request and all four queries succeed; a rejected request, or an empty account list, is the failure; a rejected query fails with that query's rejection, the text the error notification shows |
| WalletApp.App.constructor | src/App.tsx:27-34 | every field starts at its `useState` initial value, with no notifications and no handlers registered |
| WalletApp.App.ConnectWallet | src/App.tsx:36-73 | all or nothing: on success the provider, the first account, the three formatted balances and the symbol are set, one success notification is emitted and two handlers are registered, the accounts one capturing the provider of the render that started the call; with no wallet or on any rejection no field changes and exactly one error notification is emitted; loading is false at the end either way |
| WalletApp.App.HandleAccountChange | src/App.tsx:75-87 | an empty list clears the account and two balances and leaves the ERC-20 balance, the symbol and the provider alone; otherwise it adopts the first account and refreshes only if its closure captured a provider and every query answers |
| WalletApp.App.UpdateBalances | src/App.tsx:93-109 | without a provider nothing changes; with one, the three balances and the symbol are replaced together by the formatted results for the address, or all left unchanged if any query rejects; no notification either way |
| WalletApp.App.HandleChainChange | src/App.tsx:89-91 | the reload returns every field to its initial value and drops the notification log and the registered handlers |
| WalletApp.App.HandleAccountChangeLive | src/App.tsx:85-86 | corrected handler: a non-empty switch shows the new account's complete balances whenever every query answers |
| AccountSwitch.StaleBalancesAfterSwitch | src/App.tsx:61-62 | after a connect as one account and a switch to another, the handler as written shows the new address beside the old account's balance |
| AccountSwitch.LiveBalancesAfterSwitch | src/App.tsx:85-86 | the same run with the corrected handler shows the new account's balance |

## Findings

| source | as written | input that shows it | evidently intended | confidence | as-written member | corrected member |
|---|---|---|---|---|---|---|
| src/App.tsx:61-62, 86, 94 | the `accountsChanged` handler is the closure of the render that started the connect, where `provider` was still null, so its `updateBalances` never refreshes | connect as account A (10^18 wei, one ether), then switch the wallet to account B (2 * 10^18 wei): B's address is shown with A's balance | refresh the balances of the newly selected account | high (not executed) | AccountSwitch.StaleBalancesAfterSwitch | WalletApp.App.HandleAccountChangeLive |

The invariant `WalletApp.App.Valid` shows that this is not limited to one run. The first
handler registered on any page always captured "no provider". `HandleAccountChange` with that
capture never changes a balance.

## Left out

- Rendering: the JSX, the toast container and the stylesheet. Notifications are an appended
  log of (severity, message) pairs. The loading indicator is covered only through `isLoading`.
- The ethers library: `BrowserProvider`, `Contract`, `eth_requestAccounts`, `getBalance`,
  `balanceOf` and `symbol`. The model uses a `Ledger` value and the `Wallet` request outcome.
  When the wallet returns an empty account list, the source passes `undefined` to
  `getBalance`, and ethers rejects. That rejection's text is the ledger's
  `undefinedAddressError`.
- `formatEther` internals: it is an uninterpreted function from base units to text.
- How an error object renders in the `Failed to connect wallet! ${error}` template. The model
  uses the rejection's message text.
- Event delivery: how `window.ethereum.on` stores and calls handlers is not modelled. The
  registered handlers are recorded, and a caller runs one by passing the provider it captured.
- The page reload: it is modelled only as the reset of all state.
- Interleaving of an in-flight refresh with a later event: each handler is one atomic step.
  The intermediate `isLoading == true` state is therefore never observable.
- Wrapping, swapping, amount conversion and error-code classification: `src/App.tsx` has no
  such code.
- `TruncateAddress` slices a sequence of Unicode characters, while JavaScript's `slice` counts
  UTF-16 code units. The two agree on the hexadecimal addresses a wallet returns.
