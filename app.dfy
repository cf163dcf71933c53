/** The wallet session of the `App` component in src/App.tsx: its React state as the fields
    of a class, and each handler as one atomic step over them. */
module WalletApp {
  import opened Wrappers
  import opened Ledger

  datatype Severity = Success | Error

  /** One notification handed to the toast sink. */
  datatype Toast = Toast(severity: Severity, message: string)

  /** A handler registered on the injected wallet. An accountsChanged handler is a closure
      over the render that started the connect, so it carries whether that render held a
      provider. */
  datatype Listener = AccountsChanged(capturedProvider: bool) | ChainChanged

  /** The injected wallet (`window.ethereum`) and the outcome of its eth_requestAccounts call. */
  datatype Wallet = Wallet(requestAccounts: Result<seq<Address>>)

  const ConnectedMessage := "Wallet connected successfully!"
  const NoWalletMessage := "MetaMask not found! Please install MetaMask."
  const ConnectFailedPrefix := "Failed to connect wallet! "

  /** The number of notifications of one severity in a log. */
  function Count(toasts: seq<Toast>, severity: Severity): (n: nat)
    ensures n <= |toasts|
    ensures n == 0 <==> forall i :: 0 <= i < |toasts| ==> toasts[i].severity != severity
  {
    if toasts == [] then 0
    else (if toasts[0].severity == severity then 1 else 0) + Count(toasts[1..], severity)
  }

  lemma {:induction false} CountAppend(t: seq<Toast>, u: seq<Toast>, severity: Severity)
    ensures Count(t + u, severity) == Count(t, severity) + Count(u, severity)
  {
    if t == [] {
      assert t + u == u;
    } else {
      assert (t + u)[1..] == t[1..] + u;
      CountAppend(t[1..], u, severity);
    }
  }

  /** What a connect obtains before its first state update: the first authorised account and
      a complete refresh for it, or the first rejection on the way. */
  function Connection(wallet: Wallet, ledger: Ledger): (r: Result<(Address, Balances)>)
    ensures r.Ok? <==>
      wallet.requestAccounts.Ok? && |wallet.requestAccounts.value| > 0 &&
      QueryBalances(ledger, wallet.requestAccounts.value[0]).Ok?
    ensures r.Ok? ==>
      r.value.0 == wallet.requestAccounts.value[0] &&
      r.value.1 == QueryBalances(ledger, wallet.requestAccounts.value[0]).value
    ensures wallet.requestAccounts.Err? ==> r == Err(wallet.requestAccounts.error)
    ensures wallet.requestAccounts == Ok([]) ==> r == Err(ledger.undefinedAddressError)
    ensures (wallet.requestAccounts.Ok? && |wallet.requestAccounts.value| > 0 &&
             QueryBalances(ledger, wallet.requestAccounts.value[0]).Err?) ==>
      r == Err(QueryBalances(ledger, wallet.requestAccounts.value[0]).error)
  {
    var accounts :- wallet.requestAccounts;
    if |accounts| == 0 then Err(ledger.undefinedAddressError)
    else
      var balances :- QueryBalances(ledger, accounts[0]);
      Ok((accounts[0], balances))
  }

  class App {
    var account: Address
    var hasProvider: bool
    var balance: string
    var wethBalance: string
    var erc20Balance: string
    var ercTokenSymbol: string
    var isLoading: bool
    /** Every notification emitted since the page loaded, oldest first. */
    var toasts: seq<Toast>
    /** The handlers registered on the injected wallet, in registration order. */
    var listeners: seq<Listener>
    /** The library's base-unit-to-decimal formatter, left uninterpreted. */
    const formatEther: nat -> string

    /** Between handler runs: not loading; without a provider nothing is connected, shown
        or registered; and the first accountsChanged handler ever registered was captured
        by a render that held no provider. */
    ghost predicate Valid()
      reads this
    {
      && !isLoading
      && (listeners == [] <==> !hasProvider)
      && (!hasProvider ==>
            account == "" && balance == "" && wethBalance == "" &&
            erc20Balance == "" && ercTokenSymbol == "")
      && (listeners != [] ==> listeners[0] == AccountsChanged(false))
    }

    /** The first render: every field at its useState initial value. */
    constructor (formatEther: nat -> string)
      ensures Valid()
      ensures this.formatEther == formatEther
      ensures account == "" && !hasProvider && balance == "" && wethBalance == ""
      ensures erc20Balance == "" && ercTokenSymbol == "" && !isLoading
      ensures toasts == [] && listeners == []
    {
      this.formatEther := formatEther;
      account, hasProvider := "", false;
      balance, wethBalance, erc20Balance, ercTokenSymbol := "", "", "", "";
      isLoading := false;
      toasts, listeners := [], [];
    }

    /** connectWallet: all state updates come after the last await, so the session is
        either fully connected or untouched; exactly one notification either way. */
    method ConnectWallet(wallet: Option<Wallet>, ledger: Ledger)
      requires Valid()
      modifies this
      ensures Valid()
      ensures !isLoading
      ensures |toasts| == |old(toasts)| + 1
      ensures wallet.None? ==>
        && account == old(account) && hasProvider == old(hasProvider)
        && balance == old(balance) && wethBalance == old(wethBalance)
        && erc20Balance == old(erc20Balance) && ercTokenSymbol == old(ercTokenSymbol)
        && listeners == old(listeners)
        && toasts == old(toasts) + [Toast(Error, NoWalletMessage)]
      ensures wallet.Some? && Connection(wallet.value, ledger).Err? ==>
        && account == old(account) && hasProvider == old(hasProvider)
        && balance == old(balance) && wethBalance == old(wethBalance)
        && erc20Balance == old(erc20Balance) && ercTokenSymbol == old(ercTokenSymbol)
        && listeners == old(listeners)
        && toasts == old(toasts) + [Toast(Error, ConnectFailedPrefix + Connection(wallet.value, ledger).error)]
      ensures wallet.Some? && Connection(wallet.value, ledger).Ok? ==>
        var (address, fetched) := Connection(wallet.value, ledger).value;
        && hasProvider && account == address
        && balance == formatEther(fetched.native) && wethBalance == formatEther(fetched.weth)
        && erc20Balance == formatEther(fetched.erc20) && ercTokenSymbol == fetched.symbol
        && listeners == old(listeners) + [AccountsChanged(old(hasProvider)), ChainChanged]
        && toasts == old(toasts) + [Toast(Success, ConnectedMessage)]
      ensures Count(toasts, Error) == Count(old(toasts), Error) +
        (if wallet.Some? && Connection(wallet.value, ledger).Ok? then 0 else 1)
    {
      isLoading := true;
      // `provider` as seen by the render whose closure is running
      var providerAtRender := hasProvider;
      var notice;
      if wallet.None? {
        notice := Toast(Error, NoWalletMessage);
      } else {
        var connection := Connection(wallet.value, ledger);
        if connection.Err? {
          notice := Toast(Error, ConnectFailedPrefix + connection.error);
        } else {
          var (address, fetched) := connection.value;
          hasProvider := true;
          account := address;
          balance := formatEther(fetched.native);
          wethBalance := formatEther(fetched.weth);
          erc20Balance := formatEther(fetched.erc20);
          ercTokenSymbol := fetched.symbol;
          notice := Toast(Success, ConnectedMessage);
          listeners := listeners + [AccountsChanged(providerAtRender), ChainChanged];
        }
      }
      CountAppend(toasts, [notice], Error);
      toasts := toasts + [notice];
      isLoading := false;
    }

    /** handleAccountChange, run by a registered accountsChanged handler whose closure saw
        `providerAtRegistration`. An empty list clears the account and two balances only;
        otherwise the first account is adopted and a refresh is attempted through the
        closure's own provider. */
    method HandleAccountChange(accounts: seq<Address>, providerAtRegistration: bool, ledger: Ledger)
      requires Valid()
      requires AccountsChanged(providerAtRegistration) in listeners
      modifies this
      ensures Valid()
      ensures hasProvider == old(hasProvider) && isLoading == old(isLoading)
      ensures toasts == old(toasts) && listeners == old(listeners)
      ensures |accounts| == 0 ==>
        && account == "" && balance == "" && wethBalance == ""
        && erc20Balance == old(erc20Balance) && ercTokenSymbol == old(ercTokenSymbol)
      ensures |accounts| > 0 ==> account == accounts[0]
      ensures |accounts| > 0 && providerAtRegistration && QueryBalances(ledger, accounts[0]).Ok? ==>
        var fetched := QueryBalances(ledger, accounts[0]).value;
        && balance == formatEther(fetched.native) && wethBalance == formatEther(fetched.weth)
        && erc20Balance == formatEther(fetched.erc20) && ercTokenSymbol == fetched.symbol
      ensures |accounts| > 0 && !(providerAtRegistration && QueryBalances(ledger, accounts[0]).Ok?) ==>
        && balance == old(balance) && wethBalance == old(wethBalance)
        && erc20Balance == old(erc20Balance) && ercTokenSymbol == old(ercTokenSymbol)
    {
      if |accounts| == 0 {
        account := "";
        balance := "";
        wethBalance := "";
        return;
      }
      account := accounts[0];
      UpdateBalances(accounts[0], providerAtRegistration, ledger);
    }

    /** handleAccountChange as evidently intended: the refresh goes through the provider the
        session holds now rather than the one its handler's closure captured. */
    method HandleAccountChangeLive(accounts: seq<Address>, ledger: Ledger)
      requires Valid()
      requires listeners != []
      modifies this
      ensures Valid()
      ensures hasProvider == old(hasProvider) && isLoading == old(isLoading)
      ensures toasts == old(toasts) && listeners == old(listeners)
      ensures |accounts| == 0 ==>
        && account == "" && balance == "" && wethBalance == ""
        && erc20Balance == old(erc20Balance) && ercTokenSymbol == old(ercTokenSymbol)
      ensures |accounts| > 0 ==> account == accounts[0]
      ensures |accounts| > 0 && QueryBalances(ledger, accounts[0]).Ok? ==>
        var fetched := QueryBalances(ledger, accounts[0]).value;
        && balance == formatEther(fetched.native) && wethBalance == formatEther(fetched.weth)
        && erc20Balance == formatEther(fetched.erc20) && ercTokenSymbol == fetched.symbol
      ensures |accounts| > 0 && QueryBalances(ledger, accounts[0]).Err? ==>
        && balance == old(balance) && wethBalance == old(wethBalance)
        && erc20Balance == old(erc20Balance) && ercTokenSymbol == old(ercTokenSymbol)
    {
      if |accounts| == 0 {
        account := "";
        balance := "";
        wethBalance := "";
        return;
      }
      account := accounts[0];
      UpdateBalances(accounts[0], hasProvider, ledger);
    }

    /** handleChainChange: the page reloads, so every field, the notification log and the
        registered handlers start over as on the first render. */
    method HandleChainChange()
      modifies this
      ensures Valid()
      ensures account == "" && !hasProvider && balance == "" && wethBalance == ""
      ensures erc20Balance == "" && ercTokenSymbol == "" && !isLoading
      ensures toasts == [] && listeners == []
    {
      account, hasProvider := "", false;
      balance, wethBalance, erc20Balance, ercTokenSymbol := "", "", "", "";
      isLoading := false;
      toasts, listeners := [], [];
    }

    /** updateBalances through the provider `provider` of the calling closure: skipped without
        one; otherwise the three balances and the symbol are replaced together once every
        query has answered, and left alone if any query rejects (the rejection is unhandled
        and emits no notification). */
    method UpdateBalances(address: Address, provider: bool, ledger: Ledger)
      requires Valid()
      requires provider ==> hasProvider
      modifies this
      ensures Valid()
      ensures account == old(account) && hasProvider == old(hasProvider) && isLoading == old(isLoading)
      ensures toasts == old(toasts) && listeners == old(listeners)
      ensures provider && QueryBalances(ledger, address).Ok? ==>
        var fetched := QueryBalances(ledger, address).value;
        && balance == formatEther(fetched.native) && wethBalance == formatEther(fetched.weth)
        && erc20Balance == formatEther(fetched.erc20) && ercTokenSymbol == fetched.symbol
      ensures !(provider && QueryBalances(ledger, address).Ok?) ==>
        && balance == old(balance) && wethBalance == old(wethBalance)
        && erc20Balance == old(erc20Balance) && ercTokenSymbol == old(ercTokenSymbol)
    {
      if provider {
        var fetched := QueryBalances(ledger, address);
        if fetched.Ok? {
          balance := formatEther(fetched.value.native);
          wethBalance := formatEther(fetched.value.weth);
          erc20Balance := formatEther(fetched.value.erc20);
          ercTokenSymbol := fetched.value.symbol;
        }
      }
    }
  }
}
