/** What a user sees after switching accounts in the wallet, from a page that connected once:
    the handler registered by that connect, as written, and as evidently intended. */
module AccountSwitch {
  import opened Wrappers
  import opened Ledger
  import opened WalletApp

  const Alice: Address := "0x1111111111111111111111111111111111111111"
  const Bob: Address := "0x2222222222222222222222222222222222222222"

  const OneEther: nat := 1_000_000_000_000_000_000

  /** Alice holds one ether and Bob two, in wei; every query answers. */
  function TwoHolders(): Ledger {
    Ledger(
      (holder: Address) => if holder == Alice then Ok(OneEther) else Ok(2 * OneEther),
      (contract: Address, holder: Address) => Ok(0),
      (contract: Address) => Ok("DAI"),
      "invalid address")
  }

  /** A stand-in for the formatter that tells the two balances apart. */
  function Format(raw: nat): string {
    if raw == OneEther then "1.0" else if raw == 2 * OneEther then "2.0" else "?"
  }

  /** Connect as Alice, then switch to Bob: the handler the connect registered runs with the
      provider its closure captured (none), so Bob's address is shown beside Alice's balance. */
  method StaleBalancesAfterSwitch() returns (shownAccount: Address, shownBalance: string)
    ensures shownAccount == Bob
    ensures shownBalance == Format(TwoHolders().nativeBalance(Alice).value)
    ensures shownBalance != Format(TwoHolders().nativeBalance(Bob).value)
  {
    var app := new App(Format);
    app.ConnectWallet(Some(Wallet(Ok([Alice]))), TwoHolders());
    var handler := app.listeners[0];
    assert !handler.capturedProvider;
    app.HandleAccountChange([Bob], handler.capturedProvider, TwoHolders());
    shownAccount, shownBalance := app.account, app.balance;
  }

  /** The same two steps with the corrected handler: Bob's balance is shown. */
  method LiveBalancesAfterSwitch() returns (shownAccount: Address, shownBalance: string)
    ensures shownAccount == Bob
    ensures shownBalance == Format(TwoHolders().nativeBalance(Bob).value)
  {
    var app := new App(Format);
    app.ConnectWallet(Some(Wallet(Ok([Alice]))), TwoHolders());
    app.HandleAccountChangeLive([Bob], TwoHolders());
    shownAccount, shownBalance := app.account, app.balance;
  }
}
