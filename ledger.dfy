/** The remote ledger as the session sees it: three balance queries and a symbol query,
    each of which may reject. Every await in src/App.tsx reads one of these. */
module Ledger {
  import opened Wrappers

  type Address = string

  /** The wrapped-ether contract and the configured ERC-20 token contract. */
  const WethAddress: Address := "0xC02aaA39b223FE8D0A0e5C4F27eAD9083C756Cc2"
  const Erc20Address: Address := "0x6B175474E89094C44Da98b954EedeAC495271d0F"

  /** A snapshot of the remote ledger at the time of one handler run.
      `nativeBalance` is the provider's getBalance, `balanceOf(contract, holder)` a token
      contract's balanceOf, `symbol(contract)` its symbol(); raw balances are base units.
      `undefinedAddressError` is what a query rejects with when handed no address at all. */
  datatype Ledger = Ledger(
    nativeBalance: Address -> Result<nat>,
    balanceOf: (Address, Address) -> Result<nat>,
    symbol: Address -> Result<string>,
    undefinedAddressError: string)

  /** Raw values of one complete refresh, before display formatting. */
  datatype Balances = Balances(native: nat, weth: nat, erc20: nat, symbol: string)

  /** The four awaits of a refresh, in source order; the first rejection ends the chain. */
  function QueryBalances(ledger: Ledger, holder: Address): (r: Result<Balances>)
    ensures r.Ok? <==>
      ledger.nativeBalance(holder).Ok? && ledger.balanceOf(WethAddress, holder).Ok? &&
      ledger.balanceOf(Erc20Address, holder).Ok? && ledger.symbol(Erc20Address).Ok?
    ensures r.Ok? ==>
      r.value.native == ledger.nativeBalance(holder).value &&
      r.value.weth == ledger.balanceOf(WethAddress, holder).value &&
      r.value.erc20 == ledger.balanceOf(Erc20Address, holder).value &&
      r.value.symbol == ledger.symbol(Erc20Address).value
    ensures ledger.nativeBalance(holder).Err? ==> r == Err(ledger.nativeBalance(holder).error)
    ensures ledger.nativeBalance(holder).Ok? && ledger.balanceOf(WethAddress, holder).Err? ==>
      r == Err(ledger.balanceOf(WethAddress, holder).error)
    ensures (ledger.nativeBalance(holder).Ok? && ledger.balanceOf(WethAddress, holder).Ok? &&
             ledger.balanceOf(Erc20Address, holder).Err?) ==>
      r == Err(ledger.balanceOf(Erc20Address, holder).error)
    ensures (ledger.nativeBalance(holder).Ok? && ledger.balanceOf(WethAddress, holder).Ok? &&
             ledger.balanceOf(Erc20Address, holder).Ok? && ledger.symbol(Erc20Address).Err?) ==>
      r == Err(ledger.symbol(Erc20Address).error)
  {
    var native :- ledger.nativeBalance(holder);
    var weth :- ledger.balanceOf(WethAddress, holder);
    var erc20 :- ledger.balanceOf(Erc20Address, holder);
    var symbol :- ledger.symbol(Erc20Address);
    Ok(Balances(native, weth, erc20, symbol))
  }
}
