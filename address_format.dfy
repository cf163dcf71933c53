/** Display form of an account address (`truncateAddress` in src/App.tsx). */
module AddressFormat {

  function Min(a: int, b: int): int { if a <= b then a else b }

  /** The first six characters, an ellipsis and the last four. Like the slices it models,
      it never fails: a short address contributes all of it to each end. */
  function TruncateAddress(address: string): (r: string)
    ensures |r| == Min(6, |address|) + 3 + Min(4, |address|)
    ensures r[..Min(6, |address|)] == address[..Min(6, |address|)]
    ensures r[Min(6, |address|)..Min(6, |address|) + 3] == "..."
    ensures r[|r| - Min(4, |address|)..] == address[|address| - Min(4, |address|)..]
    ensures |address| >= 10 ==> |r| == 13 && r[..6] == address[..6] && r[9..] == address[|address| - 4..]
  {
    var head := address[..Min(6, |address|)];
    var tail := if |address| >= 4 then address[|address| - 4..] else address;
    head + "..." + tail
  }

  /** A truncated address of a well-formed (ten or more characters) address is a fixed point:
      truncating it again shows the same text. */
  lemma TruncateAddressIdempotent(address: string)
    requires |address| >= 10
    ensures TruncateAddress(TruncateAddress(address)) == TruncateAddress(address)
  {
  }

  /** Two well-formed addresses display the same exactly when they agree on the first six
      and the last four characters: the display keeps those and nothing else. */
  lemma TruncateAddressSameDisplay(a: string, b: string)
    requires |a| >= 10 && |b| >= 10
    ensures TruncateAddress(a) == TruncateAddress(b) <==> a[..6] == b[..6] && a[|a| - 4..] == b[|b| - 4..]
  {
  }
}
