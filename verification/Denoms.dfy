/** Denoms: printed as `asset-issuer` when tokens are sent, split at '-' when balances are scanned
    (modules/service/processor-coreum/processor.go). */
module Denoms {
  import opened Strings

  function Print(asset: string, issuer: string): string {
    asset + "-" + issuer
  }

  /** A scanned denom: the native one keeps its name, another is split, and one without '-' makes the source
      index out of range. */
  datatype Scanned = Balance(asset: string, issuer: string) | OutOfRange

  function Scan(denom: string, native: string): Scanned {
    if denom == native then Balance(native, "")
    else
      var parts := Split(denom, '-');
      if |parts| < 2 then OutOfRange else Balance(parts[0], parts[1])
  }

  /** Denom round trip: the scan returns the printed pair exactly when neither part contains a '-'. */
  lemma DenomRoundTripIff(asset: string, issuer: string, native: string)
    requires Print(asset, issuer) != native
    ensures Scan(Print(asset, issuer), native) == Balance(asset, issuer) <==> '-' !in asset && '-' !in issuer
  {
    var denom := Print(asset, issuer);
    PiecesHaveNoSeparator(denom, '-');
    if '-' !in asset && '-' !in issuer {
      assert denom == asset + ['-'] + issuer;
      SplitAtSeparator(asset, issuer, '-');
      SplitWithoutSeparator(issuer, '-');
    }
  }

  /** What is sent for a scanned deposit is the denom that was scanned, when that denom has exactly one '-'. */
  lemma SentDenomIsScannedDenom(denom: string, native: string)
    requires denom != native && |Split(denom, '-')| == 2
    ensures Scan(denom, native).Balance?
    ensures Print(Scan(denom, native).asset, Scan(denom, native).issuer) == denom
  {
    JoinOfTwo(denom, '-');
  }

  lemma {:induction false} JoinOfTwo(s: string, sep: char)
    ensures |Split(s, sep)| == 1 ==> Split(s, sep)[0] == s
    ensures |Split(s, sep)| == 2 ==> Split(s, sep)[0] + [sep] + Split(s, sep)[1] == s
  {
    if s != "" {
      JoinOfTwo(s[1..], sep);
      assert s == [s[0]] + s[1..];
    }
  }
}
