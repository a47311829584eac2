/**
 * The key/value store behind the wheel (`localStorage` or the host's
 * `window.storage`), as a map from keys to strings, and the rules by which
 * a stored spin count is read back.
 */
module Persistence {
  import opened Wrappers
  import opened Numbers

  type Store = map<string, string>

  /** The key both variants keep the spin counter under. */
  const SPINS_KEY: string := "wheel_spins_used"

  /** `getItem(key)`: the stored string, or nothing. */
  function Lookup(store: Store, key: string): (v: Option<string>)
    ensures v.Some? <==> key in store
    ensures v.Some? ==> v.value == store[key]
  {
    if key in store then Some(store[key]) else None
  }

  /** `saved ? parseInt(saved) : 0`: an absent or empty value (both falsy) reads as 0. */
  function ReadCount(saved: Option<string>): (n: nat)
    ensures saved == None || saved == Some("") ==> n == 0
    ensures saved.Some? && ParseNat(saved.value).Some? ==> n == ParseNat(saved.value).value
  {
    match saved
    case None => 0
    case Some(s) =>
      if s == "" then 0
      else match ParseNat(s)
        case Some(k) => k
        case None => 0
  }

  /** `b.toString()` for a boolean. */
  function BoolToString(b: bool): (s: string)
    ensures s == "true" <==> b
  {
    if b then "true" else "false"
  }

  /** A count written with `toString` reads back as the same count. */
  lemma ReadCountRoundTrip(n: nat)
    ensures ReadCount(Some(NatToString(n))) == n
  {
    ParseNatToString(n);
  }
}
