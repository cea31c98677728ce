/**
 * The chain probe `isContractAddress` of SafeInfo.tsx: it asks the optional
 * provider for the code stored at the Safe's address and reports whether that
 * code differs from the empty-code marker "0x".
 */
module ContractProbe {
  import opened Optional

  /** The empty-code marker an Ethereum node returns for an address without a contract. */
  const EmptyCode: string := "0x"

  /**
   * How `await provider?.getCode(address)` ends. The provider itself and the
   * node it talks to are outside the model, so the outcome is an input.
   */
  datatype GetCodeOutcome =
    | ProviderMissing          // `provider` is undefined: the optional call yields undefined
    | Returned(code: string)   // the node answered with this hex string
    | Threw                    // the call (or the await) raised an error

  /** The value bound to `code` when the call does not throw: undefined or a string. */
  function AwaitedCode(o: GetCodeOutcome): (code: Option<string>)
    requires !o.Threw?
    ensures code.None? <==> o.ProviderMissing?
    ensures o.Returned? ==> code == Some(o.code)
  {
    if o.ProviderMissing? then None else Some(o.code)
  }

  /** JavaScript's `a !== b` where `a` may be undefined and `b` is a string. */
  function StrictNotEquals(a: Option<string>, b: string): (ne: bool)
    ensures ne <==> a != Some(b)
  {
    match a
    case None => true
    case Some(s) => s != b
  }

  /**
   * `isContractAddress`: the try block returns `code !== '0x'`, the catch block
   * returns false. A missing provider gives an undefined code, which is not
   * strictly equal to "0x", so it is reported as deployed.
   */
  function IsContractAddress(o: GetCodeOutcome): (deployed: bool)
    ensures deployed <==> o.ProviderMissing? || (o.Returned? && o.code != EmptyCode)
  {
    match o
    case Threw => false
    case _ => StrictNotEquals(AwaitedCode(o), EmptyCode)
  }
}
