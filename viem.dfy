/**
 * The pure helpers of the viem library that the bridge calls. Their code is
 * not part of this model, so each is a parameter of the operations that use it.
 */
module Viem {
  import opened Wrappers

  datatype Helpers = Helpers(
    /** `checksumAddress(a) === a`: the EIP-55 mixed-case checksum test (Keccak-256). */
    isChecksumAddress: string -> bool,
    /** `formatUnits(value, decimals)`: a decimal rendering used only inside reason strings. */
    formatUnits: (int, nat) -> string,
    /** `parseUnits(text, decimals)`: decimal text to an integer in the smallest unit, or a throw. */
    parseUnits: (string, nat) -> Result<int, Error>)
}
