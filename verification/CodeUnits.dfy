/** JavaScript's strings: UTF-16 code units, lone surrogates included. */
module CodeUnits {
  newtype CodeUnit = unit: int | 0 <= unit < 0x1_0000

  type CodeText = seq<CodeUnit>
}
