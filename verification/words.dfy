/** The C# integral types the injector passes to PS3Lib. */
module Words {

  /** C# `byte`. */
  type Byte = x: int | 0 <= x < 0x100

  /** C# `uint`. */
  type UInt32 = x: int | 0 <= x < 0x1_0000_0000
}
