// Small value types shared by the FFmpeg helper model and the render scene.
module Base {

  /** An 8-bit unsigned value (C# `byte`). */
  newtype byte = x: int | 0 <= x < 0x100

  /** A 16-bit unsigned value (C# `ushort`), the type of SDL audio format codes. */
  newtype ushort = x: int | 0 <= x < 0x1_0000

  /** Largest C# `int`; the decode loop casts byte offsets to it. */
  const INT32_MAX: int := 0x7FFF_FFFF

  datatype Option<+T> = None | Some(value: T)

  /** The outcome of an operation whose C# original throws on failure. */
  datatype Result<+T, +E> = Success(value: T) | Failure(error: E)

  function Max(a: int, b: int): int
  {
    if a < b then b else a
  }
}
