/** Java's fixed-width integer types, as the limiter's fields declare them. */
module JavaInts {

  /** Java `int`: the request limit, `maxTokens` and the semaphore's permit count. */
  newtype int32 = x: int | -0x8000_0000 <= x <= 0x7fff_ffff

  /** Java `long`: nanosecond quantities such as the refill period. */
  newtype int64 = x: int | -0x8000_0000_0000_0000 <= x <= 0x7fff_ffff_ffff_ffff
}
