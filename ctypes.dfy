/** The C integer types the daemon interface is written in. */
module CTypes {

  /** `c_int`, the type of every status code and handle the daemon returns. */
  type i32 = x: int | -0x8000_0000 <= x < 0x8000_0000

  /** `c_uint`, the type of pin numbers, handles and lengths passed to the daemon. */
  type u32 = x: int | 0 <= x < 0x1_0000_0000

  /** `buf.len() as c_uint`: the cast keeps the low 32 bits. */
  function AsU32(n: nat): (r: u32)
    ensures n < 0x1_0000_0000 ==> r == n
  {
    n % 0x1_0000_0000
  }
}
