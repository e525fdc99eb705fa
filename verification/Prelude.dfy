/** Small definitions shared by the models. */
module Prelude {
  type Byte = b: int | 0 <= b < 256

  datatype Option<+T> = None | Some(value: T)

  datatype Result<+T, +E> = Ok(value: T) | Err(error: E)

  function Min(a: int, b: int): int {
    if a <= b then a else b
  }

  predicate IsDigit(c: char) {
    '0' <= c <= '9'
  }

  predicate AllDigits(s: string) {
    forall i :: 0 <= i < |s| ==> IsDigit(s[i])
  }

  /** The UTF-8 encoding of a character, and of a text. */
  function Utf8(c: char): (bs: seq<Byte>)
    ensures c as int < 0x80 ==> bs == [c as int]
    ensures c as int >= 0x80 ==> |bs| >= 2 && forall i :: 0 <= i < |bs| ==> bs[i] >= 0x80
  {
    var n := c as int;
    if n < 0x80 then [n]
    else if n < 0x800 then [0xC0 + n / 64, 0x80 + n % 64]
    else if n < 0x10000 then [0xE0 + n / 4096, 0x80 + n / 64 % 64, 0x80 + n % 64]
    else [0xF0 + n / 262144, 0x80 + n / 4096 % 64, 0x80 + n / 64 % 64, 0x80 + n % 64]
  }

  function Encode(text: string): seq<Byte> {
    if text == "" then [] else Utf8(text[0]) + Encode(text[1..])
  }
}
