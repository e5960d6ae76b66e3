/** Shared value types and the few JavaScript string operations the model needs. */
module Prelude {
  datatype Option<+T> = None | Some(value: T)

  datatype Result<+T, +E> = Success(value: T) | Failure(error: E)

  function Max(x: int, y: int): int { if x < y then y else x }

  function Min(x: int, y: int): int { if x < y then x else y }

  /** The characters that `String.prototype.trim` removes. */
  predicate IsSpace(c: char) {
    c in "\t\n\r " || c == 11 as char || c == 12 as char || c == 0xa0 as char || c == 0x1680 as char
    || 0x2000 as char <= c <= 0x200a as char || c == 0x2028 as char || c == 0x2029 as char
    || c == 0x202f as char || c == 0x205f as char || c == 0x3000 as char || c == 0xfeff as char
  }

  /** `text.trim().length === 0` */
  predicate IsBlank(text: string) {
    forall i | 0 <= i < |text| :: IsSpace(text[i])
  }

  predicate StartsWith(text: string, prefix: string) { |prefix| <= |text| && text[..|prefix|] == prefix }

  function TrimStart(text: string): string {
    if text != "" && IsSpace(text[0]) then TrimStart(text[1..]) else text
  }

  function TrimEnd(text: string): string {
    if text != "" && IsSpace(text[|text| - 1]) then TrimEnd(text[..|text| - 1]) else text
  }

  function Trim(text: string): string {
    TrimEnd(TrimStart(text))
  }

  /** `Buffer.byteLength(text, "utf8")` of a sequence of Unicode scalar values. */
  function Utf8Bytes(text: string): nat {
    if text == "" then 0 else
      Utf8Bytes(text[..|text| - 1]) + Utf8Width(text[|text| - 1])
  }

  function Utf8Width(c: char): nat {
    if c < 0x80 as char then 1
    else if c < 0x800 as char then 2
    else if c <= 0xffff as char then 3
    else 4
  }
}
