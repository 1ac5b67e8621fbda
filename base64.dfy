/**
 * Standard base64 text of a byte sequence (section 4 of RFC 4648), the
 * output of Node's `Buffer.toString("base64")`.
 */
module Base64 {
  newtype byte = x: int | 0 <= x < 256

  /** The characters of the base64 alphabet (Table 1 of RFC 4648). */
  predicate IsSymbol(c: char) {
    'A' <= c <= 'Z' || 'a' <= c <= 'z' || '0' <= c <= '9' || c == '+' || c == '/'
  }

  /** Table 1 of RFC 4648: the symbol of a six-bit value. */
  function Symbol(i: int): (c: char)
    requires 0 <= i < 64
    ensures IsSymbol(c)
  {
    if i < 26 then ('A' as int + i) as char
    else if i < 52 then ('a' as int + i - 26) as char
    else if i < 62 then ('0' as int + i - 52) as char
    else if i == 62 then '+'
    else '/'
  }

  /**
   * The symbols for `b`, six bits each, without padding: four for every full
   * group of three bytes, two or three for a final group of one or two bytes.
   */
  function Digits(b: seq<byte>): (d: string)
    ensures |d| == (4 * |b| + 2) / 3
    ensures forall i :: 0 <= i < |d| ==> IsSymbol(d[i])
    decreases |b|
  {
    if |b| == 0 then ""
    else
      var b0 := b[0] as int;
      if |b| == 1 then [Symbol(b0 / 4), Symbol(b0 % 4 * 16)]
      else
        var b1 := b[1] as int;
        if |b| == 2 then [Symbol(b0 / 4), Symbol(b0 % 4 * 16 + b1 / 16), Symbol(b1 % 16 * 4)]
        else
          var b2 := b[2] as int;
          [Symbol(b0 / 4), Symbol(b0 % 4 * 16 + b1 / 16), Symbol(b1 % 16 * 4 + b2 / 64), Symbol(b2 % 64)]
          + Digits(b[3..])
  }

  /** The `=` padding that completes the last group of four. */
  function Padding(n: nat): string {
    if n % 3 == 1 then "==" else if n % 3 == 2 then "=" else ""
  }

  /** `Buffer.from(b).toString("base64")` */
  function Encode(b: seq<byte>): (s: string)
    ensures |s| % 4 == 0 && |s| == 4 * ((|b| + 2) / 3)
  {
    PaddedLength(|b|);
    Digits(b) + Padding(|b|)
  }

  lemma PaddedLength(n: nat)
    ensures (4 * n + 2) / 3 + |Padding(n)| == 4 * ((n + 2) / 3)
  {
    var q, r := n / 3, n % 3;
    assert n == 3 * q + r;
    if r == 0 {
      assert 4 * n + 2 == 3 * (4 * q) + 2;
      assert n + 2 == 3 * q + 2;
    } else if r == 1 {
      assert 4 * n + 2 == 3 * (4 * q + 2);
      assert n + 2 == 3 * (q + 1);
    } else {
      assert 4 * n + 2 == 3 * (4 * q + 3) + 1;
      assert n + 2 == 3 * (q + 1) + 1;
    }
  }
}
