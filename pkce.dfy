/**
 * The PKCE material of functions/auth/start.js: `b64u`, the URL-safe
 * unpadded base64 of section 5 of RFC 4648 as Appendix A of RFC 7636 asks
 * for, and the S256 challenge `b64u(sha256(verifier))`.
 */
module Pkce {
  import opened Strings
  import opened Base64

  /** A SHA-256 digest: 32 bytes. The hash function itself is a parameter of the model. */
  type Digest = d: seq<byte> | |d| == 32 witness seq(32, _ => 0)

  /** The three `replace` calls of `b64u`, applied to base64 text. */
  function ToBase64Url(std: string): string {
    StripTrailing(ReplaceChar(ReplaceChar(std, '+', '-'), '/', '_'), '=')
  }

  /** `b64u(buf)` */
  function B64u(b: seq<byte>): string {
    ToBase64Url(Encode(b))
  }

  /** `sha256b64u(s)`: the S256 code challenge of `s` under the hash `sha256`. */
  function Sha256B64u(sha256: string -> Digest, s: string): string {
    B64u(sha256(s))
  }

  /**
   * `b64u` leaves no `+`, `/` or trailing `=`; it maps `+` to `-` and `/` to
   * `_` one character at a time and removes exactly the trailing `=` run.
   */
  lemma ToBase64UrlShape(std: string)
    ensures var r := ToBase64Url(std);
      && |r| == |std| - TrailingCount(std, '=')
      && '+' !in r && '/' !in r
      && (r == [] || r[|r| - 1] != '=')
      && forall i :: 0 <= i < |r| ==>
           r[i] == (if std[i] == '+' then '-' else if std[i] == '/' then '_' else std[i])
  {
    var m := ReplaceChar(ReplaceChar(std, '+', '-'), '/', '_');
    TrailingOfMapped(std, m);
    StripTrailingShape(m, '=');
    var r := StripTrailing(m, '=');
    forall i | 0 <= i < |r| ensures r[i] != '+' && r[i] != '/' {
      assert r[i] == m[i];
    }
  }

  /** Removing the trailing run of `c` keeps the other characters in place and leaves no `c` at the end. */
  lemma StripTrailingShape(m: string, c: char)
    ensures var r := StripTrailing(m, c);
      && |r| == |m| - TrailingCount(m, c)
      && (r == [] || r[|r| - 1] != c)
      && forall i :: 0 <= i < |r| ==> r[i] == m[i]
  {
  }

  /** The mapping touches neither `=` nor anything else but `+` and `/`, so the trailing `=` run is unchanged. */
  lemma {:induction false} TrailingOfMapped(std: string, m: string)
    requires |m| == |std|
    requires forall i :: 0 <= i < |std| ==> m[i] == (if std[i] == '+' then '-' else if std[i] == '/' then '_' else std[i])
    ensures TrailingCount(m, '=') == TrailingCount(std, '=')
  {
    if std != [] && std[|std| - 1] == '=' {
      TrailingOfMapped(std[..|std| - 1], m[..|m| - 1]);
    }
  }

  /** `-` back to `+`, `_` back to `/`. */
  function FromBase64Url(u: string): string {
    ReplaceChar(ReplaceChar(u, '-', '+'), '_', '/')
  }

  /** Pads with `=` to a multiple of four characters. */
  function Repad(s: string): (r: string)
    ensures |r| % 4 == 0
  {
    s + seq((4 - |s| % 4) % 4, _ => '=')
  }

  /**
   * The URL-safe form loses nothing: mapping `-`/`_` back and re-padding
   * recovers any standard base64 text (a multiple of four characters, at
   * most three trailing `=`, no `-` or `_`).
   */
  lemma B64uRecoverable(std: string)
    requires |std| % 4 == 0 && TrailingCount(std, '=') < 4
    requires '-' !in std && '_' !in std
    ensures Repad(FromBase64Url(ToBase64Url(std))) == std
  {
    ToBase64UrlShape(std);
    RepadMapped(std, ToBase64Url(std));
  }

  lemma RepadMapped(std: string, u: string)
    requires |std| % 4 == 0 && TrailingCount(std, '=') < 4
    requires '-' !in std && '_' !in std
    requires |u| == |std| - TrailingCount(std, '=')
    requires forall i :: 0 <= i < |u| ==>
      u[i] == (if std[i] == '+' then '-' else if std[i] == '/' then '_' else std[i])
    ensures Repad(FromBase64Url(u)) == std
  {
    var n := TrailingCount(std, '=');
    MapBack(std, u);
    PadCount(|std|, n);
    RepadPrefix(std, FromBase64Url(u), n);
  }

  lemma RepadPrefix(std: string, back: string, n: nat)
    requires n <= |std| && back == std[..|std| - n] && (4 - |back| % 4) % 4 == n
    requires forall i :: |std| - n <= i < |std| ==> std[i] == '='
    ensures Repad(back) == std
  {
    var k := |std| - n;
    assert seq(n, _ => '=') == std[k..];
    assert std == std[..k] + std[k..];
  }

  lemma MapBack(std: string, u: string)
    requires '-' !in std && '_' !in std && |u| <= |std|
    requires forall i :: 0 <= i < |u| ==>
      u[i] == (if std[i] == '+' then '-' else if std[i] == '/' then '_' else std[i])
    ensures |FromBase64Url(u)| == |u|
    ensures FromBase64Url(u) == std[..|u|]
  {
    var a := ReplaceChar(u, '-', '+');
    var back := ReplaceChar(a, '_', '/');
    forall i | 0 <= i < |u| ensures back[i] == std[i] {
      assert std[i] in std;
    }
  }

  lemma PadCount(len: nat, n: nat)
    requires len % 4 == 0 && n < 4 && n <= len
    ensures (4 - (len - n) % 4) % 4 == n
  {
    var q := len / 4;
    assert len == 4 * q;
    if n > 0 {
      assert len - n == 4 * (q - 1) + (4 - n);
    }
  }

  lemma {:induction false} TrailingOfPadded(d: string, p: nat)
    requires forall i :: 0 <= i < |d| ==> IsSymbol(d[i])
    ensures TrailingCount(d + seq(p, _ => '='), '=') == p
  {
    var s := d + seq(p, _ => '=');
    if p > 0 {
      assert s[..|s| - 1] == d + seq(p - 1, _ => '=');
      TrailingOfPadded(d, p - 1);
    } else {
      assert s == d;
      assert d != [] ==> IsSymbol(d[|d| - 1]);
    }
  }

  /**
   * The base64url text of `n` bytes is the base64 text without its padding:
   * ceil(4n/3) characters, each a letter, digit, `-` or `_`.
   */
  lemma B64uLength(b: seq<byte>)
    ensures |B64u(b)| == (4 * |b| + 2) / 3
    ensures forall i :: 0 <= i < |B64u(b)| ==> IsUrlSafe(B64u(b)[i])
  {
    var d := Digits(b);
    var pad := Padding(|b|);
    assert pad == seq(|pad|, _ => '=');
    TrailingOfPadded(d, |pad|);
    var std := Encode(b);
    ToBase64UrlShape(std);
    var r := B64u(b);
    forall i | 0 <= i < |r| ensures IsUrlSafe(r[i]) {
      assert std[i] == d[i];
      assert IsSymbol(d[i]);
    }
  }

  /** The unreserved characters of section 4.1 of RFC 7636 that base64url uses. */
  predicate IsUrlSafe(c: char) {
    'A' <= c <= 'Z' || 'a' <= c <= 'z' || '0' <= c <= '9' || c == '-' || c == '_'
  }

  /**
   * The verifier `b64u(randomBytes(64))` has 86 characters, within the 43 to
   * 128 that section 4.1 of RFC 7636 allows, all unreserved.
   */
  lemma VerifierLength(random: seq<byte>)
    requires |random| == 64
    ensures |B64u(random)| == 86 && 43 <= |B64u(random)| <= 128
    ensures forall i :: 0 <= i < |B64u(random)| ==> IsUrlSafe(B64u(random)[i])
  {
    B64uLength(random);
  }

  /** The S256 challenge, base64url of a 32-byte digest, has 43 characters (section 4.2 of RFC 7636). */
  lemma ChallengeLength(sha256: string -> Digest, verifier: string)
    ensures |Sha256B64u(sha256, verifier)| == 43
    ensures forall i :: 0 <= i < 43 ==> IsUrlSafe(Sha256B64u(sha256, verifier)[i])
  {
    B64uLength(sha256(verifier));
  }

  /** The standard text Buffer produces satisfies what `B64uRecoverable` needs. */
  lemma EncodeRecoverable(b: seq<byte>)
    ensures Repad(FromBase64Url(B64u(b))) == Encode(b)
  {
    var d := Digits(b);
    var pad := Padding(|b|);
    assert pad == seq(|pad|, _ => '=');
    TrailingOfPadded(d, |pad|);
    var std := Encode(b);
    assert '-' !in std && '_' !in std by {
      forall i | 0 <= i < |std| ensures std[i] != '-' && std[i] != '_' {
        if i < |d| { assert IsSymbol(d[i]); } else { assert std[i] == '='; }
      }
    }
    B64uRecoverable(std);
  }
}
