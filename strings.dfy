/**
 * The string operations of the ECMAScript standard library that the relay
 * uses: `trim`, `split`, `join`, `startsWith`, `endsWith`, single-character
 * global `replace`, and the list parser `split(",").map(trim).filter(Boolean)`
 * that reads both the tenant list and the CORS allowlist.
 */
module Strings {

  /** WhiteSpace and LineTerminator code points of ECMAScript, which `trim` removes. */
  predicate IsWhitespace(c: char) {
    var n := c as int;
    n == 0x09 || n == 0x0A || n == 0x0B || n == 0x0C || n == 0x0D || n == 0x20
    || n == 0xA0 || n == 0x1680 || (0x2000 <= n <= 0x200A) || n == 0x2028
    || n == 0x2029 || n == 0x202F || n == 0x205F || n == 0x3000 || n == 0xFEFF
  }

  predicate AllWhitespace(s: string) {
    forall i :: 0 <= i < |s| ==> IsWhitespace(s[i])
  }

  /** No whitespace at either end. */
  predicate IsTrimmed(s: string) {
    s == [] || (!IsWhitespace(s[0]) && !IsWhitespace(s[|s| - 1]))
  }

  /** Length of the whitespace run at the start of `s`. */
  function LeadingWhitespace(s: string): (n: nat)
    ensures n <= |s|
    ensures forall i :: 0 <= i < n ==> IsWhitespace(s[i])
    ensures n < |s| ==> !IsWhitespace(s[n])
  {
    if s != [] && IsWhitespace(s[0]) then 1 + LeadingWhitespace(s[1..]) else 0
  }

  /** Length of the whitespace run at the end of `s`. */
  function TrailingWhitespace(s: string): (n: nat)
    ensures n <= |s|
    ensures forall i :: |s| - n <= i < |s| ==> IsWhitespace(s[i])
    ensures n < |s| ==> !IsWhitespace(s[|s| - 1 - n])
  {
    if s != [] && IsWhitespace(s[|s| - 1]) then 1 + TrailingWhitespace(s[..|s| - 1]) else 0
  }

  /**
   * `String.prototype.trim`: the part of `s` between its leading and its
   * trailing whitespace run.
   */
  function Trim(s: string): (r: string)
    ensures IsTrimmed(r)
    ensures var a := LeadingWhitespace(s);
      a + |r| <= |s| && r == s[a..a + |r|]
      && AllWhitespace(s[..a]) && AllWhitespace(s[a + |r|..])
    ensures IsTrimmed(s) ==> r == s
  {
    var a := LeadingWhitespace(s);
    var n := TrailingWhitespace(s[a..]);
    assert n < |s| - a ==> !IsWhitespace(s[|s| - 1 - n]);
    s[a..|s| - n]
  }

  /** `s.split(sep)` for a one-character separator: every piece between separators, empty ones included. */
  function Split(s: string, sep: char): (parts: seq<string>)
    ensures |parts| >= 1
    ensures forall i :: 0 <= i < |parts| ==> sep !in parts[i]
  {
    if s == [] then [[]]
    else
      var rest := Split(s[1..], sep);
      if s[0] == sep then [[]] + rest
      else [[s[0]] + rest[0]] + rest[1..]
  }

  /** `parts.join(sep)` */
  function Join(parts: seq<string>, sep: string): string {
    if |parts| == 0 then ""
    else if |parts| == 1 then parts[0]
    else parts[0] + sep + Join(parts[1..], sep)
  }

  /** Splitting then joining with the same separator gives the input back. */
  lemma {:induction false} JoinSplit(s: string, sep: char)
    ensures Join(Split(s, sep), [sep]) == s
  {
    if s != [] {
      var rest := Split(s[1..], sep);
      JoinSplit(s[1..], sep);
      if s[0] == sep {
        assert Split(s, sep) == [[]] + rest;
        assert Join([[]] + rest, [sep]) == [] + [sep] + Join(rest, [sep]) by {
          assert ([[]] + rest)[1..] == rest;
        }
        assert s == [s[0]] + s[1..];
      } else if |rest| == 1 {
        assert s == [s[0]] + s[1..];
      } else {
        var parts := Split(s, sep);
        assert parts[1..] == rest[1..];
        assert Join(rest, [sep]) == rest[0] + [sep] + Join(rest[1..], [sep]);
        assert s == [s[0]] + s[1..];
      }
    }
  }

  /** A separator in the input splits the result exactly there. */
  lemma {:induction false} SplitConcat(a: string, b: string, sep: char)
    ensures Split(a + [sep] + b, sep) == Split(a, sep) + Split(b, sep)
  {
    if a == [] {
      assert (a + [sep] + b)[1..] == b;
    } else {
      assert (a + [sep] + b)[1..] == a[1..] + [sep] + b;
      SplitConcat(a[1..], b, sep);
    }
  }

  /** A string without the separator is a single piece. */
  lemma {:induction false} SplitWithoutSep(s: string, sep: char)
    requires sep !in s
    ensures Split(s, sep) == [s]
  {
    if s != [] {
      SplitWithoutSep(s[1..], sep);
      assert s == [s[0]] + s[1..];
    }
  }

  function TrimEach(parts: seq<string>): (r: seq<string>)
    ensures |r| == |parts|
  {
    if parts == [] then [] else [Trim(parts[0])] + TrimEach(parts[1..])
  }

  /** `.filter(Boolean)` on strings: keeps the non-empty ones. */
  function NonEmpty(parts: seq<string>): seq<string> {
    if parts == [] then [] else (if parts[0] == "" then [] else [parts[0]]) + NonEmpty(parts[1..])
  }

  lemma {:induction false} TrimEachConcat(a: seq<string>, b: seq<string>)
    ensures TrimEach(a + b) == TrimEach(a) + TrimEach(b)
  {
    if a != [] {
      assert (a + b)[1..] == a[1..] + b;
      TrimEachConcat(a[1..], b);
    } else {
      assert a + b == b;
    }
  }

  lemma {:induction false} NonEmptyConcat(a: seq<string>, b: seq<string>)
    ensures NonEmpty(a + b) == NonEmpty(a) + NonEmpty(b)
  {
    if a != [] {
      assert (a + b)[1..] == a[1..] + b;
      NonEmptyConcat(a[1..], b);
    } else {
      assert a + b == b;
    }
  }

  /** `raw.split(",").map(s => s.trim()).filter(Boolean)` */
  function ParseList(raw: string): seq<string> {
    NonEmpty(TrimEach(Split(raw, ',')))
  }

  predicate IsListEntry(s: string) {
    s != "" && IsTrimmed(s) && ',' !in s
  }

  lemma {:induction false} NonEmptyEntries(parts: seq<string>)
    requires forall i :: 0 <= i < |parts| ==> IsTrimmed(parts[i]) && ',' !in parts[i]
    ensures forall i :: 0 <= i < |NonEmpty(parts)| ==> IsListEntry(NonEmpty(parts)[i])
  {
    if parts != [] {
      NonEmptyEntries(parts[1..]);
    }
  }

  lemma {:induction false} TrimEachEntries(parts: seq<string>)
    requires forall i :: 0 <= i < |parts| ==> ',' !in parts[i]
    ensures forall i :: 0 <= i < |parts| ==> IsTrimmed(TrimEach(parts)[i]) && ',' !in TrimEach(parts)[i]
  {
    if parts != [] {
      TrimEachEntries(parts[1..]);
      var t := TrimEach(parts);
      forall i | 0 <= i < |parts| ensures IsTrimmed(t[i]) && ',' !in t[i] {
        if i == 0 {
          var k := LeadingWhitespace(parts[0]);
          assert t[0] == parts[0][k..k + |t[0]|];
        } else {
          assert t[i] == TrimEach(parts[1..])[i - 1];
        }
      }
    }
  }

  /** Every entry of a parsed list is non-empty, has no surrounding whitespace and no comma. */
  lemma ParseListEntries(raw: string)
    ensures forall i :: 0 <= i < |ParseList(raw)| ==> IsListEntry(ParseList(raw)[i])
  {
    TrimEachEntries(Split(raw, ','));
    NonEmptyEntries(TrimEach(Split(raw, ',')));
  }

  /** Parsing keeps input order: the entries of `a,b` are those of `a` followed by those of `b`. */
  lemma ParseListConcat(a: string, b: string)
    ensures ParseList(a + "," + b) == ParseList(a) + ParseList(b)
  {
    SplitConcat(a, b, ',');
    TrimEachConcat(Split(a, ','), Split(b, ','));
    NonEmptyConcat(TrimEach(Split(a, ',')), TrimEach(Split(b, ',')));
  }

  /** A comma-free piece yields its trimmed self, or nothing when it is blank. */
  lemma ParseListPiece(s: string)
    requires ',' !in s
    ensures ParseList(s) == if Trim(s) == "" then [] else [Trim(s)]
  {
    SplitWithoutSep(s, ',');
    assert TrimEach([s]) == [Trim(s)] by {
      assert [s][1..] == [];
    }
    assert NonEmpty([Trim(s)]) == (if Trim(s) == "" then [] else [Trim(s)]) by {
      assert [Trim(s)][1..] == [];
    }
  }

  /** Writing a list of entries comma-separated and parsing it gives the same list. */
  lemma {:induction false} ParseListJoin(entries: seq<string>)
    requires forall i :: 0 <= i < |entries| ==> IsListEntry(entries[i])
    ensures ParseList(Join(entries, ",")) == entries
  {
    if |entries| == 0 {
      assert Split("", ',') == [""];
    } else if |entries| == 1 {
      ParseListPiece(entries[0]);
    } else {
      var rest := entries[1..];
      assert forall i :: 0 <= i < |rest| ==> IsListEntry(rest[i]) by {
        forall i | 0 <= i < |rest| ensures IsListEntry(rest[i]) {
          assert rest[i] == entries[i + 1];
        }
      }
      ParseListJoin(rest);
      assert Join(entries, ",") == entries[0] + "," + Join(rest, ",");
      ParseListConcat(entries[0], Join(rest, ","));
      ParseListPiece(entries[0]);
      assert ParseList(entries[0]) == [entries[0]];
      assert entries == [entries[0]] + rest;
    }
  }

  predicate StartsWith(s: string, prefix: string) {
    |prefix| <= |s| && s[..|prefix|] == prefix
  }

  predicate EndsWith(s: string, suffix: string) {
    |suffix| <= |s| && s[|s| - |suffix|..] == suffix
  }

  /** `s.replace(/from/g, to)` for a single character. */
  function ReplaceChar(s: string, from: char, to: char): (r: string)
    ensures |r| == |s|
    ensures forall i :: 0 <= i < |s| ==> r[i] == if s[i] == from then to else s[i]
  {
    seq(|s|, i requires 0 <= i < |s| => if s[i] == from then to else s[i])
  }

  /** Length of the run of `c` at the end of `s`. */
  function TrailingCount(s: string, c: char): (n: nat)
    ensures n <= |s|
    ensures forall i :: |s| - n <= i < |s| ==> s[i] == c
    ensures n < |s| ==> s[|s| - 1 - n] != c
  {
    if s != [] && s[|s| - 1] == c then 1 + TrailingCount(s[..|s| - 1], c) else 0
  }

  /** `s.replace(/c+$/, "")`: removes the run of `c` at the end. */
  function StripTrailing(s: string, c: char): string {
    s[..|s| - TrailingCount(s, c)]
  }

  /** `a` is `b` with some elements left out, the rest in their order. */
  predicate IsSubsequence<T(==)>(a: seq<T>, b: seq<T>)
    decreases |b|
  {
    if a == [] then true
    else if b == [] then false
    else if a[0] == b[0] then IsSubsequence(a[1..], b[1..])
    else IsSubsequence(a, b[1..])
  }

  /** A subsequence of `b` stays one when `x` is appended to `b`, or to both. */
  lemma SubsequenceAppend<T>(a: seq<T>, b: seq<T>, x: T)
    requires IsSubsequence(a, b)
    ensures IsSubsequence(a, b + [x]) && IsSubsequence(a + [x], b + [x])
    decreases |b|
  {
    if a != [] && b != [] {
      assert (b + [x])[1..] == b[1..] + [x];
      assert (a + [x])[1..] == a[1..] + [x];
      if a[0] == b[0] {
        SubsequenceAppend(a[1..], b[1..], x);
      } else {
        SubsequenceAppend(a, b[1..], x);
      }
    } else if a == [] {
      SubsequenceOfSingleton(b, x);
      assert a + [x] == [x];
    }
  }

  /** `[x]` is a subsequence of any sequence ending in `x`. */
  lemma SubsequenceOfSingleton<T>(b: seq<T>, x: T)
    ensures IsSubsequence([x], b + [x])
    decreases |b|
  {
    if b != [] {
      assert (b + [x])[1..] == b[1..] + [x];
      SubsequenceOfSingleton(b[1..], x);
    }
  }

  /** A subsequence of `b` is one of `[x] + b`. */
  lemma SubsequenceSkip<T>(a: seq<T>, b: seq<T>, x: T)
    requires IsSubsequence(a, b)
    ensures IsSubsequence(a, [x] + b)
  {
    if a != [] {
      assert ([x] + b)[1..] == b;
      if a[0] == x {
        SubsequenceTail(a, b);
      }
    }
  }

  /** Dropping the head of a subsequence keeps it a subsequence. */
  lemma {:induction false} SubsequenceTail<T>(a: seq<T>, b: seq<T>)
    requires a != [] && IsSubsequence(a, b)
    ensures IsSubsequence(a[1..], b)
    decreases |b|
  {
    var c := a[1..];
    if b != [] && c != [] {
      if a[0] == b[0] {
        if c[0] == b[0] {
          SubsequenceTail(c, b[1..]);
        }
      } else {
        SubsequenceTail(a, b[1..]);
        if c[0] == b[0] {
          SubsequenceTail(c, b[1..]);
        }
      }
    }
  }
}
