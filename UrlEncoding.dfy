/**
 * The part of Python's `urllib.parse.urlencode` that `send_double_opt_in`
 * uses: one key and one string value, each escaped by `quote_plus` with no
 * extra safe characters.  Every character outside the always-safe set is
 * written as its UTF-8 bytes in `%XX` form (upper-case hex), except the
 * space, which becomes `+`.
 */
module UrlEncoding {

  /** The characters `quote_plus` leaves as they are. */
  predicate AlwaysSafe(c: char)
  {
    ('A' <= c <= 'Z') || ('a' <= c <= 'z') || ('0' <= c <= '9')
    || c == '_' || c == '.' || c == '-' || c == '~'
  }

  /** Every character of `s` is always-safe (as every token from
      `token_urlsafe` is: base64url uses letters, digits, `-` and `_`). */
  predicate UrlSafe(s: string)
  {
    forall i :: 0 <= i < |s| ==> AlwaysSafe(s[i])
  }

  /** The characters an escaped value can consist of. */
  predicate EscapedChar(c: char)
  {
    AlwaysSafe(c) || c == '%' || c == '+'
  }

  predicate Escaped(s: string)
  {
    forall i :: 0 <= i < |s| ==> EscapedChar(s[i])
  }

  function HexDigit(d: nat): (c: char)
    requires d < 16
    ensures AlwaysSafe(c)
  {
    if d < 10 then ('0' as int + d) as char else ('A' as int + d - 10) as char
  }

  /** The UTF-8 encoding of one code point. */
  function Utf8(c: char): (bytes: seq<nat>)
    ensures 1 <= |bytes| <= 4
    ensures forall i :: 0 <= i < |bytes| ==> bytes[i] < 256
    ensures |bytes| == 1 <==> c as int < 0x80
  {
    var n := c as int;
    if n < 0x80 then [n]
    else if n < 0x800 then [0xC0 + n / 64, 0x80 + n % 64]
    else if n < 0x10000 then [0xE0 + n / 4096, 0x80 + (n / 64) % 64, 0x80 + n % 64]
    else [0xF0 + n / 262144, 0x80 + (n / 4096) % 64, 0x80 + (n / 64) % 64, 0x80 + n % 64]
  }

  /** `%XX` for every byte. */
  function PercentEncode(bytes: seq<nat>): (r: string)
    requires forall i :: 0 <= i < |bytes| ==> bytes[i] < 256
    ensures |r| == 3 * |bytes|
    ensures Escaped(r)
    ensures |bytes| > 0 ==> r[0] == '%'
  {
    if |bytes| == 0 then ""
    else ['%', HexDigit(bytes[0] / 16), HexDigit(bytes[0] % 16)] + PercentEncode(bytes[1..])
  }

  /** How `quote_plus` writes one character. */
  function QuoteChar(c: char): (r: string)
    ensures Escaped(r)
    ensures |r| == 1 <==> AlwaysSafe(c) || c == ' '
    ensures |r| >= 1
  {
    if AlwaysSafe(c) then [c]
    else if c == ' ' then "+"
    else PercentEncode(Utf8(c))
  }

  /** `quote_plus(s, safe="")`. */
  function QuotePlus(s: string): (r: string)
    ensures Escaped(r)
    ensures |r| >= |s|
  {
    if |s| == 0 then "" else QuoteChar(s[0]) + QuotePlus(s[1..])
  }

  /** `urlencode({key: value})`. */
  function UrlEncode(key: string, value: string): (r: string)
    ensures '\n' !in r && '&' !in r && '#' !in r
    ensures |r| >= |key| + 1 + |value|
    ensures UrlSafe(key) && UrlSafe(value) ==> r == key + "=" + value
  {
    var k, v := QuotePlus(key), QuotePlus(value);
    EscapedHasNoSeparator(k);
    EscapedHasNoSeparator(v);
    QuotePlusUnchangedIff(key);
    QuotePlusUnchangedIff(value);
    var r := k + "=" + v;
    assert forall i :: 0 <= i < |r| ==> r[i] != '\n' && r[i] != '&' && r[i] != '#' by {
      forall i | 0 <= i < |r| ensures r[i] != '\n' && r[i] != '&' && r[i] != '#' {
        if i < |k| { assert r[i] == k[i]; }
        else if i > |k| { assert r[i] == v[i - |k| - 1]; }
      }
    }
    r
  }

  /** An escaped value holds no newline, `&`, `=` or `#`: the encoded pair is
      one query parameter on one line. */
  lemma EscapedHasNoSeparator(s: string)
    requires Escaped(s)
    ensures '\n' !in s && '&' !in s && '=' !in s && '#' !in s
  {
    forall i | 0 <= i < |s| ensures s[i] != '\n' && s[i] != '&' && s[i] != '=' && s[i] != '#' {
      assert EscapedChar(s[i]);
    }
  }

  /** `quote_plus` leaves a value unchanged exactly when all of its
      characters are always-safe. */
  lemma {:induction false} QuotePlusUnchangedIff(s: string)
    ensures QuotePlus(s) == s <==> UrlSafe(s)
  {
    if |s| > 0 {
      QuotePlusUnchangedIff(s[1..]);
      var head, tail := QuoteChar(s[0]), QuotePlus(s[1..]);
      assert QuotePlus(s) == head + tail;
      if UrlSafe(s) {
        assert AlwaysSafe(s[0]);
        assert UrlSafe(s[1..]) by {
          forall k | 0 <= k < |s[1..]| ensures AlwaysSafe(s[1..][k]) {
            assert s[1..][k] == s[k + 1];
          }
        }
        assert head + tail == [s[0]] + s[1..] == s;
      }
      if QuotePlus(s) == s {
        // Lengths force one character per character, so the head is s[0].
        assert |head| == 1 && head[0] == s[0];
        assert QuoteChar(' ') == "+";
        assert AlwaysSafe(s[0]);
        assert tail == s[1..] by { assert tail == (head + tail)[1..]; }
        forall k | 0 <= k < |s| ensures AlwaysSafe(s[k]) {
          if k > 0 { assert s[k] == s[1..][k - 1]; }
        }
      }
    }
  }
}
