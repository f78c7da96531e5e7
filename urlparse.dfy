/**
 * `urllib.parse.quote(s)` with its default `safe='/'`: the string is
 * encoded as UTF-8 and every byte outside the unreserved set of section
 * 2.3 of RFC 3986 and `/` becomes a percent-encoded triple `%XX` with
 * upper-case hexadecimal digits (section 2.1 of RFC 3986).
 */
module UrlParse {
  import opened Wrappers
  import opened Utf8

  /** The unreserved characters of section 2.3 of RFC 3986: ALPHA / DIGIT / "-" / "." / "_" / "~". */
  predicate IsUnreserved(b: int)
  {
    || 'A' as int <= b <= 'Z' as int
    || 'a' as int <= b <= 'z' as int
    || '0' as int <= b <= '9' as int
    || b == '-' as int || b == '.' as int || b == '_' as int || b == '~' as int
  }

  /** The bytes `quote` leaves alone: the unreserved ones and the default safe `/`. */
  predicate IsSafe(b: int) { IsUnreserved(b) || b == '/' as int }

  predicate IsSafeChar(c: char) { IsSafe(c as int) }

  predicate IsUpperHex(c: char) { '0' <= c <= '9' || 'A' <= c <= 'F' }

  predicate IsHex(c: char) { '0' <= c <= '9' || 'A' <= c <= 'F' || 'a' <= c <= 'f' }

  function HexDigit(d: nat): (c: char)
    requires d < 16
    ensures IsUpperHex(c)
  {
    if d < 10 then ('0' as int + d) as char else ('A' as int + d - 10) as char
  }

  function HexValue(c: char): nat
    requires IsHex(c)
  {
    if '0' <= c <= '9' then c as int - '0' as int
    else if 'A' <= c <= 'F' then c as int - 'A' as int + 10
    else c as int - 'a' as int + 10
  }

  /**
   * What a well-formed result of `quote` looks like: safe characters and
   * `%` followed by two upper-case hexadecimal digits, nothing else.
   */
  predicate IsEncoded(s: string)
    decreases |s|
  {
    || |s| == 0
    || (IsSafeChar(s[0]) && IsEncoded(s[1..]))
    || (|s| >= 3 && s[0] == '%' && IsUpperHex(s[1]) && IsUpperHex(s[2]) && IsEncoded(s[3..]))
  }

  /** The quoter's treatment of one byte. */
  function EscapeByte(b: byte): string
  {
    if IsSafe(b) then [b as char] else ['%', HexDigit(b / 16), HexDigit(b % 16)]
  }

  /** The number of bytes the quoter must escape. */
  function CountUnsafe(bs: seq<byte>): nat
  {
    if |bs| == 0 then 0 else (if IsSafe(bs[0]) then 0 else 1) + CountUnsafe(bs[1..])
  }

  /**
   * `quote_from_bytes(bs, safe='/')`. Every escaped byte costs two extra
   * characters and no safe byte does, so with `IsEncoded` and the round
   * trip `PercentDecodeQuoteBytes` the length pins each safe byte to
   * itself and each unsafe byte to one `%XX` triple.
   */
  function QuoteBytes(bs: seq<byte>): (r: string)
    ensures IsEncoded(r)
    ensures |r| == |bs| + 2 * CountUnsafe(bs)
    ensures |r| >= |bs|
    ensures |r| == |bs| <==> forall i :: 0 <= i < |bs| ==> IsSafe(bs[i])
  {
    if |bs| == 0 then ""
    else
      var head := EscapeByte(bs[0]);
      var rest := QuoteBytes(bs[1..]);
      assert (head + rest)[|head|..] == rest;
      assert |head + rest| == |bs| ==> IsSafe(bs[0]) && |rest| == |bs| - 1;
      assert (forall i :: 0 <= i < |bs| ==> IsSafe(bs[i])) ==>
        forall i :: 0 <= i < |bs| - 1 ==> IsSafe(bs[1..][i]);
      head + rest
  }

  /** The quoter works byte by byte: quoting a concatenation concatenates the quotings. */
  lemma {:induction false} QuoteBytesAppend(a: seq<byte>, b: seq<byte>)
    ensures QuoteBytes(a + b) == QuoteBytes(a) + QuoteBytes(b)
    decreases |a|
  {
    if |a| > 0 {
      assert (a + b)[1..] == a[1..] + b;
      QuoteBytesAppend(a[1..], b);
    } else {
      assert a + b == b;
    }
  }

  /** One byte: a safe byte is itself, any other byte is `%` and its two upper-case hex digits. */
  lemma QuoteBytesOne(b: byte)
    ensures IsSafe(b) ==> QuoteBytes([b]) == [b as char]
    ensures !IsSafe(b) ==> QuoteBytes([b]) == ['%', HexDigit(b / 16), HexDigit(b % 16)]
  {
    assert [b][1..] == [];
  }

  /** `quote(s)`: UTF-8 first, then the byte quoter. */
  function Quote(s: string): (r: string)
    ensures IsEncoded(r)
  {
    QuoteBytes(Encode(s))
  }

  /** Everything in an encoded string is a safe character or `%`, so none of the query's delimiters. */
  lemma {:induction false} EncodedAlphabet(s: string)
    requires IsEncoded(s)
    ensures forall i :: 0 <= i < |s| ==> IsSafeChar(s[i]) || s[i] == '%'
    ensures '&' !in s && '@' !in s && '=' !in s && ' ' !in s && '?' !in s && '#' !in s
  {
    if |s| > 0 {
      if IsSafeChar(s[0]) && IsEncoded(s[1..]) {
        EncodedAlphabet(s[1..]);
        forall i | 0 <= i < |s| ensures IsSafeChar(s[i]) || s[i] == '%' {
          if i > 0 { assert s[i] == s[1..][i - 1]; }
        }
      } else {
        EncodedAlphabet(s[3..]);
        forall i | 0 <= i < |s| ensures IsSafeChar(s[i]) || s[i] == '%' {
          if i >= 3 { assert s[i] == s[3..][i - 3]; }
        }
      }
    }
  }

  /** The inverse of percent-encoding: `%XX` (either case) is the byte XX, an ASCII character its own code. */
  function PercentDecode(s: string): Option<seq<byte>>
    decreases |s|
  {
    if |s| == 0 then Some([])
    else if s[0] == '%' then
      if |s| >= 3 && IsHex(s[1]) && IsHex(s[2]) then
        match PercentDecode(s[3..])
        case None => None
        case Some(rest) => Some([HexValue(s[1]) * 16 + HexValue(s[2])] + rest)
      else None
    else if s[0] as int < 0x80 then
      match PercentDecode(s[1..])
      case None => None
      case Some(rest) => Some([s[0] as int] + rest)
    else None
  }

  lemma HexRoundTrip(b: byte)
    ensures HexValue(HexDigit(b / 16)) * 16 + HexValue(HexDigit(b % 16)) == b
  {
  }

  /** Percent-decoding undoes the byte quoter. */
  lemma {:induction false} PercentDecodeQuoteBytes(bs: seq<byte>)
    ensures PercentDecode(QuoteBytes(bs)) == Some(bs)
  {
    if |bs| > 0 {
      var head := EscapeByte(bs[0]);
      var rest := QuoteBytes(bs[1..]);
      var r := head + rest;
      PercentDecodeQuoteBytes(bs[1..]);
      if IsSafe(bs[0]) {
        assert r[0] == bs[0] as char && r[1..] == rest;
      } else {
        HexRoundTrip(bs[0]);
        assert r[0] == '%' && r[1] == HexDigit(bs[0] / 16) && r[2] == HexDigit(bs[0] % 16);
        assert r[3..] == rest;
      }
      assert [bs[0]] + bs[1..] == bs;
    }
  }

  /**
   * The inverse of `Quote` that the query reader applies: percent-decode,
   * then read the bytes as UTF-8. It is stricter than Python's `unquote`,
   * which keeps a malformed `%` or a non-ASCII character as it is; here
   * both give None.
   */
  function Unquote(s: string): Option<string>
  {
    match PercentDecode(s)
    case None => None
    case Some(bs) => Decode(bs)
  }

  /** `unquote(quote(s)) == s`: quoting loses nothing, so distinct inputs give distinct queries. */
  lemma UnquoteQuote(s: string)
    ensures Unquote(Quote(s)) == Some(s)
  {
    PercentDecodeQuoteBytes(Encode(s));
    DecodeEncode(s);
  }

  /** The byte quoter leaves a run of safe bytes unchanged, character for byte. */
  lemma {:induction false} QuoteBytesSafe(bs: seq<byte>)
    requires forall i :: 0 <= i < |bs| ==> IsSafe(bs[i])
    ensures |QuoteBytes(bs)| == |bs|
    ensures forall i :: 0 <= i < |bs| ==> QuoteBytes(bs)[i] as int == bs[i]
  {
    if |bs| > 0 {
      QuoteBytesSafe(bs[1..]);
    }
  }

  /** `quote(s) == s` exactly when every character of `s` is unreserved or `/`. */
  lemma QuoteIdentity(s: string)
    ensures Quote(s) == s <==> forall i :: 0 <= i < |s| ==> IsSafeChar(s[i])
  {
    var bs := Encode(s);
    if forall i :: 0 <= i < |s| ==> IsSafeChar(s[i]) {
      EncodeAscii(s);
      QuoteBytesSafe(bs);
      assert Quote(s) == s;
    }
    if Quote(s) == s {
      assert |bs| == |s|;
      EncodeLengthAscii(s);
      EncodeAscii(s);
      forall i | 0 <= i < |s| ensures IsSafeChar(s[i]) {
        assert IsSafe(bs[i]);
      }
    }
  }
}
