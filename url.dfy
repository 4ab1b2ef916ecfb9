/**
 * The WhatsApp Web deep link built by `send_whatsapp_message`
 * (send_whatsapp.py, lines 67-72): the phone number with its leading `+`
 * characters stripped, the message encoded as `urllib.parse.quote_plus` does it
 * (UTF-8, then RFC 3986 section 2.1 percent-encoding of every byte that is not
 * an unreserved character of section 2.3, with the space written as `+` as in
 * HTML form encoding), and the `app_absent=0` flag.
 *
 * The partners: `UnquotePlus` decodes a query value, and `Params` splits the
 * query of a URL into its key/value pairs as a web server would.
 */
module Url {
  import opened Wrappers
  import Utf8

  const SendBase := "https://web.whatsapp.com/send?"

  // ---------------------------------------------------------------- lstrip('+')

  /** `s.lstrip('+')`: every leading `+` removed, the rest untouched. */
  function LStripPlus(s: string): (r: string)
    ensures |r| <= |s| && r == s[|s| - |r|..]
    ensures forall k :: 0 <= k < |s| - |r| ==> s[k] == '+'
    ensures r == [] || r[0] != '+'
    decreases |s|
  {
    if |s| > 0 && s[0] == '+' then LStripPlus(s[1..]) else s
  }

  // ------------------------------------------------------------- quote_plus

  /** RFC 3986 section 2.3: the characters that are never percent-encoded. */
  predicate IsUnreserved(c: char) {
    ('A' <= c <= 'Z') || ('a' <= c <= 'z') || ('0' <= c <= '9')
    || c == '-' || c == '.' || c == '_' || c == '~'
  }

  predicate IsHexDigit(c: char) {
    ('0' <= c <= '9') || ('A' <= c <= 'F') || ('a' <= c <= 'f')
  }

  /** The upper-case hexadecimal digit of `n`, as Python writes `%XX`. */
  function HexDigit(n: int): (c: char)
    requires 0 <= n < 16
    ensures IsHexDigit(c) && !('a' <= c <= 'f')
  {
    if n < 10 then ('0' as int + n) as char else ('A' as int + n - 10) as char
  }

  function HexValue(c: char): (n: int)
    requires IsHexDigit(c)
    ensures 0 <= n < 16
  {
    if '0' <= c <= '9' then c as int - '0' as int
    else if 'A' <= c <= 'F' then c as int - 'A' as int + 10
    else c as int - 'a' as int + 10
  }

  /** The text one byte becomes. */
  function QuoteByte(b: Utf8.Byte): string {
    if b == 0x20 then "+"
    else if IsUnreserved(b as char) then [b as char]
    else ['%', HexDigit(b / 16), HexDigit(b % 16)]
  }

  function QuoteBytes(bs: seq<Utf8.Byte>): string {
    if bs == [] then "" else QuoteByte(bs[0]) + QuoteBytes(bs[1..])
  }

  /** `quote_plus(message)` with its defaults: `safe=''`, UTF-8. */
  function QuotePlus(s: string): string {
    QuoteBytes(Utf8.Encode(s))
  }

  // --------------------------------------------------- the decoding partner

  /**
   * The bytes a query value stands for: `+` is a space, `%XX` is the byte XX,
   * and any other character (a `%` not followed by two hexadecimal digits
   * included) stands for its own UTF-8 bytes.
   */
  function UnquoteBytes(t: string): seq<Utf8.Byte>
    decreases |t|
  {
    if t == [] then []
    else if t[0] == '+' then [0x20] + UnquoteBytes(t[1..])
    else if t[0] == '%' && |t| >= 3 && IsHexDigit(t[1]) && IsHexDigit(t[2]) then
      [HexValue(t[1]) * 16 + HexValue(t[2])] + UnquoteBytes(t[3..])
    else Utf8.EncodeChar(t[0]) + UnquoteBytes(t[1..])
  }

  /** Decodes a query value; `None` when its bytes are not valid UTF-8. */
  function UnquotePlus(t: string): Option<string> {
    Utf8.Decode(UnquoteBytes(t))
  }

  lemma UnquoteQuoteByte(b: Utf8.Byte, rest: string)
    ensures UnquoteBytes(QuoteByte(b) + rest) == [b] + UnquoteBytes(rest)
  {
    var t := QuoteByte(b) + rest;
    if b == 0x20 {
      assert t[0] == '+' && t[1..] == rest;
    } else if IsUnreserved(b as char) {
      assert t[0] == b as char && t[1..] == rest;
      assert Utf8.EncodeChar(b as char) == [b];
    } else {
      assert t[0] == '%' && t[1] == HexDigit(b / 16) && t[2] == HexDigit(b % 16);
      assert t[3..] == rest;
      assert HexValue(t[1]) * 16 + HexValue(t[2]) == b;
    }
  }

  lemma {:induction false} UnquoteQuoteBytes(bs: seq<Utf8.Byte>)
    ensures UnquoteBytes(QuoteBytes(bs)) == bs
  {
    if bs != [] {
      UnquoteQuoteByte(bs[0], QuoteBytes(bs[1..]));
      UnquoteQuoteBytes(bs[1..]);
      assert [bs[0]] + bs[1..] == bs;
    }
  }

  /** Decoding the `text` value gives back the message, whatever it holds. */
  lemma QuotePlusRoundTrip(message: string)
    ensures UnquotePlus(QuotePlus(message)) == Some(message)
  {
    UnquoteQuoteBytes(Utf8.Encode(message));
    Utf8.DecodeEncode(message);
  }

  // ------------------------------------------------ what the encoding emits

  /** Unreserved characters, `+`, and `%` followed by two upper-case hex digits. */
  predicate IsEncoded(t: string)
    decreases |t|
  {
    if t == [] then true
    else if IsUnreserved(t[0]) || t[0] == '+' then IsEncoded(t[1..])
    else t[0] == '%' && |t| >= 3 && IsHexDigit(t[1]) && IsHexDigit(t[2])
         && !('a' <= t[1] <= 'f') && !('a' <= t[2] <= 'f') && IsEncoded(t[3..])
  }

  lemma {:induction false} QuoteBytesEncoded(bs: seq<Utf8.Byte>)
    ensures IsEncoded(QuoteBytes(bs))
  {
    if bs != [] {
      var q, rest := QuoteByte(bs[0]), QuoteBytes(bs[1..]);
      QuoteBytesEncoded(bs[1..]);
      var t := q + rest;
      if |q| == 1 {
        assert t[1..] == rest;
      } else {
        assert t[3..] == rest;
      }
    }
  }

  /** Every character of an encoded value is unreserved, `+`, `%` or a hex digit. */
  lemma {:induction false} EncodedAlphabet(t: string)
    requires IsEncoded(t)
    ensures forall k :: 0 <= k < |t| ==> IsUnreserved(t[k]) || t[k] == '+' || t[k] == '%'
    decreases |t|
  {
    if t != [] {
      if IsUnreserved(t[0]) || t[0] == '+' {
        EncodedAlphabet(t[1..]);
        assert forall k :: 1 <= k < |t| ==> t[k] == t[1..][k - 1];
      } else {
        EncodedAlphabet(t[3..]);
        assert forall k :: 3 <= k < |t| ==> t[k] == t[3..][k - 3];
      }
    }
  }

  /**
   * The encoded message cannot end the `text` parameter or start another one:
   * it holds no `&`, `=`, `#` or space.
   */
  lemma QuotePlusIsQuerySafe(message: string)
    ensures IsEncoded(QuotePlus(message))
    ensures '&' !in QuotePlus(message) && '=' !in QuotePlus(message)
    ensures '#' !in QuotePlus(message) && ' ' !in QuotePlus(message)
  {
    QuoteBytesEncoded(Utf8.Encode(message));
    EncodedAlphabet(QuotePlus(message));
  }

  // ------------------------------------------------------------ the deep link

  /** The URL of send_whatsapp.py, lines 67-72. */
  function DeepLink(phone: string, message: string): string {
    SendBase + "phone=" + LStripPlus(phone) + "&text=" + QuotePlus(message) + "&app_absent=0"
  }

  // ------------------------------------------------------ parsing a query

  /** The part of `s` before its first `sep` (all of `s` when there is none). */
  function Before(s: string, sep: char): (r: string)
    ensures |r| <= |s| && r == s[..|r|]
    decreases |s|
  {
    if s == [] || s[0] == sep then [] else [s[0]] + Before(s[1..], sep)
  }

  /** `s.split(sep)`. */
  function Split(s: string, sep: char): (r: seq<string>)
    ensures |r| >= 1
    decreases |s|
  {
    if s == [] then [""]
    else
      var rest := Split(s[1..], sep);
      if s[0] == sep then [""] + rest else [[s[0]] + rest[0]] + rest[1..]
  }

  /** A `key=value` field, split at its first `=`. */
  function KeyValue(field: string): (string, string)
    decreases |field|
  {
    if field == [] then ("", "")
    else if field[0] == '=' then ("", field[1..])
    else var kv := KeyValue(field[1..]); ([field[0]] + kv.0, kv.1)
  }

  function Fields(fs: seq<string>): seq<(string, string)> {
    if fs == [] then [] else [KeyValue(fs[0])] + Fields(fs[1..])
  }

  /** The query parameters of a deep link: after `?`, up to any `#`, split at `&`. */
  function Params(url: string): Option<seq<(string, string)>> {
    if |url| >= |SendBase| && url[..|SendBase|] == SendBase
    then Some(Fields(Split(Before(url[|SendBase|..], '#'), '&')))
    else None
  }

  lemma {:induction false} BeforeAbsent(s: string, sep: char)
    requires sep !in s
    ensures Before(s, sep) == s
    decreases |s|
  {
    if s != [] {
      assert s == [s[0]] + s[1..];
      BeforeAbsent(s[1..], sep);
    }
  }

  lemma {:induction false} SplitAbsent(s: string, sep: char)
    requires sep !in s
    ensures Split(s, sep) == [s]
    decreases |s|
  {
    if s != [] {
      assert s == [s[0]] + s[1..];
      SplitAbsent(s[1..], sep);
    }
  }

  lemma {:induction false} SplitJoin(a: string, sep: char, b: string)
    requires sep !in a
    ensures Split(a + ([sep] + b), sep) == [a] + Split(b, sep)
    decreases |a|
  {
    var s := a + ([sep] + b);
    if a == [] {
      assert s[0] == sep && s[1..] == b;
    } else {
      assert a == [a[0]] + a[1..];
      assert s[1..] == a[1..] + ([sep] + b);
      SplitJoin(a[1..], sep, b);
    }
  }

  lemma {:induction false} KeyValueJoin(key: string, value: string)
    requires '=' !in key
    ensures KeyValue(key + "=" + value) == (key, value)
    decreases |key|
  {
    var f := key + "=" + value;
    if key == [] {
      assert f[0] == '=' && f[1..] == value;
    } else {
      assert key == [key[0]] + key[1..];
      assert f[1..] == key[1..] + "=" + value;
      KeyValueJoin(key[1..], value);
    }
  }

  lemma SplitThree(f1: string, f2: string, f3: string)
    requires '&' !in f1 && '&' !in f2 && '&' !in f3
    ensures Split(f1 + ("&" + (f2 + ("&" + f3))), '&') == [f1, f2, f3]
  {
    SplitAbsent(f3, '&');
    SplitJoin(f2, '&', f3);
    SplitJoin(f1, '&', f2 + ("&" + f3));
  }

  lemma FieldsThree(f1: string, f2: string, f3: string)
    ensures Fields([f1, f2, f3]) == [KeyValue(f1), KeyValue(f2), KeyValue(f3)]
  {
    assert [f1, f2, f3][1..] == [f2, f3] && [f2, f3][1..] == [f3];
    assert Fields([f3]) == [KeyValue(f3)] + Fields([]);
    assert Fields([f2, f3]) == [KeyValue(f2)] + Fields([f3]);
    assert Fields([f1, f2, f3]) == [KeyValue(f1)] + Fields([f2, f3]);
  }

  /** Three fields joined by `&`, with no `&` or `#` inside, parse back into those fields. */
  lemma ParseThree(f1: string, f2: string, f3: string)
    requires '&' !in f1 && '&' !in f2 && '&' !in f3
    requires '#' !in f1 && '#' !in f2 && '#' !in f3
    ensures Fields(Split(Before(f1 + ("&" + (f2 + ("&" + f3))), '#'), '&'))
         == [KeyValue(f1), KeyValue(f2), KeyValue(f3)]
  {
    var query := f1 + ("&" + (f2 + ("&" + f3)));
    assert '#' !in query;
    BeforeAbsent(query, '#');
    SplitThree(f1, f2, f3);
    FieldsThree(f1, f2, f3);
  }

  lemma ParamsOf(query: string)
    ensures Params(SendBase + query) == Some(Fields(Split(Before(query, '#'), '&')))
  {
    var url := SendBase + query;
    assert url[..|SendBase|] == SendBase && url[|SendBase|..] == query;
  }

  lemma Regroup(p: string, t: string)
    ensures SendBase + "phone=" + p + "&text=" + t + "&app_absent=0"
         == SendBase + (("phone=" + p) + ("&" + (("text=" + t) + ("&" + "app_absent=0"))))
  {
    assert "&text=" == "&" + "text=";
    assert "&app_absent=0" == "&" + "app_absent=0";
  }

  lemma KeyValuesOfLink(p: string, t: string)
    ensures KeyValue("phone=" + p) == ("phone", p)
    ensures KeyValue("text=" + t) == ("text", t)
    ensures KeyValue("app_absent=0") == ("app_absent", "0")
  {
    assert "phone=" == "phone" + "=";
    KeyValueJoin("phone", p);
    assert "text=" == "text" + "=";
    KeyValueJoin("text", t);
    assert "app_absent=0" == "app_absent" + "=" + "0";
    KeyValueJoin("app_absent", "0");
  }

  lemma ParamsOfLink(p: string, t: string)
    requires '&' !in p && '#' !in p && '&' !in t && '#' !in t
    ensures Params(SendBase + "phone=" + p + "&text=" + t + "&app_absent=0")
         == Some([("phone", p), ("text", t), ("app_absent", "0")])
  {
    Regroup(p, t);
    ParamsOf(("phone=" + p) + ("&" + (("text=" + t) + ("&" + "app_absent=0"))));
    ParseThree("phone=" + p, "text=" + t, "app_absent=0");
    KeyValuesOfLink(p, t);
  }

  /**
   * A deep link carries exactly three parameters: `phone` (the number without
   * its leading `+`), `text` (the encoded message) and `app_absent=0`, and the
   * `text` value decodes to the message. The caveat is the phone number, which
   * is not encoded: it must not contain `&` or `#`.
   */
  lemma DeepLinkParams(phone: string, message: string)
    requires '&' !in phone && '#' !in phone
    ensures Params(DeepLink(phone, message))
         == Some([("phone", LStripPlus(phone)), ("text", QuotePlus(message)), ("app_absent", "0")])
    ensures UnquotePlus(QuotePlus(message)) == Some(message)
  {
    var p, t := LStripPlus(phone), QuotePlus(message);
    assert '&' !in p && '#' !in p by {
      assert p == phone[|phone| - |p|..];
    }
    QuotePlusIsQuerySafe(message);
    QuotePlusRoundTrip(message);
    ParamsOfLink(p, t);
  }
}
