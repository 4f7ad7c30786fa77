/** The top-level component's helpers (App.js): the byte-to-hex encoder used
    to print characteristic values, and the timestamped, newest-first log
    list the component keeps in its state. */
module App {
  import opened Basics

  /** One element of a Uint8Array. */
  newtype byte = x: int | 0 <= x < 256

  /** The lowercase digits `toString(16)` produces. */
  predicate IsHexDigit(c: char) {
    '0' <= c <= '9' || 'a' <= c <= 'f'
  }

  predicate AllHex(s: string) {
    forall i :: 0 <= i < |s| ==> IsHexDigit(s[i])
  }

  function HexDigit(d: nat): (c: char)
    requires d < 16
    ensures IsHexDigit(c)
  {
    if d < 10 then ('0' as int + d) as char else ('a' as int + d - 10) as char
  }

  /** The value of a hex digit; any other character reads as 0. */
  function HexValue(c: char): (d: nat)
    ensures d < 16
    ensures IsHexDigit(c) ==> HexDigit(d) == c
  {
    if '0' <= c <= '9' then c as int - '0' as int
    else if 'a' <= c <= 'f' then c as int - 'a' as int + 10
    else 0
  }

  lemma HexDigitValue(d: nat)
    requires d < 16
    ensures HexValue(HexDigit(d)) == d
  {}

  /** `n.toString(16)`: the base-16 digits of `n` without leading zeros. */
  function ToHexString(n: nat): (s: string)
    ensures |s| >= 1 && AllHex(s) && (n < 16 <==> |s| == 1)
    ensures n > 0 ==> s[0] != '0'
  {
    if n < 16 then [HexDigit(n)] else ToHexString(n / 16) + [HexDigit(n % 16)]
  }

  /** The two characters that stand for one byte: the digit of its high
      nibble, then the digit of its low nibble. */
  function HexPair(b: byte): (p: string)
    ensures |p| == 2 && AllHex(p)
  {
    [HexDigit(b as nat / 16), HexDigit(b as nat % 16)]
  }

  /** What the loop appends for one byte: `toString(16)`, padded with "0"
      when it has one digit. That is always the byte's hex pair, so values
      below 16 get their leading zero and no byte gets more than two. */
  function PaddedHex(b: byte): (p: string)
    ensures p == HexPair(b)
  {
    var num := ToHexString(b as nat);
    assert b >= 16 ==> num == ToHexString(b as nat / 16) + [HexDigit(b as nat % 16)];
    if |num| == 1 then "0" + num else num
  }

  /** The hex text of a byte sequence, in byte order. */
  function HexEncode(bytes: seq<byte>): (s: string)
    ensures |s| == 2 * |bytes|
  {
    if bytes == [] then "" else HexEncode(bytes[..|bytes| - 1]) + HexPair(bytes[|bytes| - 1])
  }

  /** `arrayBufferToHex`: no buffer gives no text; otherwise the loop appends
      each byte's padded pair in order. */
  method ArrayBufferToHex(buffer: Option<seq<byte>>) returns (r: Option<string>)
    ensures buffer.None? <==> r.None?
    ensures buffer.Some? ==> r == Some(HexEncode(buffer.value))
  {
    if buffer.None? {
      return None;
    }
    var values := buffer.value;
    var text := "";
    for i := 0 to |values|
      invariant text == HexEncode(values[..i])
    {
      var num := ToHexString(values[i] as nat);
      assert (if |num| == 1 then "0" + num else num) == PaddedHex(values[i]);
      text := text + (if |num| == 1 then "0" + num else num);
      assert values[..i + 1][..i] == values[..i];
    }
    assert values[..|values|] == values;
    return Some(text);
  }

  /** The byte a high and a low hex digit stand for. */
  function PairValue(hi: char, lo: char): byte {
    (HexValue(hi) * 16 + HexValue(lo)) as byte
  }

  /** Reads hex text back two characters at a time. */
  function HexDecode(s: string): (bytes: seq<byte>)
    requires |s| % 2 == 0
    ensures 2 * |bytes| == |s|
  {
    if s == [] then []
    else HexDecode(s[..|s| - 2]) + [PairValue(s[|s| - 2], s[|s| - 1])]
  }

  lemma HexDecodeSnoc(t: string, hi: char, lo: char)
    requires |t| % 2 == 0
    ensures HexDecode(t + [hi, lo]) == HexDecode(t) + [PairValue(hi, lo)]
  {
    var s := t + [hi, lo];
    assert s[..|s| - 2] == t && s[|s| - 2] == hi && s[|s| - 1] == lo;
  }

  /** Encoding loses nothing: decoding the pairs recovers the bytes. */
  lemma {:induction false} HexRoundTrip(bytes: seq<byte>)
    ensures HexDecode(HexEncode(bytes)) == bytes
  {
    if bytes != [] {
      var init, b := bytes[..|bytes| - 1], bytes[|bytes| - 1];
      assert bytes == init + [b];
      HexEncodeSnoc(init, b);
      var hi, lo := HexDigit(b as nat / 16), HexDigit(b as nat % 16);
      HexDecodeSnoc(HexEncode(init), hi, lo);
      HexDigitValue(b as nat / 16);
      HexDigitValue(b as nat % 16);
      assert PairValue(hi, lo) == b;
      HexRoundTrip(init);
    }
  }

  /** The text uses only the lowercase hex digits. */
  lemma {:induction false} HexEncodeLowercase(bytes: seq<byte>)
    ensures AllHex(HexEncode(bytes))
  {
    if bytes != [] {
      var init, b := bytes[..|bytes| - 1], bytes[|bytes| - 1];
      HexEncodeLowercase(init);
      var s, front := HexEncode(bytes), HexEncode(init);
      assert s == front + HexPair(b);
      forall i | 0 <= i < |s|
        ensures IsHexDigit(s[i])
      {
        if i < |front| {
          assert s[i] == front[i];
        }
      }
    }
  }

  /** Distinct buffers print differently. */
  lemma HexInjective(xs: seq<byte>, ys: seq<byte>)
    requires HexEncode(xs) == HexEncode(ys)
    ensures xs == ys
  {
    HexRoundTrip(xs);
    HexRoundTrip(ys);
  }

  lemma HexEncodeSnoc(xs: seq<byte>, b: byte)
    ensures HexEncode(xs + [b]) == HexEncode(xs) + HexPair(b)
  {
    assert (xs + [b])[..|xs|] == xs;
  }

  /** Encoding distributes over concatenation, so the text of a prefix is a
      prefix of the text. */
  lemma {:induction false} HexEncodeAppend(xs: seq<byte>, ys: seq<byte>)
    ensures HexEncode(xs + ys) == HexEncode(xs) + HexEncode(ys)
  {
    if ys == [] {
      assert xs + ys == xs;
    } else {
      var init, last := ys[..|ys| - 1], ys[|ys| - 1];
      assert ys == init + [last];
      assert xs + ys == (xs + init) + [last];
      HexEncodeSnoc(xs + init, last);
      HexEncodeSnoc(init, last);
      HexEncodeAppend(xs, init);
    }
  }

  /** Byte `i` occupies characters 2i and 2i+1. */
  lemma HexEncodeAt(bytes: seq<byte>, i: nat)
    requires i < |bytes|
    ensures HexEncode(bytes)[2 * i..2 * i + 2] == HexPair(bytes[i])
  {
    var front, rest := bytes[..i] + [bytes[i]], bytes[i + 1..];
    assert front + rest == bytes;
    HexEncodeAppend(front, rest);
    HexEncodeSnoc(bytes[..i], bytes[i]);
    var pre, pair := HexEncode(bytes[..i]), HexPair(bytes[i]);
    assert HexEncode(bytes) == pre + pair + HexEncode(rest);
    assert (pre + pair + HexEncode(rest))[|pre|..|pre| + 2] == pair;
  }

  // ---- the log list ----

  function Pow10(k: nat): (p: nat)
    ensures p >= 1
  {
    if k == 0 then 1 else 10 * Pow10(k - 1)
  }

  lemma {:induction false} DecimalLength(n: nat, k: nat)
    requires k >= 1 && n < Pow10(k)
    ensures |Decimal(n)| <= k
  {
    if n >= 10 {
      assert k >= 2;
      assert n / 10 < Pow10(k - 1);
      DecimalLength(n / 10, k - 1);
    }
  }

  /** Where the pieces of a bracketed line sit. */
  lemma BracketShape(digits: string, message: string)
    ensures var line := "[" + digits + "] " + message;
      var k := |line| - |message|;
      && k == |digits| + 3 && line[0] == '['
      && line[1..k - 2] == digits && line[k - 2..k] == "] " && line[k..] == message
  {
    var line := "[" + digits + "] " + message;
    assert line == ("[" + digits) + ("] " + message);
  }

  /** The entry `_log` makes for `message` at wall-clock time `now`
      (milliseconds): the time modulo 10000 in brackets, then the message. */
  function Stamp(now: nat, message: string): (line: string)
    ensures var k := |line| - |message|;
      && 4 <= k <= 7 && line[0] == '[' && line[k - 2..k] == "] "
      && AllDigits(line[1..k - 2]) && ParseDecimal(line[1..k - 2]) == now % 10000
      && line[k..] == message
      && (line[1] != '0' || k == 4)
  {
    var digits := Decimal(now % 10000);
    DecimalRoundTrip(now % 10000);
    DecimalLength(now % 10000, 4);
    BracketShape(digits, message);
    "[" + digits + "] " + message
  }

  /** The component's state: its log lines, newest first. */
  class LogList {
    var text: seq<string>

    constructor ()
      ensures text == []
    {
      text := [];
    }

    /** `_log`: the new entry goes in front; earlier entries are kept, in
        their order, behind it. */
    method Log(message: string, now: nat)
      modifies this
      ensures text == [Stamp(now, message)] + old(text)
    {
      text := [Stamp(now, message)] + text;
    }
  }

  /** Logging a series of messages leaves them newest first. */
  method LogAll(messages: seq<string>, times: seq<nat>) returns (text: seq<string>)
    requires |times| == |messages|
    ensures |text| == |messages|
    ensures forall i :: 0 <= i < |messages| ==> text[|messages| - 1 - i] == Stamp(times[i], messages[i])
  {
    var list := new LogList();
    for j := 0 to |messages|
      invariant |list.text| == j
      invariant forall i :: 0 <= i < j ==> list.text[j - 1 - i] == Stamp(times[i], messages[i])
    {
      list.Log(messages[j], times[j]);
    }
    text := list.text;
  }
}
