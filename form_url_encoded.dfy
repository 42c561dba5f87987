/** The application/x-www-form-urlencoded format, as `URLSearchParams`
    writes it (`toString`) and reads it, following section 5 of the WHATWG
    URL Standard. The login handler builds the authorize URL's query and the
    token request's body with this serializer; the parser is its partner,
    and the round trip `Parse(Serialize(ps)) == Some(ps)` is what lets the
    rest of the model say that a URL "carries exactly" some parameter. */
module FormUrlEncoded {
  import opened Wrappers

  type Byte = b: int | 0 <= b < 256

  /** One name-value pair of a `URLSearchParams` list. */
  type Pair = (string, string)

  // ---------------------------------------------------------------------
  // Characters

  /** The code points the serializer copies unchanged: ASCII alphanumerics
      and `*`, `-`, `.`, `_` (everything else is in the
      application/x-www-form-urlencoded percent-encode set). */
  predicate IsUnreserved(c: char) {
    ('a' <= c <= 'z') || ('A' <= c <= 'Z') || ('0' <= c <= '9')
    || c == '*' || c == '-' || c == '.' || c == '_'
  }

  /** The characters that can occur in the serializer's output. */
  predicate IsSerializedChar(c: char) {
    IsUnreserved(c) || c == '+' || c == '%'
  }

  predicate IsHexDigit(c: char) {
    ('0' <= c <= '9') || ('A' <= c <= 'F') || ('a' <= c <= 'f')
  }

  function HexValue(c: char): (d: int)
    requires IsHexDigit(c)
    ensures 0 <= d < 16
  {
    if '0' <= c <= '9' then c as int - '0' as int
    else if 'A' <= c <= 'F' then c as int - 'A' as int + 10
    else c as int - 'a' as int + 10
  }

  /** The upper-case hexadecimal digit for `d`; `HexValue` reads it back. */
  function HexDigit(d: int): (c: char)
    requires 0 <= d < 16
    ensures IsUnreserved(c) && IsHexDigit(c) && HexValue(c) == d
  {
    if d < 10 then ('0' as int + d) as char else ('A' as int + d - 10) as char
  }

  // ---------------------------------------------------------------------
  // UTF-8

  predicate IsContinuation(b: Byte) {
    0x80 <= b < 0xC0
  }

  /** The UTF-8 encoding of one Unicode scalar value. */
  function Utf8Char(c: char): (bs: seq<Byte>)
    ensures 1 <= |bs| <= 4
    ensures |bs| == 1 <==> c as int < 0x80
    ensures |bs| == 1 ==> bs[0] == c as int
  {
    var n := c as int;
    if n < 0x80 then [n]
    else if n < 0x800 then [0xC0 + n / 64, 0x80 + n % 64]
    else if n < 0x10000 then [0xE0 + n / 4096, 0x80 + (n / 64) % 64, 0x80 + n % 64]
    else [0xF0 + n / 262144, 0x80 + (n / 4096) % 64, 0x80 + (n / 64) % 64, 0x80 + n % 64]
  }

  /** The UTF-8 encoding of a string. */
  function Utf8(s: string): seq<Byte> {
    if s == [] then [] else Utf8Char(s[0]) + Utf8(s[1..])
  }

  /** The scalar value at the front of `bs` and the number of bytes it
      takes, or None when `bs` does not start with a well-formed UTF-8
      sequence (overlong forms, surrogates and values above U+10FFFF are
      refused). */
  function DecodeScalar(bs: seq<Byte>): (r: Option<(char, nat)>)
    requires |bs| > 0
    ensures r.Some? ==> 1 <= r.value.1 <= |bs|
  {
    var b0: int := bs[0];
    if b0 < 0x80 then
      Some((b0 as char, 1))
    else if 0xC2 <= b0 < 0xE0 && |bs| >= 2 && IsContinuation(bs[1]) then
      Some((((b0 - 0xC0) * 64 + (bs[1] as int - 0x80)) as char, 2))
    else if 0xE0 <= b0 < 0xF0 && |bs| >= 3 && IsContinuation(bs[1]) && IsContinuation(bs[2]) then
      var n := (b0 - 0xE0) * 4096 + (bs[1] as int - 0x80) * 64 + (bs[2] as int - 0x80);
      if 0x800 <= n && !(0xD800 <= n < 0xE000) then Some((n as char, 3)) else None
    else if 0xF0 <= b0 < 0xF5 && |bs| >= 4
            && IsContinuation(bs[1]) && IsContinuation(bs[2]) && IsContinuation(bs[3]) then
      var n := (b0 - 0xF0) * 262144 + (bs[1] as int - 0x80) * 4096
               + (bs[2] as int - 0x80) * 64 + (bs[3] as int - 0x80);
      if 0x10000 <= n < 0x110000 then Some((n as char, 4)) else None
    else
      None
  }

  /** UTF-8 decoding without BOM handling; None on malformed input. */
  function Utf8Decode(bs: seq<Byte>): Option<string>
    decreases |bs|
  {
    if bs == [] then Some([])
    else match DecodeScalar(bs)
      case None => None
      case Some((c, k)) =>
        match Utf8Decode(bs[k..])
        case None => None
        case Some(rest) => Some([c] + rest)
  }

  // ---------------------------------------------------------------------
  // Serializing

  /** `%` followed by the two upper-case hex digits of each byte. */
  function PercentEncodeBytes(bs: seq<Byte>): (r: string)
    ensures forall i :: 0 <= i < |r| ==> IsSerializedChar(r[i])
  {
    if bs == [] then [] else ['%', HexDigit(bs[0] / 16), HexDigit(bs[0] % 16)] + PercentEncodeBytes(bs[1..])
  }

  /** One code point as the serializer writes it: unchanged when unreserved,
      `+` for a space, otherwise its UTF-8 bytes percent-encoded. */
  function EncodeChar(c: char): (r: string)
    ensures forall i :: 0 <= i < |r| ==> IsSerializedChar(r[i])
  {
    if IsUnreserved(c) then [c]
    else if c == ' ' then "+"
    else PercentEncodeBytes(Utf8Char(c))
  }

  /** A name or a value as the serializer writes it. The output never holds
      a `&` or a `=`, so the pair and list separators stay unambiguous. */
  function Encode(s: string): (r: string)
    ensures forall i :: 0 <= i < |r| ==> IsSerializedChar(r[i])
  {
    if s == [] then [] else EncodeChar(s[0]) + Encode(s[1..])
  }

  /** `parts` with `sep` between each two neighbours. */
  function Join(parts: seq<string>, sep: char): string {
    if parts == [] then []
    else if |parts| == 1 then parts[0]
    else parts[0] + [sep] + Join(parts[1..], sep)
  }

  function SerializePair(p: Pair): string {
    Encode(p.0) + "=" + Encode(p.1)
  }

  function SerializedPairs(pairs: seq<Pair>): (r: seq<string>)
    ensures |r| == |pairs|
    ensures forall i :: 0 <= i < |r| ==> r[i] == SerializePair(pairs[i])
  {
    if pairs == [] then [] else [SerializePair(pairs[0])] + SerializedPairs(pairs[1..])
  }

  /** `URLSearchParams.prototype.toString`: the pairs, in order, each
      serialized, with `&` between neighbours. */
  function Serialize(pairs: seq<Pair>): string {
    if pairs == [] then ""
    else if |pairs| == 1 then SerializePair(pairs[0])
    else SerializePair(pairs[0]) + "&" + Serialize(pairs[1..])
  }

  /** The serializer is `Join` of the serialized pairs. */
  lemma {:induction false} SerializeIsJoin(pairs: seq<Pair>)
    ensures Serialize(pairs) == Join(SerializedPairs(pairs), '&')
  {
    if |pairs| > 1 {
      SerializeIsJoin(pairs[1..]);
      assert SerializedPairs(pairs)[1..] == SerializedPairs(pairs[1..]);
    }
  }

  // ---------------------------------------------------------------------
  // Parsing

  /** The index of the first `c` in `s`, or `|s|` when there is none. */
  function Find(s: string, c: char): (i: nat)
    ensures i <= |s|
    ensures i < |s| ==> s[i] == c
    ensures forall j :: 0 <= j < i ==> s[j] != c
  {
    if s == [] then 0 else if s[0] == c then 0 else 1 + Find(s[1..], c)
  }

  /** `s` cut at every `sep`; always at least one (possibly empty) piece. */
  function Split(s: string, sep: char): (parts: seq<string>)
    ensures |parts| >= 1
  {
    if s == [] then [[]]
    else
      var rest := Split(s[1..], sep);
      if s[0] == sep then [[]] + rest else [[s[0]] + rest[0]] + rest[1..]
  }

  /** Percent-decoding with `+` read as a space. A `%` not followed by two
      hex digits stays a literal `%`; any other character stands for its
      UTF-8 bytes. */
  function PercentDecode(s: string): seq<Byte> {
    if s == [] then []
    else if s[0] == '%' && |s| >= 3 && IsHexDigit(s[1]) && IsHexDigit(s[2]) then
      [HexValue(s[1]) * 16 + HexValue(s[2])] + PercentDecode(s[3..])
    else if s[0] == '+' then [0x20] + PercentDecode(s[1..])
    else Utf8Char(s[0]) + PercentDecode(s[1..])
  }

  function Decode(s: string): Option<string> {
    Utf8Decode(PercentDecode(s))
  }

  /** One `name=value` piece; a piece without `=` is a name with an empty value. */
  function ParsePiece(piece: string): Option<Pair> {
    var i := Find(piece, '=');
    var value := if i < |piece| then piece[i + 1..] else "";
    match (Decode(piece[..i]), Decode(value))
    case (Some(n), Some(v)) => Some((n, v))
    case _ => None
  }

  /** Parses the pieces in order, skipping empty ones. */
  function ParsePieces(pieces: seq<string>): Option<seq<Pair>> {
    if pieces == [] then Some([])
    else if pieces[0] == [] then ParsePieces(pieces[1..])
    else match ParsePiece(pieces[0])
      case None => None
      case Some(p) =>
        match ParsePieces(pieces[1..])
        case None => None
        case Some(ps) => Some([p] + ps)
  }

  /** The `URLSearchParams` parser: the query cut at `&`, each piece decoded. */
  function Parse(query: string): Option<seq<Pair>> {
    ParsePieces(Split(query, '&'))
  }

  /** The value of the first pair named `name`, as `URLSearchParams.get` gives it. */
  function Get(pairs: seq<Pair>, name: string): Option<string> {
    if pairs == [] then None
    else if pairs[0].0 == name then Some(pairs[0].1)
    else Get(pairs[1..], name)
  }

  /** Searching past a prefix that lacks `c`. */
  lemma {:induction false} FindAfter(a: string, b: string, c: char)
    requires Find(a, c) == |a|
    ensures Find(a + b, c) == |a| + Find(b, c)
  {
    if a != [] {
      assert (a + b)[1..] == a[1..] + b;
      FindAfter(a[1..], b, c);
    } else {
      assert a + b == b;
    }
  }

  /** `Get` finds the first pair with the name asked for. */
  lemma {:induction false} GetFirst(pairs: seq<Pair>, name: string, i: nat)
    requires i < |pairs| && pairs[i].0 == name
    requires forall j :: 0 <= j < i ==> pairs[j].0 != name
    ensures Get(pairs, name) == Some(pairs[i].1)
  {
    if i > 0 {
      GetFirst(pairs[1..], name, i - 1);
    }
  }

  // ---------------------------------------------------------------------
  // Round trips

  lemma {:induction false} PercentDecodeBytes(bs: seq<Byte>, t: string)
    ensures PercentDecode(PercentEncodeBytes(bs) + t) == bs + PercentDecode(t)
  {
    if bs != [] {
      var b := bs[0];
      var hi, lo := HexDigit(b / 16), HexDigit(b % 16);
      var s := PercentEncodeBytes(bs) + t;
      assert s == ['%', hi, lo] + (PercentEncodeBytes(bs[1..]) + t);
      assert s[0] == '%' && s[1] == hi && s[2] == lo;
      assert s[3..] == PercentEncodeBytes(bs[1..]) + t;
      assert HexValue(hi) * 16 + HexValue(lo) == b;
      assert PercentDecode(s) == [b] + PercentDecode(s[3..]);
      PercentDecodeBytes(bs[1..], t);
      assert [b] + bs[1..] == bs;
    } else {
      assert PercentEncodeBytes(bs) + t == t;
    }
  }

  lemma PercentDecodeChar(c: char, t: string)
    ensures PercentDecode(EncodeChar(c) + t) == Utf8Char(c) + PercentDecode(t)
  {
    if IsUnreserved(c) {
      assert ([c] + t)[1..] == t;
    } else if c == ' ' {
      assert ("+" + t)[1..] == t;
    } else {
      PercentDecodeBytes(Utf8Char(c), t);
    }
  }

  /** Percent-decoding undoes `Encode`, leaving the UTF-8 bytes of the input. */
  lemma {:induction false} PercentDecodeEncode(s: string)
    ensures PercentDecode(Encode(s)) == Utf8(s)
  {
    if s != [] {
      PercentDecodeChar(s[0], Encode(s[1..]));
      PercentDecodeEncode(s[1..]);
    }
  }

  lemma DecodeScalarUtf8Char(c: char, rest: seq<Byte>)
    ensures DecodeScalar(Utf8Char(c) + rest) == Some((c, |Utf8Char(c)|))
  {
    var n := c as int;
    var bs := Utf8Char(c) + rest;
    if n < 0x80 {
    } else if n < 0x800 {
      assert (n / 64) * 64 + n % 64 == n;
    } else if n < 0x10000 {
      var q := n / 64;
      assert q / 64 == n / 4096;
      assert (n / 4096) * 4096 + (q % 64) * 64 + n % 64 == n;
    } else {
      var q := n / 64;
      var q2 := q / 64;
      assert q2 == n / 4096;
      assert q2 / 64 == n / 262144;
      assert (n / 262144) * 262144 + (q2 % 64) * 4096 + (q % 64) * 64 + n % 64 == n;
    }
  }

  lemma {:induction false} Utf8RoundTrip(s: string)
    ensures Utf8Decode(Utf8(s)) == Some(s)
  {
    if s != [] {
      var bs := Utf8(s);
      assert bs == Utf8Char(s[0]) + Utf8(s[1..]);
      DecodeScalarUtf8Char(s[0], Utf8(s[1..]));
      assert bs[|Utf8Char(s[0])|..] == Utf8(s[1..]);
      Utf8RoundTrip(s[1..]);
      assert [s[0]] + s[1..] == s;
    }
  }

  /** Decoding undoes `Encode`: a name or value survives serialization intact. */
  lemma DecodeEncode(s: string)
    ensures Decode(Encode(s)) == Some(s)
  {
    PercentDecodeEncode(s);
    Utf8RoundTrip(s);
  }

  lemma {:induction false} SplitWithoutSep(p: string, sep: char)
    requires forall i :: 0 <= i < |p| ==> p[i] != sep
    ensures Split(p, sep) == [p]
  {
    if p != [] {
      SplitWithoutSep(p[1..], sep);
      assert [p[0]] + p[1..] == p;
    }
  }

  lemma {:induction false} SplitAfterSep(p: string, t: string, sep: char)
    requires forall i :: 0 <= i < |p| ==> p[i] != sep
    ensures Split(p + [sep] + t, sep) == [p] + Split(t, sep)
  {
    if p == [] {
      assert (p + [sep] + t)[1..] == t;
    } else {
      assert (p + [sep] + t)[1..] == p[1..] + [sep] + t;
      SplitAfterSep(p[1..], t, sep);
      assert [p[0]] + p[1..] == p;
    }
  }

  /** Splitting undoes `Join` when no part holds the separator. */
  lemma {:induction false} SplitJoin(parts: seq<string>, sep: char)
    requires |parts| >= 1
    requires forall k, i :: 0 <= k < |parts| && 0 <= i < |parts[k]| ==> parts[k][i] != sep
    ensures Split(Join(parts, sep), sep) == parts
  {
    if |parts| == 1 {
      SplitWithoutSep(parts[0], sep);
    } else {
      SplitAfterSep(parts[0], Join(parts[1..], sep), sep);
      SplitJoin(parts[1..], sep);
    }
  }

  lemma ParseSerializedPair(p: Pair)
    ensures ParsePiece(SerializePair(p)) == Some(p)
  {
    var piece := SerializePair(p);
    var n := Encode(p.0);
    assert piece == n + "=" + Encode(p.1);
    assert piece[|n|] == '=';
    assert forall j :: 0 <= j < |n| ==> piece[j] == n[j] && IsSerializedChar(n[j]);
    assert Find(piece, '=') == |n|;
    assert piece[..|n|] == n;
    assert piece[|n| + 1..] == Encode(p.1);
    DecodeEncode(p.0);
    DecodeEncode(p.1);
  }

  lemma {:induction false} ParsePiecesSerialized(pairs: seq<Pair>)
    ensures ParsePieces(SerializedPairs(pairs)) == Some(pairs)
  {
    if pairs != [] {
      var pieces := SerializedPairs(pairs);
      var first := SerializePair(pairs[0]);
      assert pieces == [first] + SerializedPairs(pairs[1..]);
      assert |first| > 0;
      ParseSerializedPair(pairs[0]);
      ParsePiecesSerialized(pairs[1..]);
      assert pieces[1..] == SerializedPairs(pairs[1..]);
      assert [pairs[0]] + pairs[1..] == pairs;
    }
  }

  /** A serialized pair never holds `&`, so `&` can separate pairs. */
  lemma SerializePairHasNoAmp(p: Pair)
    ensures forall i :: 0 <= i < |SerializePair(p)| ==> SerializePair(p)[i] != '&'
  {
    var n := Encode(p.0);
    var v := Encode(p.1);
    var piece := SerializePair(p);
    forall i | 0 <= i < |piece|
      ensures piece[i] != '&'
    {
      if i < |n| { assert piece[i] == n[i]; }
      else if i > |n| { assert piece[i] == v[i - |n| - 1]; }
    }
  }

  /** The parser reads back exactly the pairs the serializer wrote, in order. */
  lemma ParseSerialize(pairs: seq<Pair>)
    ensures Parse(Serialize(pairs)) == Some(pairs)
  {
    var pieces := SerializedPairs(pairs);
    if pairs == [] {
      assert Serialize(pairs) == [];
    } else {
      forall k | 0 <= k < |pieces|
        ensures forall i :: 0 <= i < |pieces[k]| ==> pieces[k][i] != '&'
      {
        SerializePairHasNoAmp(pairs[k]);
      }
      SerializeIsJoin(pairs);
      SplitJoin(pieces, '&');
      ParsePiecesSerialized(pairs);
    }
  }
}
