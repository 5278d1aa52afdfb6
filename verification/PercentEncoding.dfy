/** Names as URL path segments: percent-encoding, undone by decoding (sections 2.1, 2.3 and 5.2.4 of RFC 3986). */
module PercentEncoding {
  import opened Text
  import opened Wrappers

  newtype Byte = n: int | 0 <= n < 256

  /** Section 2.3 of RFC 3986. */
  predicate Unreserved(b: Byte) {
    || 65 <= b <= 90 || 97 <= b <= 122 || 48 <= b <= 57
    || b == 45 || b == 46 || b == 95 || b == 126
  }

  function HexDigit(n: nat): char
    requires n < 16
  {
    if n < 10 then (n + 48) as char else (n + 55) as char
  }

  function EncodeByte(b: Byte): string {
    if Unreserved(b) then [b as char] else ['%', HexDigit(b as nat / 16), HexDigit(b as nat % 16)]
  }

  function Encode(raw: seq<Byte>): string {
    if raw == [] then "" else EncodeByte(raw[0]) + Encode(raw[1..])
  }

  const DOT: Byte := 46

  /** The names no encoding can keep from being read as "here", "up" or nothing. */
  predicate Refused(raw: seq<Byte>) {
    raw == [] || raw == [DOT] || raw == [DOT, DOT]
  }

  /** One encoded byte after the other, or a refusal. */
  method PathSegment(raw: seq<Byte>) returns (segment: Option<string>)
    ensures segment == if Refused(raw) then None else Some(Encode(raw))
  {
    if raw == [] || raw == [DOT] || raw == [DOT, DOT] {
      return None;
    }
    var out := "";
    for i := 0 to |raw|
      invariant out + Encode(raw[i..]) == Encode(raw)
    {
      assert raw[i..][1..] == raw[i + 1..];
      Glue(out, EncodeByte(raw[i]), Encode(raw[i + 1..]));
      if Unreserved(raw[i]) {
        out := out + [raw[i] as char];
      } else {
        out := out + ['%', HexDigit(raw[i] as nat / 16), HexDigit(raw[i] as nat % 16)];
      }
    }
    assert out + "" == out;
    return Some(out);
  }

  // ----- the other end -----

  function HexValue(c: char): (n: Option<nat>)
    ensures n.Some? ==> n.value < 16
  {
    if '0' <= c <= '9' then Some(c as nat - 48)
    else if 'A' <= c <= 'F' then Some(c as nat - 55)
    else if 'a' <= c <= 'f' then Some(c as nat - 87)
    else None
  }

  /** Section 2.1: a percent sign and two hexadecimal digits stand for a byte, any other character below
      128 for itself. */
  function Decode(s: string): Option<seq<Byte>>
    decreases |s|
  {
    if s == "" then Some([])
    else if s[0] == '%' then
      if |s| < 3 || HexValue(s[1]).None? || HexValue(s[2]).None? then None
      else match Decode(s[3..])
        case None => None
        case Some(rest) => Some([(16 * HexValue(s[1]).value + HexValue(s[2]).value) as Byte] + rest)
    else if s[0] as nat < 128 then
      match Decode(s[1..])
      case None => None
      case Some(rest) => Some([s[0] as nat as Byte] + rest)
    else None
  }

  lemma HexBack(n: nat)
    requires n < 16
    ensures HexValue(HexDigit(n)) == Some(n)
  {
  }

  /** Decoding undoes encoding, for every name. */
  lemma {:induction false} DecodeUndoesEncode(raw: seq<Byte>)
    ensures Decode(Encode(raw)) == Some(raw)
  {
    if raw != [] {
      var b, rest := raw[0], Encode(raw[1..]);
      var s := EncodeByte(b) + rest;
      DecodeUndoesEncode(raw[1..]);
      Uncons(raw);
      if Unreserved(b) {
        assert s[0] == b as char && s[1..] == rest;
      } else {
        HexBack(b as nat / 16);
        HexBack(b as nat % 16);
        assert s[0] == '%' && s[1] == HexDigit(b as nat / 16) && s[2] == HexDigit(b as nat % 16) && s[3..] == rest;
        assert 16 * (b as nat / 16) + b as nat % 16 == b as nat;
      }
    }
  }

  predicate UnreservedChar(c: char) {
    'A' <= c <= 'Z' || 'a' <= c <= 'z' || '0' <= c <= '9' || c == '-' || c == '.' || c == '_' || c == '~'
  }

  predicate UpperHex(c: char) {
    '0' <= c <= '9' || 'A' <= c <= 'F'
  }

  /** Nothing but unreserved characters and upper-case triples: one path segment, whatever the name. */
  predicate PlainSegment(s: string)
    decreases |s|
  {
    s == ""
    || (UnreservedChar(s[0]) && PlainSegment(s[1..]))
    || (|s| >= 3 && s[0] == '%' && UpperHex(s[1]) && UpperHex(s[2]) && PlainSegment(s[3..]))
  }

  lemma {:induction false} EncodedIsPlain(raw: seq<Byte>)
    ensures PlainSegment(Encode(raw))
  {
    if raw != [] {
      var b, rest := raw[0], Encode(raw[1..]);
      var s := EncodeByte(b) + rest;
      EncodedIsPlain(raw[1..]);
      if Unreserved(b) {
        assert s[0] == b as char && s[1..] == rest;
      } else {
        assert s[0] == '%' && s[1] == HexDigit(b as nat / 16) && s[2] == HexDigit(b as nat % 16) && s[3..] == rest;
      }
    }
  }

  /** Different names never share a segment. */
  lemma SegmentsDiffer(a: seq<Byte>, b: seq<Byte>)
    requires Encode(a) == Encode(b)
    ensures a == b
  {
    DecodeUndoesEncode(a);
    DecodeUndoesEncode(b);
  }

  /** A name is encoded into something other than a dot segment or nothing exactly when it is not refused. */
  lemma SafeSegmentExactly(raw: seq<Byte>)
    ensures Refused(raw) <==> Encode(raw) == "" || Encode(raw) == "." || Encode(raw) == ".."
  {
    assert Encode([DOT]) == EncodeByte(DOT) + Encode([]) == ".";
    assert [DOT, DOT][1..] == [DOT];
    assert Encode([DOT, DOT]) == EncodeByte(DOT) + Encode([DOT]) == "..";
    if Encode(raw) == "" {
      SegmentsDiffer(raw, []);
    } else if Encode(raw) == "." {
      SegmentsDiffer(raw, [DOT]);
    } else if Encode(raw) == ".." {
      SegmentsDiffer(raw, [DOT, DOT]);
    }
  }

  /** A name as characters, one per byte. */
  function Chars(raw: seq<Byte>): string {
    if raw == [] then "" else [raw[0] as char] + Chars(raw[1..])
  }

  /** A byte is left alone exactly when it is an unreserved character; so a name of such characters is its
      own segment, and no other name is. */
  lemma {:induction false} UnchangedExactly(raw: seq<Byte>)
    ensures Encode(raw) == Chars(raw) <==> forall b :: b in raw ==> UnreservedChar(b as char)
    ensures |Encode(raw)| >= |raw| == |Chars(raw)|
  {
    if raw != [] {
      UnchangedExactly(raw[1..]);
      Uncons(raw);
      assert Unreserved(raw[0]) <==> UnreservedChar(raw[0] as char);
      assert raw[0] in raw && forall b :: b in raw[1..] ==> b in raw;
      if Unreserved(raw[0]) {
        assert Encode(raw) == [raw[0] as char] + Encode(raw[1..]);
        assert Encode(raw)[1..] == Encode(raw[1..]) && Chars(raw)[1..] == Chars(raw[1..]);
      } else {
        assert |Encode(raw)| == 3 + |Encode(raw[1..])|;
      }
    }
  }

  // ----- namespaces of several levels -----

  const UNIT_SEPARATOR: Byte := 31

  /** Two namespaces of separator-free levels share a path only if they are the same levels. */
  lemma NamespacePathsDiffer(a: seq<seq<Byte>>, b: seq<seq<Byte>>)
    requires a != [] && b != []
    requires forall level :: level in a ==> Without(level, UNIT_SEPARATOR)
    requires forall level :: level in b ==> Without(level, UNIT_SEPARATOR)
    requires Encode(JoinWith(a, UNIT_SEPARATOR)) == Encode(JoinWith(b, UNIT_SEPARATOR))
    ensures a == b
  {
    SegmentsDiffer(JoinWith(a, UNIT_SEPARATOR), JoinWith(b, UNIT_SEPARATOR));
    SplitUndoesJoin(a, UNIT_SEPARATOR);
    SplitUndoesJoin(b, UNIT_SEPARATOR);
  }
}
