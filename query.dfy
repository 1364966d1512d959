/**
 * `URLSearchParams`: the application/x-www-form-urlencoded serializer of
 * section 5.2 of the WHATWG URL Standard, and the splitting of a query string
 * back into its (still encoded) name/value components.
 */
module Query {
  import opened Js

  /** Code points the serializer writes as they are. */
  predicate Unreserved(c: char)
  {
    ('a' <= c <= 'z') || ('A' <= c <= 'Z') || ('0' <= c <= '9') || c == '*' || c == '-' || c == '.' || c == '_'
  }

  /** What an encoded name or value may contain. */
  predicate FormSafe(c: char)
  {
    Unreserved(c) || c == '+' || c == '%'
  }

  /** An upper-case hexadecimal digit, as the serializer writes it. */
  function HexDigit(d: nat): char
    requires d < 16
  {
    if d < 10 then ('0' as int + d) as char else ('A' as int + d - 10) as char
  }

  predicate AllFormSafe(s: string)
  {
    forall i :: 0 <= i < |s| ==> FormSafe(s[i])
  }

  lemma SafeConcat(a: string, b: string)
    requires AllFormSafe(a) && AllFormSafe(b)
    ensures AllFormSafe(a + b)
  {
    forall i | 0 <= i < |a + b| ensures FormSafe((a + b)[i]) {
      if i >= |a| {
        assert (a + b)[i] == b[i - |a|];
      }
    }
  }

  /** The UTF-8 encoding of one code point. */
  function Utf8(c: char): (bytes: seq<byte>)
    ensures 1 <= |bytes| <= 4
    ensures c as int < 0x80 <==> |bytes| == 1
    ensures c as int < 0x80 ==> bytes == [c as int]
  {
    var n := c as int;
    if n < 0x80 then [n]
    else if n < 0x800 then [0xC0 + n / 0x40, 0x80 + n % 0x40]
    else if n < 0x10000 then [0xE0 + n / 0x1000, 0x80 + (n / 0x40) % 0x40, 0x80 + n % 0x40]
    else [0xF0 + n / 0x40000, 0x80 + (n / 0x1000) % 0x40, 0x80 + (n / 0x40) % 0x40, 0x80 + n % 0x40]
  }

  /** A space becomes `+`, an unreserved byte stays, any other byte becomes `%XX`. */
  function EncodeByte(b: byte): string
  {
    if b == 0x20 then "+"
    else if Unreserved(b as char) then [b as char]
    else ['%', HexDigit(b / 16), HexDigit(b % 16)]
  }

  function EncodeBytes(bs: seq<byte>): string
  {
    if bs == [] then "" else EncodeByte(bs[0]) + EncodeBytes(bs[1..])
  }

  /** The encoded form of one name or value: its code points' UTF-8 bytes, each encoded. */
  function Encode(s: string): string
  {
    if s == [] then "" else EncodeBytes(Utf8(s[0])) + Encode(s[1..])
  }

  /** Every byte is written as at least one form-safe character. */
  lemma EncodeByteSafe(b: byte)
    ensures 1 <= |EncodeByte(b)| && AllFormSafe(EncodeByte(b))
  {
    if b != 0x20 && !Unreserved(b as char) {
      assert Unreserved(HexDigit(b / 16)) && Unreserved(HexDigit(b % 16));
    }
  }

  lemma {:induction false} EncodeBytesSafe(bs: seq<byte>)
    ensures AllFormSafe(EncodeBytes(bs))
  {
    if bs != [] {
      EncodeByteSafe(bs[0]);
      EncodeBytesSafe(bs[1..]);
      SafeConcat(EncodeByte(bs[0]), EncodeBytes(bs[1..]));
    }
  }

  /**
   * An encoded name or value holds only form-safe characters: no `&`, `=`,
   * `?` or `#` survives encoding.
   */
  lemma {:induction false} EncodeSafe(s: string)
    ensures AllFormSafe(Encode(s))
  {
    if s != [] {
      EncodeBytesSafe(Utf8(s[0]));
      EncodeSafe(s[1..]);
      SafeConcat(EncodeBytes(Utf8(s[0])), Encode(s[1..]));
    }
  }

  /** A string of unreserved characters is written unchanged. */
  lemma {:induction false} EncodeUnreserved(s: string)
    requires forall i :: 0 <= i < |s| ==> Unreserved(s[i])
    ensures Encode(s) == s
  {
    if s != [] {
      var b: byte := s[0] as int;
      assert Utf8(s[0]) == [b];
      assert b as char == s[0] && b != 0x20;
      assert EncodeBytes([b]) == EncodeByte(b) + EncodeBytes([]);
      EncodeUnreserved(s[1..]);
      assert s == [s[0]] + s[1..];
    }
  }

  /** One `name=value` component of a query string. */
  function Component(pair: (string, string)): string
  {
    Encode(pair.0) + "=" + Encode(pair.1)
  }

  /** `URLSearchParams.prototype.toString`: the components joined with `&`. */
  function Serialize(pairs: seq<(string, string)>): string
  {
    Join(seq(|pairs|, i requires 0 <= i < |pairs| => Component(pairs[i])), '&')
  }

  /** Each name and value replaced by its encoded form. */
  function Encoded(pairs: seq<(string, string)>): seq<(string, string)>
  {
    seq(|pairs|, i requires 0 <= i < |pairs| => (Encode(pairs[i].0), Encode(pairs[i].1)))
  }

  function NonEmpty(pieces: seq<string>): seq<string>
  {
    if pieces == [] then []
    else (if pieces[0] == "" then [] else [pieces[0]]) + NonEmpty(pieces[1..])
  }

  /** A piece cut at its first `sep`; without one, the whole piece and an empty rest. */
  function CutAtFirst(piece: string, sep: char): (string, string)
  {
    var parts := Split(piece, sep);
    (parts[0], Join(parts[1..], sep))
  }

  /**
   * The name/value components of a query string, still encoded: it is split on
   * `&`, empty pieces are skipped and each piece is cut at its first `=`.
   */
  function QueryPairs(q: string): seq<(string, string)>
  {
    var pieces := NonEmpty(Split(q, '&'));
    seq(|pieces|, i requires 0 <= i < |pieces| => CutAtFirst(pieces[i], '='))
  }

  /** A request target cut at its first `?` into the path and the query's components. */
  function Target(endpoint: string): (string, seq<(string, string)>)
  {
    var parts := Split(endpoint, '?');
    (parts[0], QueryPairs(Join(parts[1..], '?')))
  }

  lemma {:induction false} NonEmptyKeeps(pieces: seq<string>)
    requires forall i :: 0 <= i < |pieces| ==> pieces[i] != ""
    ensures NonEmpty(pieces) == pieces
  {
    if pieces != [] {
      NonEmptyKeeps(pieces[1..]);
      assert pieces == [pieces[0]] + pieces[1..];
    }
  }

  lemma ComponentShape(pair: (string, string))
    ensures '&' !in Component(pair) && '?' !in Component(pair) && Component(pair) != ""
    ensures CutAtFirst(Component(pair), '=') == (Encode(pair.0), Encode(pair.1))
  {
    var name, value := Encode(pair.0), Encode(pair.1);
    EncodeSafe(pair.0);
    EncodeSafe(pair.1);
    assert '=' !in name && '=' !in value;
    assert '&' !in name && '&' !in value && '?' !in name && '?' !in value;
    SplitFirst(name, '=', value);
    SplitWhole(value, '=');
    assert Split(Component(pair), '=') == [name, value];
  }

  /** Splitting a serialized query gives back every pair, in order, in encoded form. */
  lemma QueryPairsOfSerialize(pairs: seq<(string, string)>)
    ensures QueryPairs(Serialize(pairs)) == Encoded(pairs)
    ensures '?' !in Serialize(pairs)
  {
    var comps := seq(|pairs|, i requires 0 <= i < |pairs| => Component(pairs[i]));
    forall i | 0 <= i < |pairs| ensures '&' !in comps[i] && '?' !in comps[i] && comps[i] != "" {
      ComponentShape(pairs[i]);
    }
    JoinAvoids(comps, '&', '?');
    if pairs == [] {
      assert Split("", '&') == [""];
    } else {
      SplitJoin(comps, '&');
      NonEmptyKeeps(comps);
      forall i | 0 <= i < |pairs| ensures CutAtFirst(comps[i], '=') == (Encode(pairs[i].0), Encode(pairs[i].1)) {
        ComponentShape(pairs[i]);
      }
    }
  }

  /** A path followed by `?` and a serialized query parses back to the path and the encoded pairs. */
  lemma TargetWithQuery(path: string, pairs: seq<(string, string)>)
    requires '?' !in path
    ensures Target(path + "?" + Serialize(pairs)) == (path, Encoded(pairs))
  {
    var q := Serialize(pairs);
    QueryPairsOfSerialize(pairs);
    SplitFirst(path, '?', q);
    SplitWhole(q, '?');
    assert Split(path + "?" + q, '?') == [path, q];
  }

  /** A path with no `?` is all path and carries no query. */
  lemma TargetWithoutQuery(path: string)
    requires '?' !in path
    ensures Target(path) == (path, [])
  {
    SplitWhole(path, '?');
    assert Split("", '&') == [""];
    assert NonEmpty([""]) == [];
    assert QueryPairs("") == [];
    assert Split(path, '?')[1..] == [];
  }
}
