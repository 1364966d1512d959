/**
 * The JavaScript values that the client handles and the built-in operations
 * it relies on: property reads, truthiness, `typeof`, `String(...)`, object
 * spread, and the string methods `includes`, `split`, `join` and `trim`.
 */
module Js {
  import opened Wrappers

  /** One byte of an `ArrayBuffer` or a `Buffer`. */
  type byte = b: int | 0 <= b < 256

  /**
   * A JavaScript value. Numbers are integers; an object is the list of its own
   * properties in own-key order (which is insertion order for the non-numeric
   * keys the client uses).
   */
  datatype Value =
    | Undefined
    | Null
    | Bool(b: bool)
    | Num(n: int)
    | Str(s: string)
    | Arr(items: seq<Value>)
    | Obj(props: seq<(string, Value)>)

  type Props = seq<(string, Value)>

  predicate Distinct(p: Props)
  {
    forall i, j :: 0 <= i < j < |p| ==> p[i].0 != p[j].0
  }

  /** An object literal, a configuration or a header record: no key occurs twice. */
  type Object = p: Props | Distinct(p)

  function Keys(p: Props): seq<string>
  {
    seq(|p|, i requires 0 <= i < |p| => p[i].0)
  }

  predicate HasKey(p: Props, k: string)
  {
    k in Keys(p)
  }

  /** The own property `k`, or `undefined` when there is none. */
  function Lookup(p: Props, k: string): Value
  {
    if p == [] then Undefined
    else if p[0].0 == k then p[0].1
    else Lookup(p[1..], k)
  }

  lemma {:induction false} LookupMissing(p: Props, k: string)
    requires !HasKey(p, k)
    ensures Lookup(p, k) == Undefined
  {
    if p != [] {
      assert p[0].0 == Keys(p)[0];
      assert Keys(p[1..]) == Keys(p)[1..];
      LookupMissing(p[1..], k);
    }
  }

  /** Appending a property leaves the earlier ones visible and adds the new key's value. */
  lemma {:induction false} LookupAppend(p: Props, k: string, v: Value)
    ensures forall x :: (Lookup(p + [(k, v)], x) ==
      if HasKey(p, x) then Lookup(p, x) else if x == k then v else Undefined)
  {
    forall x ensures Lookup(p + [(k, v)], x) ==
      if HasKey(p, x) then Lookup(p, x) else if x == k then v else Undefined
    {
      if p == [] {
      } else {
        assert (p + [(k, v)])[1..] == p[1..] + [(k, v)];
        assert Keys(p) == [p[0].0] + Keys(p[1..]);
        LookupAppend(p[1..], k, v);
      }
    }
  }

  /** `o[k] = v` on an object's own properties. */
  function Put(p: Props, k: string, v: Value): Props
  {
    if p == [] then [(k, v)]
    else if p[0].0 == k then [(k, v)] + p[1..]
    else [p[0]] + Put(p[1..], k, v)
  }

  /** An own key keeps its position; a new key is appended. */
  lemma {:induction false} PutKeys(p: Props, k: string, v: Value)
    ensures Keys(Put(p, k, v)) == if HasKey(p, k) then Keys(p) else Keys(p) + [k]
  {
    if p == [] {
      assert Keys([(k, v)]) == [k];
    } else if p[0].0 == k {
      assert Keys(p)[0] == k;
      assert Keys([(k, v)] + p[1..]) == Keys(p);
    } else {
      var tail := Put(p[1..], k, v);
      PutKeys(p[1..], k, v);
      assert Keys(p) == [p[0].0] + Keys(p[1..]);
      assert Keys([p[0]] + tail) == [p[0].0] + Keys(tail);
      assert HasKey(p, k) <==> HasKey(p[1..], k);
    }
  }

  /** Reading the written key gives the written value; every other key reads as before. */
  lemma {:induction false} PutLookup(p: Props, k: string, v: Value)
    ensures forall x :: Lookup(Put(p, k, v), x) == if x == k then v else Lookup(p, x)
  {
    if p != [] {
      if p[0].0 == k {
        assert ([(k, v)] + p[1..])[1..] == p[1..];
      } else {
        var tail := Put(p[1..], k, v);
        PutLookup(p[1..], k, v);
        assert ([p[0]] + tail)[1..] == tail;
      }
    }
  }

  /** Writing a property never duplicates a key. */
  lemma {:induction false} PutDistinct(p: Props, k: string, v: Value)
    requires Distinct(p)
    ensures Distinct(Put(p, k, v))
  {
    if p != [] {
      if p[0].0 == k {
        var r := [(k, v)] + p[1..];
        assert forall i :: 0 <= i < |r| ==> r[i].0 == p[i].0;
      } else {
        var tail := Put(p[1..], k, v);
        assert Distinct(p[1..]) by {
          forall i, j | 0 <= i < j < |p[1..]| ensures p[1..][i].0 != p[1..][j].0 {
            assert p[1..][i] == p[i + 1] && p[1..][j] == p[j + 1];
          }
        }
        PutDistinct(p[1..], k, v);
        PutKeys(p[1..], k, v);
        assert p[0].0 !in Keys(p[1..]) by {
          forall i | 0 <= i < |p[1..]| ensures Keys(p[1..])[i] != p[0].0 {
            assert p[1..][i] == p[i + 1];
          }
        }
        ConsDistinct(p[0], tail);
      }
    }
  }

  /** A property whose key the rest lacks can be put in front of it. */
  lemma ConsDistinct(head: (string, Value), tail: Props)
    requires Distinct(tail) && head.0 !in Keys(tail)
    ensures Distinct([head] + tail)
  {
    var r := [head] + tail;
    forall j | 0 < j < |r| ensures r[j].0 != head.0 {
      assert r[j].0 == Keys(tail)[j - 1];
    }
  }

  /** The keys of `overlay` that `base` does not have, in the overlay's order. */
  function Added(base: Props, overlay: Props): seq<string>
  {
    if overlay == [] then []
    else
      var last := overlay[|overlay| - 1];
      Added(base, overlay[..|overlay| - 1]) + (if HasKey(base, last.0) then [] else [last.0])
  }

  /**
   * `{...base, ...overlay}`: a copy of `base` into which the overlay's own
   * properties are written one by one. A key of `base` keeps its position and
   * takes the overlay's value (even `undefined`); the overlay's other keys
   * follow, in its order.
   */
  function Spread(base: Object, overlay: Object): (r: Object)
    ensures Keys(r) == Keys(base) + Added(base, overlay)
    ensures forall k :: HasKey(r, k) <==> HasKey(base, k) || HasKey(overlay, k)
    ensures forall k :: Lookup(r, k) == if HasKey(overlay, k) then Lookup(overlay, k) else Lookup(base, k)
    decreases |overlay|
  {
    if overlay == [] then
      assert forall k :: Lookup(overlay, k) == Undefined;
      base
    else
      var n := |overlay| - 1;
      var rest := Spread(base, overlay[..n]);
      SpreadStep(base, overlay, rest);
      PutDistinct(rest, overlay[n].0, overlay[n].1);
      Put(rest, overlay[n].0, overlay[n].1)
  }

  /** One step of `Spread`: writing the overlay's last property into the spread of the others. */
  lemma SpreadStep(base: Object, overlay: Object, rest: Object)
    requires overlay != []
    requires Keys(rest) == Keys(base) + Added(base, overlay[..|overlay| - 1])
    requires forall k :: HasKey(rest, k) <==> HasKey(base, k) || HasKey(overlay[..|overlay| - 1], k)
    requires forall k :: (Lookup(rest, k) ==
      if HasKey(overlay[..|overlay| - 1], k) then Lookup(overlay[..|overlay| - 1], k) else Lookup(base, k))
    ensures var r := Put(rest, overlay[|overlay| - 1].0, overlay[|overlay| - 1].1);
      && Keys(r) == Keys(base) + Added(base, overlay)
      && (forall k :: HasKey(r, k) <==> HasKey(base, k) || HasKey(overlay, k))
      && (forall k :: Lookup(r, k) == if HasKey(overlay, k) then Lookup(overlay, k) else Lookup(base, k))
  {
    var n := |overlay| - 1;
    var front, last := overlay[..n], overlay[n];
    assert overlay == front + [last];
    assert Keys(overlay) == Keys(front) + [last.0];
    SpreadStepKeys(base, front, last, rest);
    SpreadStepHas(base, front, last, rest);
    SpreadStepLookup(base, front, last, rest);
  }

  lemma SpreadStepKeys(base: Object, front: Props, last: (string, Value), rest: Object)
    requires Distinct(front + [last])
    requires Keys(rest) == Keys(base) + Added(base, front)
    requires forall k :: HasKey(rest, k) <==> HasKey(base, k) || HasKey(front, k)
    ensures Keys(Put(rest, last.0, last.1)) == Keys(base) + Added(base, front + [last])
  {
    var overlay := front + [last];
    assert overlay[..|front|] == front;
    assert Keys(overlay) == Keys(front) + [last.0];
    LastKeyFresh(front, last);
    PutKeys(rest, last.0, last.1);
    assert HasKey(rest, last.0) == HasKey(base, last.0);
  }

  /** The last property of a distinct-keyed list names a key the others lack. */
  lemma LastKeyFresh(front: Props, last: (string, Value))
    requires Distinct(front + [last])
    ensures !HasKey(front, last.0)
  {
    var p := front + [last];
    forall i | 0 <= i < |front| ensures Keys(front)[i] != last.0 {
      assert p[i] == front[i] && p[|front|] == last;
    }
  }

  lemma SpreadStepHas(base: Object, front: Props, last: (string, Value), rest: Object)
    requires forall k :: HasKey(rest, k) <==> HasKey(base, k) || HasKey(front, k)
    ensures forall k :: HasKey(Put(rest, last.0, last.1), k) <==> HasKey(base, k) || HasKey(front + [last], k)
  {
    var r := Put(rest, last.0, last.1);
    PutKeys(rest, last.0, last.1);
    assert Keys(front + [last]) == Keys(front) + [last.0];
    forall k ensures HasKey(r, k) <==> HasKey(base, k) || HasKey(front + [last], k) {
      assert HasKey(r, k) <==> HasKey(rest, k) || k == last.0;
    }
  }

  lemma SpreadStepLookup(base: Object, front: Props, last: (string, Value), rest: Object)
    requires Distinct(front + [last])
    requires forall k :: (Lookup(rest, k) == if HasKey(front, k) then Lookup(front, k) else Lookup(base, k))
    ensures forall k :: (Lookup(Put(rest, last.0, last.1), k) ==
      if HasKey(front + [last], k) then Lookup(front + [last], k) else Lookup(base, k))
  {
    var overlay := front + [last];
    assert Keys(overlay) == Keys(front) + [last.0];
    LastKeyFresh(front, last);
    PutLookup(rest, last.0, last.1);
    LookupAppend(front, last.0, last.1);
  }

  predicate Truthy(v: Value)
  {
    match v
    case Undefined => false
    case Null => false
    case Bool(b) => b
    case Num(n) => n != 0
    case Str(s) => s != ""
    case Arr(_) => true
    case Obj(_) => true
  }

  /** `v || fallback`. */
  function Or(v: Value, fallback: Value): Value
  {
    if Truthy(v) then v else fallback
  }

  function TypeOf(v: Value): string
  {
    match v
    case Undefined => "undefined"
    case Null => "object"
    case Bool(_) => "boolean"
    case Num(_) => "number"
    case Str(_) => "string"
    case Arr(_) => "object"
    case Obj(_) => "object"
  }

  /**
   * `v.k` for a key that is neither an array index nor `length` nor
   * inherited. `None` is the TypeError thrown when `v` is `null` or `undefined`.
   */
  function GetProp(v: Value, k: string): Option<Value>
  {
    match v
    case Undefined => None
    case Null => None
    case Obj(p) => Some(Lookup(p, k))
    case _ => Some(Undefined)
  }

  /** `v?.k`: optional chaining gives `undefined` where a plain read would throw. */
  function OptionalGet(v: Value, k: string): Value
  {
    match GetProp(v, k)
    case None => Undefined
    case Some(x) => x
  }

  function DigitChar(d: nat): char
    requires d < 10
  {
    ('0' as int + d) as char
  }

  /** The decimal numeral of `n`, as `String(n)` writes it. */
  function NatToString(n: nat): (s: string)
    ensures |s| >= 1 && forall i :: 0 <= i < |s| ==> '0' <= s[i] <= '9'
    ensures s[0] == '0' ==> n == 0
  {
    if n < 10 then [DigitChar(n)] else NatToString(n / 10) + [DigitChar(n % 10)]
  }

  function IntToString(i: int): string
  {
    if i < 0 then "-" + NatToString(-i) else NatToString(i)
  }

  /** `String(v)`, which is also what a template literal inserts. */
  function ToString(v: Value): string
  {
    match v
    case Undefined => "undefined"
    case Null => "null"
    case Bool(b) => if b then "true" else "false"
    case Num(n) => IntToString(n)
    case Str(s) => s
    case Arr(items) =>
      // Array.prototype.join writes null and undefined elements as empty strings
      Join(seq(|items|, i requires 0 <= i < |items| =>
             if items[i].Undefined? || items[i].Null? then "" else ToString(items[i])), ',')
    case Obj(_) => "[object Object]"
  }

  /** `s.includes(t)`. */
  predicate Includes(s: string, t: string)
  {
    t <= s || (s != [] && Includes(s[1..], t))
  }

  /** A string cannot include a text holding a character it lacks. */
  lemma {:induction false} IncludesNeeds(s: string, t: string, c: char)
    requires c in t && c !in s
    ensures !Includes(s, t)
  {
    if s != [] {
      IncludesNeeds(s[1..], t, c);
    }
  }

  /** `pieces.join(sep)`. */
  function Join(pieces: seq<string>, sep: char): string
  {
    if |pieces| == 0 then ""
    else if |pieces| == 1 then pieces[0]
    else pieces[0] + [sep] + Join(pieces[1..], sep)
  }

  /** `s.split(sep)` for a one-character separator: every piece, empty ones included. */
  function Split(s: string, sep: char): (pieces: seq<string>)
    ensures |pieces| >= 1
  {
    if s == [] then [""]
    else
      var rest := Split(s[1..], sep);
      if s[0] == sep then [""] + rest
      else [[s[0]] + rest[0]] + rest[1..]
  }

  /** The pieces hold no separator, and joining them with it gives back the string. */
  lemma {:induction false} SplitPieces(s: string, sep: char)
    ensures forall i :: 0 <= i < |Split(s, sep)| ==> sep !in Split(s, sep)[i]
    ensures Join(Split(s, sep), sep) == s
  {
    if s != [] {
      var rest := Split(s[1..], sep);
      SplitPieces(s[1..], sep);
      if s[0] == sep {
        assert ([""] + rest)[1..] == rest;
      } else {
        var pieces := [[s[0]] + rest[0]] + rest[1..];
        assert pieces[1..] == rest[1..];
        assert s == [s[0]] + s[1..];
      }
    }
  }

  lemma {:induction false} SplitWhole(s: string, sep: char)
    requires sep !in s
    ensures Split(s, sep) == [s]
  {
    if s != [] {
      SplitWhole(s[1..], sep);
      assert s == [s[0]] + s[1..];
    }
  }

  lemma {:induction false} SplitFirst(a: string, sep: char, b: string)
    requires sep !in a
    ensures Split(a + [sep] + b, sep) == [a] + Split(b, sep)
  {
    var s := a + [sep] + b;
    if a == [] {
      assert s[1..] == b;
    } else {
      assert s[1..] == a[1..] + [sep] + b;
      SplitFirst(a[1..], sep, b);
      assert a == [a[0]] + a[1..];
    }
  }

  /** Splitting undoes joining, as long as no piece holds the separator. */
  lemma {:induction false} SplitJoin(pieces: seq<string>, sep: char)
    requires |pieces| >= 1
    requires forall i :: 0 <= i < |pieces| ==> sep !in pieces[i]
    ensures Split(Join(pieces, sep), sep) == pieces
  {
    if |pieces| == 1 {
      SplitWhole(pieces[0], sep);
    } else {
      SplitJoin(pieces[1..], sep);
      SplitFirst(pieces[0], sep, Join(pieces[1..], sep));
      assert pieces == [pieces[0]] + pieces[1..];
    }
  }

  /** A character that is neither the separator nor in any piece is not in the joined string. */
  lemma {:induction false} JoinAvoids(pieces: seq<string>, sep: char, c: char)
    requires c != sep
    requires forall i :: 0 <= i < |pieces| ==> c !in pieces[i]
    ensures c !in Join(pieces, sep)
  {
    if |pieces| > 1 {
      JoinAvoids(pieces[1..], sep, c);
    }
  }

  /** ECMAScript WhiteSpace and LineTerminator code points: what `trim` removes. */
  predicate IsWhiteSpace(c: char)
  {
    c == '\t' || c == '\n' || c == '\U{000B}' || c == '\U{000C}' || c == '\r' || c == ' '
    || c == '\U{00A0}' || c == '\U{1680}' || ('\U{2000}' <= c <= '\U{200A}')
    || c == '\U{2028}' || c == '\U{2029}' || c == '\U{202F}' || c == '\U{205F}'
    || c == '\U{3000}' || c == '\U{FEFF}'
  }

  function TrimStart(s: string): string
  {
    if s != [] && IsWhiteSpace(s[0]) then TrimStart(s[1..]) else s
  }

  function TrimEnd(s: string): string
  {
    if s != [] && IsWhiteSpace(s[|s| - 1]) then TrimEnd(s[..|s| - 1]) else s
  }

  /** `s.trim()`. */
  function Trim(s: string): string
  {
    TrimEnd(TrimStart(s))
  }

  /** `trimStart` removes a prefix of white space, and stops at the first other character. */
  lemma {:induction false} TrimStartSpec(s: string)
    ensures var r := TrimStart(s);
      && |r| <= |s| && r == s[|s| - |r|..]
      && (forall i :: 0 <= i < |s| - |r| ==> IsWhiteSpace(s[i]))
      && (r == [] || !IsWhiteSpace(r[0]))
  {
    if s != [] && IsWhiteSpace(s[0]) {
      var r := TrimStart(s[1..]);
      TrimStartSpec(s[1..]);
      assert s[1..][|s| - 1 - |r|..] == s[|s| - |r|..];
      forall i | 1 <= i < |s| - |r| ensures IsWhiteSpace(s[i]) {
        assert s[i] == s[1..][i - 1];
      }
    }
  }

  /** `trimEnd` removes a suffix of white space, and stops at the last other character. */
  lemma {:induction false} TrimEndSpec(s: string)
    ensures var r := TrimEnd(s);
      && |r| <= |s| && r == s[..|r|]
      && (forall i :: |r| <= i < |s| ==> IsWhiteSpace(s[i]))
      && (r == [] || !IsWhiteSpace(r[|r| - 1]))
  {
    if s != [] && IsWhiteSpace(s[|s| - 1]) {
      var r := TrimEnd(s[..|s| - 1]);
      TrimEndSpec(s[..|s| - 1]);
      assert s[..|s| - 1][..|r|] == s[..|r|];
      forall i | |r| <= i < |s| - 1 ensures IsWhiteSpace(s[i]) {
        assert s[i] == s[..|s| - 1][i];
      }
    }
  }

  /**
   * `trim` removes white space from both ends and nothing else: the result
   * neither starts nor ends with white space, and a string that already
   * does neither is left as it is.
   */
  lemma TrimSpec(s: string)
    ensures |Trim(s)| <= |s|
    ensures Trim(s) == [] || (!IsWhiteSpace(Trim(s)[0]) && !IsWhiteSpace(Trim(s)[|Trim(s)| - 1]))
    ensures (s == [] || (!IsWhiteSpace(s[0]) && !IsWhiteSpace(s[|s| - 1]))) ==> Trim(s) == s
  {
    var front := TrimStart(s);
    var r := TrimEnd(front);
    TrimStartSpec(s);
    TrimEndSpec(front);
    assert Trim(s) == r;
    if r != [] {
      assert r[0] == front[0];
    }
    if s != [] && !IsWhiteSpace(s[0]) && !IsWhiteSpace(s[|s| - 1]) {
      assert front == s;
      assert r == s;
    }
  }
}
