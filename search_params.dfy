/** `URLSearchParams` as the core uses it: an ordered list of name/value pairs
    built with `append` and `set`, read with `get`, and written out with
    `toString` in the application/x-www-form-urlencoded format. */
module SearchParams {
  import opened Wrappers
  import opened Hex

  type Entries = seq<(string, string)>

  predicate HasName(e: Entries, name: string) {
    exists i :: 0 <= i < |e| && e[i].0 == name
  }

  /** `get(name)`: the value of the first pair with that name, `null` if none. */
  function Get(e: Entries, name: string): (r: Option<string>)
    ensures r.Some? <==> HasName(e, name)
  {
    if e == [] then None
    else if e[0].0 == name then Some(e[0].1)
    else
      assert HasName(e, name) <==> HasName(e[1..], name) by {
        if HasName(e, name) { var i :| 0 <= i < |e| && e[i].0 == name; assert e[1..][i - 1] == e[i]; }
        if HasName(e[1..], name) { var i :| 0 <= i < |e| - 1 && e[1..][i].0 == name; assert e[i + 1] == e[1..][i]; }
      }
      Get(e[1..], name)
  }

  /** `append(name, value)` adds a pair at the end. */
  function AppendParam(e: Entries, name: string, value: string): (r: Entries)
    ensures |r| == |e| + 1 && r[..|e|] == e && r[|e|] == (name, value)
  {
    e + [(name, value)]
  }

  /** Removes every pair with the given name. */
  function RemoveName(e: Entries, name: string): (r: Entries)
    ensures !HasName(r, name)
    ensures forall n :: n != name ==> Get(r, n) == Get(e, n)
    ensures |r| <= |e|
  {
    if e == [] then []
    else if e[0].0 == name then RemoveName(e[1..], name)
    else [e[0]] + RemoveName(e[1..], name)
  }

  /** `set(name, value)`: the first pair with that name takes the new value and
      the later ones are removed; without such a pair, the pair is appended. */
  function SetParam(e: Entries, name: string, value: string): (r: Entries)
    ensures HasName(r, name)
    ensures |r| <= |e| + 1
  {
    if e == [] then
      var r := [(name, value)];
      assert r[0].0 == name;
      r
    else if e[0].0 == name then
      var r := [(name, value)] + RemoveName(e[1..], name);
      assert r[0].0 == name;
      r
    else
      var t := SetParam(e[1..], name, value);
      var r := [e[0]] + t;
      assert HasName(r, name) by {
        var i :| 0 <= i < |t| && t[i].0 == name;
        assert r[i + 1] == t[i];
      }
      r
  }

  /** After `set`, `get` of that name gives the new value and `get` of any other
      name is as before. */
  lemma {:induction false} GetSetParam(e: Entries, name: string, value: string, other: string)
    ensures Get(SetParam(e, name, value), name) == Some(value)
    ensures other != name ==> Get(SetParam(e, name, value), other) == Get(e, other)
  {
    if e != [] && e[0].0 != name {
      GetSetParam(e[1..], name, value, other);
    }
  }

  /** On a name not yet present, `set` is `append`. */
  lemma {:induction false} SetParamFresh(e: Entries, name: string, value: string)
    requires !HasName(e, name)
    ensures SetParam(e, name, value) == AppendParam(e, name, value)
  {
    if e != [] {
      assert forall i :: 0 <= i < |e| - 1 ==> e[1..][i] == e[i + 1];
      SetParamFresh(e[1..], name, value);
    }
  }

  /** Pair `i` is `(name, value)` and no other pair has that name. */
  predicate OnlyPairAt(r: Entries, i: int, name: string, value: string) {
    0 <= i < |r| && r[i] == (name, value) &&
    forall j :: 0 <= j < |r| && j != i ==> r[j].0 != name
  }

  /** After `set`, exactly one pair carries the name. */
  lemma {:induction false} SetParamSingle(e: Entries, name: string, value: string)
    ensures exists i :: OnlyPairAt(SetParam(e, name, value), i, name, value)
  {
    var r := SetParam(e, name, value);
    if e == [] {
      assert OnlyPairAt(r, 0, name, value);
    } else if e[0].0 == name {
      var t := RemoveName(e[1..], name);
      assert r == [(name, value)] + t;
      assert forall j :: 0 < j < |r| ==> r[j] == t[j - 1];
      assert OnlyPairAt(r, 0, name, value);
    } else {
      SetParamSingle(e[1..], name, value);
      var t := SetParam(e[1..], name, value);
      var i :| OnlyPairAt(t, i, name, value);
      assert r == [e[0]] + t;
      assert r[i + 1] == (name, value);
      forall j | 0 <= j < |r| && j != i + 1 ensures r[j].0 != name {
        if j > 0 { assert r[j] == t[j - 1]; }
      }
      assert OnlyPairAt(r, i + 1, name, value);
    }
  }

  /** `URLSearchParams` object built step by step. */
  class UrlSearchParams {
    var entries: Entries

    constructor ()
      ensures entries == []
    {
      entries := [];
    }

    method Set(name: string, value: string)
      modifies this
      ensures entries == SetParam(old(entries), name, value)
    {
      entries := SetParam(entries, name, value);
    }

    method Append(name: string, value: string)
      modifies this
      ensures entries == AppendParam(old(entries), name, value)
    {
      entries := entries + [(name, value)];
    }
  }

  // Serialisation (`toString`).

  /** Characters the form-urlencoded serialiser writes as they are. */
  predicate Unreserved(c: char) {
    ('0' <= c <= '9') || ('A' <= c <= 'Z') || ('a' <= c <= 'z') ||
    c == '*' || c == '-' || c == '.' || c == '_'
  }

  const UpperHexDigits: string := "0123456789ABCDEF"

  /** UTF-8 encoding of one Unicode scalar value. */
  function Utf8(c: char): (bs: seq<Byte>)
    ensures 1 <= |bs| <= 4
  {
    var n := c as int;
    if n < 0x80 then [n]
    else if n < 0x800 then [0xC0 + n / 64, 0x80 + n % 64]
    else if n < 0x10000 then [0xE0 + n / 4096, 0x80 + (n / 64) % 64, 0x80 + n % 64]
    else [0xF0 + n / 262144, 0x80 + (n / 4096) % 64, 0x80 + (n / 64) % 64, 0x80 + n % 64]
  }

  function PercentEncode(bs: seq<Byte>): (s: string)
    ensures |s| == 3 * |bs|
    ensures forall k :: 0 <= k < |s| ==> s[k] == '%' || s[k] in UpperHexDigits
  {
    if bs == [] then []
    else ['%', UpperHexDigits[bs[0] / 16], UpperHexDigits[bs[0] % 16]] + PercentEncode(bs[1..])
  }

  function EncodeChar(c: char): (s: string)
  {
    if Unreserved(c) then [c]
    else if c == ' ' then "+"
    else PercentEncode(Utf8(c))
  }

  /** The application/x-www-form-urlencoded byte serialiser; a string of
      unreserved characters is written as it is. */
  function FormEncode(s: string): (r: string)
    ensures (forall k :: 0 <= k < |s| ==> Unreserved(s[k])) ==> r == s
  {
    if s == [] then []
    else
      var r := EncodeChar(s[0]) + FormEncode(s[1..]);
      assert (forall k :: 0 <= k < |s| ==> Unreserved(s[k])) ==> r == [s[0]] + s[1..];
      r
  }

  /** One `name=value` pair of the serialised form. */
  function SerializePair(p: (string, string)): (r: string)
  {
    FormEncode(p.0) + "=" + FormEncode(p.1)
  }

  /** `toString()`: the pairs joined by `&`, in order. */
  function Serialize(e: Entries): (r: string)
    ensures r == [] <==> e == []
    ensures e != [] ==> |SerializePair(e[0])| <= |r| && r[..|SerializePair(e[0])|] == SerializePair(e[0])
  {
    if e == [] then []
    else if |e| == 1 then SerializePair(e[0])
    else SerializePair(e[0]) + "&" + Serialize(e[1..])
  }

  /** Encoded text never contains the separators `&` and `=`, so the pair
      structure of `Serialize` is unambiguous. */
  lemma {:induction false} FormEncodeNoSeparators(s: string)
    ensures forall k :: 0 <= k < |FormEncode(s)| ==> FormEncode(s)[k] != '&' && FormEncode(s)[k] != '='
  {
    if s != [] {
      FormEncodeNoSeparators(s[1..]);
      var head, tail := EncodeChar(s[0]), FormEncode(s[1..]);
      assert forall k :: 0 <= k < |head| ==> head[k] != '&' && head[k] != '=';
      assert FormEncode(s) == head + tail;
    }
  }
}
