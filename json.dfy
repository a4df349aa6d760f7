/** JSON values as both wrappers hold them after `json.loads`, the handful of
    Python operations the wrappers apply to them (`in`, `[...]`, `.get`,
    `str.strip`), and the JSON encoder and decoder, which stay opaque. */
module Json {

  datatype Option<T> = None | Some(value: T)

  datatype Result<T, E> = Ok(value: T) | Err(error: E)

  /** A finite binary number mantissa·2^exponent in its one reduced form:
      the mantissa is odd, or the number is zero, written 0·2^0. */
  type Dyadic = p: (int, int) | p.0 % 2 == 1 || p == (0, 0) witness (0, 0)

  /** A Python float: a finite number other than negative zero, negative
      zero, the two infinities, and NaN (which `json.dumps` writes as
      `-0.0`, `Infinity`, `-Infinity` and `NaN`). */
  datatype Float = Finite(value: Dyadic) | NegativeZero | Infinity | NegativeInfinity | NaN

  /** A decoded JSON document. Objects are Python dicts with string keys. */
  datatype Json =
    | JNull
    | JBool(b: bool)
    | JInt(i: int)
    | JFloat(f: Float)
    | JStr(s: string)
    | JArr(items: seq<Json>)
    | JObj(fields: map<string, Json>)

  /** The Python exceptions that `in`, `[...]` and `.get` raise on JSON values. */
  datatype PyError = TypeError | KeyError(key: string) | AttributeError

  /** Python's `needle in hay` on two strings. */
  predicate IsSubstring(needle: string, hay: string)
    decreases |hay|
  {
    needle <= hay || (|hay| > 0 && IsSubstring(needle, hay[1..]))
  }

  /** Python's `key in container` for a string key: membership among
      the keys of a dict, among the elements of a list, a substring test on a
      string, and a TypeError on anything that is not iterable. */
  function PyIn(key: string, container: Json): Result<bool, PyError>
  {
    match container
    case JObj(m) => Ok(key in m)
    case JArr(xs) => Ok(JStr(key) in xs)
    case JStr(s) => Ok(IsSubstring(key, s))
    case _ => Err(TypeError)
  }

  /** Python's `container[key]` for a string key: a dict lookup that raises
      KeyError when the key is missing, and a TypeError on lists, strings and
      scalars, which cannot be indexed by a string. */
  function PySubscript(container: Json, key: string): Result<Json, PyError>
  {
    match container
    case JObj(m) => if key in m then Ok(m[key]) else Err(KeyError(key))
    case _ => Err(TypeError)
  }

  /** Python's `container.get(key)`: None (JSON null) for a missing key of a
      dict, and an AttributeError on anything that is not a dict. */
  function PyGet(container: Json, key: string): Result<Json, PyError>
  {
    match container
    case JObj(m) => Ok(if key in m then m[key] else JNull)
    case _ => Err(AttributeError)
  }

  /** `needle` occurs in `hay` starting at position `i`. */
  predicate OccursAt(needle: string, hay: string, i: int)
  {
    0 <= i <= |hay| - |needle| && hay[i..i + |needle|] == needle
  }

  /** Python's `in` on strings holds exactly when the needle occurs at some position. */
  lemma IsSubstringSpec(needle: string, hay: string)
    ensures IsSubstring(needle, hay) <==> exists i :: OccursAt(needle, hay, i)
  {
    if IsSubstring(needle, hay) {
      SubstringOccurs(needle, hay);
    }
    forall i | OccursAt(needle, hay, i)
      ensures IsSubstring(needle, hay)
    {
      OccurrenceIsSubstring(needle, hay, i);
    }
  }

  lemma {:induction false} SubstringOccurs(needle: string, hay: string)
    requires IsSubstring(needle, hay)
    ensures exists i :: OccursAt(needle, hay, i)
    decreases |hay|
  {
    if needle <= hay {
      assert OccursAt(needle, hay, 0);
    } else {
      SubstringOccurs(needle, hay[1..]);
      var i :| OccursAt(needle, hay[1..], i);
      assert hay[i + 1..i + 1 + |needle|] == hay[1..][i..i + |needle|];
      assert OccursAt(needle, hay, i + 1);
    }
  }

  lemma {:induction false} OccurrenceIsSubstring(needle: string, hay: string, i: int)
    requires OccursAt(needle, hay, i)
    ensures IsSubstring(needle, hay)
    decreases i
  {
    if i == 0 {
      assert hay[..|needle|] == needle;
    } else {
      assert hay[1..][i - 1..i - 1 + |needle|] == hay[i..i + |needle|];
      OccurrenceIsSubstring(needle, hay[1..], i - 1);
    }
  }

  /** `key in x` raises TypeError exactly on values that are not
      containers. On a dict it holds exactly when `x[key]` does not raise; on
      a list, when some element is the string `key`; on a string, when `key`
      occurs in it at some position. */
  lemma PyInSpec(key: string, x: Json)
    ensures PyIn(key, x).Err? <==> !(x.JObj? || x.JArr? || x.JStr?)
    ensures x.JObj? ==> (PyIn(key, x) == Ok(true) <==> PySubscript(x, key).Ok?)
    ensures x.JArr? ==> (PyIn(key, x) == Ok(true) <==> exists k :: 0 <= k < |x.items| && x.items[k] == JStr(key))
    ensures x.JStr? ==> (PyIn(key, x) == Ok(true) <==> exists i :: OccursAt(key, x.s, i))
  {
    if x.JStr? {
      IsSubstringSpec(key, x.s);
    }
  }

  /** Two subscripts in a row, `x[outer][inner]`, succeed exactly when the
      plain nested lookup finds a value, and then give that value. */
  lemma SubscriptIsNested(x: Json, outer: string, inner: string)
    ensures (PySubscript(x, outer).Ok? && PySubscript(PySubscript(x, outer).value, inner).Ok?)
            <==> Nested(x, outer, inner).Some?
    ensures Nested(x, outer, inner).Some? ==>
              PySubscript(PySubscript(x, outer).value, inner).value == Nested(x, outer, inner).value
  {
  }

  /** `x.get(key)` raises exactly where `x[key]` raises TypeError, on values
      that are not dicts; on a dict it gives what `x[key]` gives, or null
      where `x[key]` raises KeyError. */
  lemma GetIsSubscriptOrNull(x: Json, key: string)
    ensures PyGet(x, key).Err? <==> PySubscript(x, key) == Err(TypeError)
    ensures PyGet(x, key).Ok? && PySubscript(x, key).Ok? ==> PyGet(x, key).value == PySubscript(x, key).value
    ensures PyGet(x, key).Ok? && PySubscript(x, key).Err? ==>
              PyGet(x, key).value == JNull && PySubscript(x, key) == Err(KeyError(key))
  {
  }

  /** Plain nested lookup with no Python in between: `v[outer][inner]` when
      both levels are dicts holding those keys. This is the reference the
      exception-raising evaluations of the wrappers are compared against. */
  function Nested(v: Json, outer: string, inner: string): Option<Json>
  {
    if v.JObj? && outer in v.fields && v.fields[outer].JObj? && inner in v.fields[outer].fields
    then Some(v.fields[outer].fields[inner])
    else None
  }

  /** The characters for which Python's `str.isspace()` holds, i.e. those
      that `str.strip()` with no argument removes. */
  predicate IsSpace(ch: char)
  {
    || ch == ' ' || '\t' <= ch <= '\r' || '\U{1C}' <= ch <= '\U{1F}'
    || ch == '\U{85}' || ch == '\U{A0}' || ch == '\U{1680}' || '\U{2000}' <= ch <= '\U{200A}'
    || ch == '\U{2028}' || ch == '\U{2029}' || ch == '\U{202F}' || ch == '\U{205F}' || ch == '\U{3000}'
  }

  /** Neither end of `s` is whitespace (and `s` is not empty). */
  predicate Trimmed(s: string)
  {
    |s| > 0 && !IsSpace(s[0]) && !IsSpace(s[|s| - 1])
  }

  /** Python's `s.lstrip()`: the longest suffix of `s` that does not start with whitespace. */
  function StripLeft(s: string): (r: string)
    ensures |r| <= |s| && r == s[|s| - |r|..]
    ensures forall k :: 0 <= k < |s| - |r| ==> IsSpace(s[k])
    ensures r == [] || !IsSpace(r[0])
    decreases |s|
  {
    if |s| > 0 && IsSpace(s[0]) then StripLeft(s[1..]) else s
  }

  /** Python's `s.rstrip()`: the longest prefix of `s` that does not end with whitespace. */
  function StripRight(s: string): (r: string)
    ensures |r| <= |s| && r == s[..|r|]
    ensures forall k :: |r| <= k < |s| ==> IsSpace(s[k])
    ensures r == [] || !IsSpace(r[|r| - 1])
    decreases |s|
  {
    if |s| > 0 && IsSpace(s[|s| - 1]) then StripRight(s[..|s| - 1]) else s
  }

  /** Python's `s.strip()`: `s` without its leading and trailing whitespace. */
  function Strip(s: string): string
  {
    StripRight(StripLeft(s))
  }

  /** `strip()` leaves a string that is empty or has no whitespace at either
      end, never longer than the original, and empty exactly when the
      original is all whitespace. */
  lemma StripSpec(s: string)
    ensures Strip(s) == [] || Trimmed(Strip(s))
    ensures |Strip(s)| <= |s|
    ensures Strip(s) == [] <==> forall k :: 0 <= k < |s| ==> IsSpace(s[k])
  {
    var l := StripLeft(s);
    assert forall k :: |s| - |l| <= k < |s| ==> l[k - (|s| - |l|)] == s[k];
  }

  /** A string with no whitespace at either end survives `strip()` unchanged. */
  lemma StripTrimmed(s: string)
    requires Trimmed(s)
    ensures Strip(s) == s
  {
  }

  /** A line terminator and any other trailing whitespace after a trimmed
      string are removed by `strip()`, which gives the string back. */
  lemma {:induction false} StripLine(s: string, tail: string)
    requires Trimmed(s)
    requires forall k :: 0 <= k < |tail| ==> IsSpace(tail[k])
    ensures Strip(s + tail) == s
  {
    assert StripLeft(s + tail) == s + tail;
    StripRightTail(s, tail);
  }

  lemma {:induction false} StripRightTail(s: string, tail: string)
    requires Trimmed(s)
    requires forall k :: 0 <= k < |tail| ==> IsSpace(tail[k])
    ensures StripRight(s + tail) == s
    decreases |tail|
  {
    if tail == [] {
      assert s + tail == s;
    } else {
      var shorter := tail[..|tail| - 1];
      assert (s + tail)[..|s + tail| - 1] == s + shorter;
      StripRightTail(s, shorter);
    }
  }

  /** `json.dumps` and `json.loads`, both opaque. `loads` fails with the text
      of the JSONDecodeError it raises. */
  datatype Codec = Codec(dumps: Json -> string, loads: string -> Result<Json, string>)

  /** What the model relies on about Python's encoder with its default
      arguments, for one value: its encoding has no raw line break (line
      breaks inside strings are escaped), no whitespace at either end, and
      decodes back to the value. */
  predicate RoundTrips(c: Codec, v: Json)
  {
    '\n' !in c.dumps(v) && Trimmed(c.dumps(v)) && c.loads(c.dumps(v)) == Ok(v)
  }

  /** The encoder and decoder behave as above on every value. The law can
      be met: `JsonCodec.ValidCodecSatisfiable` gives a codec that meets it. */
  ghost predicate ValidCodec(c: Codec)
  {
    forall v :: RoundTrips(c, v)
  }
}
