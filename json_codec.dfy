/** A concrete encoder and decoder that meet the law `Json.ValidCodec`, so
    that the lemmas which assume the law are about codecs that exist. The
    format is not JSON's: integers are written in unary and object keys in
    an arbitrary order. It only has to be one-line, trimmed and decodable. */
module JsonCodec {
  import opened Json

  /** `n` as that many '1's. */
  function Ones(n: nat): string
  {
    if n == 0 then "" else "1" + Ones(n - 1)
  }

  /** An integer as its sign, its magnitude in unary, and ';'. */
  function EncInt(i: int): string
  {
    (if i >= 0 then "+" + Ones(i) else "-" + Ones(-i)) + ";"
  }

  /** One character of a string body, with '"', '\\' and the line break escaped. */
  function EscChar(ch: char): string
  {
    if ch == '"' then "\\\""
    else if ch == '\\' then "\\\\"
    else if ch == '\n' then "\\n"
    else [ch]
  }

  /** A string body, each character escaped. */
  function Esc(s: string): string
  {
    if s == [] then "" else EscChar(s[0]) + Esc(s[1..])
  }

  /** The keys of `m`, in some order. */
  ghost function Keys(m: map<string, Json>): (ks: seq<string>)
    ensures forall k :: k in ks <==> k in m
    decreases |m|
  {
    if |m| == 0 then []
    else
      var k :| k in m;
      var rest := m - {k};
      assert rest.Keys == m.Keys - {k};
      [k] + Keys(rest)
  }

  /** The encoding of a value. Its first character names the kind of value
      and its last one is never whitespace. */
  ghost function Enc(v: Json): string
    decreases v, 1, 0
  {
    match v
    case JNull => "n"
    case JBool(b) => if b then "t" else "f"
    case JInt(i) => "i" + EncInt(i)
    case JFloat(f) =>
      (match f
       case Finite(p) => "d" + EncInt(p.0) + EncInt(p.1)
       case NegativeZero => "z"
       case Infinity => "P"
       case NegativeInfinity => "M"
       case NaN => "x")
    case JStr(s) => "\"" + Esc(s) + "\""
    case JArr(xs) => "[" + Items(xs, 0) + "]"
    case JObj(m) => "{" + Fields(m, Keys(m)) + "}"
  }

  /** The encodings of `xs[i..]`, one after another. */
  ghost function Items(xs: seq<Json>, i: nat): string
    requires i <= |xs|
    decreases JArr(xs), 0, |xs| - i
  {
    if i == |xs| then "" else Enc(xs[i]) + Items(xs, i + 1)
  }

  /** The fields of `m` named by `ks`: each key as a string, then its value. */
  ghost function Fields(m: map<string, Json>, ks: seq<string>): string
    requires forall k :: k in ks ==> k in m
    decreases JObj(m), 0, |ks|
  {
    if ks == [] then ""
    else
      assert m[ks[0]] in m.Values;
      "\"" + Esc(ks[0]) + "\"" + Enc(m[ks[0]]) + Fields(m, ks[1..])
  }

  /** Reads a unary magnitude up to its ';'. */
  function ParseOnes(s: string): (r: Option<(nat, string)>)
    ensures r.Some? ==> |r.value.1| < |s|
    decreases |s|
  {
    if s == [] then None
    else if s[0] == ';' then Some((0, s[1..]))
    else if s[0] == '1' then
      match ParseOnes(s[1..])
      case Some((n, rest)) => Some((n + 1, rest))
      case None => None
    else None
  }

  /** Reads an integer written by `EncInt`. */
  function ParseInt(s: string): (r: Option<(int, string)>)
    ensures r.Some? ==> |r.value.1| < |s|
  {
    if s == [] then None
    else if s[0] == '+' then
      match ParseOnes(s[1..])
      case Some((n, rest)) => Some((n, rest))
      case None => None
    else if s[0] == '-' then
      match ParseOnes(s[1..])
      case Some((n, rest)) => if n == 0 then None else Some((0 - n, rest))
      case None => None
    else None
  }

  /** Reads a string body up to its closing '"', undoing the escapes. */
  function ParseStr(s: string): (r: Option<(string, string)>)
    ensures r.Some? ==> |r.value.1| < |s|
    decreases |s|
  {
    if s == [] then None
    else if s[0] == '"' then Some(("", s[1..]))
    else if s[0] == '\\' then
      if |s| < 2 then None
      else
        var ch := if s[1] == 'n' then '\n' else s[1];
        match ParseStr(s[2..])
        case Some((t, rest)) => Some(([ch] + t, rest))
        case None => None
    else
      match ParseStr(s[1..])
      case Some((t, rest)) => Some(([s[0]] + t, rest))
      case None => None
  }

  /** Reads one value and gives what follows it. */
  function ParseValue(s: string): (r: Option<(Json, string)>)
    ensures r.Some? ==> |r.value.1| < |s|
    decreases |s|, 0
  {
    if s == [] then None
    else
      var rest := s[1..];
      if s[0] == 'n' then Some((JNull, rest))
      else if s[0] == 't' then Some((JBool(true), rest))
      else if s[0] == 'f' then Some((JBool(false), rest))
      else if s[0] == 'i' then
        match ParseInt(rest)
        case Some((i, r1)) => Some((JInt(i), r1))
        case None => None
      else if s[0] == 'd' then
        match ParseInt(rest)
        case None => None
        case Some((mantissa, r1)) =>
          match ParseInt(r1)
          case None => None
          case Some((exponent, r2)) =>
            if mantissa % 2 == 1 || (mantissa, exponent) == (0, 0)
            then Some((JFloat(Finite((mantissa, exponent))), r2))
            else None
      else if s[0] == 'z' then Some((JFloat(NegativeZero), rest))
      else if s[0] == 'P' then Some((JFloat(Infinity), rest))
      else if s[0] == 'M' then Some((JFloat(NegativeInfinity), rest))
      else if s[0] == 'x' then Some((JFloat(NaN), rest))
      else if s[0] == '"' then
        match ParseStr(rest)
        case Some((t, r1)) => Some((JStr(t), r1))
        case None => None
      else if s[0] == '[' then
        match ParseItems(rest)
        case Some((xs, r1)) => Some((JArr(xs), r1))
        case None => None
      else if s[0] == '{' then
        match ParseFields(rest)
        case Some((m, r1)) => Some((JObj(m), r1))
        case None => None
      else None
  }

  /** Reads values up to the closing ']'. */
  function ParseItems(s: string): (r: Option<(seq<Json>, string)>)
    ensures r.Some? ==> |r.value.1| < |s|
    decreases |s|, 1
  {
    if s == [] then None
    else if s[0] == ']' then Some(([], s[1..]))
    else
      match ParseValue(s)
      case None => None
      case Some((x, r1)) =>
        match ParseItems(r1)
        case None => None
        case Some((xs, r2)) => Some(([x] + xs, r2))
  }

  /** Reads key and value pairs up to the closing '}'. A later pair for a
      key already read is overridden by the earlier one. */
  function ParseFields(s: string): (r: Option<(map<string, Json>, string)>)
    ensures r.Some? ==> |r.value.1| < |s|
    decreases |s|, 1
  {
    if s == [] then None
    else if s[0] == '}' then Some((map[], s[1..]))
    else if s[0] == '"' then
      match ParseStr(s[1..])
      case None => None
      case Some((k, r1)) =>
        match ParseValue(r1)
        case None => None
        case Some((v, r2)) =>
          match ParseFields(r2)
          case None => None
          case Some((m, r3)) => Some((m[k := v], r3))
    else None
  }

  /** The decoder: one value and nothing after it. */
  function Load(s: string): Result<Json, string>
  {
    match ParseValue(s)
    case Some((v, rest)) => if rest == "" then Ok(v) else Err("Extra data")
    case None => Err("Expecting value")
  }

  lemma {:induction false} ParseOnesEnc(n: nat, r: string)
    ensures ParseOnes(Ones(n) + ";" + r) == Some((n, r))
  {
    var s := Ones(n) + ";" + r;
    if n == 0 {
      assert s == [';'] + r;
    } else {
      assert s == "1" + (Ones(n - 1) + ";" + r);
      assert s[1..] == Ones(n - 1) + ";" + r;
      ParseOnesEnc(n - 1, r);
    }
  }

  lemma ParseIntEnc(i: int, r: string)
    ensures ParseInt(EncInt(i) + r) == Some((i, r))
  {
    var n: nat := if i >= 0 then i else -i;
    var sign := if i >= 0 then "+" else "-";
    assert EncInt(i) + r == sign + (Ones(n) + ";" + r);
    ParseOnesEnc(n, r);
  }

  lemma {:induction false} ParseStrEnc(t: string, r: string)
    ensures ParseStr(Esc(t) + "\"" + r) == Some((t, r))
    decreases |t|
  {
    var s := Esc(t) + "\"" + r;
    if t == [] {
      assert s == ['"'] + r;
    } else {
      var tail := Esc(t[1..]) + "\"" + r;
      assert s == EscChar(t[0]) + tail;
      ParseStrEnc(t[1..], r);
      assert [t[0]] + t[1..] == t;
      if t[0] == '"' || t[0] == '\\' || t[0] == '\n' {
        assert s[2..] == tail;
      } else {
        assert s[1..] == tail;
      }
    }
  }

  /** What the decoder reads back from the map `m` restricted to `ks`. */
  ghost function Restrict(m: map<string, Json>, ks: seq<string>): map<string, Json>
    requires forall k :: k in ks ==> k in m
  {
    map k | k in ks :: m[k]
  }

  lemma {:induction false} ParseEnc(v: Json, r: string)
    ensures ParseValue(Enc(v) + r) == Some((v, r))
    decreases v, 1, 0
  {
    match v
    case JNull =>
    case JBool(b) =>
    case JInt(i) => ParseIntValueEnc(i, r);
    case JFloat(f) => ParseFloatEnc(f, r);
    case JStr(t) => ParseStrValueEnc(t, r);
    case JArr(xs) => ParseArrEnc(xs, r);
    case JObj(m) => ParseObjEnc(m, r);
  }

  lemma ParseIntValueEnc(i: int, r: string)
    ensures ParseValue(Enc(JInt(i)) + r) == Some((JInt(i), r))
  {
    var s := Enc(JInt(i)) + r;
    assert s == "i" + (EncInt(i) + r);
    assert s[0] == 'i' && s[1..] == EncInt(i) + r;
    ParseIntEnc(i, r);
  }

  lemma ParseFloatEnc(f: Float, r: string)
    ensures ParseValue(Enc(JFloat(f)) + r) == Some((JFloat(f), r))
  {
    var s := Enc(JFloat(f)) + r;
    match f
    case Finite(p) => ParseFiniteEnc(p, r);
    case NegativeZero =>
    case Infinity =>
    case NegativeInfinity =>
    case NaN =>
  }

  lemma ParseFiniteEnc(p: Dyadic, r: string)
    ensures ParseValue(Enc(JFloat(Finite(p))) + r) == Some((JFloat(Finite(p)), r))
  {
    var s := Enc(JFloat(Finite(p))) + r;
    var tail := EncInt(p.0) + (EncInt(p.1) + r);
    assert s == "d" + tail;
    assert s[0] == 'd' && s[1..] == tail;
    ParseIntEnc(p.0, EncInt(p.1) + r);
    ParseIntEnc(p.1, r);
  }

  lemma ParseStrValueEnc(t: string, r: string)
    ensures ParseValue(Enc(JStr(t)) + r) == Some((JStr(t), r))
  {
    var s := Enc(JStr(t)) + r;
    assert s == "\"" + (Esc(t) + "\"" + r);
    assert s[0] == '"' && s[1..] == Esc(t) + "\"" + r;
    ParseStrEnc(t, r);
  }

  lemma {:induction false} ParseArrEnc(xs: seq<Json>, r: string)
    ensures ParseValue(Enc(JArr(xs)) + r) == Some((JArr(xs), r))
    decreases JArr(xs), 0, |xs| + 1
  {
    var s := Enc(JArr(xs)) + r;
    assert s == "[" + (Items(xs, 0) + "]" + r);
    assert s[0] == '[' && s[1..] == Items(xs, 0) + "]" + r;
    ParseItemsEnc(xs, 0, r);
    assert xs[0..] == xs;
  }

  lemma {:induction false} ParseObjEnc(m: map<string, Json>, r: string)
    ensures ParseValue(Enc(JObj(m)) + r) == Some((JObj(m), r))
    decreases JObj(m), 0, |Keys(m)| + 1
  {
    var ks := Keys(m);
    var body := Fields(m, ks) + "}" + r;
    assert Enc(JObj(m)) + r == "{" + body;
    ParseFieldsEnc(m, ks, r);
    RestrictAll(m);
    ObjStep("{" + body, m, r);
  }

  /** `ParseValue` on a '{' reads the fields after it. */
  lemma ObjStep(s: string, m: map<string, Json>, r: string)
    requires |s| > 0 && s[0] == '{' && ParseFields(s[1..]) == Some((m, r))
    ensures ParseValue(s) == Some((JObj(m), r))
  {
  }

  lemma RestrictAll(m: map<string, Json>)
    ensures Restrict(m, Keys(m)) == m
  {
    var ks := Keys(m);
    assert Restrict(m, ks).Keys == m.Keys;
  }

  lemma {:induction false} ParseItemsEnc(xs: seq<Json>, i: nat, r: string)
    requires i <= |xs|
    ensures ParseItems(Items(xs, i) + "]" + r) == Some((xs[i..], r))
    decreases JArr(xs), 0, |xs| - i
  {
    var s := Items(xs, i) + "]" + r;
    if i == |xs| {
      assert s == [']'] + r;
      assert xs[i..] == [];
    } else {
      var tail := Items(xs, i + 1) + "]" + r;
      assert s == Enc(xs[i]) + tail;
      ParseEnc(xs[i], tail);
      ParseItemsEnc(xs, i + 1, r);
      assert Enc(xs[i])[0] != ']' by { FirstChar(xs[i]); }
      assert [xs[i]] + xs[i + 1..] == xs[i..];
    }
  }

  lemma {:induction false} ParseFieldsEnc(m: map<string, Json>, ks: seq<string>, r: string)
    requires forall k :: k in ks ==> k in m
    ensures ParseFields(Fields(m, ks) + "}" + r) == Some((Restrict(m, ks), r))
    decreases JObj(m), 0, |ks|
  {
    if ks == [] {
      var s := Fields(m, ks) + "}" + r;
      assert s == ['}'] + r;
      assert Restrict(m, ks) == map[];
    } else {
      var k := ks[0];
      assert m[k] in m.Values;
      var afterValue := Fields(m, ks[1..]) + "}" + r;
      var afterKey := Enc(m[k]) + afterValue;
      FieldsUnfold(m, ks, r);
      ParseStrEnc(k, afterKey);
      ParseEnc(m[k], afterValue);
      ParseFieldsEnc(m, ks[1..], r);
      FieldsStep(Fields(m, ks) + "}" + r, k, afterKey, m[k], afterValue, Restrict(m, ks[1..]), r);
      RestrictCons(m, ks);
    }
  }

  lemma FieldsUnfold(m: map<string, Json>, ks: seq<string>, r: string)
    requires ks != [] && forall k :: k in ks ==> k in m
    ensures Fields(m, ks) + "}" + r
         == "\"" + (Esc(ks[0]) + "\"" + (Enc(m[ks[0]]) + (Fields(m, ks[1..]) + "}" + r)))
  {
    var key, value, more := Esc(ks[0]), Enc(m[ks[0]]), Fields(m, ks[1..]);
    assert Fields(m, ks) == "\"" + key + "\"" + value + more;
    FieldShape(key, value, more, r);
  }

  lemma FieldShape(key: string, value: string, more: string, r: string)
    ensures ("\"" + key + "\"" + value + more) + "}" + r
         == "\"" + (key + "\"" + (value + (more + "}" + r)))
  {
  }

  /** One key and value pair read by `ParseFields`. */
  lemma FieldsStep(s: string, k: string, afterKey: string, v: Json, afterValue: string,
                   rest: map<string, Json>, r: string)
    requires s == "\"" + (Esc(k) + "\"" + afterKey)
    requires ParseStr(Esc(k) + "\"" + afterKey) == Some((k, afterKey))
    requires ParseValue(afterKey) == Some((v, afterValue))
    requires ParseFields(afterValue) == Some((rest, r))
    ensures ParseFields(s) == Some((rest[k := v], r))
  {
    assert s[0] == '"' && s[1..] == Esc(k) + "\"" + afterKey;
  }

  lemma RestrictCons(m: map<string, Json>, ks: seq<string>)
    requires ks != [] && forall k :: k in ks ==> k in m
    ensures Restrict(m, ks[1..])[ks[0] := m[ks[0]]] == Restrict(m, ks)
  {
    assert forall k :: k in ks <==> k == ks[0] || k in ks[1..];
  }

  /** No encoding starts with the ']' that closes a list. */
  lemma FirstChar(v: Json)
    ensures |Enc(v)| > 0 && Enc(v)[0] != ']'
  {
  }

  /** No encoding holds a raw line break. */
  lemma {:induction false} NoLineBreak(v: Json)
    ensures '\n' !in Enc(v)
    decreases v, 1, 0
  {
    match v
    case JNull =>
    case JBool(b) =>
    case JInt(i) => EncIntNoLineBreak(i);
    case JFloat(f) =>
      match f {
        case Finite(p) => EncIntNoLineBreak(p.0); EncIntNoLineBreak(p.1);
        case NegativeZero =>
        case Infinity =>
        case NegativeInfinity =>
        case NaN =>
      }
    case JStr(t) => EscNoLineBreak(t);
    case JArr(xs) => ItemsNoLineBreak(xs, 0);
    case JObj(m) => FieldsNoLineBreak(m, Keys(m));
  }

  lemma {:induction false} ItemsNoLineBreak(xs: seq<Json>, i: nat)
    requires i <= |xs|
    ensures '\n' !in Items(xs, i)
    decreases JArr(xs), 0, |xs| - i
  {
    if i < |xs| {
      NoLineBreak(xs[i]);
      ItemsNoLineBreak(xs, i + 1);
    }
  }

  lemma {:induction false} FieldsNoLineBreak(m: map<string, Json>, ks: seq<string>)
    requires forall k :: k in ks ==> k in m
    ensures '\n' !in Fields(m, ks)
    decreases JObj(m), 0, |ks|
  {
    if ks != [] {
      assert m[ks[0]] in m.Values;
      EscNoLineBreak(ks[0]);
      NoLineBreak(m[ks[0]]);
      FieldsNoLineBreak(m, ks[1..]);
    }
  }

  lemma EncIntNoLineBreak(i: int)
    ensures '\n' !in EncInt(i)
  {
    OnesNoLineBreak(if i >= 0 then i else -i);
  }

  lemma {:induction false} OnesNoLineBreak(n: nat)
    ensures '\n' !in Ones(n)
  {
    if n > 0 {
      OnesNoLineBreak(n - 1);
    }
  }

  lemma {:induction false} EscNoLineBreak(t: string)
    ensures '\n' !in Esc(t)
    decreases |t|
  {
    if t != [] {
      EscNoLineBreak(t[1..]);
    }
  }

  /** An encoding has no whitespace at either end. */
  lemma EncTrimmed(v: Json)
    ensures Trimmed(Enc(v))
  {
    var e := Enc(v);
    match v
    case JNull =>
    case JBool(b) =>
    case JInt(i) => assert e[|e| - 1] == ';';
    case JFloat(f) =>
      match f {
        case Finite(p) => assert e[|e| - 1] == ';';
        case NegativeZero =>
        case Infinity =>
        case NegativeInfinity =>
        case NaN =>
      }
    case JStr(t) => assert e[|e| - 1] == '"';
    case JArr(xs) => assert e[|e| - 1] == ']';
    case JObj(m) => assert e[|e| - 1] == '}';
  }

  /** The law the model assumes of Python's encoder and decoder can be met:
      this module's pair meets it. */
  lemma ValidCodecSatisfiable()
    ensures exists c :: ValidCodec(c)
  {
    var c := Codec(v => Enc(v), s => Load(s));
    forall v: Json
      ensures RoundTrips(c, v)
    {
      NoLineBreak(v);
      EncTrimmed(v);
      ParseEnc(v, "");
      assert Enc(v) + "" == Enc(v);
    }
    assert ValidCodec(c);
  }
}
