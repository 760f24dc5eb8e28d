/**
  The decoded JSON snapshot and the few Python operations the integration
  applies to it: truthiness, `d[key]`, `d.get(key, default)`, iteration,
  `str(x)` (as used by f-strings), `float(x)` and hashability.
  Python's `None` is `Null`; a raised exception is an `Err` of `PyError`.
*/
module Python {
  import opened Wrappers

  /** A value produced by `json.loads`. Numbers are integers in this model. */
  datatype Json =
    | Null
    | Bool(b: bool)
    | Num(n: int)
    | Str(s: string)
    | List(items: seq<Json>)
    | Object(fields: seq<Member>)

  /** One key/value pair of a decoded JSON object, in document order. */
  datatype Member = Member(key: string, value: Json)

  /** The Python exceptions the modelled code can raise or catch. */
  datatype PyError =
    | HttpError(status: int)      // aiohttp.ClientResponseError from raise_for_status
    | ConnectionError             // any transport failure that carries no HTTP status
    | KeyError(key: string)
    | TypeError
    | AttributeError
    | StopIteration
    | ValueError
    | UpdateFailed(cause: PyError) // the coordinator's wrapper, `raise UpdateFailed(e) from e`

  /** Python's `bool(x)`: None, False, 0, "", [] and {} are falsy. */
  predicate Truthy(j: Json) {
    match j
    case Null => false
    case Bool(b) => b
    case Num(n) => n != 0
    case Str(s) => s != ""
    case List(items) => items != []
    case Object(fields) => fields != []
  }

  /** The value stored under `key`: the first member with that key. */
  function Lookup(fields: seq<Member>, key: string): (r: Option<Json>)
    ensures r.None? <==> forall i :: 0 <= i < |fields| ==> fields[i].key != key
    ensures r.Some? ==>
      exists i :: 0 <= i < |fields| && fields[i] == Member(key, r.value) &&
                  forall k :: 0 <= k < i ==> fields[k].key != key
  {
    if fields == [] then None
    else if fields[0].key == key then Some(fields[0].value)
    else
      var r := Lookup(fields[1..], key);
      assert forall i :: 1 <= i < |fields| ==> fields[i] == fields[1..][i - 1];
      r
  }

  /** `j[key]`: KeyError when a dict lacks the key, TypeError on anything but a dict. */
  function Subscript(j: Json, key: string): (r: Result<Json, PyError>)
    ensures r.Ok? <==> j.Object? && Lookup(j.fields, key).Some?
    ensures r.Ok? ==> r.value == Lookup(j.fields, key).value
    ensures r.Err? ==> r.error == if j.Object? then KeyError(key) else TypeError
  {
    match j
    case Object(fields) =>
      (match Lookup(fields, key)
       case Some(v) => Ok(v)
       case None => Err(KeyError(key)))
    case _ => Err(TypeError)
  }

  /** `j.get(key, default)`: only dicts have a `get` method. */
  function Get(j: Json, key: string, default: Json): (r: Result<Json, PyError>)
    ensures r.Ok? <==> j.Object?
    ensures r.Err? ==> r.error == AttributeError
    ensures j.Object? && Lookup(j.fields, key).Some? ==> r == Ok(Lookup(j.fields, key).value)
    ensures j.Object? && Lookup(j.fields, key).None? ==> r == Ok(default)
  {
    match j
    case Object(fields) =>
      (match Lookup(fields, key)
       case Some(v) => Ok(v)
       case None => Ok(default))
    case _ => Err(AttributeError)
  }

  /** The members of `a + b` under `key`: those of `a` shadow those of `b`. */
  lemma {:induction false} LookupAppend(a: seq<Member>, b: seq<Member>, key: string)
    ensures Lookup(a + b, key) == if Lookup(a, key).Some? then Lookup(a, key) else Lookup(b, key)
    decreases |a|
  {
    if a != [] {
      assert (a + b)[0] == a[0];
      assert (a + b)[1..] == a[1..] + b;
      LookupAppend(a[1..], b, key);
    } else {
      assert a + b == b;
    }
  }

  /** `d.get(key, default)` once `d` is known to be a dict. */
  function GetOr(fields: seq<Member>, key: string, default: Json): (r: Json)
    ensures Get(Object(fields), key, default) == Ok(r)
  {
    match Lookup(fields, key)
    case Some(v) => v
    case None => default
  }

  /** The keys of a dict, in order, as the strings iteration yields. */
  function Keys(fields: seq<Member>): (r: seq<Json>)
    ensures |r| == |fields|
    ensures forall i :: 0 <= i < |fields| ==> r[i] == Str(fields[i].key)
  {
    if fields == [] then [] else [Str(fields[0].key)] + Keys(fields[1..])
  }

  /** The one-character strings a `for` loop over a string yields. */
  function Chars(s: string): (r: seq<Json>)
    ensures |r| == |s|
    ensures forall i :: 0 <= i < |s| ==> r[i] == Str([s[i]])
  {
    if s == [] then [] else [Str([s[0]])] + Chars(s[1..])
  }

  /** What `for x in j` iterates over: list items, dict keys or characters. */
  function Iter(j: Json): (r: Result<seq<Json>, PyError>)
    ensures j.List? ==> r == Ok(j.items)
    ensures r.Err? <==> j.Null? || j.Bool? || j.Num?
  {
    match j
    case List(items) => Ok(items)
    case Object(fields) => Ok(Keys(fields))
    case Str(s) => Ok(Chars(s))
    case _ => Err(TypeError)
  }

  /** Whether `hash(j)` succeeds: lists and dicts are unhashable. */
  predicate Hashable(j: Json) {
    !j.List? && !j.Object?
  }

  // ---------------------------------------------------------------- decimal text

  predicate IsDigits(s: string) {
    |s| > 0 && forall i :: 0 <= i < |s| ==> '0' <= s[i] <= '9'
  }

  function DigitChar(d: nat): (c: char)
    requires d < 10
    ensures '0' <= c <= '9'
  {
    ('0' as int + d) as char
  }

  function DigitValue(c: char): (d: nat)
    requires '0' <= c <= '9'
    ensures d < 10 && DigitChar(d) == c
  {
    c as int - '0' as int
  }

  /** The decimal digits of `n`, most significant first, without leading zeros. */
  function NatToDecimal(n: nat): (s: string)
    ensures IsDigits(s)
    ensures s[0] == '0' ==> n == 0
    decreases n
  {
    if n < 10 then [DigitChar(n)] else NatToDecimal(n / 10) + [DigitChar(n % 10)]
  }

  /** The value of a string of decimal digits. */
  function ParseNat(s: string): nat
    requires IsDigits(s)
    decreases |s|
  {
    if |s| == 1 then DigitValue(s[0])
    else 10 * ParseNat(s[..|s| - 1]) + DigitValue(s[|s| - 1])
  }

  /** `str(n)` for an integer. */
  function IntToDecimal(i: int): string {
    if i < 0 then "-" + NatToDecimal(-i) else NatToDecimal(i)
  }

  /** An optionally negated run of decimal digits, the part of `float(s)` this model keeps. */
  function ParseInt(s: string): Option<int> {
    if |s| > 1 && s[0] == '-' && IsDigits(s[1..]) then Some(-(ParseNat(s[1..]) as int))
    else if IsDigits(s) then Some(ParseNat(s))
    else None
  }

  lemma {:induction false} ParseNatRoundTrip(n: nat)
    ensures ParseNat(NatToDecimal(n)) == n
    decreases n
  {
    if n >= 10 {
      var s := NatToDecimal(n);
      ParseNatRoundTrip(n / 10);
      assert s[..|s| - 1] == NatToDecimal(n / 10);
      assert DigitValue(s[|s| - 1]) == n % 10;
    }
  }

  /** Reading back what `str` printed gives the integer again. */
  lemma ParseIntRoundTrip(i: int)
    ensures ParseInt(IntToDecimal(i)) == Some(i)
  {
    if i < 0 {
      var s := IntToDecimal(i);
      assert s[1..] == NatToDecimal(-i);
      ParseNatRoundTrip(-i);
    } else {
      ParseNatRoundTrip(i);
    }
  }

  // ---------------------------------------------------------------- str() and repr()

  /** `str(j)`, which is what an f-string inserts. */
  function Display(j: Json): string {
    if j.Str? then j.s else Repr(j)
  }

  /** `repr(j)`; strings are quoted but escapes are not modelled. */
  function Repr(j: Json): string
    decreases j, 1
  {
    match j
    case Null => "None"
    case Bool(b) => if b then "True" else "False"
    case Num(n) => IntToDecimal(n)
    case Str(s) => "'" + s + "'"
    case List(items) => "[" + ReprItems(items) + "]"
    case Object(fields) => "{" + ReprMembers(fields) + "}"
  }

  function ReprItems(items: seq<Json>): string
    decreases items
  {
    if items == [] then ""
    else if |items| == 1 then Repr(items[0])
    else Repr(items[0]) + ", " + ReprItems(items[1..])
  }

  function ReprMembers(fields: seq<Member>): string
    decreases fields
  {
    if fields == [] then ""
    else
      var entry := "'" + fields[0].key + "': " + Repr(fields[0].value);
      if |fields| == 1 then entry else entry + ", " + ReprMembers(fields[1..])
  }

  /** `", ".join(parts)`: every part must be a string. */
  function Join(sep: string, parts: seq<Json>): (r: Result<string, PyError>)
    ensures r.Ok? <==> forall i :: 0 <= i < |parts| ==> parts[i].Str?
    ensures r.Err? ==> r.error == TypeError
    ensures |parts| == 1 && parts[0].Str? ==> r == Ok(parts[0].s)
    ensures r.Ok? && |parts| > 0 ==> |r.value| >= |parts[0].s|
  {
    if parts == [] then Ok("")
    else if !parts[0].Str? then Err(TypeError)
    else if |parts| == 1 then Ok(parts[0].s)
    else
      match Join(sep, parts[1..])
      case Ok(rest) => Ok(parts[0].s + sep + rest)
      case Err(e) => Err(e)
  }

  /** Joining one more string part appends the separator and that part: the text for two or more parts. */
  lemma {:induction false} JoinSnoc(sep: string, parts: seq<Json>, s: string)
    requires |parts| > 0 && Join(sep, parts).Ok?
    ensures Join(sep, parts + [Str(s)]) == Ok(Join(sep, parts).value + sep + s)
    decreases |parts|
  {
    var all := parts + [Str(s)];
    assert all[0] == parts[0];
    if |parts| == 1 {
      assert all[1..] == [Str(s)];
    } else {
      assert all[1..] == parts[1..] + [Str(s)];
      JoinSnoc(sep, parts[1..], s);
      var rest := Join(sep, parts[1..]).value;
      assert parts[0].s + sep + (rest + sep + s) == (parts[0].s + sep + rest) + sep + s;
    }
  }

  // ---------------------------------------------------------------- float()

  /** `float(j)`, numbers kept as integers. */
  function ToFloat(j: Json): (r: Result<int, PyError>)
    ensures j.Num? ==> r == Ok(j.n)
    ensures j.Null? || j.List? || j.Object? ==> r == Err(TypeError)
    ensures r.Err? ==> r.error == TypeError || r.error == ValueError
  {
    match j
    case Num(n) => Ok(n)
    case Bool(b) => Ok(if b then 1 else 0)
    case Str(s) =>
      (match ParseInt(s)
       case Some(n) => Ok(n)
       case None => Err(ValueError))
    case _ => Err(TypeError)
  }

  /** `float(str(n)) == n`: a number sent as its decimal text reads back unchanged. */
  lemma FloatOfDisplayedNumber(n: int)
    ensures ToFloat(Str(Display(Num(n)))) == Ok(n)
  {
    ParseIntRoundTrip(n);
  }
}
