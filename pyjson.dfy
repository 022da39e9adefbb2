/** JSON values as Python's json module decodes them, and the Python
    built-ins the client applies to them: subscripting, truth value,
    dict.get, dict.keys, str() and str.join. */
module PyJson {
  import opened Errors

  /** A decoded JSON document. An object keeps its members in document
      order, as a Python dict keeps insertion order. */
  datatype Json =
    | JNull
    | JBool(b: bool)
    | JNum(n: int)
    | JStr(s: string)
    | JArr(items: seq<Json>)
    | JObj(fields: seq<(string, Json)>)

  /** A Python dict holds each key once. */
  predicate DistinctKeys(fields: seq<(string, Json)>) {
    forall i, j :: 0 <= i < j < |fields| ==> fields[i].0 != fields[j].0
  }

  /** dict.keys(), in insertion order. */
  function Keys(fields: seq<(string, Json)>): seq<string> {
    seq(|fields|, i requires 0 <= i < |fields| => fields[i].0)
  }

  /** Dict lookup: the value stored under key, if any. */
  function Lookup(fields: seq<(string, Json)>, key: string): Option<Json> {
    if |fields| == 0 then None
    else if fields[0].0 == key then Some(fields[0].1)
    else Lookup(fields[1..], key)
  }

  /** A lookup finds exactly the keys dict.keys() lists. */
  lemma {:induction false} LookupFindsKeys(fields: seq<(string, Json)>, key: string)
    ensures Lookup(fields, key).Some? <==> key in Keys(fields)
  {
    if |fields| > 0 {
      LookupFindsKeys(fields[1..], key);
      assert Keys(fields) == [fields[0].0] + Keys(fields[1..]);
    }
  }

  /** In a dict, the lookup of a stored key gives the value stored with it. */
  lemma {:induction false} LookupAt(fields: seq<(string, Json)>, i: nat)
    requires DistinctKeys(fields)
    requires i < |fields|
    ensures Lookup(fields, fields[i].0) == Some(fields[i].1)
  {
    if i > 0 {
      assert DistinctKeys(fields[1..]);
      LookupAt(fields[1..], i - 1);
    }
  }

  /** dict.get(key): the stored value, or None. A key the dict does not
      list gives None; in a dict, a listed key gives the value stored with
      it. */
  function DictGet(fields: seq<(string, Json)>, key: string): (v: Json)
    ensures key !in Keys(fields) ==> v == JNull
    ensures DistinctKeys(fields) ==>
              forall i :: 0 <= i < |fields| && fields[i].0 == key ==> v == fields[i].1
  {
    LookupFindsKeys(fields, key);
    assert DistinctKeys(fields) ==>
             forall i :: 0 <= i < |fields| && fields[i].0 == key ==> Lookup(fields, key) == Some(fields[i].1) by {
      if DistinctKeys(fields) {
        forall i | 0 <= i < |fields| && fields[i].0 == key {
          LookupAt(fields, i);
        }
      }
    }
    match Lookup(fields, key)
    case Some(x) => x
    case None => JNull
  }

  /** What json.loads produces: every dict, at every depth, holds each key
      once (a repeated key in the document keeps only its last value). */
  predicate Decoded(v: Json) {
    match v
    case JArr(items) => forall i :: 0 <= i < |items| ==> Decoded(items[i])
    case JObj(fields) => DistinctKeys(fields) && forall i :: 0 <= i < |fields| ==> Decoded(fields[i].1)
    case _ => true
  }

  /** A list holds no value twice. */
  predicate NoDuplicates(s: seq<string>) {
    forall i, j :: 0 <= i < j < |s| ==> s[i] != s[j]
  }

  /** Python's truth value: None, False, 0 and empty strings, lists and
      dicts are false; everything else is true. */
  predicate Truthy(v: Json) {
    match v
    case JNull => false
    case JBool(b) => b
    case JNum(n) => n != 0
    case JStr(s) => s != ""
    case JArr(items) => items != []
    case JObj(fields) => fields != []
  }

  /** The subscript the client applies: an integer index or a string key. */
  datatype Key = Index(i: nat) | Name(name: string)

  /** Python's v[k]. A dict looks the key up (a JSON dict has no integer
      keys); a list or a string is indexed by integers only; a string's
      element is a one-character string; None, booleans and numbers cannot
      be subscripted at all. */
  function Subscript(v: Json, k: Key): (r: PyResult<Json>)
    ensures r.Raise? ==> r.exc == KeyError || r.exc == IndexError || r.exc == TypeError
    ensures r == Raise(KeyError) <==> v.JObj? && (k.Index? || Lookup(v.fields, k.name).None?)
    ensures v.JObj? && k.Name? && r.Ok? ==> Lookup(v.fields, k.name) == Some(r.value)
    ensures v.JObj? && k.Name? && Lookup(v.fields, k.name).Some? ==> r == Ok(Lookup(v.fields, k.name).value)
    ensures r == Raise(IndexError) <==>
              k.Index? && ((v.JArr? && k.i >= |v.items|) || (v.JStr? && k.i >= |v.s|))
    ensures r == Raise(TypeError) <==> !v.JObj? && !(v.JArr? && k.Index?) && !(v.JStr? && k.Index?)
    ensures v.JArr? && k.Index? ==>
              r == if k.i < |v.items| then Ok(v.items[k.i]) else Raise(IndexError)
    ensures v.JStr? && k.Index? ==>
              r == if k.i < |v.s| then Ok(JStr([v.s[k.i]])) else Raise(IndexError)
  {
    match v
    case JObj(fields) =>
      if k.Index? then Raise(KeyError)
      else (match Lookup(fields, k.name)
            case Some(x) => Ok(x)
            case None => Raise(KeyError))
    case JArr(items) =>
      if k.Name? then Raise(TypeError)
      else if k.i < |items| then Ok(items[k.i])
      else Raise(IndexError)
    case JStr(s) =>
      if k.Name? then Raise(TypeError)
      else if k.i < |s| then Ok(JStr([s[k.i]]))
      else Raise(IndexError)
    case _ => Raise(TypeError)
  }

  /** sep.join(parts). */
  function Join(parts: seq<string>, sep: string): string {
    if |parts| == 0 then ""
    else if |parts| == 1 then parts[0]
    else parts[0] + sep + Join(parts[1..], sep)
  }

  /** str.split with a one-character separator: the pieces between the
      separators, from left to right. */
  function Split(s: string, sep: char): (r: seq<string>)
    ensures |r| > 0
    decreases |s|
  {
    if |s| == 0 then [""]
    else
      var rest := Split(s[1..], sep);
      if s[0] == sep then [""] + rest
      else [[s[0]] + rest[0]] + rest[1..]
  }

  lemma {:induction false} SplitWithoutSeparator(p: string, sep: char)
    requires sep !in p
    ensures Split(p, sep) == [p]
    decreases |p|
  {
    if |p| > 0 {
      SplitWithoutSeparator(p[1..], sep);
      assert [p[0]] + p[1..] == p;
    }
  }

  lemma {:induction false} SplitAfterFirst(p: string, t: string, sep: char)
    requires sep !in p
    ensures Split(p + [sep] + t, sep) == [p] + Split(t, sep)
    decreases |p|
  {
    var s := p + [sep] + t;
    if |p| == 0 {
      assert s[1..] == t;
    } else {
      assert s[1..] == p[1..] + [sep] + t;
      SplitAfterFirst(p[1..], t, sep);
      assert [p[0]] + p[1..] == p;
    }
  }

  /** Splitting a join at its separator gives the parts back, when no part
      contains the separator. */
  lemma {:induction false} SplitJoin(parts: seq<string>, sep: char)
    requires |parts| > 0
    requires forall p :: p in parts ==> sep !in p
    ensures Split(Join(parts, [sep]), sep) == parts
  {
    if |parts| == 1 {
      SplitWithoutSeparator(parts[0], sep);
    } else {
      SplitAfterFirst(parts[0], Join(parts[1..], [sep]), sep);
      SplitJoin(parts[1..], sep);
    }
  }

  predicate IsDigit(c: char) {
    '0' <= c <= '9'
  }

  /** Reference reading: the number a string of decimal digits denotes,
      most significant digit first. */
  function DecimalValue(s: string): int {
    if |s| == 0 then 0
    else DecimalValue(s[..|s| - 1]) * 10 + (s[|s| - 1] as int - '0' as int)
  }

  /** The decimal digits of n, as str() writes them: digits only, no
      leading zero, reading back as n. */
  function NatStr(n: nat): (s: string)
    ensures |s| > 0 && forall i :: 0 <= i < |s| ==> IsDigit(s[i])
    ensures |s| == 1 <==> n < 10
    ensures |s| > 1 ==> s[0] != '0'
    ensures DecimalValue(s) == n
  {
    var d := ['0' + (n % 10) as char];
    if n < 10 then
      d
    else
      var t := NatStr(n / 10);
      assert (t + d)[..|t + d| - 1] == t;
      t + d
  }

  /** str(n) for an integer. */
  function IntStr(n: int): string {
    if n < 0 then "-" + NatStr(-n) else NatStr(n)
  }

  /** repr() of a value, as str() shows the members of a list or a dict. */
  function Repr(v: Json): string {
    match v
    case JNull => "None"
    case JBool(b) => if b then "True" else "False"
    case JNum(n) => IntStr(n)
    case JStr(s) => "'" + s + "'"
    case JArr(items) =>
      "[" + Join(seq(|items|, i requires 0 <= i < |items| => Repr(items[i])), ", ") + "]"
    case JObj(fields) =>
      "{" + Join(seq(|fields|, i requires 0 <= i < |fields| =>
                       "'" + fields[i].0 + "': " + Repr(fields[i].1)), ", ") + "}"
  }

  /** str(v), which str.format applies to each argument: a string is
      itself, every other value is shown as repr() shows it. */
  function Str(v: Json): string
  {
    if v.JStr? then v.s else Repr(v)
  }

  /** The str check of str.join: an argument that is not a string is a
      TypeError. */
  function AsStr(v: Json): PyResult<string>
  {
    if v.JStr? then Ok(v.s) else Raise(TypeError)
  }
}
