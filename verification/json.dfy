/** The values the tool keeps in Python dicts and lists, and the few Python operations on
    them that can fail (`d[k]`, `int(x)`, `x > n`, `for x in v`). */
module Json {
  import opened Wrappers
  import opened Text

  /** A JSON-like Python value; floats are not modelled. */
  datatype Json =
    | JNull
    | JBool(b: bool)
    | JInt(i: int)
    | JStr(s: string)
    | JList(items: seq<Json>)
    | JObj(fields: Dict)

  /** A Python dict: its entries in insertion order, one entry per key. */
  type Dict = seq<(string, Json)>

  /** The built-in Python exceptions the core can raise. */
  datatype Fault =
    | KeyMissing(key: string)       // KeyError
    | NotSubscriptable              // TypeError: indexing a value that is not a dict
    | NotIterable                   // TypeError: iterating over a number, a bool or None
    | NotComparable                 // TypeError: '>' between a non-number and a number
    | BadIntLiteral(text: string)   // ValueError from int() on a string
    | BadIntArgument                // TypeError from int() on a list, dict or None
    | IndexOutOfRange               // IndexError
    | NotJson                       // json.JSONDecodeError
    | NoItems                       // AttributeError: .items() on a value that is not a dict
    | NegativeSleep                 // ValueError from time.sleep with a negative length
    | NoSectionFound(section: string) // configparser.NoSectionError

  function Keys(d: Dict): seq<string> {
    seq(|d|, i requires 0 <= i < |d| => d[i].0)
  }

  /** `d.get(k)`. */
  function Get(d: Dict, k: string): Option<Json> {
    if d == [] then None else if d[0].0 == k then Some(d[0].1) else Get(d[1..], k)
  }

  /** `k in d`. */
  predicate Has(d: Dict, k: string) {
    Get(d, k).Some?
  }

  /** `d[k] = v`: replaces the value in place when `k` is present, appends otherwise. */
  function Set(d: Dict, k: string, v: Json): Dict {
    if d == [] then [(k, v)]
    else if d[0].0 == k then [(k, v)] + d[1..]
    else [d[0]] + Set(d[1..], k, v)
  }

  /** `del d[k]` (removing nothing when `k` is absent). */
  function Del(d: Dict, k: string): Dict {
    if d == [] then []
    else if d[0].0 == k then Del(d[1..], k)
    else [d[0]] + Del(d[1..], k)
  }

  lemma {:induction false} GetNone(d: Dict, k: string)
    ensures Get(d, k).None? <==> k !in Keys(d)
  {
    if d != [] {
      GetNone(d[1..], k);
      assert Keys(d) == [d[0].0] + Keys(d[1..]);
    }
  }

  /** A lookup finds the entry at index `i` when no earlier entry has its key. */
  lemma {:induction false} GetAt(d: Dict, i: nat)
    requires i < |d|
    requires forall j :: 0 <= j < i ==> d[j].0 != d[i].0
    ensures Get(d, d[i].0) == Some(d[i].1)
  {
    if i > 0 {
      GetAt(d[1..], i - 1);
    }
  }

  /** After `d[k] = v`, key `k` holds `v` and every other key is as before. */
  lemma {:induction false} GetSet(d: Dict, k: string, v: Json, k': string)
    ensures Get(Set(d, k, v), k') == if k' == k then Some(v) else Get(d, k')
  {
    if d != [] && d[0].0 != k {
      GetSet(d[1..], k, v, k');
    }
  }

  /** Setting an absent key appends it, so earlier keys keep their order. */
  lemma {:induction false} SetAbsent(d: Dict, k: string, v: Json)
    requires !Has(d, k)
    ensures Set(d, k, v) == d + [(k, v)]
  {
    if d != [] {
      SetAbsent(d[1..], k, v);
      assert d == [d[0]] + d[1..];
    }
  }

  /** Setting a present key replaces its entry where it stands. */
  lemma {:induction false} SetPresent(d: Dict, i: nat, v: Json)
    requires i < |d|
    requires forall j :: 0 <= j < i ==> d[j].0 != d[i].0
    ensures Set(d, d[i].0, v) == d[..i] + [(d[i].0, v)] + d[i + 1..]
  {
    if i > 0 {
      SetPresent(d[1..], i - 1, v);
      assert d[1..][..i - 1] == d[1..i];
      assert d[..i] == [d[0]] + d[1..i];
    }
  }

  /** After `del d[k]`, key `k` is absent and every other key is as before. */
  lemma {:induction false} GetDel(d: Dict, k: string, k': string)
    ensures Get(Del(d, k), k') == if k' == k then None else Get(d, k')
  {
    if d != [] {
      GetDel(d[1..], k, k');
    }
  }

  /** Deleting a key that occurs once removes exactly its entry. */
  lemma {:induction false} DelPresent(d: Dict, i: nat)
    requires i < |d|
    requires forall j :: 0 <= j < |d| && j != i ==> d[j].0 != d[i].0
    ensures Del(d, d[i].0) == d[..i] + d[i + 1..]
  {
    if i > 0 {
      DelPresent(d[1..], i - 1);
      assert d[1..][..i - 1] == d[1..i];
      assert d[..i] == [d[0]] + d[1..i];
    } else {
      DelAbsent(d[1..], d[0].0);
    }
  }

  lemma {:induction false} DelAbsent(d: Dict, k: string)
    requires forall j :: 0 <= j < |d| ==> d[j].0 != k
    ensures Del(d, k) == d
  {
    if d != [] {
      DelAbsent(d[1..], k);
      assert d == [d[0]] + d[1..];
    }
  }

  /** Setting the key of the last entry, when no other entry has it, replaces that entry. */
  lemma {:induction false} SetLast(d: Dict, k: string, v0: Json, v: Json)
    requires forall j :: 0 <= j < |d| ==> d[j].0 != k
    ensures Set(d + [(k, v0)], k, v) == d + [(k, v)]
  {
    if d != [] {
      SetLast(d[1..], k, v0, v);
      assert (d + [(k, v0)])[1..] == d[1..] + [(k, v0)];
      assert d + [(k, v)] == [d[0]] + (d[1..] + [(k, v)]);
    }
  }

  /** Deleting the key of the last entry, when no other entry has it, drops that entry. */
  lemma {:induction false} DelLast(d: Dict, k: string, v0: Json)
    requires forall j :: 0 <= j < |d| ==> d[j].0 != k
    ensures Del(d + [(k, v0)], k) == d
  {
    if d != [] {
      DelLast(d[1..], k, v0);
      assert (d + [(k, v0)])[1..] == d[1..] + [(k, v0)];
      assert d == [d[0]] + d[1..];
    } else {
      assert [(k, v0)][1..] == [];
    }
  }

  /** A key of a concatenation is looked up in the first part, then in the second. */
  lemma {:induction false} GetAppend(a: Dict, b: Dict, k: string)
    ensures Get(a + b, k) == if Has(a, k) then Get(a, k) else Get(b, k)
  {
    if a != [] {
      GetAppend(a[1..], b, k);
      assert (a + b)[1..] == a[1..] + b;
    } else {
      assert a + b == b;
    }
  }

  /** `v[k]` for a string key. */
  function Subscript(v: Json, k: string): (r: Result<Json, Fault>)
    ensures r.Success? <==> v.JObj? && Has(v.fields, k)
    ensures r.Success? ==> Get(v.fields, k) == Some(r.value)
    ensures r.Failure? && v.JObj? ==> r.error == KeyMissing(k)
  {
    match v
    case JObj(fields) =>
      (match Get(fields, k)
       case Some(x) => Success(x)
       case None => Failure(KeyMissing(k)))
    case _ => Failure(NotSubscriptable)
  }

  /** Python's `int(v)`. */
  function ToInt(v: Json): (r: Result<int, Fault>)
    ensures v.JInt? ==> r == Success(v.i)
    ensures v.JStr? ==> (r.Success? <==> ParseInt(v.s).Some?)
  {
    match v
    case JInt(i) => Success(i)
    case JBool(b) => Success(if b then 1 else 0)
    case JStr(s) => (match ParseInt(s) case Some(n) => Success(n) case None => Failure(BadIntLiteral(s)))
    case _ => Failure(BadIntArgument)
  }

  /** Python's `v > n` for an integer `n`. */
  function GreaterThan(v: Json, n: int): Result<bool, Fault> {
    match v
    case JInt(i) => Success(i > n)
    case JBool(b) => Success((if b then 1 else 0) > n)
    case _ => Failure(NotComparable)
  }

  /** The elements `for x in v` visits. */
  function Iterate(v: Json): Result<seq<Json>, Fault> {
    match v
    case JList(items) => Success(items)
    case JStr(s) => Success(seq(|s|, i requires 0 <= i < |s| => JStr([s[i]])))
    case JObj(fields) => Success(seq(|fields|, i requires 0 <= i < |fields| => JStr(fields[i].0)))
    case _ => Failure(NotIterable)
  }

  /** Python's `repr(v)`; strings are quoted with `'` and not escaped. */
  function Repr(v: Json): string {
    match v
    case JNull => "None"
    case JBool(b) => if b then "True" else "False"
    case JInt(i) => IntToString(i)
    case JStr(s) => "'" + s + "'"
    case JList(items) =>
      "[" + Join(seq(|items|, i requires 0 <= i < |items| => Repr(items[i])), ", ") + "]"
    case JObj(fields) =>
      "{" + Join(seq(|fields|, i requires 0 <= i < |fields| =>
                     "'" + fields[i].0 + "': " + Repr(fields[i].1)), ", ") + "}"
  }

  /** Python's `str(v)` (and `"{}".format(v)`): a string is itself, anything else its repr. */
  function Str(v: Json): string {
    if v.JStr? then v.s else Repr(v)
  }
}
