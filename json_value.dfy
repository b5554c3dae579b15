/**
 * The parsed bundle as the Python code sees it after `json.load`: a tree of dicts,
 * lists, strings, numbers, booleans and `None`, together with the dynamically typed
 * operations the extractor applies to it (`.get`, `[key]`, `[0]`, iteration, `in`,
 * truthiness, `sep.join`). Each operation fails exactly where Python raises.
 */
module JsonValue {
  import opened Wrappers
  import opened Text

  datatype Json =
    | JNull
    | JBool(b: bool)
    | JInt(i: int)
    /** A non-integral number, `mantissa * 10^exponent`. Nothing here computes with it. */
    | JNum(mantissa: int, exponent: int)
    | JStr(s: string)
    | JArr(items: seq<Json>)
    /** The members of an object in the order the document lists them. */
    | JObj(members: seq<(string, Json)>)

  /** The exception a Python operation raises on a value of the wrong shape, and the
      one restriction of this model (`NotText`: a field the code reads as text holds a
      JSON value that is not a string). */
  datatype Fault =
    | AttributeError
    | KeyError
    | IndexError
    | TypeError
    | NotText

  type Outcome<T> = Result<T, Fault>

  /** The value bound to `key`; a later duplicate member wins, as it does in the
      dict `json.load` builds. */
  function Lookup(ms: seq<(string, Json)>, key: string): Option<Json> {
    if ms == [] then None
    else if ms[|ms| - 1].0 == key then Some(ms[|ms| - 1].1)
    else Lookup(ms[..|ms| - 1], key)
  }

  /** `Lookup` finds nothing exactly when no member has the key, and otherwise the
      value of the last member that has it. */
  lemma {:induction false} LookupSpec(ms: seq<(string, Json)>, key: string)
    ensures Lookup(ms, key).None? <==> forall i :: 0 <= i < |ms| ==> ms[i].0 != key
    ensures Lookup(ms, key).Some? ==>
              exists i :: 0 <= i < |ms| && ms[i] == (key, Lookup(ms, key).value)
                          && forall j :: i < j < |ms| ==> ms[j].0 != key
  {
    if ms != [] && ms[|ms| - 1].0 != key {
      LookupSpec(ms[..|ms| - 1], key);
    }
  }

  /** The keys of the dict built from `ms`, in insertion order (first occurrence). */
  function Keys(ms: seq<(string, Json)>): (r: seq<string>)
    ensures forall k :: k in r <==> exists i :: 0 <= i < |ms| && ms[i].0 == k
    ensures forall i, j :: 0 <= i < j < |r| ==> r[i] != r[j]
  {
    if ms == [] then []
    else
      var r := Keys(ms[..|ms| - 1]);
      if ms[|ms| - 1].0 in r then r else r + [ms[|ms| - 1].0]
  }

  /** `v.get(key, default)`. */
  function Get(v: Json, key: string, default: Json): Outcome<Json> {
    match v
    case JObj(ms) => Success(Lookup(ms, key).GetOr(default))
    case _ => Failure(AttributeError)
  }

  /** `v[key]` with a string key. */
  function Item(v: Json, key: string): Outcome<Json> {
    match v
    case JObj(ms) =>
      (match Lookup(ms, key)
       case Some(x) => Success(x)
       case None => Failure(KeyError))
    case _ => Failure(TypeError)
  }

  /** `v[0]`. */
  function First(v: Json): Outcome<Json> {
    match v
    case JArr(xs) => if xs == [] then Failure(IndexError) else Success(xs[0])
    case JStr(s) => if s == [] then Failure(IndexError) else Success(JStr([s[0]]))
    case JObj(_) => Failure(KeyError)
    case _ => Failure(TypeError)
  }

  /** The values `for x in v` visits: list items, one-character strings, or dict keys. */
  function Iter(v: Json): Outcome<seq<Json>> {
    match v
    case JArr(xs) => Success(xs)
    case JStr(s) => Success(seq(|s|, i requires 0 <= i < |s| => JStr([s[i]])))
    case JObj(ms) =>
      var ks := Keys(ms);
      Success(seq(|ks|, i requires 0 <= i < |ks| => JStr(ks[i])))
    case _ => Failure(TypeError)
  }

  /** `key in v` for a string `key`. */
  function In(key: string, v: Json): Outcome<bool> {
    match v
    case JObj(ms) => Success(Lookup(ms, key).Some?)
    case JArr(xs) => Success(JStr(key) in xs)
    case JStr(s) => Success(Contains(s, key))
    case _ => Failure(TypeError)
  }

  /** Python truthiness (`if v:`, `v or w`). */
  predicate Truthy(v: Json) {
    match v
    case JNull => false
    case JBool(b) => b
    case JInt(i) => i != 0
    case JNum(m, _) => m != 0
    case JStr(s) => s != []
    case JArr(xs) => xs != []
    case JObj(ms) => ms != []
  }

  function AsText(v: Json): Outcome<string> {
    if v.JStr? then Success(v.s) else Failure(NotText)
  }

  /** `v.get(key, default)` where the code uses the result as text. */
  function GetText(v: Json, key: string, default: string): Outcome<string> {
    var x :- Get(v, key, JStr(default));
    AsText(x)
  }

  /** `v.get(key)` where the code keeps an optional text (`None` when absent or null). */
  function GetOptText(v: Json, key: string): Outcome<Option<string>> {
    var x :- Get(v, key, JNull);
    match x
    case JNull => Success(None)
    case JStr(s) => Success(Some(s))
    case _ => Failure(NotText)
  }

  /** `v.get(key)` where the code keeps an optional integer. */
  function GetOptInt(v: Json, key: string): Outcome<Option<int>> {
    var x :- Get(v, key, JNull);
    match x
    case JNull => Success(None)
    case JInt(i) => Success(Some(i))
    case _ => Failure(NotText)
  }

  /** `sep.join(v)`: every visited item must be a string. */
  function JoinText(v: Json, sep: string): Outcome<string> {
    var xs :- Iter(v);
    if forall i :: 0 <= i < |xs| ==> xs[i].JStr? then
      Success(Join(seq(|xs|, i requires 0 <= i < |xs| => xs[i].s), sep))
    else
      Failure(TypeError)
  }

  /** `v.get(key, {}).get(inner, '')` used as text. */
  function NestedText(v: Json, key: string, inner: string): Outcome<string> {
    var x :- Get(v, key, JObj([]));
    GetText(x, inner, "")
  }

  /** A one-member dict binds exactly its one key. */
  lemma LookupSingle(k: string, v: Json)
    ensures forall key :: Lookup([(k, v)], key) == if key == k then Some(v) else None
  {
    assert [(k, v)][..0] == [];
  }

  /** An absent key reads as its default, whatever the rest of the dict holds. */
  lemma GetAbsent(ms: seq<(string, Json)>, key: string, default: Json)
    requires forall i :: 0 <= i < |ms| ==> ms[i].0 != key
    ensures Get(JObj(ms), key, default) == Success(default)
  {
    LookupSpec(ms, key);
  }

  /** A member added at the end overrides every earlier binding of its key. */
  lemma {:induction false} LookupLastWins(ms: seq<(string, Json)>, key: string, v: Json)
    ensures Lookup(ms + [(key, v)], key) == Some(v)
    ensures forall k :: k != key ==> Lookup(ms + [(key, v)], k) == Lookup(ms, k)
  {
    assert (ms + [(key, v)])[..|ms|] == ms;
  }
}
