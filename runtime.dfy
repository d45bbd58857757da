/** The Python values the library's core works on: optional values, JSON
    documents as `json` decodes and encodes them, the part of a `requests`
    Response that the core reads, the exceptions it raises, and the
    evaluation of a list comprehension. */
module Runtime {
  import opened Text

  datatype Option<+T> = None | Some(value: T)

  /** A JSON value. Python's `None` is `JNull`; an object keeps its members
      in insertion order, as a Python `dict` does. Floating-point numbers are
      not modelled. */
  datatype Json =
    | JNull
    | JBool(b: bool)
    | JInt(i: int)
    | JString(s: string)
    | JArray(items: seq<Json>)
    | JObject(members: seq<(string, Json)>)

  /** The keys of an object (empty for any other value). */
  function Keys(j: Json): set<string> {
    if j.JObject? then set m | m in j.members :: m.0 else {}
  }

  /** `k` is bound to `v` in the object `j`. */
  predicate HasField(j: Json, k: string, v: Json) {
    j.JObject? && (k, v) in j.members
  }

  /** A bound key is a key of the object. */
  lemma FieldIsKey(j: Json, k: string, v: Json)
    requires HasField(j, k, v)
    ensures k in Keys(j)
  {
    assert (k, v) in j.members;
  }

  /** The strings of names, as a set. */
  function SetOf(names: seq<string>): set<string> {
    set k | k in names
  }

  predicate Distinct(names: seq<string>) {
    forall i, k :: 0 <= i < k < |names| ==> names[i] != names[k]
  }

  lemma {:induction false} KeysAtMostMembers(ms: seq<(string, Json)>)
    ensures |set m | m in ms :: m.0| <= |ms|
  {
    if ms != [] {
      var init := ms[..|ms| - 1];
      KeysAtMostMembers(init);
      assert ms == init + [ms[|ms| - 1]];
      assert (set m | m in ms :: m.0) == (set m | m in init :: m.0) + {ms[|ms| - 1].0};
    }
  }

  lemma {:induction false} DistinctCount(names: seq<string>)
    requires Distinct(names)
    ensures |SetOf(names)| == |names|
  {
    if names != [] {
      var init, last := names[..|names| - 1], names[|names| - 1];
      assert names == init + [last];
      assert Distinct(init);
      DistinctCount(init);
      assert last !in SetOf(init);
      assert SetOf(names) == SetOf(init) + {last};
    }
  }

  lemma SubsetOfNoLargerIsEqual(a: set<string>, b: set<string>)
    requires a <= b && |b| <= |a|
    ensures a == b
  {
    var extra := b - a;
    assert b == a + extra && a * extra == {};
  }

  /** An object with as many members as names, in which every one of the
      distinct names is bound, has exactly those names as its keys. */
  lemma ExactKeys(j: Json, names: seq<string>)
    requires j.JObject? && |j.members| == |names| && Distinct(names)
    requires forall k :: k in names ==> k in Keys(j)
    ensures Keys(j) == SetOf(names)
  {
    KeysAtMostMembers(j.members);
    DistinctCount(names);
    SubsetOfNoLargerIsEqual(SetOf(names), Keys(j));
  }

  /** The value bound to k, the last binding winning as in a decoded `dict`. */
  function Lookup(ms: seq<(string, Json)>, k: string): (r: Option<Json>)
    ensures r.None? <==> (forall m :: m in ms ==> m.0 != k)
    ensures r.Some? ==> (k, r.value) in ms
  {
    if ms == [] then None
    else if ms[|ms| - 1].0 == k then Some(ms[|ms| - 1].1)
    else
      var r := Lookup(ms[..|ms| - 1], k);
      assert forall m :: m in ms ==> m in ms[..|ms| - 1] || m == ms[|ms| - 1];
      r
  }

  /** `j[k]` on an object; None when j is no object or has no key k. */
  function Get(j: Json, k: string): (r: Option<Json>)
    ensures r.None? <==> k !in Keys(j)
    ensures r.Some? ==> HasField(j, k, r.value)
  {
    if j.JObject? then Lookup(j.members, k) else None
  }

  /** Python's truth value of a decoded JSON value: `None`, `False`, `0`,
      the empty string, list and dict are false. */
  predicate Truthy(j: Json) {
    match j
    case JNull => false
    case JBool(b) => b
    case JInt(i) => i != 0
    case JString(s) => s != []
    case JArray(xs) => xs != []
    case JObject(ms) => ms != []
  }

  /** `sep.join(parts)`. */
  function Join(parts: seq<string>, sep: string): string {
    if parts == [] then []
    else if |parts| == 1 then parts[0]
    else parts[0] + sep + Join(parts[1..], sep)
  }

  /** Python's `repr()` of a decoded JSON value. Strings are quoted with
      single quotes; the escaping `repr` applies to quotes, backslashes and
      control characters inside them is not modelled. */
  function Repr(j: Json): string
    decreases j
  {
    match j
    case JNull => "None"
    case JBool(b) => if b then "True" else "False"
    case JInt(i) => IntToString(i)
    case JString(s) => "'" + s + "'"
    case JArray(xs) =>
      "[" + Join(seq(|xs|, k requires 0 <= k < |xs| => Repr(xs[k])), ", ") + "]"
    case JObject(ms) =>
      "{" + Join(seq(|ms|, k requires 0 <= k < |ms| => "'" + ms[k].0 + "': " + Repr(ms[k].1)), ", ") + "}"
  }

  /** Python's `str()` of a decoded JSON value, as an f-string inserts it. */
  function Str(j: Json): (r: string)
    ensures j.JString? ==> r == j.s
    ensures j.JNull? ==> r == "None"
  {
    if j.JString? then j.s else Repr(j)
  }

  /** What the library reads of a `requests` Response. `body` is the value
      `response.json()` returns, None when that call raises a
      JSONDecodeError; `text` is `response.text`; `contentType` is the
      Content-Type header, "" when absent. `ok` is the truth value of the
      Response object itself, which `requests` defines as `response.ok`;
      it is an input of the model rather than derived from the status. */
  datatype Response = Response(
    statusCode: int,
    contentType: string,
    body: Option<Json>,
    text: string,
    ok: bool)

  /** `requests` makes a Response false exactly for status codes 400 to 599. */
  predicate TruthinessAsRequests(r: Response) {
    r.ok == !(400 <= r.statusCode < 600)
  }

  /** The subclasses of the library's `Error`. */
  datatype ErrorKind = AuthenticationError | APIError

  /** The exceptions the core raises: Python's own, and the library's errors
      with the arguments they were constructed with. */
  datatype PyException =
    | KeyError
    | TypeError
    | ValueError
    | ErganiError(kind: ErrorKind, message: Json, response: Option<Response>, payload: Option<Json>)

  /** The outcome of a Python call: the value it returns or the exception it raises. */
  datatype Result<+T> = Ok(value: T) | Raise(exc: PyException) {
    predicate IsFailure() { Raise? }

    function PropagateFailure<U>(): Result<U>
      requires Raise?
    {
      Raise(exc)
    }

    function Extract(): T
      requires Ok?
    {
      value
    }
  }

  /** The list comprehension `[f(x) for x in xs]`: the elements are
      evaluated in order and the first exception raised ends the whole
      expression. */
  function MapResult<T, U>(xs: seq<T>, f: T -> Result<U>): (r: Result<seq<U>>)
    ensures r.Ok? <==> forall i :: 0 <= i < |xs| ==> f(xs[i]).Ok?
    ensures r.Ok? ==> |r.value| == |xs| && forall i :: 0 <= i < |xs| ==> f(xs[i]) == Ok(r.value[i])
  {
    if xs == [] then Ok([])
    else
      match f(xs[0])
      case Raise(e) => Raise(e)
      case Ok(y) =>
        var rest := MapResult(xs[1..], f);
        assert forall i :: 1 <= i < |xs| ==> xs[i] == xs[1..][i - 1];
        match rest
        case Raise(e) => Raise(e)
        case Ok(ys) => Ok([y] + ys)
  }

  /** A comprehension that raises raises the exception of its first
      element that raises; every element before that one was evaluated
      without raising. */
  lemma {:induction false} MapResultFirstFailure<T, U>(xs: seq<T>, f: T -> Result<U>)
    ensures MapResult(xs, f).Raise? ==>
              exists k :: 0 <= k < |xs| && f(xs[k]) == Raise(MapResult(xs, f).exc)
                          && forall i :: 0 <= i < k ==> f(xs[i]).Ok?
  {
    if xs != [] && f(xs[0]).Ok? && MapResult(xs, f).Raise? {
      var tail := xs[1..];
      MapResultFirstFailure(tail, f);
      assert MapResult(xs, f) == MapResult(tail, f);
      var k :| 0 <= k < |tail| && f(tail[k]) == Raise(MapResult(tail, f).exc)
               && forall i :: 0 <= i < k ==> f(tail[i]).Ok?;
      assert xs[k + 1] == tail[k];
      forall i | 0 <= i < k + 1
        ensures f(xs[i]).Ok?
      {
        if i > 0 {
          assert xs[i] == tail[i - 1];
        }
      }
    }
  }

  /** Evaluating one more element after a prefix that raised nothing: the
      step a loop that appends to a list takes. */
  lemma MapResultSnoc<T, U>(xs: seq<T>, x: T, f: T -> Result<U>)
    requires MapResult(xs, f).Ok?
    ensures f(x).Raise? ==> MapResult(xs + [x], f) == Raise(f(x).exc)
    ensures f(x).Ok? ==> MapResult(xs + [x], f) == Ok(MapResult(xs, f).value + [f(x).value])
  {
    var ys := xs + [x];
    assert forall i :: 0 <= i < |xs| ==> ys[i] == xs[i];
    assert ys[|xs|] == x;
    if f(x).Ok? {
      var r, done := MapResult(ys, f), MapResult(xs, f).value;
      var expected := done + [f(x).value];
      forall i | 0 <= i < |ys| ensures f(ys[i]).Ok? { }
      forall i | 0 <= i < |ys| ensures r.value[i] == expected[i] {
        if i < |xs| { assert f(xs[i]) == Ok(done[i]); }
      }
      assert r.value == expected;
    } else {
      assert !f(ys[|xs|]).Ok?;
      MapResultFirstFailure(ys, f);
      var k :| 0 <= k < |ys| && f(ys[k]) == Raise(MapResult(ys, f).exc) && forall i :: 0 <= i < k ==> f(ys[i]).Ok?;
      assert k == |xs|;
    }
  }

  /** The step of a loop over xs at index i, in terms of prefixes. */
  lemma MapResultStep<T, U>(xs: seq<T>, i: int, f: T -> Result<U>)
    requires 0 <= i < |xs| && MapResult(xs[..i], f).Ok?
    ensures f(xs[i]).Ok? ==> MapResult(xs[..i + 1], f) == Ok(MapResult(xs[..i], f).value + [f(xs[i]).value])
    ensures f(xs[i]).Raise? ==> MapResult(xs[..i + 1], f) == Raise(f(xs[i]).exc)
  {
    assert xs[..i + 1] == xs[..i] + [xs[i]];
    MapResultSnoc(xs[..i], xs[i], f);
  }

  /** Once a prefix raises, the whole comprehension raises the same
      exception: the later elements are never evaluated. */
  lemma {:induction false} MapResultPrefix<T, U>(xs: seq<T>, n: nat, f: T -> Result<U>)
    requires n <= |xs| && MapResult(xs[..n], f).Raise?
    ensures MapResult(xs, f) == MapResult(xs[..n], f)
  {
    var p := xs[..n];
    assert p[0] == xs[0];
    if f(xs[0]).Ok? {
      assert p[1..] == xs[1..][..n - 1];
      MapResultPrefix(xs[1..], n - 1, f);
    }
  }


}
