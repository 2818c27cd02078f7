/** The Python values and exceptions that the schema code relies on.
    Payloads arrive as nested dicts, lists and scalars; the operations the
    code applies to them (`d.get(k, default)`, `d[k]`, `k in d`, iteration,
    pair unpacking) are modelled here, each raising the exception Python
    raises, so that callers can propagate it with `:-`. */
module PyValue {

  datatype Option<+T> = None | Some(value: T)

  /** The exceptions raised by the modelled code. `Unsupported` marks the
      one Python behaviour the model does not reproduce: iterating a dict. */
  datatype Error =
    | KeyError(key: string)
    | TypeError(reason: string)
    | AttributeError(name: string)
    | IndexError(reason: string)
    | ValueError(reason: string)
    | Raised(message: string)
    | Unsupported(reason: string)

  datatype Result<+T> = Ok(value: T) | Err(error: Error) {
    predicate IsFailure() {
      Err?
    }

    function PropagateFailure<U>(): Result<U>
      requires Err?
    {
      Err(error)
    }

    function Extract(): T
      requires Ok?
    {
      value
    }
  }

  /** A calendar date, as stored in a `Date` column. */
  datatype Date = Date(year: int, month: int, day: int)

  /** A Python value as found in a request payload or an ORM attribute. */
  datatype Value =
    | Null
    | Bool(b: bool)
    | Int(i: int)
    | Str(s: string)
    | DateVal(d: Date)
    | Tuple(items: seq<Value>)
    | List(items: seq<Value>)
    | Dict(entries: map<string, Value>)

  /** A request payload: the top-level dict. */
  type Payload = map<string, Value>

  /** `data.get(key, default)` on the top-level dict. */
  function Get(data: Payload, key: string, default: Value): Value
  {
    if key in data then data[key] else default
  }

  /** `v.get(key, default)` on a value: only a dict has a `get` method. */
  function GetOn(v: Value, key: string, default: Value): (r: Result<Value>)
    ensures r.Ok? <==> v.Dict?
    ensures v.Dict? && key in v.entries ==> r == Ok(v.entries[key])
    ensures v.Dict? && key !in v.entries ==> r == Ok(default)
  {
    match v
    case Dict(m) => Ok(if key in m then m[key] else default)
    case _ => Err(AttributeError("get"))
  }

  /** `v[key]` with a string key. */
  function Subscript(v: Value, key: string): (r: Result<Value>)
    ensures r.Ok? <==> v.Dict? && key in v.entries
    ensures v.Dict? && key !in v.entries ==> r == Err(KeyError(key))
  {
    match v
    case Dict(m) => if key in m then Ok(m[key]) else Err(KeyError(key))
    case Null => Err(TypeError("'NoneType' object is not subscriptable"))
    case List(_) => Err(TypeError("list indices must be integers"))
    case Tuple(_) => Err(TypeError("tuple indices must be integers"))
    case Str(_) => Err(TypeError("string indices must be integers"))
    case _ => Err(TypeError("object is not subscriptable"))
  }

  /** `key` occurs in `s` starting at index `i`. */
  predicate OccursAt(key: string, s: string, i: int)
  {
    0 <= i <= |s| - |key| && s[i..i + |key|] == key
  }

  /** `key in s` for strings: substring test. */
  predicate IsSubstring(key: string, s: string)
  {
    exists i :: 0 <= i <= |s| - |key| && OccursAt(key, s, i)
  }

  /** `key in v` for a string literal `key`. */
  function Contains(v: Value, key: string): (r: Result<bool>)
    ensures v.Dict? ==> r == Ok(key in v.entries)
    ensures r.Err? <==> v.Null? || v.Bool? || v.Int? || v.DateVal?
  {
    match v
    case Dict(m) => Ok(key in m)
    case List(xs) => Ok(Str(key) in xs)
    case Tuple(xs) => Ok(Str(key) in xs)
    case Str(s) => Ok(IsSubstring(key, s))
    case _ => Err(TypeError("argument is not iterable"))
  }

  /** The characters of a string, each as a one-character string. */
  function Chars(s: string): (r: seq<Value>)
    ensures |r| == |s|
    ensures forall i :: 0 <= i < |s| ==> r[i] == Str([s[i]])
  {
    seq(|s|, i requires 0 <= i < |s| => Str([s[i]]))
  }

  /** The items a `for` loop visits. */
  function Iterate(v: Value): (r: Result<seq<Value>>)
    ensures v.List? || v.Tuple? ==> r == Ok(v.items)
  {
    match v
    case List(xs) => Ok(xs)
    case Tuple(xs) => Ok(xs)
    case Str(s) => Ok(Chars(s))
    case Dict(_) => Err(Unsupported("iterating a dict"))
    case _ => Err(TypeError("object is not iterable"))
  }

  /** `a, b = v`: unpacking a two-element iterable. */
  function Unpack2(v: Value): (r: Result<(Value, Value)>)
    ensures (v.List? || v.Tuple?) && |v.items| == 2 ==> r == Ok((v.items[0], v.items[1]))
  {
    match v
    case List(xs) =>
      if |xs| == 2 then Ok((xs[0], xs[1])) else Err(ValueError("wrong number of values to unpack"))
    case Tuple(xs) =>
      if |xs| == 2 then Ok((xs[0], xs[1])) else Err(ValueError("wrong number of values to unpack"))
    case Str(s) =>
      if |s| == 2 then Ok((Str([s[0]]), Str([s[1]]))) else Err(ValueError("wrong number of values to unpack"))
    case Dict(_) => Err(Unsupported("iterating a dict"))
    case _ => Err(TypeError("cannot unpack non-iterable object"))
  }

  /** Applies `f` to each item in order, stopping at the first exception,
      as a Python loop over `xs` whose body may raise does. */
  function MapResult<A, B>(xs: seq<A>, f: A -> Result<B>): (r: Result<seq<B>>)
    ensures r.Ok? <==> forall i :: 0 <= i < |xs| ==> f(xs[i]).Ok?
    ensures r.Ok? ==> |r.value| == |xs| && forall i :: 0 <= i < |xs| ==> f(xs[i]) == Ok(r.value[i])
    ensures r.Err? ==> exists i :: 0 <= i < |xs| && f(xs[i]) == Err(r.error) &&
                                   forall j :: 0 <= j < i ==> f(xs[j]).Ok?
    decreases |xs|
  {
    if xs == [] then Ok([])
    else
      var front :- MapResult(xs[..|xs| - 1], f);
      var last :- f(xs[|xs| - 1]);
      Ok(front + [last])
  }

  /** Mapping one more element extends a successful mapping by that
      element's result, or fails with its error. */
  lemma {:induction false} MapResultSnoc<A, B>(xs: seq<A>, f: A -> Result<B>, i: nat, done: seq<B>)
    requires i < |xs|
    requires MapResult(xs[..i], f) == Ok(done)
    ensures MapResult(xs[..i + 1], f) == if f(xs[i]).Ok? then Ok(done + [f(xs[i]).value]) else Err(f(xs[i]).error)
  {
    assert xs[..i + 1][..i] == xs[..i];
  }

  /** Once a prefix fails, mapping the whole sequence fails the same way. */
  lemma {:induction false} MapResultStops<A, B>(xs: seq<A>, f: A -> Result<B>, i: nat)
    requires i <= |xs|
    requires MapResult(xs[..i], f).Err?
    ensures MapResult(xs, f) == MapResult(xs[..i], f)
    decreases |xs| - i
  {
    if i < |xs| {
      assert xs[..i + 1][..i] == xs[..i];
      MapResultStops(xs, f, i + 1);
    } else {
      assert xs[..i] == xs;
    }
  }
}
