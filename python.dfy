/** The fragment of Python's value model the orchestration layer relies on:
    the values that flow through task records and dispatch results, what
    a call can do (return or raise), truthiness, `str()` of a scalar,
    sequence indexing with negative indices, `str.join` and ASCII
    upper-casing. */
module Python {
  import opened Dicts

  datatype Option<T> = None | Some(value: T)

  /** The exceptions the modelled code can raise. `CallableError` stands for
      whatever an opaque user callable (a capability, a condition, an action,
      a collaborator) raises. */
  datatype Exception =
    | KeyError(key: string)
    | TypeError(message: string)
    | AttributeError(message: string)
    | ValueError(message: string)
    | CallableError(message: string)

  /** What a Python call does: return a value or raise. */
  datatype Outcome<T> = Returned(value: T) | Raised(error: Exception)

  /** JSON-like values: strings, `None`, booleans and dictionaries. */
  datatype Value = Str(s: string) | NoneV | Bool(b: bool) | Dict(d: PyDict<Value>)

  /** `bool(v)` */
  predicate Truthy(v: Value) {
    match v
    case Str(s) => s != ""
    case NoneV => false
    case Bool(b) => b
    case Dict(d) => d.entries != map[]
  }

  /** `type(v).__name__` */
  function TypeName(v: Value): string {
    match v
    case Str(_) => "str"
    case NoneV => "NoneType"
    case Bool(_) => "bool"
    case Dict(_) => "dict"
  }

  /** `str(v)` for a scalar, as an f-string renders it. */
  function Render(v: Value): (r: string)
    requires !v.Dict?
    ensures v.Str? ==> r == v.s
  {
    match v
    case Str(s) => s
    case NoneV => "None"
    case Bool(b) => if b then "True" else "False"
  }

  /** `f"{x}"` for an optional string: `None` is rendered as "None". */
  function RenderOptional(x: Option<string>): string {
    match x
    case None => "None"
    case Some(s) => s
  }

  /** `d.get(k)` on a dictionary value: `None` when the key is absent. */
  function GetKey(d: PyDict<Value>, k: string): Value {
    d.Get(k, NoneV)
  }

  /** The dictionary `{"error": message}` that the layer returns instead of
      raising. */
  function ErrorRecord(message: string): (r: Value)
    ensures r.Dict? && r.d.Valid() && r.d.keys == ["error"]
    ensures GetKey(r.d, "error") == Str(message)
  {
    Dict(Empty().Put("error", Str(message)))
  }

  /** Is `v` a dictionary built by `ErrorRecord`? */
  predicate IsErrorRecord(v: Value) {
    v.Dict? && v.d.keys == ["error"] && v.d.entries.Keys == {"error"} && v.d.entries["error"].Str?
  }

  lemma ErrorRecordIsErrorRecord(message: string)
    ensures IsErrorRecord(ErrorRecord(message))
  {
  }

  /** `s[i]` caught for `IndexError`: a negative index counts from the end,
      and an index out of range gives `None`. */
  function PyIndex<T>(s: seq<T>, i: int): (r: Option<T>)
    ensures r.Some? <==> -|s| <= i < |s|
    ensures 0 <= i < |s| ==> r == Some(s[i])
    ensures -|s| <= i < 0 ==> r == Some(s[|s| + i])
  {
    if 0 <= i < |s| then Some(s[i])
    else if -|s| <= i < 0 then Some(s[|s| + i])
    else None
  }

  /** After `s.append(x)`, index -1 is `x` and every non-negative index that
      was in range still names the same element. */
  lemma {:induction false} IndexAfterAppend<T>(s: seq<T>, x: T, i: int)
    ensures PyIndex(s + [x], -1) == Some(x)
    ensures 0 <= i < |s| ==> PyIndex(s + [x], i) == PyIndex(s, i)
    ensures i < -1 ==> PyIndex(s + [x], i) == PyIndex(s, i + 1)
  {
  }

  lemma AppendAssociative(a: string, b: string, c: string)
    ensures (a + b) + c == a + (b + c)
  {
  }

  /** `sep.join(parts)` */
  function Join(parts: seq<string>, sep: string): (r: string)
    ensures parts == [] ==> r == ""
    ensures |parts| == 1 ==> r == parts[0]
  {
    if |parts| == 0 then ""
    else if |parts| == 1 then parts[0]
    else Join(parts[..|parts| - 1], sep) + sep + parts[|parts| - 1]
  }

  /** Joining with the empty separator is plain concatenation. */
  function Concat(parts: seq<string>): string {
    if parts == [] then "" else Concat(parts[..|parts| - 1]) + parts[|parts| - 1]
  }

  lemma {:induction false} JoinEmptySeparator(parts: seq<string>)
    ensures Join(parts, "") == Concat(parts)
  {
    if |parts| > 1 {
      var init := parts[..|parts| - 1];
      JoinEmptySeparator(init);
      assert Concat(init) == Concat(init[..|init| - 1]) + init[|init| - 1];
    } else if |parts| == 1 {
      assert parts[..0] == [];
    }
  }

  /** ASCII `str.upper()` on one character. */
  function UpperChar(c: char): (u: char)
    ensures 'a' <= c <= 'z' ==> u as int == c as int - 32
    ensures !('a' <= c <= 'z') ==> u == c
  {
    if 'a' <= c <= 'z' then (c as int - 32) as char else c
  }

  /** ASCII `str.upper()` */
  function Upper(s: string): (u: string)
    ensures |u| == |s|
    ensures forall i | 0 <= i < |s| :: u[i] == UpperChar(s[i])
  {
    seq(|s|, i requires 0 <= i < |s| => UpperChar(s[i]))
  }

  /** `str(n)` for a natural number. */
  function DecimalString(n: nat): (r: string)
    ensures |r| >= 1
    ensures forall k | 0 <= k < |r| :: '0' <= r[k] <= '9'
  {
    var last := [('0' as int + n % 10) as char];
    if n < 10 then last else DecimalString(n / 10) + last
  }

  function Quoted(name: string): string {
    "'" + name + "'"
  }

  function QuotedEach(names: seq<string>): (q: seq<string>)
    ensures |q| == |names|
    ensures forall i | 0 <= i < |names| :: q[i] == Quoted(names[i])
  {
    seq(|names|, i requires 0 <= i < |names| => Quoted(names[i]))
  }

  /** The parameter names of a missing-arguments message, as CPython lists
      them: `'a'`, `'a' and 'b'`, or `'a', 'b', and 'c'` (a comma before
      "and" once there are three or more). */
  function QuotedNames(names: seq<string>): string
    requires |names| >= 1
  {
    var q := QuotedEach(names);
    if |q| == 1 then q[0]
    else if |q| == 2 then q[0] + " and " + q[1]
    else Join(q[..|q| - 1], ", ") + ", and " + q[|q| - 1]
  }

  /** example: three missing names, with the comma before "and". */
  lemma ThreeMissingNames()
    ensures QuotedNames(["a", "b", "c"]) == "'a', 'b', and 'c'"
  {
    var q := QuotedEach(["a", "b", "c"]);
    assert q[0] == Quoted("a") == "'a'";
    assert q[1] == Quoted("b") == "'b'";
    assert q[2] == Quoted("c") == "'c'";
    assert q == ["'a'", "'b'", "'c'"];
    assert q[..2] == ["'a'", "'b'"];
    assert q[..2][..1] == ["'a'"];
    assert Join(q[..2], ", ") == "'a', 'b'";
  }

  function Plural(n: nat): string {
    if n == 1 then "" else "s"
  }

  /** CPython's message for a call that leaves the parameters `missing`
      without a value. */
  function MissingMessage(fname: string, missing: seq<string>): string
    requires |missing| >= 1
  {
    fname + "() missing " + DecimalString(|missing|) + " required positional argument" + Plural(|missing|)
      + ": " + QuotedNames(missing)
  }

  /** CPython's message for a call with more positional arguments than
      parameters. */
  function SurplusMessage(fname: string, params: nat, given: nat): string {
    fname + "() takes " + DecimalString(params) + " positional argument" + Plural(params)
      + " but " + DecimalString(given) + (if given == 1 then " was" else " were") + " given"
  }

  /** Binding `given` positional arguments, and no keywords, to a function
      whose parameters `params` are all positional and without defaults:
      the call goes ahead only when the counts agree; too few arguments
      raise `TypeError` naming the parameters left without a value, and
      too many raise `TypeError` giving both counts. */
  function BindPositionals(fname: string, params: seq<string>, given: nat): (r: Outcome<()>)
    ensures r.Returned? <==> given == |params|
    ensures given < |params| ==> r == Raised(TypeError(MissingMessage(fname, params[given..])))
    ensures given > |params| ==> r == Raised(TypeError(SurplusMessage(fname, |params|, given)))
  {
    if given > |params| then Raised(TypeError(SurplusMessage(fname, |params|, given)))
    else if given < |params| then Raised(TypeError(MissingMessage(fname, params[given..])))
    else Returned(())
  }
}
