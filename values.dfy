/** Shared value types of the seed loader: the scalar values that travel from a
    source row into a statement's parameters, and the failure-compatible
    wrappers used to model Python's exceptions. */
module Values {

  datatype Option<+T> = None | Some(value: T) {
    predicate IsFailure() { None? }
    function PropagateFailure<U>(): Option<U> requires None? { None }
    function Extract(): T requires Some? { value }
  }

  /** A failure of the loader. `MissingKey` is Python's `KeyError` raised by
      `row[key]`; `EmptyRecord` is the `ValueError` raised when `insert`
      unpacks the columns of an empty record; `MissingFile` is the
      `FileNotFoundError` raised when a source file cannot be opened. */
  datatype Error = MissingKey(key: string) | EmptyRecord | MissingFile(file: string)

  datatype Result<+T> = Ok(value: T) | Err(error: Error) {
    predicate IsFailure() { Err? }
    function PropagateFailure<U>(): Result<U> requires Err? { Err(error) }
    function Extract(): T requires Ok? { value }
  }

  /** A scalar as the loader handles it: an `int` from a parsed field, a `str`,
      a `bool` produced by the shaping rules, or `None`. */
  datatype Value = Int(i: int) | Text(s: string) | Bool(b: bool) | Null

  /** An ordered mapping from names to values (a Python dict, which keeps
      insertion order). Used both for normalised rows and for records. */
  type Fields = seq<(string, Value)>

  function Keys<V>(f: seq<(string, V)>): (ks: seq<string>)
    ensures |ks| == |f| && forall i :: 0 <= i < |f| ==> ks[i] == f[i].0
  {
    if f == [] then [] else [f[0].0] + Keys(f[1..])
  }

  function Vals(f: Fields): (vs: seq<Value>)
    ensures |vs| == |f| && forall i :: 0 <= i < |f| ==> vs[i] == f[i].1
  {
    if f == [] then [] else [f[0].1] + Vals(f[1..])
  }

  /** `key in d` and `d.get(key)`: the value of the first entry named `key`. */
  function Lookup<V>(f: seq<(string, V)>, key: string): (r: Option<V>)
    ensures r.None? <==> key !in Keys(f)
  {
    if f == [] then None
    else if f[0].0 == key then Some(f[0].1)
    else Lookup(f[1..], key)
  }

  /** `a` lists some of the elements of `b`, in the same relative order. */
  predicate IsSubsequence(a: seq<string>, b: seq<string>)
    decreases |b|
  {
    a == [] || (b != [] && ((a[0] == b[0] && IsSubsequence(a[1..], b[1..])) || IsSubsequence(a, b[1..])))
  }

  /** The keys of a dict are pairwise distinct. */
  predicate DistinctKeys<V>(f: seq<(string, V)>)
  {
    forall i, j :: 0 <= i < j < |f| ==> f[i].0 != f[j].0
  }
}
