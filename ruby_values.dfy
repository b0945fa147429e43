/** The Ruby values that the finder and the wait engine take apart: selector
    strings and symbols, arrays of alternatives and option hashes. A Ruby Hash
    keeps its insertion order, which the finder relies on, so a hash is a
    sequence of key/value pairs. */
module RubyValues {

  /** An opaque handle to a DOM element (or an element collection member). */
  type Element = nat

  datatype Option<+T> = None | Some(value: T)

  datatype Value =
    | Nil
    | Bool(b: bool)
    | Int(i: int)
    | Str(s: string)
    | Sym(name: string)
    | Regex(pattern: string)
    | Elem(e: Element)
    | List(items: seq<Value>)
    | Hash(pairs: seq<Pair>)

  datatype Pair = Pair(key: Value, val: Value)

  /** Why a call ends in an exception instead of a value. The find and wait
      errors carry the group label that the library hands to its error
      reporter. */
  datatype Failure =
    | NoMethod          // NoMethodError / TypeError: a value of the wrong class
    | FindByLike        // group 'find by like': malformed :like query
    | FindByTagName     // group 'find by tag name': the browser rejected the selector
    | FindByMethod      // group 'find by method': the name/id/text query failed
    | NoFinder          // no key of the settings names a finder of the context
    | NotFound          // group 'find': nothing picked and errors are on
    | InvalidOperator   // wait_multiple :operator is neither :one_of nor :all_of
    | InvalidCondition  // wait_multiple :condition is neither :until nor :while
    | MissingList       // a single option hash without :list
    | WaitTimeout       // the poll timed out and no element matched afterwards
    | Raised            // an exception raised by the browser itself

  datatype Outcome<+T> = Ok(value: T) | Raise(failure: Failure)

  /** Ruby truthiness: only nil and false are falsy. */
  predicate Truthy(v: Value)
  {
    !(v.Nil? || v == Bool(false))
  }

  /** Hash#[]: the value stored under `k`, if any. */
  function Lookup(pairs: seq<Pair>, k: Value): (r: Option<Value>)
    ensures r.Some? <==> exists i :: 0 <= i < |pairs| && pairs[i].key == k
    ensures r.Some? ==> Pair(k, r.value) in pairs
  {
    if |pairs| == 0 then None
    else if pairs[0].key == k then Some(pairs[0].val)
    else Lookup(pairs[1..], k)
  }

  /** The first pair with key `k` gives the value. */
  lemma {:induction false} LookupFirst(pairs: seq<Pair>, k: Value, i: nat)
    requires i < |pairs| && pairs[i].key == k
    requires forall j :: 0 <= j < i ==> pairs[j].key != k
    ensures Lookup(pairs, k) == Some(pairs[i].val)
  {
    if i > 0 {
      assert pairs[1..][i - 1] == pairs[i];
      LookupFirst(pairs[1..], k, i - 1);
    }
  }

  predicate HasKey(pairs: seq<Pair>, k: Value)
  {
    Lookup(pairs, k).Some?
  }

  /** Hash#fetch with a default. */
  function Fetch(pairs: seq<Pair>, k: Value, default: Value): Value
  {
    match Lookup(pairs, k)
    case Some(v) => v
    case None => default
  }

  /** Hash#[]=: overwrite the value of an existing key in place, or append. */
  function Store(pairs: seq<Pair>, k: Value, v: Value): (r: seq<Pair>)
    ensures Lookup(r, k) == Some(v)
    ensures forall j :: j != k ==> Lookup(r, j) == Lookup(pairs, j)
  {
    if |pairs| == 0 then [Pair(k, v)]
    else if pairs[0].key == k then [Pair(k, v)] + pairs[1..]
    else [pairs[0]] + Store(pairs[1..], k, v)
  }

  /** Hash#delete. */
  function Delete(pairs: seq<Pair>, k: Value): (r: seq<Pair>)
    ensures Lookup(r, k) == None
    ensures forall j :: j != k ==> Lookup(r, j) == Lookup(pairs, j)
    ensures |r| <= |pairs|
  {
    if |pairs| == 0 then []
    else if pairs[0].key == k then Delete(pairs[1..], k)
    else [pairs[0]] + Delete(pairs[1..], k)
  }

  /** #to_sym, defined on strings and symbols only. */
  function SymbolName(v: Value): Outcome<string>
  {
    match v
    case Str(s) => Ok(s)
    case Sym(n) => Ok(n)
    case _ => Raise(NoMethod)
  }

  function DigitChar(d: nat): char
    requires d < 10
  {
    "0123456789"[d]
  }

  function NatToString(n: nat): string
  {
    if n < 10 then [DigitChar(n)] else NatToString(n / 10) + [DigitChar(n % 10)]
  }

  /** #to_s as used in string interpolation. Strings, symbols, nil, booleans
      and integers render as Ruby renders them; the rendering of any other
      value is left to `other`. */
  function ToS(v: Value, other: Value -> string): string
  {
    match v
    case Str(s) => s
    case Sym(n) => n
    case Nil => ""
    case Bool(b) => if b then "true" else "false"
    case Int(i) => if i < 0 then "-" + NatToString(-i) else NatToString(i)
    case _ => other(v)
  }

  /** String#include? */
  predicate Contains(s: string, t: string)
  {
    t <= s || (|s| > 0 && Contains(s[1..], t))
  }

  /** The accumulated prefix `done` followed by what the rest produced; used
      to state loop invariants of methods that append as they go. */
  function Then<T>(done: seq<T>, rest: Outcome<seq<T>>): Outcome<seq<T>>
  {
    match rest
    case Ok(more) => Ok(done + more)
    case Raise(f) => Raise(f)
  }

  /** Two outcomes in sequence: the first failure wins, otherwise the
      values are concatenated. */
  function Concat<T>(a: Outcome<seq<T>>, b: Outcome<seq<T>>): Outcome<seq<T>>
  {
    match a
    case Raise(f) => Raise(f)
    case Ok(x) => Then(x, b)
  }

  lemma ThenEmpty<T>(o: Outcome<seq<T>>)
    ensures Then([], o) == o
  {
    if o.Ok? {
      assert [] + o.value == o.value;
    }
  }

  lemma ThenConcat<T>(h: seq<T>, a: Outcome<seq<T>>, b: Outcome<seq<T>>)
    ensures Then(h, Concat(a, b)) == Concat(Then(h, a), b)
  {
    if a.Ok? && b.Ok? {
      assert h + (a.value + b.value) == (h + a.value) + b.value;
    }
  }
}
