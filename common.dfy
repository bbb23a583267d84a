/** Shared vocabulary: optional values, the exceptions the Python code raises,
    and small sequence helpers that stand for vectorised pandas/numpy operations. */
module Common {

  datatype Option<T> = None | Some(value: T)

  /** The Python exceptions that the modelled code raises or lets escape. */
  datatype Error =
    | KeyError(key: string)
    | ValueError(message: string)
    | RuntimeError(message: string)
    | TypeError(message: string)
    | ZeroDivisionError
    | FileNotFoundError(path: string)
    | AttributeError(name: string)

  /** A call either returns a value or raises one of the exceptions above. */
  datatype Result<T> = Ok(value: T) | Err(error: Error)

  /** Number of elements of `s` that satisfy `p` (the `.sum()` of a boolean mask). */
  function Count<T>(s: seq<T>, p: T -> bool): (n: nat)
    ensures n <= |s|
  {
    if s == [] then 0 else (if p(s[0]) then 1 else 0) + Count(s[1..], p)
  }

  lemma {:induction false} CountAppend<T>(s: seq<T>, t: seq<T>, p: T -> bool)
    ensures Count(s + t, p) == Count(s, p) + Count(t, p)
  {
    if s == [] {
      assert s + t == t;
    } else {
      assert (s + t)[1..] == s[1..] + t;
      CountAppend(s[1..], t, p);
    }
  }

  /** Elements of `s` that satisfy `p`, in their original order. */
  function Filter<T>(s: seq<T>, p: T -> bool): (r: seq<T>)
    ensures |r| == Count(s, p)
  {
    if s == [] then [] else (if p(s[0]) then [s[0]] else []) + Filter(s[1..], p)
  }

  lemma {:induction false} FilterMembership<T>(s: seq<T>, p: T -> bool, x: T)
    ensures x in Filter(s, p) <==> x in s && p(x)
  {
    if s != [] {
      FilterMembership(s[1..], p, x);
      assert s == [s[0]] + s[1..];
    }
  }

  lemma {:induction false} FilterAppend<T>(s: seq<T>, t: seq<T>, p: T -> bool)
    ensures Filter(s + t, p) == Filter(s, p) + Filter(t, p)
  {
    if s == [] {
      assert s + t == t;
    } else {
      assert (s + t)[1..] == s[1..] + t;
      FilterAppend(s[1..], t, p);
    }
  }

  /** Elements that satisfy `p` and elements that satisfy its negation together make up `s`. */
  lemma {:induction false} CountSplit<T>(s: seq<T>, p: T -> bool, q: T -> bool)
    requires forall x :: q(x) == !p(x)
    ensures Count(s, p) + Count(s, q) == |s|
  {
    if s != [] {
      CountSplit(s[1..], p, q);
    }
  }

  /** Sum of a natural-number weight over a sequence. */
  function Total<T>(s: seq<T>, w: T -> nat): nat
  {
    if s == [] then 0 else w(s[0]) + Total(s[1..], w)
  }

  lemma {:induction false} TotalAppend<T>(s: seq<T>, t: seq<T>, w: T -> nat)
    ensures Total(s + t, w) == Total(s, w) + Total(t, w)
  {
    if s == [] {
      assert s + t == t;
    } else {
      assert (s + t)[1..] == s[1..] + t;
      TotalAppend(s[1..], t, w);
    }
  }

  /** Replacing one element changes the total by the difference of the two weights. */
  lemma {:induction false} TotalUpdate<T>(s: seq<T>, i: nat, x: T, w: T -> nat)
    requires i < |s|
    ensures Total(s[i := x], w) + w(s[i]) == Total(s, w) + w(x)
  {
    if i > 0 {
      assert s[i := x][1..] == s[1..][i - 1 := x];
      TotalUpdate(s[1..], i - 1, x, w);
    } else {
      assert s[i := x][1..] == s[1..];
    }
  }

  /** `DataFrame.head(n)`: the first `n` rows; a negative `n` drops the last `-n` rows. */
  function Head<T>(s: seq<T>, n: int): (r: seq<T>)
    ensures n >= 0 ==> |r| == if n < |s| then n else |s|
    ensures n < 0 ==> |r| == if -n < |s| then |s| + n else 0
    ensures r == s[..|r|]
  {
    if n >= 0 then (if n < |s| then s[..n] else s)
    else (if -n < |s| then s[..|s| + n] else [])
  }

  /** Sum of a sequence of reals. */
  function Sum(s: seq<real>): real
  {
    if s == [] then 0.0 else s[0] + Sum(s[1..])
  }

  lemma {:induction false} SumBounds(s: seq<real>, lo: real, hi: real)
    requires forall i :: 0 <= i < |s| ==> lo <= s[i] <= hi
    ensures lo * |s| as real <= Sum(s) <= hi * |s| as real
  {
    if s != [] {
      SumBounds(s[1..], lo, hi);
    }
  }

  function Abs(x: real): (r: real)
    ensures r >= 0.0 && (r == x || r == -x)
  {
    if x < 0.0 then -x else x
  }

  /** `np.abs` of a column. */
  function AbsAll(s: seq<real>): (r: seq<real>)
    ensures |r| == |s|
    ensures forall i :: 0 <= i < |s| ==> r[i] == Abs(s[i])
  {
    if s == [] then [] else [Abs(s[0])] + AbsAll(s[1..])
  }

  /** `s.max()` for a non-empty sequence. */
  function Max(s: seq<real>): (m: real)
    requires |s| > 0
    ensures forall i :: 0 <= i < |s| ==> s[i] <= m
    ensures exists i :: 0 <= i < |s| && s[i] == m
  {
    if |s| == 1 then s[0]
    else
      var rest := Max(s[1..]);
      assert forall i :: 1 <= i < |s| ==> s[i] == s[1..][i - 1];
      if s[0] >= rest then s[0] else rest
  }

  /** Decimal rendering of a natural number, as Python's `str(n)`. */
  function NatToString(n: nat): (s: string)
    ensures |s| > 0
    ensures forall i :: 0 <= i < |s| ==> '0' <= s[i] <= '9'
  {
    var d := ['0', '1', '2', '3', '4', '5', '6', '7', '8', '9'][n % 10];
    if n < 10 then [d] else NatToString(n / 10) + [d]
  }

  /** Applies `f` to every index and element from `k` on, in order, stopping at the first
      failure: a Python loop that appends one result per element and lets an exception escape. */
  function MapFrom<A, B>(s: seq<A>, k: nat, f: (nat, A) -> Result<B>): Result<seq<B>>
    decreases |s| - k
  {
    if k >= |s| then Ok([])
    else match f(k, s[k])
      case Err(e) => Err(e)
      case Ok(b) =>
        match MapFrom(s, k + 1, f)
        case Err(e) => Err(e)
        case Ok(bs) => Ok([b] + bs)
  }

  /** The loop succeeds exactly when every step does, and then yields one result per element, in order. */
  lemma {:induction false} MapFromOk<A, B>(s: seq<A>, k: nat, f: (nat, A) -> Result<B>)
    requires k <= |s|
    ensures MapFrom(s, k, f).Ok? <==> forall j :: k <= j < |s| ==> f(j, s[j]).Ok?
    ensures MapFrom(s, k, f).Ok? ==>
      |MapFrom(s, k, f).value| == |s| - k &&
      forall j :: k <= j < |s| ==> MapFrom(s, k, f).value[j - k] == f(j, s[j]).value
    decreases |s| - k
  {
    if k < |s| {
      MapFromOk(s, k + 1, f);
    }
  }

  /** The exception raised is the one of the first failing step. */
  lemma {:induction false} MapFromFirstErr<A, B>(s: seq<A>, k: nat, i: nat, f: (nat, A) -> Result<B>)
    requires k <= i < |s|
    requires forall j :: k <= j < i ==> f(j, s[j]).Ok?
    requires f(i, s[i]).Err?
    ensures MapFrom(s, k, f) == Err(f(i, s[i]).error)
    decreases i - k
  {
    if k < i {
      MapFromFirstErr(s, k + 1, i, f);
    }
  }

  /** Two loops whose steps agree element by element have the same outcome. */
  lemma {:induction false} MapFromAgree<A, A', B>(s: seq<A>, t: seq<A'>, k: nat, f: (nat, A) -> Result<B>,
                                                  g: (nat, A') -> Result<B>)
    requires |s| == |t|
    requires forall j :: k <= j < |s| ==> f(j, s[j]) == g(j, t[j])
    ensures MapFrom(s, k, f) == MapFrom(t, k, g)
    decreases |s| - k
  {
    if k < |s| {
      MapFromAgree(s, t, k + 1, f, g);
    }
  }

  /** The loop `MapFrom` describes: one pass over `s`, appending each step's result and
      returning the first exception raised. */
  method Collect<A, B>(s: seq<A>, f: (nat, A) -> Result<B>) returns (r: Result<seq<B>>)
    ensures r == MapFrom(s, 0, f)
  {
    var results: seq<B> := [];
    var i := 0;
    while i < |s|
      invariant 0 <= i <= |s| && |results| == i
      invariant forall j :: 0 <= j < i ==> f(j, s[j]).Ok? && results[j] == f(j, s[j]).value
    {
      var step := f(i, s[i]);
      if step.Err? {
        MapFromFirstErr(s, 0, i, f);
        return Err(step.error);
      }
      results := results + [step.value];
      i := i + 1;
    }
    MapFromOk(s, 0, f);
    assert MapFrom(s, 0, f).value == results;
    r := Ok(results);
  }
}
