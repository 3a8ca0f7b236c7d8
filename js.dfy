/** The JavaScript values the console receives from the backend, and the few language rules
    (truthiness, `||`, property access, `Array.prototype.filter`) its handlers rely on. */
module Js {
  import opened Wrappers
  import Text

  /** A parsed JSON body, plus `undefined` for a missing property. Numbers are integers here. */
  datatype Json =
    | Undefined
    | Null
    | Bool(b: bool)
    | Num(n: int)
    | Str(s: string)
    | Arr(items: seq<Json>)
    | Obj(fields: map<string, Json>)

  /** The `response` member of an HTTP error: status and body. */
  datatype ErrorResponse = ErrorResponse(status: nat, data: Json)

  /** A thrown error as the handlers look at it: its message and, for HTTP failures, `error.response`. */
  datatype Error = Error(message: string, response: Option<ErrorResponse>)

  /** Reading a property of `null` or `undefined`, or calling a method a value does not have. */
  const TYPE_ERROR := Error("TypeError", None)

  /** JavaScript truthiness (`if (x)`, `!!x`). */
  predicate Truthy(j: Json) {
    match j
    case Undefined => false
    case Null => false
    case Bool(b) => b
    case Num(n) => n != 0
    case Str(s) => s != ""
    case Arr(_) => true
    case Obj(_) => true
  }

  predicate Nullish(j: Json) {
    j.Undefined? || j.Null?
  }

  /** A value React accepts as a child in `{j}`: anything but an object, and an array only when every
      element is accepted ("Objects are not valid as a React child" otherwise). */
  predicate Renderable(j: Json)
    decreases j
  {
    match j
    case Obj(_) => false
    case Arr(items) => forall i :: 0 <= i < |items| ==> Renderable(items[i])
    case _ => true
  }

  /** `j.key` on a value that is not `null` or `undefined`: the member if `j` is an object holding it,
      `undefined` otherwise (the backend's keys are never members of primitives or arrays). */
  function Field(j: Json, key: string): Json {
    if j.Obj? && key in j.fields then j.fields[key] else Undefined
  }

  /** `a || b`. */
  function Or(a: Json, b: Json): (r: Json)
    ensures Truthy(r) <==> Truthy(a) || Truthy(b)
    ensures r == a || r == b
  {
    if Truthy(a) then a else b
  }

  /** `String(j)`, as string concatenation converts a value. */
  function ToJsString(j: Json): string
    decreases j
  {
    match j
    case Undefined => "undefined"
    case Null => "null"
    case Bool(b) => if b then "true" else "false"
    case Num(n) => Text.IntToString(n)
    case Str(s) => s
    case Arr(items) =>
      Text.Join(seq(|items|, i requires 0 <= i < |items| =>
                      if Nullish(items[i]) then "" else ToJsString(items[i])), ",")
    case Obj(_) => "[object Object]"
  }

  /** The elements of `s` that satisfy `p`, in their original order. */
  function Filter<T>(s: seq<T>, p: T -> bool): (r: seq<T>)
    ensures |r| <= |s|
  {
    if s == [] then []
    else (if p(s[0]) then [s[0]] else []) + Filter(s[1..], p)
  }

  /** `items.filter(keep)` where `keep` reads a property of each element first: it throws as soon as an
      element is `null` or `undefined`. */
  function FilterElements(items: seq<Json>, keep: Json -> bool): (r: Result<seq<Json>, Error>)
    ensures r.Err? <==> exists i :: 0 <= i < |items| && Nullish(items[i])
    ensures r.Ok? ==> r.value == Filter(items, keep)
  {
    if exists i :: 0 <= i < |items| && Nullish(items[i]) then Err(TYPE_ERROR) else Ok(Filter(items, keep))
  }

  /** `r` keeps some of the elements of `s` in their original order. */
  predicate IsSubsequence<T(==)>(r: seq<T>, s: seq<T>)
    decreases |s|
  {
    if r == [] then true
    else if s == [] then false
    else if r[0] == s[0] then IsSubsequence(r[1..], s[1..])
    else IsSubsequence(r, s[1..])
  }

  /** An element is kept exactly when it is in the input and satisfies the predicate. */
  lemma {:induction false} FilterMembership<T>(s: seq<T>, p: T -> bool, x: T)
    ensures x in Filter(s, p) <==> x in s && p(x)
  {
    if s != [] {
      FilterMembership(s[1..], p, x);
      assert s == [s[0]] + s[1..];
    }
  }

  /** Each kept value occurs as often as in the input; each dropped value not at all. */
  lemma {:induction false} FilterCount<T>(s: seq<T>, p: T -> bool, x: T)
    ensures multiset(Filter(s, p))[x] == if p(x) then multiset(s)[x] else 0
  {
    if s != [] {
      FilterCount(s[1..], p, x);
      assert s == [s[0]] + s[1..];
      assert multiset(s) == multiset([s[0]]) + multiset(s[1..]);
    }
  }

  /** The result keeps the input's order. */
  lemma {:induction false} FilterIsSubsequence<T>(s: seq<T>, p: T -> bool)
    ensures IsSubsequence(Filter(s, p), s)
    decreases |s|
  {
    if s != [] {
      FilterIsSubsequence(s[1..], p);
      var r := Filter(s, p);
      if p(s[0]) {
        assert r[0] == s[0] && r[1..] == Filter(s[1..], p);
      } else {
        assert r == Filter(s[1..], p);
        SubsequenceSkip(r, s);
      }
    }
  }

  /** A subsequence of the tail is a subsequence of the whole. */
  lemma {:induction false} SubsequenceSkip<T>(r: seq<T>, s: seq<T>)
    requires s != [] && IsSubsequence(r, s[1..])
    ensures IsSubsequence(r, s)
    decreases |s|, 0
  {
    if r != [] && r[0] == s[0] {
      assert IsSubsequence(r[1..], s[1..]) by {
        SubsequenceTail(r, s[1..]);
      }
    }
  }

  /** Dropping the first element of a subsequence keeps it a subsequence. */
  lemma {:induction false} SubsequenceTail<T>(r: seq<T>, s: seq<T>)
    requires r != [] && IsSubsequence(r, s)
    ensures IsSubsequence(r[1..], s)
    decreases |s|, 1
  {
    if s != [] {
      if r[0] == s[0] {
        if r[1..] != [] {
          SubsequenceSkip(r[1..], s);
        }
      } else {
        SubsequenceTail(r, s[1..]);
        if r[1..] != [] {
          SubsequenceSkip(r[1..], s);
        }
      }
    }
  }

  /** When every element satisfies the predicate, nothing is dropped. */
  lemma {:induction false} FilterKeepsAll<T>(s: seq<T>, p: T -> bool)
    requires forall i :: 0 <= i < |s| ==> p(s[i])
    ensures Filter(s, p) == s
  {
    if s != [] {
      FilterKeepsAll(s[1..], p);
      assert [s[0]] + s[1..] == s;
    }
  }

  /** When exactly the element at `k` fails the predicate, the result is the input without it. */
  lemma {:induction false} FilterDropsOne<T>(s: seq<T>, p: T -> bool, k: nat)
    requires k < |s| && !p(s[k])
    requires forall i :: 0 <= i < |s| && i != k ==> p(s[i])
    ensures Filter(s, p) == s[..k] + s[k + 1..]
  {
    if k == 0 {
      FilterKeepsAll(s[1..], p);
    } else {
      FilterDropsOne(s[1..], p, k - 1);
      assert s[1..][..k - 1] + s[1..][k..] == s[1..k] + s[k + 1..];
      assert [s[0]] + s[1..k] == s[..k];
    }
  }

  /** Filters by predicates that no value satisfies together never share an element. */
  lemma FiltersDisjoint<T>(s: seq<T>, p: T -> bool, q: T -> bool, x: T)
    requires !(p(x) && q(x))
    ensures !(x in Filter(s, p) && x in Filter(s, q))
  {
    FilterMembership(s, p, x);
    FilterMembership(s, q, x);
  }
}
