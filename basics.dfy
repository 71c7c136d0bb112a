/** Shared vocabulary: optional values, results, identifiers and timestamps. */
module Basics {

  /** A value that may be absent: a request field that was not sent, a lookup that found nothing. */
  datatype Option<+T> = None | Some(value: T) {

    /** The value, or `default` when absent (a schema default). */
    function GetOr(default: T): T {
      match this
      case Some(v) => v
      case None => default
    }
  }

  datatype Result<+T, +E> = Success(value: T) | Failure(error: E)

  /** A document identifier (a MongoDB ObjectId in the system); the store draws fresh ones. */
  type Id = nat

  /** A point in time in milliseconds since the epoch (a JavaScript Date). */
  type Time = int

  /** A Mongoose `required: true` string path: present and not the empty string. */
  predicate RequiredText(field: Option<string>) {
    field.Some? && field.value != ""
  }

  function Min(a: int, b: int): int {
    if a <= b then a else b
  }

  /** A query's filter over a collection: the elements `keep` accepts, in stored order. */
  function Filter<T>(s: seq<T>, keep: T -> bool): (r: seq<T>)
    ensures |r| <= |s|
    ensures forall i :: 0 <= i < |r| ==> keep(r[i])
  {
    if s == [] then []
    else
      var last := s[|s| - 1];
      Filter(s[..|s| - 1], keep) + (if keep(last) then [last] else [])
  }

  /** The filter keeps exactly the accepted elements, each as often as it is stored. */
  lemma {:induction false} FilterCount<T>(s: seq<T>, keep: T -> bool)
    ensures forall x :: multiset(Filter(s, keep))[x] == if keep(x) then multiset(s)[x] else 0
  {
    if s != [] {
      var init, last := s[..|s| - 1], s[|s| - 1];
      assert s == init + [last];
      FilterCount(init, keep);
    }
  }

  /** Filtering a concatenation is concatenating the filtered parts. */
  lemma {:induction false} FilterConcat<T>(a: seq<T>, b: seq<T>, keep: T -> bool)
    ensures Filter(a + b, keep) == Filter(a, keep) + Filter(b, keep)
  {
    if b == [] {
      assert a + b == a;
    } else {
      var b', x := b[..|b| - 1], b[|b| - 1];
      var tail := if keep(x) then [x] else [];
      calc {
        Filter(a + b, keep);
        { assert (a + b)[..|a + b| - 1] == a + b' && (a + b)[|a + b| - 1] == x; }
        Filter(a + b', keep) + tail;
        { FilterConcat(a, b', keep); }
        Filter(a, keep) + Filter(b', keep) + tail;
        Filter(a, keep) + Filter(b, keep);
      }
    }
  }

  /** Nothing passes a filter that rejects every element. */
  lemma {:induction false} FilterNone<T>(s: seq<T>, keep: T -> bool)
    requires forall i :: 0 <= i < |s| ==> !keep(s[i])
    ensures Filter(s, keep) == []
  {
    if s != [] {
      FilterNone(s[..|s| - 1], keep);
    }
  }

  /** Two tests that agree on every element of `s` select the same elements. */
  lemma {:induction false} FilterAgrees<T>(s: seq<T>, keep1: T -> bool, keep2: T -> bool)
    requires forall i :: 0 <= i < |s| ==> keep1(s[i]) == keep2(s[i])
    ensures Filter(s, keep1) == Filter(s, keep2)
  {
    if s != [] {
      FilterAgrees(s[..|s| - 1], keep1, keep2);
    }
  }
}
