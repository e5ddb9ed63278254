/**
 The `contains` helper of the autocomplete endpoint (main.go:81-84).

 Despite its name and its comment, the helper compares the first `len(query)`
 elements of `value` with `query`: it is a prefix test, not a substring test.
 The helper is generic over the element type so that the same definition reads
 for Go's byte strings and for Dafny's `string`.
 */
module Prefix {

  /** The helper as written: the value is at least as long as the query and
      its leading slice of the query's length equals the query. */
  predicate Contains<T(==)>(value: seq<T>, query: seq<T>)
    ensures |query| == 0 ==> Contains(value, query)
    ensures |query| > |value| ==> !Contains(value, query)
  {
    |value| >= |query| && value[..|query|] == query
  }

  /** The helper is Dafny's own prefix relation on sequences. */
  lemma ContainsIsPrefix<T>(value: seq<T>, query: seq<T>)
    ensures Contains(value, query) <==> query <= value
  {
  }

  /** Independent reference definition: element-by-element comparison from
      position 0, walking down the query. */
  predicate StartsWith<T(==)>(value: seq<T>, query: seq<T>)
    decreases query
  {
    |query| == 0 || (|value| > 0 && value[0] == query[0] && StartsWith(value[1..], query[1..]))
  }

  /** `query` occurs in `value` starting at offset `i`. */
  predicate OccursAt<T(==)>(value: seq<T>, query: seq<T>, i: nat)
  {
    i + |query| <= |value| && value[i..i + |query|] == query
  }

  /** What the helper's comment promises: `query` occurs somewhere in `value`. */
  ghost predicate IsSubstring<T>(value: seq<T>, query: seq<T>)
  {
    exists i: nat :: OccursAt(value, query, i)
  }

  /** The helper agrees with the element-by-element prefix test on every input. */
  lemma {:induction false} ContainsIsStartsWith<T>(value: seq<T>, query: seq<T>)
    ensures Contains(value, query) <==> StartsWith(value, query)
    decreases query
  {
    if |query| == 0 {
    } else if |value| == 0 {
    } else {
      ContainsIsStartsWith(value[1..], query[1..]);
      if Contains(value, query) {
        assert value[1..][..|query| - 1] == value[..|query|][1..];
      }
      if StartsWith(value, query) {
        assert value[..|query|] == [value[0]] + value[1..][..|query| - 1];
        assert query == [query[0]] + query[1..];
      }
    }
  }

  /** Every prefix match is a substring match (at offset 0). */
  lemma ContainsImpliesSubstring<T>(value: seq<T>, query: seq<T>)
    ensures Contains(value, query) ==> IsSubstring(value, query)
  {
    if Contains(value, query) {
      assert OccursAt(value, query, 0);
    }
  }

  /** The converse fails: "john" occurs in "xjohn" but is not a prefix of it,
      so the helper is strictly stronger than its comment says. */
  lemma SubstringIsNotContains()
    ensures IsSubstring("xjohn", "john")
    ensures !Contains("xjohn", "john")
  {
    assert OccursAt("xjohn", "john", 1);
    assert "xjohn"[0] != "john"[0];
  }

  /** One position where the query and the value disagree, or where the value
      has already ended, rules the match out. */
  lemma MismatchRejects<T>(value: seq<T>, query: seq<T>, i: nat)
    requires i < |query|
    requires i >= |value| || value[i] != query[i]
    ensures !Contains(value, query)
  {
    if |value| >= |query| {
      assert value[..|query|][i] == value[i];
    }
  }

  /** A value that agrees with the query at every position of the query is
      accepted. */
  lemma AgreementAccepts<T>(value: seq<T>, query: seq<T>)
    requires |query| <= |value|
    requires forall i :: 0 <= i < |query| ==> value[i] == query[i]
    ensures Contains(value, query)
  {
    assert value[..|query|] == query;
  }

  /** A prefix match is decided by the query's own length: any suffix may
      follow the query. */
  lemma {:induction false} ContainsAnyExtension<T>(query: seq<T>, rest: seq<T>)
    ensures Contains(query + rest, query)
    ensures StartsWith(query + rest, query)
    decreases query
  {
    assert (query + rest)[..|query|] == query;
    ContainsIsStartsWith(query + rest, query);
  }
}
