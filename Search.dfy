/** The client-side search both admin list screens run on every keystroke:
    a record matches when the space-joined text of all its field values,
    lower-cased, contains the lower-cased query. */
module Search {
  import opened Js

  /** `Object.values(r).join(" ").toLowerCase()`. */
  function Haystack(r: Record): string {
    ToLower(Join(ValueParts(r), " "))
  }

  predicate Matches(r: Record, query: string): (m: bool)
    ensures query == "" ==> m
    ensures m ==> |query| <= |Haystack(r)|
  {
    assert query == "" ==> Contains(Haystack(r), ToLower(query)) by {
      if query == "" {
        ContainsEmpty(Haystack(r));
        assert ToLower(query) == "";
      }
    }
    ContainsNoLonger(Haystack(r), ToLower(query));
    Contains(Haystack(r), ToLower(query))
  }

  /** `a` is `b` with some elements left out and the rest kept in order. */
  predicate IsSubsequence<T(==)>(a: seq<T>, b: seq<T>)
    decreases |b|
  {
    if |a| == 0 then true
    else if |b| == 0 then false
    else (a[0] == b[0] && IsSubsequence(a[1..], b[1..])) || IsSubsequence(a, b[1..])
  }

  /** `records.filter(r => Matches(r, query))`. */
  function Filter(records: seq<Record>, query: string): (out: seq<Record>)
    ensures forall r :: r in out <==> r in records && Matches(r, query)
    ensures IsSubsequence(out, records)
    ensures |out| <= |records|
  {
    if |records| == 0 then []
    else if Matches(records[0], query) then [records[0]] + Filter(records[1..], query)
    else Filter(records[1..], query)
  }

  /** The filter keeps every copy of a matching record and no copy of any
      other. */
  lemma {:induction false} FilterKeepsEveryCopy(records: seq<Record>, query: string)
    ensures forall x :: multiset(Filter(records, query))[x] == if Matches(x, query) then multiset(records)[x] else 0
  {
    if |records| > 0 {
      FilterKeepsEveryCopy(records[1..], query);
      assert records == [records[0]] + records[1..];
    }
  }

  /** Every string contains the empty string. */
  lemma ContainsEmpty(s: string)
    ensures Contains(s, "")
  {
    assert s[..0] == "";
  }

  /** A string contains nothing longer than itself. */
  lemma {:induction false} ContainsNoLonger(s: string, t: string)
    ensures Contains(s, t) ==> |t| <= |s|
    decreases |s|
  {
    if |s| > 0 {
      ContainsNoLonger(s[1..], t);
    }
  }

  /** An empty query keeps the whole list. */
  lemma {:induction false} FilterEmptyQuery(records: seq<Record>)
    ensures Filter(records, "") == records
  {
    if |records| > 0 {
      ContainsEmpty(Haystack(records[0]));
      assert ToLower("") == "";
      FilterEmptyQuery(records[1..]);
      assert [records[0]] + records[1..] == records;
    }
  }

  /** Two queries with the same lower-case form select the same records. */
  lemma {:induction false} FilterSameLowerCase(records: seq<Record>, q1: string, q2: string)
    requires ToLower(q1) == ToLower(q2)
    ensures Filter(records, q1) == Filter(records, q2)
  {
    if |records| > 0 {
      FilterSameLowerCase(records[1..], q1, q2);
    }
  }

  /** Typing the query in upper case gives the same result. */
  lemma FilterUpperCaseQuery(records: seq<Record>, query: string)
    ensures Filter(records, ToUpper(query)) == Filter(records, query)
  {
    LowerOfUpper(query);
    FilterSameLowerCase(records, ToUpper(query), query);
  }

  /** Filtering an already filtered list with the same query changes nothing. */
  lemma {:induction false} FilterIdempotent(records: seq<Record>, query: string)
    ensures Filter(Filter(records, query), query) == Filter(records, query)
  {
    if |records| > 0 {
      FilterIdempotent(records[1..], query);
      var rest := Filter(records[1..], query);
      if Matches(records[0], query) {
        assert ([records[0]] + rest)[1..] == rest;
      }
    }
  }
}
