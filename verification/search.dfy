/**
  `SearchService`: the generic free-text search and the criteria filter the
  list pages put in front of their stores. The signals are dropped: each
  computed value is a function of the current items and inputs.
*/
module Search {
  import opened Wrappers
  import opened Strings
  import Seqs

  /** The search term as `filterItems` uses it: lower-cased, then trimmed. */
  function NormaliseTerm(term: string): string {
    Trim(ToLower(term))
  }

  /** One field matches when it has a value whose lower-cased form contains the term (`value?.toLowerCase().includes(term) ?? false`). */
  predicate FieldMatches<T>(field: T -> Option<string>, item: T, term: string) {
    field(item).Some? && Contains(ToLower(field(item).value), term)
  }

  /** `searchFields.some(...)`, field by field in order. */
  predicate AnyFieldMatches<T>(fields: seq<T -> Option<string>>, item: T, term: string)
    decreases |fields|
  {
    |fields| > 0 && (FieldMatches(fields[0], item, term) || AnyFieldMatches(fields[1..], item, term))
  }

  /** `some` holds exactly when one of the fields matches. */
  lemma {:induction false} AnyFieldMatchesExists<T>(fields: seq<T -> Option<string>>, item: T, term: string)
    ensures AnyFieldMatches(fields, item, term) <==> exists k :: 0 <= k < |fields| && FieldMatches(fields[k], item, term)
    decreases |fields|
  {
    if |fields| > 0 {
      AnyFieldMatchesExists(fields[1..], item, term);
      if exists k :: 0 <= k < |fields| && FieldMatches(fields[k], item, term) {
        var k :| 0 <= k < |fields| && FieldMatches(fields[k], item, term);
        if k > 0 {
          assert fields[1..][k - 1] == fields[k];
        }
      }
      if AnyFieldMatches(fields[1..], item, term) {
        var k :| 0 <= k < |fields[1..]| && FieldMatches(fields[1..][k], item, term);
        assert fields[k + 1] == fields[1..][k];
      }
    }
  }

  /** The test `filter` applies for a normalised term. */
  function MatchesTerm<T>(fields: seq<T -> Option<string>>, term: string): T -> bool {
    (item: T) => AnyFieldMatches(fields, item, term)
  }

  /** `filterItems`: a blank term shows every item; otherwise exactly the items with a matching field, in order. */
  function FilterItems<T(==,!new)>(items: seq<T>, term: string, fields: seq<T -> Option<string>>): (r: seq<T>)
    ensures NormaliseTerm(term) == "" ==> r == items
    ensures NormaliseTerm(term) != "" ==> forall x :: x in r <==>
              x in items && exists k :: 0 <= k < |fields| && FieldMatches(fields[k], x, NormaliseTerm(term))
    ensures NormaliseTerm(term) != "" ==>
              forall x :: multiset(r)[x] ==
                if exists k :: 0 <= k < |fields| && FieldMatches(fields[k], x, NormaliseTerm(term)) then multiset(items)[x] else 0
    ensures Seqs.IsSubseq(r, items)
  {
    var t := NormaliseTerm(term);
    if t == "" then
      Seqs.SubseqRefl(items);
      items
    else
      forall x ensures AnyFieldMatches(fields, x, t) <==> exists k :: 0 <= k < |fields| && FieldMatches(fields[k], x, t) {
        AnyFieldMatchesExists(fields, x, t);
      }
      Seqs.FilterCount(items, MatchesTerm(fields, t));
      Seqs.Filter(items, MatchesTerm(fields, t))
  }

  lemma ToLowerIdempotent(s: string)
    ensures ToLower(ToLower(s)) == ToLower(s)
  {
  }

  /** The search is case-insensitive in its term: lower-casing the term first changes nothing. */
  lemma SearchIgnoresTermCase<T(!new)>(items: seq<T>, term: string, fields: seq<T -> Option<string>>)
    ensures FilterItems(items, ToLower(term), fields) == FilterItems(items, term, fields)
  {
    ToLowerIdempotent(term);
  }

  /** Occurrence is transitive: a text containing `u`, where `u` contains `t`, contains `t`. */
  lemma ContainsTrans(s: string, u: string, t: string)
    requires Contains(s, u) && Contains(u, t)
    ensures Contains(s, t)
  {
    var i := ContainsWitness(s, u);
    var j := ContainsWitness(u, t);
    assert forall m :: 0 <= m < |t| ==> s[i + j + m] == u[j + m] == t[m];
    assert s[i + j..i + j + |t|] == t;
    ContainsAt(s, t, i + j);
  }

  /**
    Typing more never widens the result: when the longer term contains the
    shorter one (after normalisation, and the shorter is not blank), every
    item found by the longer term is found by the shorter.
  */
  lemma SearchNarrows<T(!new)>(items: seq<T>, shorter: string, longer: string, fields: seq<T -> Option<string>>, x: T)
    requires NormaliseTerm(shorter) != "" && Contains(NormaliseTerm(longer), NormaliseTerm(shorter))
    requires x in FilterItems(items, longer, fields)
    ensures x in FilterItems(items, shorter, fields)
  {
    var s, l := NormaliseTerm(shorter), NormaliseTerm(longer);
    if l == "" {
      var w := ContainsWitness(l, s);
    } else {
      var k :| 0 <= k < |fields| && FieldMatches(fields[k], x, l);
      ContainsTrans(ToLower(fields[k](x).value), l, s);
    }
  }

  // ---------------------------------------------------------------------------
  // Criteria

  /*
    A criteria object is a `seq<Option<T -> bool>>`: one entry per key, in
    `Object.entries` order. An entry is the key's test already applied to the
    item's field; `None` is an entry whose test is undefined, which the loop
    skips.
  */

  /** Independent reading of the criteria: an item passes when every defined test accepts it. */
  predicate PassesAll<T>(filters: seq<Option<T -> bool>>, item: T) {
    forall k :: 0 <= k < |filters| && filters[k].Some? ==> filters[k].value(item)
  }

  function PassesAllOf<T>(filters: seq<Option<T -> bool>>): T -> bool {
    (item: T) => PassesAll(filters, item)
  }

  /** One more entry of the criteria: a defined test narrows the previous result, an undefined one leaves it. */
  lemma CriteriaStep<T(!new)>(items: seq<T>, filters: seq<Option<T -> bool>>, i: nat)
    requires i < |filters|
    ensures filters[i].Some? ==> Seqs.Filter(items, PassesAllOf(filters[..i + 1]))
                                 == Seqs.Filter(Seqs.Filter(items, PassesAllOf(filters[..i])), filters[i].value)
    ensures filters[i].None? ==> Seqs.Filter(items, PassesAllOf(filters[..i + 1]))
                                 == Seqs.Filter(items, PassesAllOf(filters[..i]))
  {
    var before, after := filters[..i], filters[..i + 1];
    assert forall k :: 0 <= k < i ==> after[k] == before[k];
    if filters[i].Some? {
      var f := filters[i].value;
      Seqs.FilterFilter(items, PassesAllOf(before), f);
      forall x | x in items
        ensures (PassesAllOf(before)(x) && f(x)) == PassesAllOf(after)(x)
      {
        assert after[i] == filters[i];
      }
      Seqs.FilterExt(items, x => PassesAllOf(before)(x) && f(x), PassesAllOf(after));
    } else {
      Seqs.FilterExt(items, PassesAllOf(before), PassesAllOf(after));
    }
  }

  /** `filterByCriteria`: the loop narrowing the list once per defined test. */
  method FilterByCriteria<T(==,!new)>(items: seq<T>, filters: seq<Option<T -> bool>>) returns (filtered: seq<T>)
    ensures filtered == Seqs.Filter(items, PassesAllOf(filters))
    ensures forall x :: x in filtered <==> x in items && PassesAll(filters, x)
  {
    filtered := items;
    Seqs.FilterKeepsAll(items, PassesAllOf(filters[..0]));
    var i := 0;
    while i < |filters|
      invariant 0 <= i <= |filters|
      invariant filtered == Seqs.Filter(items, PassesAllOf(filters[..i]))
    {
      CriteriaStep(items, filters, i);
      if filters[i].Some? {
        filtered := Seqs.Filter(filtered, filters[i].value);
      }
      i := i + 1;
    }
    assert filters[..i] == filters;
  }
}
