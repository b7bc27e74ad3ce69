/** The record matcher of the card page: `filteredCards` keeps, in catalog
    order, the cards that pass a text, a category and a zero-fee test. */
module Matcher {
  import opened Text

  /** One catalog row as the page reads it. Every field is optional because a
      parsed row may lack a column; a missing field is `undefined` in the page. */
  datatype Card = Card(
    institutionName: Option<string>,
    productName: Option<string>,
    rewardType: Option<string>,
    rewards: Option<string>,
    annualFee: Option<string>,
    applyLink: Option<string>)

  /** The three filter fields of the page: search term, category, zero-fee flag. */
  datatype FilterSpec = FilterSpec(searchTerm: string, category: string, zeroFeeOnly: bool)

  /** The category value that selects every card. */
  const AllCategories: string := "All"

  /** The fee texts the zero-fee toggle accepts, compared literally. */
  const ZeroFees: set<string> := {"$0", "0", ""}

  /** A missing name reads as the empty string. */
  function NameOrEmpty(name: Option<string>): string {
    match name
    case None => ""
    case Some(s) => s
  }

  /** Text test: the lower-cased term occurs in the lower-cased product name or
      in the lower-cased institution name. */
  predicate MatchesSearch(card: Card, term: string) {
    var t := Lower(term);
    Contains(t, Lower(NameOrEmpty(card.productName)))
      || Contains(t, Lower(NameOrEmpty(card.institutionName)))
  }

  /** Category test: "All" is a wildcard, anything else is compared exactly. */
  predicate MatchesCategory(card: Card, category: string) {
    category == AllCategories || card.rewardType == Some(category)
  }

  /** Fee test: with the toggle on only the literal zero-fee texts pass. */
  predicate MatchesZeroFee(card: Card, zeroFeeOnly: bool) {
    !zeroFeeOnly || (card.annualFee.Some? && card.annualFee.value in ZeroFees)
  }

  /** A card is shown when all three tests pass. */
  predicate Matches(card: Card, f: FilterSpec) {
    MatchesSearch(card, f.searchTerm)
      && MatchesCategory(card, f.category)
      && MatchesZeroFee(card, f.zeroFeeOnly)
  }

  /** The meaning of a card passing the filter, with containment stated as
      "some position holds the lower-cased term". */
  lemma MatchesMeaning(card: Card, f: FilterSpec)
    ensures Matches(card, f) <==>
      (IsSubstring(Lower(f.searchTerm), Lower(NameOrEmpty(card.productName)))
         || IsSubstring(Lower(f.searchTerm), Lower(NameOrEmpty(card.institutionName))))
      && (f.category == "All" || card.rewardType == Some(f.category))
      && (!f.zeroFeeOnly || card.annualFee in {Some("$0"), Some("0"), Some("")})
  {
    ContainsIsSubstring(Lower(f.searchTerm), Lower(NameOrEmpty(card.productName)));
    ContainsIsSubstring(Lower(f.searchTerm), Lower(NameOrEmpty(card.institutionName)));
  }

  /** An empty search term matches every card, missing names included. */
  lemma EmptyTermMatchesEveryCard(card: Card)
    ensures MatchesSearch(card, "")
  {
  }

  /** A card without either name passes the text test only for the empty term:
      the missing names never cause an error, they just never match. */
  lemma MissingNamesMatchOnlyEmptyTerm(card: Card, term: string)
    requires card.productName.None? && card.institutionName.None?
    ensures MatchesSearch(card, term) <==> term == ""
  {
  }

  /** The text test ignores ASCII case on both sides. */
  lemma SearchIgnoresCase(card: Card, term: string)
    ensures MatchesSearch(card, term) <==> MatchesSearch(card, Lower(term))
  {
    LowerIdempotent(term);
  }

  /** "All" never excludes a card; any other category needs exact equality. */
  lemma CategoryTest(card: Card, category: string)
    ensures MatchesCategory(card, "All")
    ensures category != "All" ==> (MatchesCategory(card, category) <==> card.rewardType == Some(category))
  {
  }

  /** With the toggle on, exactly "$0", "0" and "" pass; with it off, every fee. */
  lemma ZeroFeeTest(card: Card)
    ensures MatchesZeroFee(card, false)
    ensures MatchesZeroFee(card, true) <==>
      card.annualFee == Some("$0") || card.annualFee == Some("0") || card.annualFee == Some("")
  {
  }

  /** `r` keeps some elements of `s` in their original order. */
  ghost predicate IsSubsequence(r: seq<Card>, s: seq<Card>)
    decreases |s|
  {
    if r == [] then true
    else if s == [] then false
    else (r[0] == s[0] && IsSubsequence(r[1..], s[1..])) || IsSubsequence(r, s[1..])
  }

  /** The cards of `data` that pass `f`, in catalog order (`data.filter`). */
  function Filter(data: seq<Card>, f: FilterSpec): (r: seq<Card>)
    ensures IsSubsequence(r, data)
    ensures forall i :: 0 <= i < |r| ==> Matches(r[i], f)
  {
    if data == [] then []
    else
      var rest := Filter(data[1..], f);
      assert data == [data[0]] + data[1..];
      if Matches(data[0], f) then
        assert ([data[0]] + rest)[1..] == rest;
        [data[0]] + rest
      else rest
  }

  /** Every passing occurrence is kept and no failing one: the result holds
      each card as often as the catalog does if it passes, and never otherwise. */
  lemma {:induction false} FilterCounts(data: seq<Card>, f: FilterSpec, c: Card)
    ensures multiset(Filter(data, f))[c] == if Matches(c, f) then multiset(data)[c] else 0
  {
    if data != [] {
      FilterCounts(data[1..], f, c);
      assert data == [data[0]] + data[1..];
    }
  }

  /** A card is in the result exactly when it is in the catalog and passes. */
  lemma FilterMembership(data: seq<Card>, f: FilterSpec, c: Card)
    ensures c in Filter(data, f) <==> c in data && Matches(c, f)
  {
  }

  /** Filtering distributes over concatenation of catalogs. */
  lemma {:induction false} FilterAppend(a: seq<Card>, b: seq<Card>, f: FilterSpec)
    ensures Filter(a + b, f) == Filter(a, f) + Filter(b, f)
  {
    if a == [] {
      assert a + b == b;
    } else {
      assert (a + b)[0] == a[0];
      assert (a + b)[1..] == a[1..] + b;
      FilterAppend(a[1..], b, f);
    }
  }

  /** Filtering twice with the same filter is filtering once. */
  lemma {:induction false} FilterIdempotent(data: seq<Card>, f: FilterSpec)
    ensures Filter(Filter(data, f), f) == Filter(data, f)
  {
    if data != [] {
      FilterIdempotent(data[1..], f);
    }
  }

  /** The initial page filter (empty term, "All", toggle off) shows every card. */
  lemma {:induction false} DefaultFilterKeepsAll(data: seq<Card>)
    ensures Filter(data, FilterSpec("", "All", false)) == data
  {
    if data != [] {
      DefaultFilterKeepsAll(data[1..]);
      assert data == [data[0]] + data[1..];
    }
  }

  /** Switching the zero-fee toggle on never adds a card. */
  lemma ZeroFeeNarrows(data: seq<Card>, term: string, category: string)
    ensures multiset(Filter(data, FilterSpec(term, category, true)))
      <= multiset(Filter(data, FilterSpec(term, category, false)))
  {
    var on, off := FilterSpec(term, category, true), FilterSpec(term, category, false);
    forall c
      ensures multiset(Filter(data, on))[c] <= multiset(Filter(data, off))[c]
    {
      FilterCounts(data, FilterSpec(term, category, true), c);
      FilterCounts(data, FilterSpec(term, category, false), c);
    }
  }

  /** One step of the filter: the head is kept exactly when it passes. */
  lemma FilterCons(c: Card, rest: seq<Card>, f: FilterSpec)
    ensures Filter([c] + rest, f) == if Matches(c, f) then [c] + Filter(rest, f) else Filter(rest, f)
  {
    assert ([c] + rest)[1..] == rest;
  }

  /** Five cards of which the first, third and fifth pass come out as exactly
      those three, in that order. */
  lemma KeepsOrder(c1: Card, c2: Card, c3: Card, c4: Card, c5: Card, f: FilterSpec)
    requires Matches(c1, f) && Matches(c3, f) && Matches(c5, f)
    requires !Matches(c2, f) && !Matches(c4, f)
    ensures Filter([c1, c2, c3, c4, c5], f) == [c1, c3, c5]
  {
    FilterCons(c5, [], f);
    assert Filter([c5], f) == [c5];
    FilterCons(c4, [c5], f);
    assert Filter([c4, c5], f) == [c5];
    FilterCons(c3, [c4, c5], f);
    assert Filter([c3, c4, c5], f) == [c3, c5];
    FilterCons(c2, [c3, c4, c5], f);
    assert Filter([c2, c3, c4, c5], f) == [c3, c5];
    FilterCons(c1, [c2, c3, c4, c5], f);
    assert [c1] + [c2, c3, c4, c5] == [c1, c2, c3, c4, c5];
    assert [c1] + [c3, c5] == [c1, c3, c5];
  }
}
