/** The intent translator of the card page: the filter that submitting a
    free-text prompt leaves behind. The page computes it by overwriting its
    three filter fields step by step (Page.Session.HandleAiSearch); Translate is
    the filter those steps end with. */
module Intent {
  import opened Text
  import opened Matcher

  /** The lower-cased prompt contains `keyword`. */
  ghost predicate Mentions(prompt: string, keyword: string) {
    IsSubstring(keyword, Lower(prompt))
  }

  /** The prompt asks for cards without an annual fee. */
  ghost predicate AsksNoFee(prompt: string) {
    Mentions(prompt, "budget") || Mentions(prompt, "no fee") || Mentions(prompt, "no ssn")
  }

  /** The prompt is about travel or points. */
  ghost predicate AsksTravel(prompt: string) {
    Mentions(prompt, "travel") || Mentions(prompt, "points")
  }

  /** The filter a prompt translates to. Every field starts from its default
      ("", "All", off); the fee rule and the topical rule then each set their
      own fields, and the last write wins. */
  function Translate(prompt: string): (f: FilterSpec)
    ensures f.zeroFeeOnly <==> AsksNoFee(prompt)
    ensures AsksTravel(prompt) ==> f.category == "Travel" && f.searchTerm == ""
    ensures !AsksTravel(prompt) && Mentions(prompt, "student") ==>
      f.category == "All" && f.searchTerm == "Student"
    ensures !AsksTravel(prompt) && !Mentions(prompt, "student") ==>
      f.category == "All" && f.searchTerm == prompt
  {
    var query := Lower(prompt);
    ContainsIsSubstring("budget", query);
    ContainsIsSubstring("no fee", query);
    ContainsIsSubstring("no ssn", query);
    ContainsIsSubstring("travel", query);
    ContainsIsSubstring("points", query);
    ContainsIsSubstring("student", query);
    var zeroFee := Contains("budget", query) || Contains("no fee", query) || Contains("no ssn", query);
    if Contains("travel", query) || Contains("points", query) then
      FilterSpec("", "Travel", zeroFee)
    else if Contains("student", query) then
      FilterSpec("Student", "All", zeroFee)
    else
      FilterSpec(prompt, "All", zeroFee)
  }

  /** Exactly one topical outcome: travel, student, or the raw prompt. */
  lemma OneTopicalBranch(prompt: string)
    ensures var f := Translate(prompt);
      (f.category == "Travel" && f.searchTerm == "")
        || (f.category == "All" && f.searchTerm == "Student")
        || (f.category == "All" && f.searchTerm == prompt)
    ensures Translate(prompt).category == "Travel" <==> AsksTravel(prompt)
  {
  }

  /** A travel prompt lists only cards whose reward type is exactly "Travel". */
  lemma TravelPromptShowsTravelCards(data: seq<Card>, prompt: string, c: Card)
    requires AsksTravel(prompt)
    ensures c in Filter(data, Translate(prompt)) ==> c.rewardType == Some("Travel")
  {
  }

  /** The fee flag and the category read the prompt case-insensitively: two
      prompts that agree after lower-casing agree on both. */
  lemma KeywordsIgnoreCase(p: string, q: string)
    requires Lower(p) == Lower(q)
    ensures Translate(p).zeroFeeOnly == Translate(q).zeroFeeOnly
    ensures Translate(p).category == Translate(q).category
  {
  }

  /** Which keywords the lower-cased placeholder prompt holds. */
  lemma PlaceholderKeywords(q: string)
    requires q == "i am a student and i dont have a ssn"
    ensures !IsSubstring("budget", q) && !IsSubstring("no fee", q) && !IsSubstring("no ssn", q)
    ensures !IsSubstring("travel", q) && !IsSubstring("points", q) && IsSubstring("student", q)
  {
    AbsentByChar("budget", q, 0);
    AbsentByChar("no fee", q, 3);
    AbsentByPair("no ssn", q, 0);
    AbsentByChar("travel", q, 1);
    AbsentByChar("points", q, 0);
    OccursAtChars("student", q, 7);
  }

  /** The page's own placeholder prompt. It mentions "student", so the search
      term becomes "Student"; it says "dont have a ssn", not "no ssn", so the
      zero-fee toggle stays off. */
  lemma PlaceholderPrompt(p: string)
    requires p == "I am a student and I dont have a ssn"
    ensures Translate(p) == FilterSpec("Student", "All", false)
  {
    assert Lower(p) == "i am a student and i dont have a ssn";
    PlaceholderKeywords(Lower(p));
    assert !AsksNoFee(p) && !AsksTravel(p) && Mentions(p, "student");
  }

  /** A travel-and-points prompt selects the Travel category with no term. */
  lemma TravelPrompt(p: string)
    requires p == "best travel points card"
    ensures Translate(p) == FilterSpec("", "Travel", false)
  {
    AbsentByChar("budget", p, 3);
    AbsentByChar("no fee", p, 3);
    AbsentByPair("no ssn", p, 0);
    OccursAtChars("travel", p, 5);
    assert Lower(p) == p;
    assert !AsksNoFee(p) && AsksTravel(p);
  }

  /** A prompt without any keyword becomes the search term unchanged. */
  lemma PlainPrompt(p: string)
    requires p == "Chase Sapphire"
    ensures Translate(p) == FilterSpec("Chase Sapphire", "All", false)
  {
    var q := "chase sapphire";
    AbsentByChar("budget", q, 0);
    AbsentByChar("no fee", q, 0);
    AbsentByChar("no ssn", q, 0);
    AbsentByChar("travel", q, 0);
    AbsentByChar("points", q, 1);
    AbsentByChar("student", q, 1);
    assert Lower(p) == q;
    assert !AsksNoFee(p) && !AsksTravel(p) && !Mentions(p, "student");
  }

  /** A budget prompt about students turns the toggle on and searches "Student". */
  lemma BudgetStudentPrompt(p: string)
    requires p == "Budget card for a Student"
    ensures Translate(p) == FilterSpec("Student", "All", true)
  {
    var q := "budget card for a student";
    OccursAtChars("budget", q, 0);
    AbsentByChar("travel", q, 3);
    AbsentByChar("points", q, 0);
    OccursAtChars("student", q, 18);
    assert Lower(p) == q;
    assert AsksNoFee(p) && !AsksTravel(p) && Mentions(p, "student");
  }
}
