/** The state of the card page and the event handlers that change it: the
    loaded catalog, the three filter fields, the prompt being typed and whether
    the prompt screen ("AI mode") or the results screen is shown. */
module Page {
  import opened Text
  import opened Matcher
  import opened Intent

  class Session {
    var data: seq<Card>
    var searchTerm: string
    var selectedCategory: string
    var showZeroFees: bool
    var aiPrompt: string
    var isAiMode: bool

    /** The filter the three filter fields currently spell. */
    function CurrentFilter(): FilterSpec
      reads this
    {
      FilterSpec(searchTerm, selectedCategory, showZeroFees)
    }

    /** The cards the results screen lists. */
    function FilteredCards(): (r: seq<Card>)
      reads this
      ensures forall c :: c in r <==> c in data && Matches(c, CurrentFilter())
    {
      var r := Filter(data, CurrentFilter());
      forall c ensures c in r <==> c in data && Matches(c, CurrentFilter()) {
        FilterMembership(data, CurrentFilter(), c);
      }
      r
    }

    /** The page opens on the prompt screen with an empty catalog and the
        neutral filter. */
    constructor ()
      ensures data == [] && aiPrompt == "" && isAiMode
      ensures CurrentFilter() == FilterSpec("", "All", false)
    {
      data := [];
      searchTerm := "";
      selectedCategory := "All";
      showZeroFees := false;
      aiPrompt := "";
      isAiMode := true;
    }

    /** The parsed catalog arrives and replaces the (empty) card list. */
    method Load(rows: seq<Card>)
      modifies this
      ensures data == rows
      ensures CurrentFilter() == old(CurrentFilter())
      ensures aiPrompt == old(aiPrompt) && isAiMode == old(isAiMode)
    {
      data := rows;
    }

    /** Typing in the prompt box. */
    method EditPrompt(text: string)
      modifies this
      ensures aiPrompt == text
      ensures data == old(data) && CurrentFilter() == old(CurrentFilter())
      ensures isAiMode == old(isAiMode)
    {
      aiPrompt := text;
    }

    /** Submitting the prompt: the filter is rebuilt from the prompt alone,
        whatever it was before, and the page switches to the results screen. */
    method HandleAiSearch()
      modifies this
      ensures CurrentFilter() == Translate(old(aiPrompt))
      ensures !isAiMode
      ensures data == old(data) && aiPrompt == old(aiPrompt)
    {
      var query := Lower(aiPrompt);
      searchTerm := "";
      selectedCategory := "All";
      showZeroFees := false;
      if Contains("budget", query) || Contains("no fee", query) || Contains("no ssn", query) {
        showZeroFees := true;
      }
      if Contains("travel", query) || Contains("points", query) {
        selectedCategory := "Travel";
      } else if Contains("student", query) {
        searchTerm := "Student";
      } else {
        searchTerm := aiPrompt;
      }
      isAiMode := false;
    }

    /** A key press in the prompt box submits only on Enter. */
    method PromptKeyPress(key: string)
      modifies this
      ensures key == "Enter" ==> CurrentFilter() == Translate(old(aiPrompt)) && !isAiMode
      ensures key != "Enter" ==>
        CurrentFilter() == old(CurrentFilter()) && isAiMode == old(isAiMode)
      ensures data == old(data) && aiPrompt == old(aiPrompt)
    {
      if key == "Enter" {
        HandleAiSearch();
      }
    }

    /** The brand, the Home link and the Back button all return to the prompt
        screen and leave the filter, prompt and catalog as they are. */
    method ReturnToPrompt()
      modifies this
      ensures isAiMode
      ensures CurrentFilter() == old(CurrentFilter())
      ensures data == old(data) && aiPrompt == old(aiPrompt)
    {
      isAiMode := true;
    }
  }

  /** Submitting the same prompt from two different page states leaves the
      same filter and the same result list: the previous filter plays no part. */
  method SubmitForgetsPreviousFilter(s1: Session, s2: Session)
    requires s1 != s2
    requires s1.aiPrompt == s2.aiPrompt && s1.data == s2.data
    modifies s1, s2
    ensures s1.CurrentFilter() == s2.CurrentFilter()
    ensures s1.FilteredCards() == s2.FilteredCards()
    ensures !s1.isAiMode && !s2.isAiMode
  {
    s1.HandleAiSearch();
    s2.HandleAiSearch();
  }
}
