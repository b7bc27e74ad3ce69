/** The hand-off from the cleaner to the page: the cleaned rows are written as
    CSV and the page parses them back, header-keyed, into cards. A blank cell is
    written as an empty field and read back as "", and the cleaned file has no
    Apply_Link column, so every loaded card lacks an apply link. */
module Pipeline {
  import opened Text
  import opened Matcher
  import opened CleanData

  /** A cell as the page reads it back: a blank cell is the empty string. */
  function FieldText(c: Cell): string {
    match c
    case None => ""
    case Some(s) => s
  }

  /** The card the page builds from one cleaned row. */
  function Loaded(row: CleanedRow): Card {
    Card(
      Some(FieldText(row.institutionName)),
      Some(FieldText(row.productName)),
      Some(row.rewardType),
      Some(FieldText(row.rewards)),
      Some(FieldText(row.annualFee)),
      None)
  }

  /** The catalog the page holds after loading the cleaned file. */
  function LoadAll(rows: seq<CleanedRow>): (cards: seq<Card>)
    ensures |cards| == |rows|
    ensures forall i :: 0 <= i < |rows| ==> cards[i] == Loaded(rows[i])
  {
    seq(|rows|, i requires 0 <= i < |rows| => Loaded(rows[i]))
  }

  /** A cleaned row classified "Travel" has Rewards text that says "Travel"
      and not "Cashback". */
  lemma TravelRowRewards(row: CleanedRow)
    requires row.rewardType == RewardType(row.rewards) && row.rewardType == "Travel"
    ensures row.rewards.Some?
    ensures IsSubstring("Travel", row.rewards.value) && !IsSubstring("Cashback", row.rewards.value)
  {
  }

  /** Every row the cleaner writes carries the category of its own Rewards cell. */
  lemma WrittenRowsAreClassified(fileExists: bool, read: Option<Sheet>)
    requires ProcessCards(fileExists, read).Written?
    ensures forall row :: row in ProcessCards(fileExists, read).rows ==>
      row.rewardType == RewardType(row.rewards)
  {
  }

  /** Under the "Travel" category the page lists only cards whose Rewards text
      says "Travel" (with that capital T) and does not say "Cashback": the
      cleaner's category rule decides what the page's Travel filter can show. */
  lemma TravelCardsHaveTravelRewards(rows: seq<CleanedRow>, f: FilterSpec, c: Card)
    requires forall row :: row in rows ==> row.rewardType == RewardType(row.rewards)
    requires f.category == "Travel"
    requires c in Filter(LoadAll(rows), f)
    ensures c.rewards.Some?
    ensures IsSubstring("Travel", c.rewards.value) && !IsSubstring("Cashback", c.rewards.value)
  {
    var cards := LoadAll(rows);
    FilterMembership(cards, f, c);
    var i :| 0 <= i < |cards| && cards[i] == c;
    assert c == Loaded(rows[i]) && c.rewardType == Some("Travel");
    TravelRowRewards(rows[i]);
  }

  /** A blank Annual Fee cell is read back as "" and therefore passes the
      zero-fee test: an unknown fee is shown as a zero fee. */
  lemma BlankFeeCountsAsZero(row: CleanedRow)
    requires row.annualFee.None?
    ensures MatchesZeroFee(Loaded(row), true)
  {
  }

  /** A loaded card always has both names, so the text test reads them as
      written and the empty-name default is never needed for cleaned data. */
  lemma LoadedCardsHaveNames(rows: seq<CleanedRow>, c: Card)
    requires c in LoadAll(rows)
    ensures c.institutionName.Some? && c.productName.Some? && c.rewardType.Some?
  {
  }
}
