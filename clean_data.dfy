/** The per-row rules of the spreadsheet cleaner: the `is_student` and
    `accepts_itin` flags, the `Reward_Type` category, the columns it keeps and
    the outcomes of one run over a sheet that has already been read. */
module CleanData {
  import opened Text

  /** A spreadsheet cell as read: text, or blank (pandas' NaN). */
  type Cell = Option<string>

  /** A sheet after reading: its column names and its rows of cells. */
  datatype Sheet = Sheet(columns: seq<string>, rows: seq<seq<Cell>>)

  /** One row of the cleaned output, field by field in output-column order. */
  datatype CleanedRow = CleanedRow(
    institutionName: Cell,
    productName: Cell,
    state: Cell,
    annualFee: Cell,
    rewards: Cell,
    isStudent: bool,
    acceptsItin: bool,
    rewardType: string)

  /** What one run of the cleaner ends with. */
  datatype Outcome =
    | InputMissing                  // no input file: nothing is read or written
    | ReadFailed                    // the spreadsheet reader raised
    | MissingColumn(name: string)   // a kept column is absent: the selection raises
    | Written(columns: seq<string>, rows: seq<CleanedRow>)

  const BaseColumns: seq<string> := ["Institution Name", "Product Name", "State", "Annual Fee", "Rewards"]

  const OutputColumns: seq<string> := BaseColumns + ["is_student", "accepts_itin", "Reward_Type"]

  /** The text of a cell after conversion to string: a blank cell reads "nan". */
  function CellText(c: Cell): string {
    match c
    case None => "nan"
    case Some(s) => s
  }

  /** The text of a boolean cell after conversion to string. */
  function BoolText(b: bool): string {
    if b then "True" else "False"
  }

  /** The texts of all cells of a row. */
  function RowTexts(cells: seq<Cell>): (r: seq<string>)
    ensures |r| == |cells|
  {
    seq(|cells|, i requires 0 <= i < |cells| => CellText(cells[i]))
  }

  /** Some field contains `pattern`, ignoring ASCII case. */
  function AnyFieldContains(fields: seq<string>, pattern: string): (b: bool)
    ensures b <==> exists i :: 0 <= i < |fields| && IsSubstring(Lower(pattern), Lower(fields[i]))
  {
    if fields == [] then false
    else
      ContainsIsSubstring(Lower(pattern), Lower(fields[0]));
      var rest := AnyFieldContains(fields[1..], pattern);
      assert forall i :: 1 <= i < |fields| ==> fields[i] == fields[1..][i - 1];
      ContainsIgnoringCase(pattern, fields[0]) || rest
  }

  /** The `is_student` flag: some cell of the row mentions "student" in any case. */
  function IsStudent(cells: seq<Cell>): bool {
    AnyFieldContains(RowTexts(cells), "Student")
  }

  /** The `accepts_itin` flag. It is computed after `is_student` has been added
      to the row, so the row it scans ends with that flag's text. */
  function AcceptsItin(cells: seq<Cell>, isStudent: bool): (b: bool)
    ensures b <==> exists i :: 0 <= i < |cells| && IsSubstring("itin", Lower(CellText(cells[i])))
  {
    var fields := RowTexts(cells);
    var all := fields + [BoolText(isStudent)];
    assert Lower("ITIN") == "itin";
    ItinIgnoresStudentFlag(isStudent);
    assert forall i :: 0 <= i < |fields| ==> all[i] == fields[i] == CellText(cells[i]);
    AnyFieldContains(all, "ITIN")
  }

  /** The Rewards text the category rule reads: a blank cell becomes "None". */
  function RewardsText(rewards: Cell): string {
    match rewards
    case None => "None"
    case Some(s) => s
  }

  /** The `Reward_Type` category, by case-sensitive containment with
      "Cashback" checked before "Travel". */
  function RewardType(rewards: Cell): (r: string)
    ensures r == "Cashback" || r == "Travel" || r == "General"
    ensures r == "Cashback" <==> IsSubstring("Cashback", RewardsText(rewards))
    ensures r == "Travel" <==>
      !IsSubstring("Cashback", RewardsText(rewards)) && IsSubstring("Travel", RewardsText(rewards))
  {
    var x := RewardsText(rewards);
    ContainsIsSubstring("Cashback", x);
    ContainsIsSubstring("Travel", x);
    if Contains("Cashback", x) then "Cashback"
    else if Contains("Travel", x) then "Travel"
    else "General"
  }

  /** The position of the first column called `name`, if any. */
  function ColumnIndex(columns: seq<string>, name: string): (r: Option<nat>)
    ensures r.None? <==> name !in columns
    ensures r.Some? ==>
      (r.value < |columns| && columns[r.value] == name
       && forall k :: 0 <= k < r.value ==> columns[k] != name)
  {
    if columns == [] then None
    else if columns[0] == name then Some(0)
    else match ColumnIndex(columns[1..], name)
      case None => None
      case Some(k) => Some(k + 1)
  }

  /** The first kept column the sheet lacks, if any. */
  function FirstMissing(columns: seq<string>, wanted: seq<string>): (r: Option<string>)
    ensures r.None? <==> forall w :: w in wanted ==> w in columns
    ensures r.Some? ==> r.value in wanted && r.value !in columns
  {
    if wanted == [] then None
    else if wanted[0] !in columns then Some(wanted[0])
    else FirstMissing(columns, wanted[1..])
  }

  /** The cell of `cells` under column `name`; blank where the row is short. */
  function CellAt(columns: seq<string>, cells: seq<Cell>, name: string): Cell {
    match ColumnIndex(columns, name)
    case None => None
    case Some(k) => if k < |cells| then cells[k] else None
  }

  /** One cleaned row: the five kept cells, then the two flags and the category. */
  function CleanRow(columns: seq<string>, cells: seq<Cell>): (r: CleanedRow)
    ensures r.institutionName == CellAt(columns, cells, "Institution Name")
    ensures r.productName == CellAt(columns, cells, "Product Name")
    ensures r.state == CellAt(columns, cells, "State")
    ensures r.annualFee == CellAt(columns, cells, "Annual Fee")
    ensures r.rewards == CellAt(columns, cells, "Rewards")
    ensures r.rewardType == RewardType(r.rewards)
    ensures r.isStudent <==>
      exists i :: 0 <= i < |cells| && IsSubstring("student", Lower(CellText(cells[i])))
    ensures r.acceptsItin <==>
      exists i :: 0 <= i < |cells| && IsSubstring("itin", Lower(CellText(cells[i])))
  {
    var student := IsStudent(cells);
    assert Lower("Student") == "student";
    assert forall i :: 0 <= i < |cells| ==> RowTexts(cells)[i] == CellText(cells[i]);
    CleanedRow(
      CellAt(columns, cells, "Institution Name"),
      CellAt(columns, cells, "Product Name"),
      CellAt(columns, cells, "State"),
      CellAt(columns, cells, "Annual Fee"),
      CellAt(columns, cells, "Rewards"),
      student,
      AcceptsItin(cells, student),
      RewardType(CellAt(columns, cells, "Rewards")))
  }

  /** One run of the cleaner, given whether the input file exists and what
      reading it gave (None when the reader raised). */
  function ProcessCards(fileExists: bool, read: Option<Sheet>): (o: Outcome)
    ensures o.InputMissing? <==> !fileExists
    ensures o.ReadFailed? <==> fileExists && read.None?
    ensures fileExists && read.Some? ==>
      (o.Written? <==> forall w :: w in BaseColumns ==> w in read.value.columns)
    ensures o.MissingColumn? ==>
      (fileExists && read.Some? && o.name in BaseColumns && o.name !in read.value.columns)
    ensures o.Written? ==>
      (fileExists && read.Some?
       && (forall w :: w in BaseColumns ==> w in read.value.columns)
       && o.columns == OutputColumns
       && |o.rows| == |read.value.rows|
       && forall i :: 0 <= i < |o.rows| ==> o.rows[i] == CleanRow(read.value.columns, read.value.rows[i]))
  {
    if !fileExists then InputMissing
    else if read.None? then ReadFailed
    else
      var sheet := read.value;
      match FirstMissing(sheet.columns, BaseColumns)
      case Some(name) => MissingColumn(name)
      case None =>
        Written(OutputColumns, seq(|sheet.rows|, i requires 0 <= i < |sheet.rows| => CleanRow(sheet.columns, sheet.rows[i])))
  }

  /** A blank Rewards cell reads "None" and so is classified "General". */
  lemma BlankRewardsIsGeneral()
    ensures RewardType(None) == "General"
  {
  }

  /** Rewards that name both "Cashback" and "Travel" are classified "Cashback". */
  lemma CashbackBeatsTravel(rewards: string)
    requires IsSubstring("Cashback", rewards) && IsSubstring("Travel", rewards)
    ensures RewardType(Some(rewards)) == "Cashback"
  {
  }

  /** The category rule is case-sensitive: "travel" in lower case is General. */
  lemma LowerCaseTravelIsGeneral(rewards: string)
    requires rewards == "2x points on travel"
    ensures RewardType(Some(rewards)) == "General"
  {
    AbsentByChar("Cashback", rewards, 0);
    AbsentByChar("Travel", rewards, 0);
  }

  /** The `is_student` text the row already holds when `accepts_itin` is
      computed, "True" or "False", never contains "ITIN" in any case, so that
      flag cannot raise `accepts_itin`. */
  lemma ItinIgnoresStudentFlag(isStudent: bool)
    ensures !IsSubstring(Lower("ITIN"), Lower(BoolText(isStudent)))
  {
    assert Lower("ITIN") == "itin";
    var flag := Lower(BoolText(isStudent));
    assert flag == if isStudent then "true" else "false";
    AbsentByChar("itin", flag, 0);
  }

  /** A blank cell never raises either flag: its text "nan" holds neither word. */
  lemma BlankCellRaisesNoFlag()
    ensures !IsSubstring("student", Lower(CellText(None)))
    ensures !IsSubstring("itin", Lower(CellText(None)))
  {
  }
}
