/**
  PostgreSQLLocationsDataProvider: the string-building core of the PostgreSQL provider of
  the locations (points of interest) service. It chooses the result columns from a request's
  detail flags, renders a request's search filter as an SQL condition, and aggregates the
  per-category counts a category query returns into per-group statistics. Connections,
  statements and result sets are not modelled: the rows a query returns are an input.
*/
module PostgreSQLLocationsDataProvider {
  import opened Wrappers
  import opened JavaLang
  import opened Locations
  import Exceptions

  /** The exceptions the modelled code throws. */
  datatype ProviderError =
    /** new InternalServerException(errorCode, message). */
    | InternalServerError(errorCode: int, message: string)
    /** What findCategories throws for any failure while reading the rows. */
    | DataRetrievalFailed
    /** Reading element 0 of an empty Java array. */
    | ArrayIndexOutOfBounds

  const DATA_RETRIEVAL_MESSAGE: string := "Unable to retrieve data from the data source."

  // =======================================================================================
  // Result columns

  /** _geomColumnIndex: where the geometry column sits in every column list. */
  const GEOM_COLUMN_INDEX: nat := 3

  /** The number of slots of COLUMNS_INFO, one per combination of the three flags. */
  const COLUMNS_INFO_SLOTS: nat := 8

  const BASE_COLUMNS: seq<string> := ["osm_id", "category", "name", "geom"]

  const DISTANCE_COLUMN: string := "distance"

  /** The order in which getColumnNames tests the flags. */
  const FLAG_ORDER: seq<DetailFlag> := [Address, Contact, Attributes]

  /** The columns each detail flag adds. */
  function FlagColumns(flag: DetailFlag): seq<string> {
    match flag
    case Address => ["address"]
    case Contact => ["phone", "website"]
    case Attributes => ["opening_hours", "wheelchair", "smoking", "fee"]
  }

  /** The columns of the flags among flags that are set in details, in that order. */
  function SelectedColumns(details: Int32, flags: seq<DetailFlag>): seq<string> {
    if |flags| == 0 then []
    else (if IsSet(details, flags[0]) then FlagColumns(flags[0]) else []) + SelectedColumns(details, flags[1..])
  }

  /** The column list for details: the base columns, each set flag's columns, then the distance. */
  function ColumnNames(details: Int32): seq<string> {
    BASE_COLUMNS + SelectedColumns(details, FLAG_ORDER) + [DISTANCE_COLUMN]
  }

  /** getColumnNames(details), which appends the columns one by one to a list. */
  method GetColumnNames(details: Int32) returns (res: seq<string>)
    ensures res == ColumnNames(details)
  {
    res := [];
    res := res + ["osm_id"];
    res := res + ["category"];
    res := res + ["name"];
    res := res + ["geom"];
    assert res == BASE_COLUMNS;
    ghost var before := res;
    if IsSet(details, Address) {
      res := res + ["address"];
    }
    assert res == before + (if IsSet(details, Address) then ["address"] else []);
    before := res;
    if IsSet(details, Contact) {
      res := res + ["phone"];
      res := res + ["website"];
      assert res == before + ["phone", "website"];
    }
    assert res == before + (if IsSet(details, Contact) then ["phone", "website"] else []);
    before := res;
    if IsSet(details, Attributes) {
      res := res + ["opening_hours"];
      res := res + ["wheelchair"];
      res := res + ["smoking"];
      res := res + ["fee"];
      AppendFour(before, "opening_hours", "wheelchair", "smoking", "fee");
    }
    assert res == before + (if IsSet(details, Attributes) then ["opening_hours", "wheelchair", "smoking", "fee"] else []);
    res := res + ["distance"];
    SelectedColumnsInOrder(details);
  }

  /** Appending four items one at a time appends the four of them. */
  lemma AppendFour(s: seq<string>, a: string, b: string, c: string, d: string)
    ensures s + [a] + [b] + [c] + [d] == s + [a, b, c, d]
  {
  }

  /** The optional columns of a details value, spelled out flag by flag. */
  lemma SelectedColumnsInOrder(details: Int32)
    ensures SelectedColumns(details, FLAG_ORDER) ==
            (if IsSet(details, Address) then ["address"] else [])
            + (if IsSet(details, Contact) then ["phone", "website"] else [])
            + (if IsSet(details, Attributes) then ["opening_hours", "wheelchair", "smoking", "fee"] else [])
  {
    assert FLAG_ORDER[1..] == [Contact, Attributes];
    assert FLAG_ORDER[1..][1..] == [Attributes];
    assert SelectedColumns(details, [Attributes]) ==
           (if IsSet(details, Attributes) then FlagColumns(Attributes) else []);
  }

  /**
    Every column list begins with osm_id, category, name and geom (so geom sits at
    _geomColumnIndex) and ends with distance; between them come address when ADDRESS is
    set, phone and website when CONTACT is set, and opening_hours, wheelchair, smoking and
    fee when ATTRIBUTES is set, in that order.
  */
  lemma ColumnNamesLayout(details: Int32)
    ensures ColumnNames(details) ==
            ["osm_id", "category", "name", "geom"]
            + (if IsSet(details, Address) then ["address"] else [])
            + (if IsSet(details, Contact) then ["phone", "website"] else [])
            + (if IsSet(details, Attributes) then ["opening_hours", "wheelchair", "smoking", "fee"] else [])
            + ["distance"]
    ensures |ColumnNames(details)| ==
            5 + (if IsSet(details, Address) then 1 else 0) + (if IsSet(details, Contact) then 2 else 0)
            + (if IsSet(details, Attributes) then 4 else 0)
    ensures ColumnNames(details)[..4] == BASE_COLUMNS
    ensures ColumnNames(details)[GEOM_COLUMN_INDEX] == "geom"
    ensures ColumnNames(details)[|ColumnNames(details)| - 1] == DISTANCE_COLUMN
  {
    SelectedColumnsInOrder(details);
  }

  /** Each flag's columns are present exactly when the flag is set. */
  lemma ColumnsPresentIffFlagSet(details: Int32)
    ensures "address" in ColumnNames(details) <==> IsSet(details, Address)
    ensures "phone" in ColumnNames(details) <==> IsSet(details, Contact)
    ensures "opening_hours" in ColumnNames(details) <==> IsSet(details, Attributes)
  {
    ColumnNamesLayout(details);
  }

  /** Reads the detail flags back from a column list. */
  function DetailsOfColumns(columns: seq<string>): int {
    (if "address" in columns then 1 else 0)
    + (if "phone" in columns then 2 else 0)
    + (if "opening_hours" in columns then 4 else 0)
  }

  /**
    Each slot of COLUMNS_INFO determines its index: reading the flags back from the
    column list gives the details value, so the eight lists are pairwise different.
  */
  lemma ColumnNamesDetermineDetails(details: Int32)
    requires 0 <= details < COLUMNS_INFO_SLOTS
    ensures DetailsOfColumns(ColumnNames(details)) == details
  {
    ColumnsPresentIffFlagSet(details);
    FlagBitsSum(details);
  }

  /** A details value from 0 to 7 is the sum of the values of its set flags. */
  lemma FlagBitsSum(details: Int32)
    requires 0 <= details < COLUMNS_INFO_SLOTS
    ensures (if IsSet(details, Address) then 1 else 0) + (if IsSet(details, Contact) then 2 else 0)
            + (if IsSet(details, Attributes) then 4 else 0) == details
  {
    if details < 4 {
      assert !IsSet(details, Attributes);
    } else {
      assert IsSet(details, Attributes);
    }
  }

  lemma ColumnsInfoSlotsDiffer(i: Int32, j: Int32)
    requires 0 <= i < COLUMNS_INFO_SLOTS && 0 <= j < COLUMNS_INFO_SLOTS && i != j
    ensures ColumnNames(i) != ColumnNames(j)
  {
    ColumnNamesDetermineDetails(i);
    ColumnNamesDetermineDetails(j);
  }

  /** The list the static initialiser writes to COLUMNS_INFO[0] before its loop. */
  const EXPLICIT_FIRST_ENTRY: seq<string> := ["osm_id", "category", "name", "geom", "distance"]

  /** The explicit first entry is the list for details 0, so the loop's overwrite of it changes nothing. */
  lemma ExplicitFirstEntryIsDetailsZero()
    ensures EXPLICIT_FIRST_ENTRY == ColumnNames(0)
  {
    ColumnNamesLayout(0);
  }

  /** The static initialiser of COLUMNS_INFO: one column list per details value 0 to 7. */
  method BuildColumnsInfo() returns (columnsInfo: array<seq<string>>)
    ensures fresh(columnsInfo) && columnsInfo.Length == COLUMNS_INFO_SLOTS
    ensures forall i :: 0 <= i < COLUMNS_INFO_SLOTS ==> columnsInfo[i] == ColumnNames(i)
  {
    columnsInfo := new seq<string>[COLUMNS_INFO_SLOTS];
    columnsInfo[0] := EXPLICIT_FIRST_ENTRY;
    for i := 0 to COLUMNS_INFO_SLOTS
      invariant forall k :: 0 <= k < i ==> columnsInfo[k] == ColumnNames(k)
    {
      var names := GetColumnNames(i);
      columnsInfo[i] := names;
    }
  }

  // =======================================================================================
  // addConditions

  /** addConditions(condition1, condition2): condition2 alone when condition1 is empty, else both joined by AND. */
  function AddConditions(isEmpty: JString -> bool, condition1: string, condition2: string): (r: string)
    requires IsEmptySpec(isEmpty)
    ensures condition1 == "" ==> r == condition2
    ensures !IsBlank(condition1) ==> r == condition1 + " AND " + condition2
    ensures r == condition2 || r == condition1 + " AND " + condition2
  {
    if !isEmpty(Some(condition1)) then condition1 + " AND " + condition2 else condition2
  }

  // =======================================================================================
  // fixStringValues

  function Quote(s: string): string {
    "'" + s + "'"
  }

  /** Each part trimmed and put in single quotes. */
  function QuotedParts(parts: seq<string>): (r: seq<string>)
    ensures |r| == |parts| && forall i :: 0 <= i < |parts| ==> r[i] == Quote(Trim(parts[i]))
  {
    seq(|parts|, i requires 0 <= i < |parts| => Quote(Trim(parts[i])))
  }

  /**
    What fixStringValues returns. For several values: the comma-separated fields of value,
    each trimmed and quoted, joined by commas. For one value: value itself when it holds a
    quote after its first character, otherwise value in quotes.
  */
  function FixedStringValues(value: string, multipleValues: bool): string {
    if multipleValues then Join(",", QuotedParts(Split(value, ',')))
    else if IndexOf(value, '\'') > 0 then value
    else Quote(value)
  }

  /** fixStringValues(value, multipleValues), which builds the list in an index loop. */
  method FixStringValues(value: string, multipleValues: bool) returns (result: string)
    ensures result == FixedStringValues(value, multipleValues)
  {
    if multipleValues {
      var values := Split(value, ',');
      result := QuoteAll(values);
    } else {
      if IndexOf(value, '\'') > 0 {
        result := value;
      } else {
        result := "'" + value + "'";
      }
    }
  }

  /** The loop of fixStringValues over the fields: each trimmed and quoted, a comma between two. */
  method QuoteAll(values: seq<string>) returns (result: string)
    ensures result == Join(",", QuotedParts(values))
  {
    result := "";
    var nValues := |values|;
    ghost var quoted := QuotedParts(values);
    for i := 0 to nValues
      invariant result == Join(",", quoted[..i]) + (if 0 < i < nValues then "," else "")
    {
      var item := "'" + Trim(values[i]) + "'";
      assert item == quoted[i];
      ghost var before := result;
      JoinLoopStep(",", quoted, i, before);
      result := result + item;
      if i < nValues - 1 {
        result := result + ",";
      }
      assert result == before + item + (if i < nValues - 1 then "," else "");
    }
    assert quoted[..nValues] == quoted;
  }

  /** A single value is returned unchanged exactly when its first quote comes after its first character; otherwise it is quoted. */
  lemma SingleValueQuoting(value: string)
    ensures FixedStringValues(value, false) == value <==> (|value| > 0 && value[0] != '\'' && '\'' in value)
    ensures FixedStringValues(value, false) != value ==> FixedStringValues(value, false) == "'" + value + "'"
  {
    IndexOfPositive(value, '\'');
  }

  /** A string whose first character is not a comma has at least one field. */
  lemma SplitNonEmpty(value: string)
    requires |value| > 0 && value[0] != ','
    ensures |Split(value, ',')| >= 1
  {
    if ',' in value {
      var fields := SplitFields(value, ',');
      assert fields[0] != "";
    }
  }

  /**
    The quoted list has one item per field of value: splitting it at its commas gives back
    exactly the trimmed, quoted fields, in order.
  */
  lemma MultipleValuesRoundTrip(value: string)
    requires |Split(value, ',')| >= 1
    ensures Split(FixedStringValues(value, true), ',') == QuotedParts(Split(value, ','))
    ensures |Split(FixedStringValues(value, true), ',')| == |Split(value, ',')|
  {
    var parts := Split(value, ',');
    var quoted := QuotedParts(parts);
    SplitFieldsAreSeparatorFree(value, ',');
    forall i | 0 <= i < |quoted| ensures ',' !in quoted[i] {
      TrimKeepsAbsent(parts[i], ',');
    }
    assert quoted[|quoted| - 1] != "";
    SplitOfJoin(quoted, ',');
  }

  // =======================================================================================
  // buildCategoryIdsFilter

  /** The decimal form of each id. */
  function IdStrings(ids: seq<Int32>): (r: seq<string>)
    ensures |r| == |ids| && forall i :: 0 <= i < |ids| ==> r[i] == IntToString(ids[i])
  {
    seq(|ids|, i requires 0 <= i < |ids| => IntToString(ids[i]))
  }

  /** ArraysUtility.toString(ids, ", "): the ids in decimal, separated by a comma and a space. */
  function IdList(ids: seq<Int32>): string {
    Join(", ", IdStrings(ids))
  }

  const CATEGORY_EQUALS: string := " category = "
  const CATEGORY_IN: string := " category IN ("

  /** buildCategoryIdsFilter(ids): "" for null, an equality for one id, an IN list otherwise. */
  function BuildCategoryIdsFilter(ids: Option<seq<Int32>>): string {
    if ids.None? then ""
    else if |ids.value| == 1 then CATEGORY_EQUALS + IntToString(ids.value[0])
    else CATEGORY_IN + IdList(ids.value) + ")"
  }

  /** Reads the ids back out of the text between the parentheses of an IN list. */
  function ParseIdList(list: string): seq<int> {
    if list == "" then []
    else
      var fields := Split(list, ',');
      seq(|fields|, i requires 0 <= i < |fields| => ParseInt(Trim(fields[i])))
  }

  /** Reads the ids back out of a category filter. */
  function ParseCategoryIdsFilter(filter: string): seq<int> {
    if |filter| >= |CATEGORY_EQUALS| && filter[..|CATEGORY_EQUALS|] == CATEGORY_EQUALS then
      [ParseInt(filter[|CATEGORY_EQUALS|..])]
    else if |filter| >= |CATEGORY_IN| + 1 && filter[..|CATEGORY_IN|] == CATEGORY_IN then
      ParseIdList(filter[|CATEGORY_IN|..|filter| - 1])
    else []
  }

  /** Each string with a space in front. */
  function SpaceEach(parts: seq<string>): (r: seq<string>)
    ensures |r| == |parts| && forall i :: 0 <= i < |parts| ==> r[i] == " " + parts[i]
  {
    seq(|parts|, i requires 0 <= i < |parts| => " " + parts[i])
  }

  lemma {:induction false} JoinSpaced(parts: seq<string>)
    requires |parts| >= 1
    ensures Join(",", SpaceEach(parts)) == " " + Join(", ", parts)
  {
    if |parts| >= 2 {
      assert SpaceEach(parts)[1..] == SpaceEach(parts[1..]);
      JoinSpaced(parts[1..]);
    }
  }

  /** A list separated by ", " is the list separated by "," whose later items start with a space. */
  lemma {:induction false} JoinCommaSpace(parts: seq<string>)
    requires |parts| >= 1
    ensures Join(", ", parts) == Join(",", [parts[0]] + SpaceEach(parts[1..]))
  {
    if |parts| >= 2 {
      assert parts == [parts[0]] + parts[1..];
      JoinCons(", ", parts[0], parts[1..]);
      JoinCons(",", parts[0], SpaceEach(parts[1..]));
      JoinSpaced(parts[1..]);
      CommaThenSpace(parts[0], Join(", ", parts[1..]));
    } else {
      assert [parts[0]] + SpaceEach(parts[1..]) == parts;
    }
  }

  lemma CommaThenSpace(a: string, b: string)
    ensures a + "," + (" " + b) == a + ", " + b
  {
  }

  /** A list item that trim() leaves alone and that holds no comma, as the decimal form of an int is. */
  predicate PlainItem(item: string) {
    item != [] && forall k :: 0 <= k < |item| ==> !IsTrimmedAway(item[k]) && item[k] != ','
  }

  /** The fields of a ", "-separated list: the first item, then each later item after a space. */
  function SpacedFields(items: seq<string>): (r: seq<string>)
    requires |items| >= 1
    ensures |r| == |items|
  {
    [items[0]] + SpaceEach(items[1..])
  }

  /** Each field of a list of plain items holds no comma, is not empty, and trims to its item. */
  lemma SpacedField(items: seq<string>, i: nat)
    requires i < |items| && PlainItem(items[i])
    ensures ',' !in SpacedFields(items)[i] && SpacedFields(items)[i] != ""
    ensures Trim(SpacedFields(items)[i]) == items[i]
  {
    var field := SpacedFields(items)[i];
    if i == 0 {
      assert field == items[0];
      TrimUntrimmable(items[0]);
    } else {
      assert field == " " + items[i];
      TrimLeadingSpace(items[i]);
    }
  }

  /** Splitting a ", "-separated list of at least two plain items at its commas and trimming each field gives the items back. */
  lemma {:induction false} SplitCommaSpaceList(items: seq<string>)
    requires |items| >= 2
    requires forall i :: 0 <= i < |items| ==> PlainItem(items[i])
    ensures Join(", ", items) != ""
    ensures |Split(Join(", ", items), ',')| == |items|
    ensures forall i :: 0 <= i < |items| ==> Trim(Split(Join(", ", items), ',')[i]) == items[i]
  {
    var fields := SpacedFields(items);
    JoinCommaSpace(items);
    forall i | 0 <= i < |fields| ensures ',' !in fields[i] && Trim(fields[i]) == items[i] {
      SpacedField(items, i);
    }
    SpacedField(items, |items| - 1);
    SplitOfJoin(fields, ',');
    assert Split(Join(", ", items), ',') == fields;
    JoinFirstChar(", ", items);
  }

  /** The decimal form of an int is a plain item. */
  lemma IdStringsArePlain(ids: seq<Int32>)
    ensures forall i :: 0 <= i < |ids| ==> PlainItem(IdStrings(ids)[i])
  {
    forall i | 0 <= i < |ids| ensures PlainItem(IdStrings(ids)[i]) {
      IntToStringShape(ids[i]);
    }
  }

  /** The ids of an IN list come back from its text. */
  lemma {:induction false} ParseIdListOfIdList(ids: seq<Int32>)
    requires |ids| != 1
    ensures ParseIdList(IdList(ids)) == ids
  {
    if |ids| >= 2 {
      var items := IdStrings(ids);
      IdStringsArePlain(ids);
      SplitCommaSpaceList(items);
      var fields := Split(IdList(ids), ',');
      forall i | 0 <= i < |ids| ensures ParseInt(Trim(fields[i])) == ids[i] {
        ParseIntOfIntToString(ids[i]);
      }
    }
  }

  /**
    The category filter names exactly the requested ids, in order: they are read back from
    its text, whether it is the equality for one id or the IN list for any other number.
  */
  lemma CategoryIdsFilterRoundTrip(ids: seq<Int32>)
    ensures ParseCategoryIdsFilter(BuildCategoryIdsFilter(Some(ids))) == ids
    ensures |ids| == 1 <==> BuildCategoryIdsFilter(Some(ids))[..|CATEGORY_EQUALS|] == CATEGORY_EQUALS
    ensures BuildCategoryIdsFilter(None) == ""
  {
    if |ids| == 1 {
      ParseEqualsFilter(IntToString(ids[0]));
      ParseIntOfIntToString(ids[0]);
    } else {
      ParseInFilter(IdList(ids));
      ParseIdListOfIdList(ids);
    }
  }

  /** An equality filter is recognised by its prefix and yields the one id after it. */
  lemma {:induction false} ParseEqualsFilter(digits: string)
    ensures (CATEGORY_EQUALS + digits)[..|CATEGORY_EQUALS|] == CATEGORY_EQUALS
    ensures ParseCategoryIdsFilter(CATEGORY_EQUALS + digits) == [ParseInt(digits)]
  {
    assert (CATEGORY_EQUALS + digits)[|CATEGORY_EQUALS|..] == digits;
  }

  /** An IN filter is not taken for an equality and yields the ids of its list. */
  lemma {:induction false} ParseInFilter(list: string)
    ensures (CATEGORY_IN + list + ")")[..|CATEGORY_EQUALS|] != CATEGORY_EQUALS
    ensures ParseCategoryIdsFilter(CATEGORY_IN + list + ")") == ParseIdList(list)
  {
    var filter := CATEGORY_IN + list + ")";
    assert filter[..|CATEGORY_IN|] == CATEGORY_IN;
    assert filter[..|CATEGORY_EQUALS|][10] == 'I';
    assert filter[|CATEGORY_IN|..|filter| - 1] == list;
  }

  // =======================================================================================
  // buildCategoryGroupIdsFilter

  /** The condition that a category lies in the group's id range. */
  function RangeCondition(group: CategoryGroup): string {
    IntToString(group.minCategoryId) + RANGE_MIDDLE + IntToString(group.maxCategoryId)
  }

  const RANGE_MIDDLE: string := " <= category AND category <= "

  /** The error for an id the classifier has no group for. */
  function UnknownGroupError(groupId: Int32): ProviderError {
    InternalServerError(Exceptions.BAD_REQUEST, "Unknown group id '" + IntToString(groupId) + "'.")
  }

  /** The index of the first id the classifier has no group for, or -1 when all are known. */
  function FirstUnknownIndex(groups: map<Int32, CategoryGroup>, ids: seq<Int32>): (r: int)
    ensures -1 <= r < |ids|
    ensures r == -1 <==> forall i :: 0 <= i < |ids| ==> ids[i] in groups
    ensures 0 <= r ==> ids[r] !in groups && forall i :: 0 <= i < r ==> ids[i] in groups
  {
    if |ids| == 0 then -1
    else if ids[0] !in groups then 0
    else
      var k := FirstUnknownIndex(groups, ids[1..]);
      if k == -1 then -1 else k + 1
  }

  /** The disjuncts of a filter over several groups: each id's condition in parentheses (all ids known). */
  function Disjuncts(groups: map<Int32, CategoryGroup>, ids: seq<Int32>, condition: CategoryGroup -> string): (r: seq<string>)
    requires forall i :: 0 <= i < |ids| ==> ids[i] in groups
    ensures |r| == |ids| && forall i :: 0 <= i < |ids| ==> r[i] == "(" + condition(groups[ids[i]]) + ")"
  {
    seq(|ids|, i requires 0 <= i < |ids| => "(" + condition(groups[ids[i]]) + ")")
  }

  /**
    What buildCategoryGroupIdsFilter(ids) returns or throws: "" for null; for several ids
    the range condition of each id's group, joined by OR and parenthesised, failing at the
    first unknown id; for one id its range condition; for no id the access to ids[0] fails.
  */
  function CategoryGroupIdsFilter(groups: map<Int32, CategoryGroup>, ids: Option<seq<Int32>>): Result<string, ProviderError> {
    if ids.None? then Success("")
    else if |ids.value| == 0 then Failure(ArrayIndexOutOfBounds)
    else
      var k := FirstUnknownIndex(groups, ids.value);
      if k >= 0 then Failure(UnknownGroupError(ids.value[k]))
      else if |ids.value| > 1 then Success("(" + Join(" OR ", Disjuncts(groups, ids.value, RangeCondition)) + ")")
      else Success(RangeCondition(groups[ids.value[0]]))
  }

  /** buildCategoryGroupIdsFilter(ids). */
  method BuildCategoryGroupIdsFilter(groups: map<Int32, CategoryGroup>, ids: Option<seq<Int32>>)
    returns (r: Result<string, ProviderError>)
    ensures r == CategoryGroupIdsFilter(groups, ids)
  {
    if ids.None? {
      return Success("");
    }
    var a := ids.value;
    var result := "";
    if |a| > 1 {
      r := JoinDisjuncts(groups, a, RangeCondition);
      if r.Success? {
        r := Success("(" + r.value + ")");
      }
    } else {
      if |a| == 0 {
        return Failure(ArrayIndexOutOfBounds);
      }
      var groupId := a[0];
      if groupId !in groups {
        return Failure(UnknownGroupError(groupId));
      }
      var group := groups[groupId];
      result := RangeCondition(group);
      r := Success(result);
    }
  }

  /**
    The loop of buildCategoryGroupIdsFilter over several ids: each id's condition in
    parentheses, separated by OR, or the error for the first id without a group. The
    condition a group gives is a parameter (RangeCondition at the one call), so the proof of
    the loop does not depend on how the bounds are written out.
  */
  method JoinDisjuncts(groups: map<Int32, CategoryGroup>, a: seq<Int32>, condition: CategoryGroup -> string)
    returns (r: Result<string, ProviderError>)
    ensures FirstUnknownIndex(groups, a) >= 0 ==> r == Failure(UnknownGroupError(a[FirstUnknownIndex(groups, a)]))
    ensures FirstUnknownIndex(groups, a) == -1 ==> r == Success(Join(" OR ", Disjuncts(groups, a, condition)))
  {
    var result := "";
    var nValues := |a|;
    ghost var terms: seq<string> := [];
    for i := 0 to nValues
      invariant forall k :: 0 <= k < i ==> a[k] in groups
      invariant terms == Disjuncts(groups, a[..i], condition)
      invariant result == Join(" OR ", terms) + (if 0 < i < nValues then " OR " else "")
    {
      var groupId := a[i];
      if groupId !in groups {
        FirstUnknownAt(groups, a, i);
        return Failure(UnknownGroupError(groupId));
      }
      var group := groups[groupId];
      var term := "(" + condition(group) + ")";
      if i > 0 {
        JoinSnoc(" OR ", terms, term);
      }
      assert a[..i + 1] == a[..i] + [a[i]];
      terms := terms + [term];
      result := result + term;
      if i < nValues - 1 {
        result := result + " OR ";
      }
    }
    assert a[..nValues] == a;
    assert result == Join(" OR ", terms);
    r := Success(result);
  }

  /** With all ids before i known and ids[i] unknown, i is the first unknown index. */
  lemma FirstUnknownAt(groups: map<Int32, CategoryGroup>, ids: seq<Int32>, i: nat)
    requires i < |ids| && ids[i] !in groups
    requires forall k :: 0 <= k < i ==> ids[k] in groups
    ensures FirstUnknownIndex(groups, ids) == i
  {
  }

  /** A non-empty id list fails exactly when some id has no group, and the error names the first such id. */
  lemma GroupIdsFilterFailsIffUnknown(groups: map<Int32, CategoryGroup>, ids: seq<Int32>)
    requires |ids| >= 1
    ensures CategoryGroupIdsFilter(groups, Some(ids)).Failure? <==> exists i :: 0 <= i < |ids| && ids[i] !in groups
    ensures CategoryGroupIdsFilter(groups, Some(ids)).Failure? ==>
              exists i :: 0 <= i < |ids| && ids[i] !in groups
                          && (forall j :: 0 <= j < i ==> ids[j] in groups)
                          && CategoryGroupIdsFilter(groups, Some(ids)).error == UnknownGroupError(ids[i])
  {
    var k := FirstUnknownIndex(groups, ids);
    if k >= 0 {
      assert ids[k] !in groups;
    }
  }

  /** Reads the range back out of a range condition: the lower bound runs up to the first space. */
  function ParseRangeCondition(condition: string): Option<CategoryGroup> {
    var k := IndexOf(condition, ' ');
    if k < 0 || |condition| < k + |RANGE_MIDDLE| || condition[k..k + |RANGE_MIDDLE|] != RANGE_MIDDLE then None
    else
      var lo := ParseInt(condition[..k]);
      var hi := ParseInt(condition[k + |RANGE_MIDDLE|..]);
      if -TWO_31 <= lo < TWO_31 && -TWO_31 <= hi < TWO_31 then Some(CategoryGroup(lo, hi)) else None
  }

  /** A range condition states its group's bounds: they are read back from its text. */
  lemma RangeConditionRoundTrip(group: CategoryGroup)
    ensures ParseRangeCondition(RangeCondition(group)) == Some(group)
  {
    var lo := IntToString(group.minCategoryId);
    var hi := IntToString(group.maxCategoryId);
    var condition := RangeCondition(group);
    IntToStringShape(group.minCategoryId);
    assert ' ' !in lo by {
      assert forall k :: 0 <= k < |lo| ==> lo[k] != ' ';
    }
    assert condition[|lo|] == ' ';
    assert condition[..|lo|] == lo;
    assert IndexOf(condition, ' ') == |lo|;
    assert condition[|lo|..|lo| + |RANGE_MIDDLE|] == RANGE_MIDDLE;
    assert condition[|lo| + |RANGE_MIDDLE|..] == hi;
    ParseIntOfIntToString(group.minCategoryId);
    ParseIntOfIntToString(group.maxCategoryId);
  }

  /**
    For known ids the group filter states every group's range, in input order: several ids
    give one parenthesised range per id joined by OR inside an outer pair of parentheses,
    and one id gives its bare range.
  */
  lemma GroupIdsFilterStatesRanges(groups: map<Int32, CategoryGroup>, ids: seq<Int32>)
    requires |ids| >= 1 && forall i :: 0 <= i < |ids| ==> ids[i] in groups
    ensures |ids| == 1 ==> CategoryGroupIdsFilter(groups, Some(ids)) == Success(RangeCondition(groups[ids[0]]))
                           && ParseRangeCondition(RangeCondition(groups[ids[0]])) == Some(groups[ids[0]])
    ensures |ids| > 1 ==> CategoryGroupIdsFilter(groups, Some(ids)) == Success("(" + Join(" OR ", Disjuncts(groups, ids, RangeCondition)) + ")")
    ensures forall i :: 0 <= i < |ids| ==>
              var d := Disjuncts(groups, ids, RangeCondition)[i];
              && |d| >= 2 && d[0] == '(' && d[|d| - 1] == ')'
              && ParseRangeCondition(d[1..|d| - 1]) == Some(groups[ids[i]])
  {
    var d := Disjuncts(groups, ids, RangeCondition);
    forall i | 0 <= i < |ids|
      ensures |d[i]| >= 2 && d[i][0] == '(' && d[i][|d[i]| - 1] == ')'
      ensures ParseRangeCondition(d[i][1..|d[i]| - 1]) == Some(groups[ids[i]])
    {
      var c := RangeCondition(groups[ids[i]]);
      assert d[i] == "(" + c + ")";
      assert d[i][1..|d[i]| - 1] == c;
      RangeConditionRoundTrip(groups[ids[i]]);
    }
    RangeConditionRoundTrip(groups[ids[0]]);
  }

  // =======================================================================================
  // buildSearchFilter

  /** A condition that starts with an opening parenthesis, as every condition of a search filter does. */
  predicate Parenthesized(condition: string) {
    |condition| > 0 && condition[0] == '('
  }

  /** The condition on a text column: an IN list when the value holds a comma after its first character, an equality otherwise. */
  function ValueCondition(column: string, value: string): (r: string)
    ensures Parenthesized(r)
  {
    if IndexOf(value, ',') > 0 then "(" + column + " IN (" + FixedStringValues(value, true) + "))"
    else "(" + column + " = " + FixedStringValues(value, false) + ")"
  }

  /** The condition on a text column, present when the value is not empty. */
  function OptionalValueCondition(isEmpty: JString -> bool, column: string, value: JString): (r: seq<string>)
    requires IsEmptySpec(isEmpty)
    ensures |r| <= 1 && (value.None? || value == Some("") ==> r == [])
  {
    if isEmpty(value) then [] else [ValueCondition(column, value.value)]
  }

  /** The category condition: from the group ids when they are given, else from the category ids. */
  function CategoryCondition(groups: map<Int32, CategoryGroup>, filter: LocationsSearchFilter): Result<seq<string>, ProviderError> {
    if filter.categoryGroupIds.Some? then
      match CategoryGroupIdsFilter(groups, filter.categoryGroupIds)
      case Failure(e) => Failure(e)
      case Success(condition) => Success(["(" + condition + ")"])
    else if filter.categoryIds.Some? then Success(["(" + BuildCategoryIdsFilter(filter.categoryIds) + ")"])
    else Success([])
  }

  function NameCondition(name: string): string {
    "(name = ''" + name + "'')"
  }

  function FeeCondition(fee: bool): string {
    "(fee =" + (if fee then "1" else "0") + ")"
  }

  /**
    The conditions of a search filter, in the order buildSearchFilter adds them: category,
    name, wheelchair, smoking, fee; or the error building the category condition throws.
  */
  function SearchConditions(isEmpty: JString -> bool, groups: map<Int32, CategoryGroup>, filter: LocationsSearchFilter): Result<seq<string>, ProviderError>
    requires IsEmptySpec(isEmpty)
  {
    match CategoryCondition(groups, filter)
    case Failure(e) => Failure(e)
    case Success(category) =>
      Success(category
              + (if filter.name.Some? then [NameCondition(filter.name.value)] else [])
              + OptionalValueCondition(isEmpty, "wheelchair", filter.wheelchair)
              + OptionalValueCondition(isEmpty, "smoking", filter.smoking)
              + (if filter.fee.Some? then [FeeCondition(filter.fee.value)] else []))
  }

  /** What buildSearchFilter(filter) returns or throws: "" for no filter, else its conditions joined by AND. */
  function SearchFilter(isEmpty: JString -> bool, groups: map<Int32, CategoryGroup>, filter: Option<LocationsSearchFilter>): Result<string, ProviderError>
    requires IsEmptySpec(isEmpty)
  {
    if filter.None? then Success("")
    else
      match SearchConditions(isEmpty, groups, filter.value)
      case Failure(e) => Failure(e)
      case Success(conditions) => Success(Join(" AND ", conditions))
  }

  /** The conditions once the category condition is known. */
  lemma SearchConditionsOfCategory(isEmpty: JString -> bool, groups: map<Int32, CategoryGroup>, filter: LocationsSearchFilter, category: seq<string>)
    requires IsEmptySpec(isEmpty)
    requires CategoryCondition(groups, filter) == Success(category)
    ensures SearchConditions(isEmpty, groups, filter) ==
            Success(category
                    + (if filter.name.Some? then [NameCondition(filter.name.value)] else [])
                    + OptionalValueCondition(isEmpty, "wheelchair", filter.wheelchair)
                    + OptionalValueCondition(isEmpty, "smoking", filter.smoking)
                    + (if filter.fee.Some? then [FeeCondition(filter.fee.value)] else []))
  {
  }

  /** A join of conditions starts with the first condition's first character. */
  lemma JoinFirstChar(sep: string, parts: seq<string>)
    requires |parts| >= 1 && parts[0] != ""
    ensures Join(sep, parts) != "" && Join(sep, parts)[0] == parts[0][0]
  {
  }

  /**
    addConditions on the join of parenthesised conditions is the join with one more
    condition: the emptiness test of addConditions is the test for no condition yet.
  */
  lemma AddConditionExtends(isEmpty: JString -> bool, conditions: seq<string>, condition: string)
    requires IsEmptySpec(isEmpty)
    requires forall i :: 0 <= i < |conditions| ==> Parenthesized(conditions[i])
    ensures AddConditions(isEmpty, Join(" AND ", conditions), condition) == Join(" AND ", conditions + [condition])
  {
    if |conditions| > 0 {
      JoinFirstChar(" AND ", conditions);
      assert !IsBlank(Join(" AND ", conditions)) by {
        assert !IsTrimmedAway(Join(" AND ", conditions)[0]);
      }
      JoinSnoc(" AND ", conditions, condition);
    }
  }

  /** buildSearchFilter(filter), which adds each condition in turn with addConditions. */
  method BuildSearchFilter(isEmpty: JString -> bool, groups: map<Int32, CategoryGroup>, filter: Option<LocationsSearchFilter>)
    returns (r: Result<string, ProviderError>)
    requires IsEmptySpec(isEmpty)
    ensures r == SearchFilter(isEmpty, groups, filter)
  {
    var cmdText := "";
    if filter.None? {
      return Success(cmdText);
    }
    var f := filter.value;
    var category;
    ghost var conditions;
    category, conditions := AddCategoryCondition(isEmpty, groups, f);
    if category.Failure? {
      return Failure(category.error);
    }
    cmdText := AddFieldConditions(isEmpty, category.value, conditions, f);
    SearchConditionsOfCategory(isEmpty, groups, f, conditions);
    return Success(cmdText);
  }

  /**
    The first step of buildSearchFilter: the condition on the group ids when they are
    given, else the one on the category ids, added to the empty command text.
  */
  method AddCategoryCondition(isEmpty: JString -> bool, groups: map<Int32, CategoryGroup>, f: LocationsSearchFilter)
    returns (r: Result<string, ProviderError>, ghost conditions: seq<string>)
    requires IsEmptySpec(isEmpty)
    ensures r.Failure? <==> CategoryCondition(groups, f).Failure?
    ensures r.Failure? ==> r.error == CategoryCondition(groups, f).error
    ensures r.Success? ==> CategoryCondition(groups, f) == Success(conditions) && r.value == Join(" AND ", conditions)
    ensures forall i :: 0 <= i < |conditions| ==> Parenthesized(conditions[i])
  {
    var cmdText := "";
    conditions := [];
    if f.categoryGroupIds.Some? {
      var groupFilter := BuildCategoryGroupIdsFilter(groups, f.categoryGroupIds);
      if groupFilter.Failure? {
        return Failure(groupFilter.error), conditions;
      }
      var condition := "(" + groupFilter.value + ")";
      AddConditionExtends(isEmpty, conditions, condition);
      cmdText := AddConditions(isEmpty, cmdText, condition);
      conditions := [condition];
    } else if f.categoryIds.Some? {
      var condition := "(" + BuildCategoryIdsFilter(f.categoryIds) + ")";
      AddConditionExtends(isEmpty, conditions, condition);
      cmdText := AddConditions(isEmpty, cmdText, condition);
      conditions := [condition];
    }
    r := Success(cmdText);
  }

  /**
    The remaining steps of buildSearchFilter: the name, wheelchair, smoking and fee
    conditions, each added with addConditions to the text built so far.
  */
  method AddFieldConditions(isEmpty: JString -> bool, cmdText: string, ghost conditions: seq<string>, f: LocationsSearchFilter)
    returns (r: string)
    requires IsEmptySpec(isEmpty)
    requires forall i :: 0 <= i < |conditions| ==> Parenthesized(conditions[i])
    requires cmdText == Join(" AND ", conditions)
    ensures r == Join(" AND ", conditions
                               + (if f.name.Some? then [NameCondition(f.name.value)] else [])
                               + OptionalValueCondition(isEmpty, "wheelchair", f.wheelchair)
                               + OptionalValueCondition(isEmpty, "smoking", f.smoking)
                               + (if f.fee.Some? then [FeeCondition(f.fee.value)] else []))
  {
    r := cmdText;
    ghost var added := conditions;
    if f.name.Some? {
      AddConditionExtends(isEmpty, added, NameCondition(f.name.value));
      r := AddConditions(isEmpty, r, "(name = ''" + f.name.value + "'')");
      added := added + [NameCondition(f.name.value)];
    }
    assert added == conditions + (if f.name.Some? then [NameCondition(f.name.value)] else []);

    ConcatParenthesized(added, OptionalValueCondition(isEmpty, "wheelchair", f.wheelchair));
    r := AddValueCondition(isEmpty, r, added, "wheelchair", f.wheelchair);
    added := added + OptionalValueCondition(isEmpty, "wheelchair", f.wheelchair);

    ConcatParenthesized(added, OptionalValueCondition(isEmpty, "smoking", f.smoking));
    r := AddValueCondition(isEmpty, r, added, "smoking", f.smoking);
    added := added + OptionalValueCondition(isEmpty, "smoking", f.smoking);
    ghost var withSmoking := added;

    if f.fee.Some? {
      AddConditionExtends(isEmpty, added, FeeCondition(f.fee.value));
      r := AddConditions(isEmpty, r, "(fee =" + (if f.fee.value == true then "1" else "0") + ")");
      added := added + [FeeCondition(f.fee.value)];
    }
    assert added == withSmoking + (if f.fee.Some? then [FeeCondition(f.fee.value)] else []);
  }

  /**
    The wheelchair and smoking steps of buildSearchFilter: when the value is not empty, the
    condition on column is added with addConditions.
  */
  method AddValueCondition(isEmpty: JString -> bool, cmdText: string, ghost conditions: seq<string>, column: string, value: JString)
    returns (r: string)
    requires IsEmptySpec(isEmpty)
    requires forall i :: 0 <= i < |conditions| ==> Parenthesized(conditions[i])
    requires cmdText == Join(" AND ", conditions)
    ensures r == Join(" AND ", conditions + OptionalValueCondition(isEmpty, column, value))
  {
    r := cmdText;
    if !isEmpty(value) {
      var condition;
      if IndexOf(value.value, ',') > 0 {
        var values := FixStringValues(value.value, true);
        condition := "(" + column + " IN (" + values + "))";
      } else {
        var single := FixStringValues(value.value, false);
        condition := "(" + column + " = " + single + ")";
      }
      assert condition == ValueCondition(column, value.value);
      AddConditionExtends(isEmpty, conditions, condition);
      r := AddConditions(isEmpty, r, condition);
    } else {
      assert conditions + OptionalValueCondition(isEmpty, column, value) == conditions;
    }
  }

  /** No filter, and a filter with every field null, give the empty condition. */
  lemma EmptySearchFilter(isEmpty: JString -> bool, groups: map<Int32, CategoryGroup>)
    requires IsEmptySpec(isEmpty)
    ensures SearchFilter(isEmpty, groups, None) == Success("")
    ensures SearchFilter(isEmpty, groups, Some(LocationsSearchFilter(None, None, None, None, None, None))) == Success("")
  {
  }

  /** When group ids are given, the category ids are ignored. */
  lemma GroupIdsTakePrecedence(isEmpty: JString -> bool, groups: map<Int32, CategoryGroup>, filter: LocationsSearchFilter, categoryIds: Option<seq<Int32>>)
    requires IsEmptySpec(isEmpty)
    requires filter.categoryGroupIds.Some?
    ensures SearchFilter(isEmpty, groups, Some(filter)) == SearchFilter(isEmpty, groups, Some(filter.(categoryIds := categoryIds)))
  {
  }

  /**
    Building a search filter fails exactly when group ids are given and either there are
    none or one of them has no group; the error is then the one for the group ids.
  */
  lemma SearchFilterFailsIff(isEmpty: JString -> bool, groups: map<Int32, CategoryGroup>, filter: LocationsSearchFilter)
    requires IsEmptySpec(isEmpty)
    ensures SearchFilter(isEmpty, groups, Some(filter)).Failure? <==>
            filter.categoryGroupIds.Some?
            && (|filter.categoryGroupIds.value| == 0
                || exists i :: 0 <= i < |filter.categoryGroupIds.value| && filter.categoryGroupIds.value[i] !in groups)
    ensures SearchFilter(isEmpty, groups, Some(filter)).Failure? ==>
            CategoryGroupIdsFilter(groups, filter.categoryGroupIds).Failure?
            && SearchFilter(isEmpty, groups, Some(filter)).error == CategoryGroupIdsFilter(groups, filter.categoryGroupIds).error
  {
    if filter.categoryGroupIds.Some? && |filter.categoryGroupIds.value| > 0 {
      GroupIdsFilterFailsIffUnknown(groups, filter.categoryGroupIds.value);
    }
  }

  /**
    A filter that builds has one condition for the category (when group or category ids are
    given), one for a non-null name, one for each non-empty wheelchair and smoking value and
    one for a non-null fee, and every condition is parenthesised.
  */
  lemma SearchConditionsCount(isEmpty: JString -> bool, groups: map<Int32, CategoryGroup>, filter: LocationsSearchFilter)
    requires IsEmptySpec(isEmpty)
    requires SearchConditions(isEmpty, groups, filter).Success?
    ensures |SearchConditions(isEmpty, groups, filter).value| ==
            (if filter.categoryGroupIds.Some? || filter.categoryIds.Some? then 1 else 0)
            + (if filter.name.Some? then 1 else 0)
            + (if isEmpty(filter.wheelchair) then 0 else 1)
            + (if isEmpty(filter.smoking) then 0 else 1)
            + (if filter.fee.Some? then 1 else 0)
    ensures forall i :: 0 <= i < |SearchConditions(isEmpty, groups, filter).value| ==>
              Parenthesized(SearchConditions(isEmpty, groups, filter).value[i])
  {
    var category := CategoryCondition(groups, filter).value;
    var name := if filter.name.Some? then [NameCondition(filter.name.value)] else [];
    var wheelchair := OptionalValueCondition(isEmpty, "wheelchair", filter.wheelchair);
    var smoking := OptionalValueCondition(isEmpty, "smoking", filter.smoking);
    var fee := if filter.fee.Some? then [FeeCondition(filter.fee.value)] else [];
    SearchConditionsOfCategory(isEmpty, groups, filter, category);
    ConcatParenthesized(category, name);
    ConcatParenthesized(category + name, wheelchair);
    ConcatParenthesized(category + name + wheelchair, smoking);
    ConcatParenthesized(category + name + wheelchair + smoking, fee);
  }

  lemma ConcatParenthesized(a: seq<string>, b: seq<string>)
    requires forall i :: 0 <= i < |a| ==> Parenthesized(a[i])
    requires forall i :: 0 <= i < |b| ==> Parenthesized(b[i])
    ensures forall i :: 0 <= i < |a + b| ==> Parenthesized((a + b)[i])
  {
  }

  // =======================================================================================
  // findCategories: aggregating the per-category counts into per-group statistics

  /** One row of the category query: a category id and the number of locations in it. */
  datatype CategoryRow = CategoryRow(category: Int32, count: Int64)

  /** The classifier's group index for a row's category. */
  function RowGroup(classifier: CategoryClassifier, row: CategoryRow): Int32 {
    classifier.groupIndexOf(row.category)
  }

  /** A group index that is a valid index into an array of getGroupsCount() counters. */
  predicate KnownGroupIndex(classifier: CategoryClassifier, groupIndex: int) {
    0 <= groupIndex < classifier.groupsCount
  }

  predicate AllRowsKnown(classifier: CategoryClassifier, rows: seq<CategoryRow>) {
    forall i :: 0 <= i < |rows| ==> KnownGroupIndex(classifier, RowGroup(classifier, rows[i]))
  }

  /** The exact sum of the counts of the rows in group g. */
  function GroupTotal(classifier: CategoryClassifier, rows: seq<CategoryRow>, g: int): int {
    if |rows| == 0 then 0
    else
      var last := rows[|rows| - 1];
      GroupTotal(classifier, rows[..|rows| - 1], g) + (if RowGroup(classifier, last) == g then last.count else 0)
  }

  /** The count map of group g: each category of the group with the count of its latest row. */
  function GroupStats(classifier: CategoryClassifier, rows: seq<CategoryRow>, g: int): map<Int32, Int64> {
    if |rows| == 0 then map[]
    else
      var last := rows[|rows| - 1];
      var earlier := GroupStats(classifier, rows[..|rows| - 1], g);
      if RowGroup(classifier, last) == g then earlier[last.category := last.count] else earlier
  }

  /** The groups that at least one row falls in. */
  function GroupsOf(classifier: CategoryClassifier, rows: seq<CategoryRow>): set<Int32> {
    if |rows| == 0 then {}
    else GroupsOf(classifier, rows[..|rows| - 1]) + {RowGroup(classifier, rows[|rows| - 1])}
  }

  /** The LocationsCategory findCategories makes for group g; its total is a long and wraps around. */
  function GroupCategory(classifier: CategoryClassifier, rows: seq<CategoryRow>, g: Int32): LocationsCategory {
    LocationsCategory(classifier.groupIdOf(g), classifier.groupNameOf(g), GroupStats(classifier, rows, g),
                      WrapInt64(GroupTotal(classifier, rows, g)))
  }

  /**
    What the aggregation of findCategories yields: a LocationsCategory for each group some
    row falls in, keyed by group index; or the data-retrieval error when a row's group index
    is out of the counter array's bounds.
  */
  function CategoriesOf(classifier: CategoryClassifier, rows: seq<CategoryRow>): Result<map<Int32, LocationsCategory>, ProviderError> {
    if !AllRowsKnown(classifier, rows) then Failure(DataRetrievalFailed)
    else Success(map g | g in GroupsOf(classifier, rows) :: GroupCategory(classifier, rows, g))
  }

  /** What reading row i adds to the totals, count maps and groups of the rows before it. */
  lemma AggregationStep(classifier: CategoryClassifier, rows: seq<CategoryRow>, i: nat)
    requires i < |rows|
    ensures forall g :: GroupTotal(classifier, rows[..i + 1], g) ==
              GroupTotal(classifier, rows[..i], g) + (if RowGroup(classifier, rows[i]) == g then rows[i].count else 0)
    ensures forall g :: GroupStats(classifier, rows[..i + 1], g) ==
              (if RowGroup(classifier, rows[i]) == g then GroupStats(classifier, rows[..i], g)[rows[i].category := rows[i].count]
               else GroupStats(classifier, rows[..i], g))
    ensures GroupsOf(classifier, rows[..i + 1]) == GroupsOf(classifier, rows[..i]) + {RowGroup(classifier, rows[i])}
    ensures AllRowsKnown(classifier, rows[..i + 1]) <==>
              AllRowsKnown(classifier, rows[..i]) && KnownGroupIndex(classifier, RowGroup(classifier, rows[i]))
  {
    assert rows[..i + 1][..i] == rows[..i] && rows[..i + 1][i] == rows[i];
    if AllRowsKnown(classifier, rows[..i]) && KnownGroupIndex(classifier, RowGroup(classifier, rows[i])) {
      forall k | 0 <= k < i + 1 ensures KnownGroupIndex(classifier, RowGroup(classifier, rows[k])) {
      }
      assert forall k :: 0 <= k < i + 1 ==> rows[..i + 1][k] == rows[k];
    }
  }

  /**
    The aggregation loops of findCategories: the first reads the rows, creating a group's
    count map on its first row, adding each count to the group's long counter and recording
    the count under the category; the second makes one LocationsCategory per group, visiting
    the groups in no particular order. Any exception becomes the data-retrieval error.
  */
  method AggregateCategories(classifier: CategoryClassifier, rows: seq<CategoryRow>)
    returns (r: Result<map<Int32, LocationsCategory>, ProviderError>)
    ensures r == CategoriesOf(classifier, rows)
  {
    var ok, groupsStats, groupCount := CountRows(classifier, rows);
    if !ok {
      return Failure(DataRetrievalFailed);
    }
    var results := CollectCategories(classifier, rows, groupsStats, groupCount);
    return Success(results);
  }

  /** The group counters hold the wrapped total of each group over rows. */
  predicate CountersMatch(classifier: CategoryClassifier, rows: seq<CategoryRow>, counts: seq<Int64>) {
    forall g :: 0 <= g < |counts| ==> counts[g] == WrapInt64(GroupTotal(classifier, rows, g))
  }

  /** The count maps are those of the groups the rows fall in. */
  predicate StatsMatch(classifier: CategoryClassifier, rows: seq<CategoryRow>, groupsStats: map<Int32, map<Int32, Int64>>) {
    && groupsStats.Keys == GroupsOf(classifier, rows)
    && forall g :: g in groupsStats ==> groupsStats[g] == GroupStats(classifier, rows, g)
  }

  /** groupCount[groupIndex] += count keeps the counters matching with one more row. */
  lemma CountersStep(classifier: CategoryClassifier, rows: seq<CategoryRow>, i: nat, counts: seq<Int64>)
    requires i < |rows| && 0 <= RowGroup(classifier, rows[i]) < |counts|
    requires CountersMatch(classifier, rows[..i], counts)
    ensures CountersMatch(classifier, rows[..i + 1],
                          counts[RowGroup(classifier, rows[i]) := WrapInt64(counts[RowGroup(classifier, rows[i])] as int + rows[i].count as int)])
  {
    AggregationStep(classifier, rows, i);
    var g0 := RowGroup(classifier, rows[i]);
    WrapInt64Add(GroupTotal(classifier, rows[..i], g0), rows[i].count);
  }

  /** Creating the group's map if absent and putting the row's count in it keeps the count maps matching. */
  lemma StatsStep(classifier: CategoryClassifier, rows: seq<CategoryRow>, i: nat, groupsStats: map<Int32, map<Int32, Int64>>)
    requires i < |rows|
    requires StatsMatch(classifier, rows[..i], groupsStats)
    ensures var g := RowGroup(classifier, rows[i]);
            var created := if g in groupsStats then groupsStats else groupsStats[g := map[]];
            StatsMatch(classifier, rows[..i + 1], created[g := created[g][rows[i].category := rows[i].count]])
  {
    AggregationStep(classifier, rows, i);
    var g := RowGroup(classifier, rows[i]);
    if g !in groupsStats {
      NoStatsOutsideGroups(classifier, rows[..i], g);
    }
  }

  /** One more row is known exactly when the rows before it and its group index are; an unknown one makes all rows unknown. */
  lemma KnownStep(classifier: CategoryClassifier, rows: seq<CategoryRow>, i: nat)
    requires i < |rows|
    ensures AllRowsKnown(classifier, rows[..i + 1]) <==>
              AllRowsKnown(classifier, rows[..i]) && KnownGroupIndex(classifier, RowGroup(classifier, rows[i]))
    ensures !KnownGroupIndex(classifier, RowGroup(classifier, rows[i])) ==> !AllRowsKnown(classifier, rows)
  {
    var prefix := rows[..i + 1];
    assert prefix[i] == rows[i] && prefix[..i] == rows[..i];
    if AllRowsKnown(classifier, rows[..i]) && KnownGroupIndex(classifier, RowGroup(classifier, rows[i])) {
      forall k | 0 <= k < i + 1 ensures KnownGroupIndex(classifier, RowGroup(classifier, prefix[k])) {
        if k < i {
          assert prefix[k] == rows[..i][k];
        }
      }
    }
  }

  /** The first loop of the aggregation; ok is false when it would throw. */
  method CountRows(classifier: CategoryClassifier, rows: seq<CategoryRow>)
    returns (ok: bool, groupsStats: map<Int32, map<Int32, Int64>>, groupCount: array<Int64>)
    ensures ok <==> AllRowsKnown(classifier, rows)
    ensures ok ==> groupCount.Length == classifier.groupsCount
    ensures ok ==> StatsMatch(classifier, rows, groupsStats)
    ensures ok ==> CountersMatch(classifier, rows, groupCount[..])
  {
    groupsStats := map[];
    groupCount := new Int64[classifier.groupsCount](_ => 0);
    var i := 0;
    while i < |rows|
      invariant 0 <= i <= |rows|
      invariant groupCount.Length == classifier.groupsCount
      invariant AllRowsKnown(classifier, rows[..i])
      invariant StatsMatch(classifier, rows[..i], groupsStats)
      invariant CountersMatch(classifier, rows[..i], groupCount[..])
    {
      var catIndex := rows[i].category;
      var groupIndex := classifier.groupIndexOf(catIndex);
      var count := rows[i].count;
      KnownStep(classifier, rows, i);
      StatsStep(classifier, rows, i, groupsStats);

      if groupIndex !in groupsStats {
        groupsStats := groupsStats[groupIndex := map[]];
      }
      if !(0 <= groupIndex < groupCount.Length) {
        return false, groupsStats, groupCount;
      }
      CountersStep(classifier, rows, i, groupCount[..]);
      groupCount[groupIndex] := WrapInt64(groupCount[groupIndex] as int + count as int);
      groupsStats := groupsStats[groupIndex := groupsStats[groupIndex][catIndex := count]];
      i := i + 1;
    }
    assert rows[..i] == rows;
    ok := true;
  }

  /** The second loop of the aggregation: one LocationsCategory per group, in any order. */
  method CollectCategories(classifier: CategoryClassifier, rows: seq<CategoryRow>,
                           groupsStats: map<Int32, map<Int32, Int64>>, groupCount: array<Int64>)
    returns (results: map<Int32, LocationsCategory>)
    requires AllRowsKnown(classifier, rows)
    requires groupCount.Length == classifier.groupsCount
    requires StatsMatch(classifier, rows, groupsStats)
    requires CountersMatch(classifier, rows, groupCount[..])
    ensures results == map g | g in GroupsOf(classifier, rows) :: GroupCategory(classifier, rows, g)
  {
    results := map[];
    var remaining := groupsStats.Keys;
    while remaining != {}
      invariant remaining <= groupsStats.Keys
      invariant results.Keys == groupsStats.Keys - remaining
      invariant forall g :: g in results ==> results[g] == GroupCategory(classifier, rows, g)
      decreases |remaining|
    {
      var groupIndex :| groupIndex in remaining;
      KnownGroups(classifier, rows, groupIndex);
      var lc := LocationsCategory(classifier.groupIdOf(groupIndex), classifier.groupNameOf(groupIndex),
                                  groupsStats[groupIndex], groupCount[groupIndex]);
      results := results[groupIndex := lc];
      remaining := remaining - {groupIndex};
    }
  }

  /** When every row's group index is valid, so is every group's. */
  lemma KnownGroups(classifier: CategoryClassifier, rows: seq<CategoryRow>, g: Int32)
    requires AllRowsKnown(classifier, rows)
    requires g in GroupsOf(classifier, rows)
    ensures KnownGroupIndex(classifier, g)
  {
    GroupsOfAreRowGroups(classifier, rows, g);
  }

  /** A group no row falls in has an empty count map. */
  lemma {:induction false} NoStatsOutsideGroups(classifier: CategoryClassifier, rows: seq<CategoryRow>, g: Int32)
    requires g !in GroupsOf(classifier, rows)
    ensures GroupStats(classifier, rows, g) == map[]
  {
    if |rows| > 0 {
      NoStatsOutsideGroups(classifier, rows[..|rows| - 1], g);
    }
  }

  /** A group holds a row exactly when some row's category maps to it. */
  lemma {:induction false} GroupsOfAreRowGroups(classifier: CategoryClassifier, rows: seq<CategoryRow>, g: Int32)
    ensures g in GroupsOf(classifier, rows) <==> exists i :: 0 <= i < |rows| && RowGroup(classifier, rows[i]) == g
  {
    if |rows| > 0 {
      var earlier := rows[..|rows| - 1];
      GroupsOfAreRowGroups(classifier, earlier, g);
      if g in GroupsOf(classifier, earlier) {
        var i :| 0 <= i < |earlier| && RowGroup(classifier, earlier[i]) == g;
        assert rows[i] == earlier[i];
      }
      if exists i :: 0 <= i < |rows| && RowGroup(classifier, rows[i]) == g {
        var i :| 0 <= i < |rows| && RowGroup(classifier, rows[i]) == g;
        if i < |rows| - 1 {
          assert earlier[i] == rows[i];
        }
      }
    }
  }

  /**
    A group's count map has exactly the categories of its rows, and each category's entry is
    the count of the last row with that category (stats.put overwrites an earlier count).
  */
  lemma {:induction false} GroupStatsKeepLatest(classifier: CategoryClassifier, rows: seq<CategoryRow>, g: Int32, cat: Int32)
    ensures cat in GroupStats(classifier, rows, g) <==>
              exists i :: 0 <= i < |rows| && rows[i].category == cat && RowGroup(classifier, rows[i]) == g
    ensures cat in GroupStats(classifier, rows, g) ==>
              exists i :: 0 <= i < |rows| && rows[i].category == cat && GroupStats(classifier, rows, g)[cat] == rows[i].count
                          && forall j :: i < j < |rows| ==> rows[j].category != cat
  {
    if |rows| > 0 {
      var n := |rows| - 1;
      var earlier := rows[..n];
      GroupStatsKeepLatest(classifier, earlier, g, cat);
      assert forall k :: 0 <= k < n ==> earlier[k] == rows[k];
      var stats := GroupStats(classifier, rows, g);
      if rows[n].category == cat && RowGroup(classifier, rows[n]) == g {
        assert stats[cat] == rows[n].count;
      } else if cat in stats {
        var i :| 0 <= i < n && earlier[i].category == cat && GroupStats(classifier, earlier, g)[cat] == earlier[i].count
                 && forall j :: i < j < n ==> earlier[j].category != cat;
        assert forall j :: i < j < |rows| ==> rows[j].category != cat;
      }
    }
  }

  /** A category is counted only in the group the classifier maps it to. */
  lemma StatsCategoryInItsGroup(classifier: CategoryClassifier, rows: seq<CategoryRow>, g: Int32, cat: Int32)
    requires cat in GroupStats(classifier, rows, g)
    ensures classifier.groupIndexOf(cat) == g
  {
    GroupStatsKeepLatest(classifier, rows, g, cat);
  }

  /**
    A successful aggregation has one entry per group some row falls in, carrying the
    classifier's id and name for the group, the group's count map, and its total, which is
    the exact sum of the group's counts whenever that sum fits in a long.
  */
  lemma CategoriesOfEntries(classifier: CategoryClassifier, rows: seq<CategoryRow>, g: Int32)
    requires CategoriesOf(classifier, rows).Success?
    ensures g in CategoriesOf(classifier, rows).value <==>
              exists i :: 0 <= i < |rows| && RowGroup(classifier, rows[i]) == g
    ensures g in CategoriesOf(classifier, rows).value ==>
              var lc := CategoriesOf(classifier, rows).value[g];
              && lc.id == classifier.groupIdOf(g) && lc.name == classifier.groupNameOf(g)
              && lc.stats == GroupStats(classifier, rows, g)
              && (-TWO_63 <= GroupTotal(classifier, rows, g) < TWO_63 ==> lc.totalCount == GroupTotal(classifier, rows, g))
  {
    GroupsOfAreRowGroups(classifier, rows, g);
  }

  /** The aggregation fails exactly when some row's group index is not a valid counter index. */
  lemma CategoriesOfFailsIff(classifier: CategoryClassifier, rows: seq<CategoryRow>)
    ensures CategoriesOf(classifier, rows).Failure? <==>
              exists i :: 0 <= i < |rows| && !(0 <= classifier.groupIndexOf(rows[i].category) < classifier.groupsCount)
    ensures CategoriesOf(classifier, rows).Failure? ==> CategoriesOf(classifier, rows).error == DataRetrievalFailed
  {
  }

  /**
    findCategories on the rows its query returned: building the search filter and reading
    the rows happen inside one try block, so a failure in either is reported as the
    data-retrieval error.
  */
  function FindCategories(isEmpty: JString -> bool, classifier: CategoryClassifier, filter: Option<LocationsSearchFilter>, rows: seq<CategoryRow>)
    : Result<map<Int32, LocationsCategory>, ProviderError>
    requires IsEmptySpec(isEmpty)
  {
    if SearchFilter(isEmpty, classifier.groupById, filter).Failure? then Failure(DataRetrievalFailed)
    else CategoriesOf(classifier, rows)
  }

  /** Every error findCategories reports is the data-retrieval error, an unknown group id included. */
  lemma FindCategoriesReportsRetrievalError(isEmpty: JString -> bool, classifier: CategoryClassifier, filter: Option<LocationsSearchFilter>, rows: seq<CategoryRow>)
    requires IsEmptySpec(isEmpty)
    ensures FindCategories(isEmpty, classifier, filter, rows).Failure? ==> FindCategories(isEmpty, classifier, filter, rows).error == DataRetrievalFailed
    ensures FindCategories(isEmpty, classifier, filter, rows).Failure? <==>
              SearchFilter(isEmpty, classifier.groupById, filter).Failure? || !AllRowsKnown(classifier, rows)
  {
  }
}
