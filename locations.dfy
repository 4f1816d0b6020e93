/**
  The collaborators of the PostgreSQL locations provider that it only calls: the detail
  flags of a request (LocationDetailsType), the category classifier
  (LocationsCategoryClassifier), the search filter of a request (LocationsSearchFilter) and
  the per-group statistics it returns (LocationsCategory). Their code is not part of this
  model; what the provider relies on is stated here.
*/
module Locations {
  import opened Wrappers
  import opened JavaLang

  /** The optional detail groups LocationDetailsType defines. */
  datatype DetailFlag = Address | Contact | Attributes

  /** The bit of each flag: ADDRESS = 1, CONTACT = 2, ATTRIBUTES = 4. */
  function FlagValue(flag: DetailFlag): int {
    match flag
    case Address => 1
    case Contact => 2
    case Attributes => 4
  }

  /**
    LocationDetailsType.isSet(details, flag): the flag's bit is set in details. For a power
    of two, Euclidean division gives the bit of the two's-complement form, negative details
    included.
  */
  predicate IsSet(details: Int32, flag: DetailFlag) {
    (details / FlagValue(flag)) % 2 == 1
  }

  /** LocationsCategoryGroup: a group covers the category ids from min to max. */
  datatype CategoryGroup = CategoryGroup(minCategoryId: Int32, maxCategoryId: Int32)

  /**
    LocationsCategoryClassifier: getGroupById (a missing key is null), getGroupsCount,
    getGroupIndex, getGroupId and getGroupName.
  */
  datatype CategoryClassifier = CategoryClassifier(
    groupById: map<Int32, CategoryGroup>,
    groupsCount: nat,
    groupIndexOf: Int32 -> Int32,
    groupIdOf: Int32 -> Int32,
    groupNameOf: Int32 -> string)

  /** LocationsSearchFilter; every field may be null. */
  datatype LocationsSearchFilter = LocationsSearchFilter(
    categoryGroupIds: Option<seq<Int32>>,
    categoryIds: Option<seq<Int32>>,
    name: JString,
    wheelchair: JString,
    smoking: JString,
    fee: Option<bool>)

  /** LocationsCategory: a group's id and name, the count per category and the group's total. */
  datatype LocationsCategory = LocationsCategory(id: Int32, name: string, stats: map<Int32, Int64>, totalCount: Int64)
}
