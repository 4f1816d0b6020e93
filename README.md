# Openrouteservice: isochrone method dispatch, PostgreSQL locations filters, unknown-parameter errors

This project models three small pieces of openrouteservice in Dafny and proves what they promise.

- **IsochroneMapBuilderFactory.buildMap** picks an isochrone map builder by the requested calculation method. An empty name, "Default" or "ConcaveBalls" gives the concave-balls builder, and "grid" gives the grid builder. Names are compared ignoring letter case. Any other name fails with "Unknown method.". Otherwise the builder is initialised with the factory's route search context and then asked to compute the map.
- **PostgreSQLLocationsDataProvider** is the PostgreSQL provider of the locations (points of interest) service. The model covers the code that needs no database:
  - the column list chosen by a request's detail flags, and the `COLUMNS_INFO` table built from it;
  - `addConditions`, `fixStringValues`, `buildCategoryIdsFilter`, `buildCategoryGroupIdsFilter` and `buildSearchFilter`, which write a request's search filter as an SQL condition;
  - the aggregation in `findCategories`, which turns the (category, count) rows of the category query into per-group statistics.
- **UnknownParameterValueException** carries status BAD_REQUEST, an error code and the message `Unknown parameter value '<value>' for '<name>'.`.

Files:
- `wrappers.dfy`: Option and Result.
- `java_lang.dfy`: the Java library behaviour the core relies on. This covers `String.indexOf`, `trim`, `split(",")` (trailing empty fields dropped), string joining, decimal rendering of an `int`, `equalsIgnoreCase`, 64-bit `long` wrap-around, and the assumed contract of `Helper.isEmpty`.
- `locations.dfy`: the collaborators the provider only calls: detail flags, category groups, the classifier and the search filter.
- `exceptions.dfy`: UnknownParameterValueException.
- `isochrones.dfy`: the builders and the factory.
- `postgresql_locations_data_provider.dfy`: the provider.

Each imperative method is proved against a specification function, and the properties are lemmas about those functions:
- `GetColumnNames` is proved against `ColumnNames`;
- `FixStringValues` against `FixedStringValues`;
- `BuildCategoryGroupIdsFilter` against `CategoryGroupIdsFilter`;
- `BuildSearchFilter` against `SearchFilter`;
- `AggregateCategories` against `CategoriesOf`.

Foreign calls are parameters or data, each with the assumption the model makes explicit:
- `Helper.isEmpty` is a function parameter constrained by `IsEmptySpec`: null and "" are empty, and any string it calls empty is blank in the sense of `trim`.
- `LocationsCategoryClassifier` is a record holding:
  - the partial map from group id to category range;
  - the group count;
  - the index, id and name functions.
- The flag test `LocationDetailsType.isSet` is the bit test for ADDRESS = 1, CONTACT = 2 and ATTRIBUTES = 4.

## Model

| member | source | states |
|---|---|---|
| Isochrones.IsochroneMapBuilderFactory.constructor | openrouteservice/src/main/java/org/heigit/ors/isochrones/IsochroneMapBuilderFactory.java:25-27 | the factory keeps the route search context it is given |
| Isochrones.IsochroneMapBuilderFactory.BuildMap | openrouteservice/src/main/java/org/heigit/ors/isochrones/IsochroneMapBuilderFactory.java:29-41 | an unknown name fails with "Unknown method." and makes no builder; otherwise a fresh builder of the selected kind gets exactly initialize(factory context), then compute(parameters), and its result is returned |
| Isochrones.IsochroneMapBuilder.constructor | openrouteservice/src/main/java/org/heigit/ors/isochrones/IsochroneMapBuilderFactory.java:33-35 | a new builder of the given kind is not yet initialised and has had no calls |
| Isochrones.IsochroneMapBuilder.Initialize | openrouteservice/src/main/java/org/heigit/ors/isochrones/IsochroneMapBuilderFactory.java:39 | the builder now works with the given context, and the call is logged |
| Isochrones.IsochroneMapBuilder.Compute | openrouteservice/src/main/java/org/heigit/ors/isochrones/IsochroneMapBuilderFactory.java:40 | the result is the builder's computation on the context of its latest initialize, and the call is logged |
| Isochrones.NameGroupsDisjoint | openrouteservice/src/main/java/org/heigit/ors/isochrones/IsochroneMapBuilderFactory.java:32-38 | no name is in both groups; each builder is selected exactly for the names of its group, and the failure exactly for names in neither group |
| Isochrones.EmptyNameSelectsConcaveBalls | openrouteservice/src/main/java/org/heigit/ors/isochrones/IsochroneMapBuilderFactory.java:32-33 | a null or empty name selects the concave-balls builder |
| Isochrones.AsciiNameDispatch | openrouteservice/src/main/java/org/heigit/ors/isochrones/IsochroneMapBuilderFactory.java:32-37 | for an ASCII name the choice depends only on its lower-case form: "default", "concaveballs" or empty gives concave balls, "grid" gives grid, and anything else fails (each an if-and-only-if) |
| Isochrones.DispatchExamples | openrouteservice/src/main/java/org/heigit/ors/isochrones/IsochroneMapBuilderFactory.java:32-37 | "GRID" selects grid, "concaveBALLS" selects concave balls, and "nonsense" fails |
| Isochrones.NonAsciiCaseFolding | openrouteservice/src/main/java/org/heigit/ors/isochrones/IsochroneMapBuilderFactory.java:32-35 | equalsIgnoreCase also folds the dotless i and the long s, so "GRıD" selects grid and "ConcaveBallſ" selects concave balls |
| Exceptions.UnknownParameterValueWithCode | openrouteservice/src/main/java/heigit/ors/exceptions/UnknownParameterValueException.java:24-27 | the status is BAD_REQUEST, the error code is the one given, and the message has the fixed prefix and suffix and the length of the fixed text plus name and value |
| Exceptions.ConstructorsAgree | openrouteservice/src/main/java/heigit/ors/exceptions/UnknownParameterValueException.java:19-27 | the two-argument constructor is the three-argument one with error code -1; the status is BAD_REQUEST either way; the error code passes through |
| Exceptions.MessageNamesParameterAndValue | openrouteservice/src/main/java/heigit/ors/exceptions/UnknownParameterValueException.java:26 | for a value without a single quote, the name and value are read back from the message |
| Exceptions.MessageDeterminesParameter | openrouteservice/src/main/java/heigit/ors/exceptions/UnknownParameterValueException.java:26 | equal messages (values without quotes) mean equal parameter names and values |
| PostgreSQLLocationsDataProvider.GetColumnNames | openrouteservice/src/main/java/heigit/ors/locations/providers/postgresql/PostgreSQLLocationsDataProvider.java:71-100 | the list built by appending is the column list of the details value |
| PostgreSQLLocationsDataProvider.ColumnNamesLayout | openrouteservice/src/main/java/heigit/ors/locations/providers/postgresql/PostgreSQLLocationsDataProvider.java:71-100 | the list is osm_id, category, name, geom, then the columns of each set flag in flag order, then distance; its length is 5+1+2+4 over the set flags; geom is at _geomColumnIndex 3; the last entry is distance |
| PostgreSQLLocationsDataProvider.SelectedColumnsInOrder | openrouteservice/src/main/java/heigit/ors/locations/providers/postgresql/PostgreSQLLocationsDataProvider.java:80-93 | the optional columns are address (ADDRESS), then phone and website (CONTACT), then opening_hours, wheelchair, smoking and fee (ATTRIBUTES) |
| PostgreSQLLocationsDataProvider.ColumnsPresentIffFlagSet | openrouteservice/src/main/java/heigit/ors/locations/providers/postgresql/PostgreSQLLocationsDataProvider.java:80-93 | address, phone and opening_hours are present exactly when their flag is set |
| PostgreSQLLocationsDataProvider.ColumnNamesDetermineDetails | openrouteservice/src/main/java/heigit/ors/locations/providers/postgresql/PostgreSQLLocationsDataProvider.java:64-68 | for details 0 to 7 the flags are read back from the column list |
| PostgreSQLLocationsDataProvider.ColumnsInfoSlotsDiffer | openrouteservice/src/main/java/heigit/ors/locations/providers/postgresql/PostgreSQLLocationsDataProvider.java:64-68 | the eight COLUMNS_INFO lists are pairwise different |
| PostgreSQLLocationsDataProvider.ExplicitFirstEntryIsDetailsZero | openrouteservice/src/main/java/heigit/ors/locations/providers/postgresql/PostgreSQLLocationsDataProvider.java:65-68 | the explicit entry for slot 0 equals getColumnNames(0), so the loop's overwrite changes nothing |
| PostgreSQLLocationsDataProvider.BuildColumnsInfo | openrouteservice/src/main/java/heigit/ors/locations/providers/postgresql/PostgreSQLLocationsDataProvider.java:62-69 | a fresh table of 8 slots whose slot i is the column list of details i |
| PostgreSQLLocationsDataProvider.AddConditions | openrouteservice/src/main/java/heigit/ors/locations/providers/postgresql/PostgreSQLLocationsDataProvider.java:275-281 | an empty first condition gives the second alone; a non-blank one gives first + " AND " + second; nothing else is possible |
| PostgreSQLLocationsDataProvider.FixStringValues | openrouteservice/src/main/java/heigit/ors/locations/providers/postgresql/PostgreSQLLocationsDataProvider.java:465-489 | the result is the specified quoting: each comma field trimmed and quoted and joined by commas, or the single value quoted unless it holds a quote after its first character |
| PostgreSQLLocationsDataProvider.QuoteAll | openrouteservice/src/main/java/heigit/ors/locations/providers/postgresql/PostgreSQLLocationsDataProvider.java:469-480 | the index loop yields the trimmed, quoted parts joined by "," with no trailing comma |
| PostgreSQLLocationsDataProvider.SingleValueQuoting | openrouteservice/src/main/java/heigit/ors/locations/providers/postgresql/PostgreSQLLocationsDataProvider.java:482-488 | a single value is returned unchanged exactly when it is non-empty, does not start with a quote and holds one; otherwise it is wrapped in quotes |
| PostgreSQLLocationsDataProvider.MultipleValuesRoundTrip | openrouteservice/src/main/java/heigit/ors/locations/providers/postgresql/PostgreSQLLocationsDataProvider.java:467-480 | splitting the list at its commas gives back exactly the trimmed, quoted fields of the value, one per field, in order |
| PostgreSQLLocationsDataProvider.CategoryIdsFilterRoundTrip | openrouteservice/src/main/java/heigit/ors/locations/providers/postgresql/PostgreSQLLocationsDataProvider.java:414-423 | null gives ""; the ids are read back, in order, from the filter text; the filter is the equality form exactly when there is one id |
| PostgreSQLLocationsDataProvider.ParseIdListOfIdList | openrouteservice/src/main/java/heigit/ors/locations/providers/postgresql/PostgreSQLLocationsDataProvider.java:422 | the ids are read back from the ", "-separated list of the IN form |
| PostgreSQLLocationsDataProvider.BuildCategoryGroupIdsFilter | openrouteservice/src/main/java/heigit/ors/locations/providers/postgresql/PostgreSQLLocationsDataProvider.java:425-463 | the method returns or fails exactly as the specified group filter does |
| PostgreSQLLocationsDataProvider.JoinDisjuncts | openrouteservice/src/main/java/heigit/ors/locations/providers/postgresql/PostgreSQLLocationsDataProvider.java:434-447 | the loop fails with the error for the first id without a group; otherwise it yields each id's condition in parentheses, in order, separated by " OR " |
| PostgreSQLLocationsDataProvider.GroupIdsFilterFailsIffUnknown | openrouteservice/src/main/java/heigit/ors/locations/providers/postgresql/PostgreSQLLocationsDataProvider.java:436-457 | for a non-empty id array the filter fails exactly when some id has no group, and the error is BAD_REQUEST naming the first such id |
| PostgreSQLLocationsDataProvider.GroupIdsFilterStatesRanges | openrouteservice/src/main/java/heigit/ors/locations/providers/postgresql/PostgreSQLLocationsDataProvider.java:429-460 | for known ids: one id gives its bare range; several give one parenthesised range per id, in order, joined by " OR " inside outer parentheses; each range's group is read back from its text |
| PostgreSQLLocationsDataProvider.RangeConditionRoundTrip | openrouteservice/src/main/java/heigit/ors/locations/providers/postgresql/PostgreSQLLocationsDataProvider.java:443-459 | the group's bounds are read back from its range condition |
| PostgreSQLLocationsDataProvider.BuildSearchFilter | openrouteservice/src/main/java/heigit/ors/locations/providers/postgresql/PostgreSQLLocationsDataProvider.java:239-273 | the step-by-step text is the specified filter: "" for null, else the conditions joined by AND, or the error of the group filter |
| PostgreSQLLocationsDataProvider.AddCategoryCondition | openrouteservice/src/main/java/heigit/ors/locations/providers/postgresql/PostgreSQLLocationsDataProvider.java:245-248 | the group-id condition when group ids are given, else the category-id condition, each parenthesised; it fails exactly when the group filter fails, with the same error |
| PostgreSQLLocationsDataProvider.AddFieldConditions | openrouteservice/src/main/java/heigit/ors/locations/providers/postgresql/PostgreSQLLocationsDataProvider.java:250-270 | adding the name, wheelchair, smoking and fee conditions in that order extends the AND-joined list by exactly the present conditions |
| PostgreSQLLocationsDataProvider.AddValueCondition | openrouteservice/src/main/java/heigit/ors/locations/providers/postgresql/PostgreSQLLocationsDataProvider.java:253-266 | a non-empty value adds its IN or equality condition to the list, and an empty one adds nothing |
| PostgreSQLLocationsDataProvider.AddConditionExtends | openrouteservice/src/main/java/heigit/ors/locations/providers/postgresql/PostgreSQLLocationsDataProvider.java:275-281 | addConditions on the AND-join of parenthesised conditions is the AND-join with one more condition |
| PostgreSQLLocationsDataProvider.EmptySearchFilter | openrouteservice/src/main/java/heigit/ors/locations/providers/postgresql/PostgreSQLLocationsDataProvider.java:241-273 | a null filter, and a filter with every field null, give "" |
| PostgreSQLLocationsDataProvider.GroupIdsTakePrecedence | openrouteservice/src/main/java/heigit/ors/locations/providers/postgresql/PostgreSQLLocationsDataProvider.java:245-248 | when group ids are given, the category ids do not change the filter |
| PostgreSQLLocationsDataProvider.SearchFilterFailsIff | openrouteservice/src/main/java/heigit/ors/locations/providers/postgresql/PostgreSQLLocationsDataProvider.java:245-246 | the filter fails exactly when group ids are given and are empty or hold an unknown id; the error is the group filter's |
| PostgreSQLLocationsDataProvider.SearchConditionsCount | openrouteservice/src/main/java/heigit/ors/locations/providers/postgresql/PostgreSQLLocationsDataProvider.java:245-270 | one condition for the category, a non-null name, each non-empty wheelchair and smoking value, and a non-null fee; every condition is parenthesised |
| PostgreSQLLocationsDataProvider.AggregateCategories | openrouteservice/src/main/java/heigit/ors/locations/providers/postgresql/PostgreSQLLocationsDataProvider.java:329-365 | the two loops yield the specified per-group statistics, or the data-retrieval error |
| PostgreSQLLocationsDataProvider.CountRows | openrouteservice/src/main/java/heigit/ors/locations/providers/postgresql/PostgreSQLLocationsDataProvider.java:329-348 | the loop fails exactly when a row's group index is outside the counter array; otherwise the count maps are those of the rows' groups and each counter holds its group's wrapped total |
| PostgreSQLLocationsDataProvider.CollectCategories | openrouteservice/src/main/java/heigit/ors/locations/providers/postgresql/PostgreSQLLocationsDataProvider.java:353-359 | one LocationsCategory per group that holds a row, with the group's id, name, count map and counter |
| PostgreSQLLocationsDataProvider.CountersStep | openrouteservice/src/main/java/heigit/ors/locations/providers/postgresql/PostgreSQLLocationsDataProvider.java:346 | groupCount[groupIndex] += count keeps each counter equal to its group's wrapped total |
| PostgreSQLLocationsDataProvider.StatsStep | openrouteservice/src/main/java/heigit/ors/locations/providers/postgresql/PostgreSQLLocationsDataProvider.java:339-347 | creating a missing count map and putting the row's count keeps the maps equal to the rows' group statistics |
| PostgreSQLLocationsDataProvider.KnownStep | openrouteservice/src/main/java/heigit/ors/locations/providers/postgresql/PostgreSQLLocationsDataProvider.java:346 | one more row is in bounds exactly when the earlier rows and its group index are; one out-of-bounds row makes the whole aggregation fail |
| PostgreSQLLocationsDataProvider.GroupsOfAreRowGroups | openrouteservice/src/main/java/heigit/ors/locations/providers/postgresql/PostgreSQLLocationsDataProvider.java:339-343 | a group has a count map exactly when some row's category maps to it |
| PostgreSQLLocationsDataProvider.GroupStatsKeepLatest | openrouteservice/src/main/java/heigit/ors/locations/providers/postgresql/PostgreSQLLocationsDataProvider.java:347 | a group's map holds exactly the categories of its rows, each with the count of its last row |
| PostgreSQLLocationsDataProvider.StatsCategoryInItsGroup | openrouteservice/src/main/java/heigit/ors/locations/providers/postgresql/PostgreSQLLocationsDataProvider.java:336-347 | a category is counted only in the group the classifier maps it to |
| PostgreSQLLocationsDataProvider.CategoriesOfEntries | openrouteservice/src/main/java/heigit/ors/locations/providers/postgresql/PostgreSQLLocationsDataProvider.java:329-359 | a group is in the result exactly when some row maps to it; its entry carries the classifier's id and name, the group's count map, and a total equal to the exact sum whenever that fits in a long |
| PostgreSQLLocationsDataProvider.CategoriesOfFailsIff | openrouteservice/src/main/java/heigit/ors/locations/providers/postgresql/PostgreSQLLocationsDataProvider.java:346-365 | the aggregation fails exactly when some row's group index is out of bounds, and its error is the data-retrieval error |
| PostgreSQLLocationsDataProvider.FindCategoriesReportsRetrievalError | openrouteservice/src/main/java/heigit/ors/locations/providers/postgresql/PostgreSQLLocationsDataProvider.java:321-376 | findCategories fails exactly when the search filter fails or a row is out of bounds, and always with the data-retrieval error |

## Left out

- `init`, the HikariCP connection pool and its configuration: JDBC I/O.
- Connections, prepared statements and result sets in `findLocations` and `findCategories`: JDBC I/O. The rows of the category query are an input to the model.
- `findLocations`: it reads result-set rows and WKB geometry, which is database and geometry I/O. This includes its column-count adjustment for polygon requests.
- `createLocationsStatement`, `createCategoriesStatement` and `buildBboxFilter`: they render floating point (`%.3f`, `%.7f`) into prepared statements. Only their call of `buildSearchFilter` is modelled, in `FindCategories`.
- `geometryToWKB`, `close` and `getName`: JTS geometry serialisation, resource release and a constant name. None decides anything here.
- Logging and timing: no effect on results.
- AggregateCategories returns a map keyed by group index instead of a list built in HashMap iteration order, because that order is unspecified.
- CollectCategories: HashMap iteration order is unspecified, so it visits the groups in an arbitrary order and returns a map.
- The isochrone builders' computation is computational geometry over the routing graph. That code is not part of this model: a builder computes by a supplied function of its kind, context and parameters. The call log that makes initialize-then-compute visible is ghost state.
- Helper.isEmpty: only the assumed contract `IsEmptySpec` is modelled, not its code. The contract covers both a zero-length test and a blank test.
- `ArraysUtility.toString(ids, ", ")` is assumed to write the ids in decimal, separated by ", ".
- LiteralEqualsIgnoreCase: the upper- and lower-case mappings are exact for ASCII and for the non-ASCII characters that fold onto ASCII letters. Since every comparison in the core is against an ASCII literal, this decides every comparison there.
- `StatusCode.BAD_REQUEST` is taken as HTTP 400.
- `LocationsErrorCodes.UNKNOWN` and the exception class are not shown. The catch-all of `findCategories` is modelled as the single error `DataRetrievalFailed`.
- JoinDisjuncts takes the condition of a group as a parameter. Its one caller passes the range condition, so the loop's proof does not depend on how numbers are written out.
- FindCategories: any exception inside the try block, the search filter's included, becomes the data-retrieval error.
- `buildCategoryIdsFilter` writes an empty id array as " category IN ()". The model keeps that, and the ids read back from it are the empty list.
