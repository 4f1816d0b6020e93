/**
  IsochroneMapBuilderFactory: picks an isochrone map builder by the requested method name,
  initialises it with the factory's route search context and asks it to compute the map.

  The two builders (concave balls and grid) are computational geometry over the routing
  graph; their computation is not part of this model. A builder here is its kind, the
  computation it stands for (a function supplied at construction) and a ghost log of the
  calls made on it, so that the order of initialize and compute is visible.
*/
module Isochrones {
  import opened Wrappers
  import opened JavaLang

  /** RouteSearchContext: an opaque handle to the graph and its weighting. */
  type RouteSearchContext(==)

  /** Everything in IsochroneSearchParameters other than the method name. */
  type SearchSettings(==)

  /** The computed IsochroneMap. */
  type IsochroneMap

  datatype IsochroneSearchParameters = IsochroneSearchParameters(calcMethod: JString, settings: SearchSettings)

  /** The builders buildMap can construct. */
  datatype BuilderKind = ConcaveBalls | Grid

  /** A call made on a builder. */
  datatype BuilderCall = InitializeCall(context: RouteSearchContext) | ComputeCall(parameters: IsochroneSearchParameters)

  /** What a builder computes: its result, or the message of the exception it throws. */
  type Strategy = (BuilderKind, RouteSearchContext, IsochroneSearchParameters) -> Result<IsochroneMap, string>

  /** The message buildMap throws for a method name it does not know. */
  const UNKNOWN_METHOD: string := "Unknown method."

  /** The names of the first branch: an empty name, "Default" or "ConcaveBalls", in any letter case. */
  predicate NamesConcaveBalls(isEmpty: JString -> bool, calcMethod: JString) {
    || isEmpty(calcMethod)
    || LiteralEqualsIgnoreCase("Default", calcMethod)
    || LiteralEqualsIgnoreCase("ConcaveBalls", calcMethod)
  }

  /** The names of the second branch: "grid" in any letter case. */
  predicate NamesGrid(calcMethod: JString) {
    LiteralEqualsIgnoreCase("grid", calcMethod)
  }

  /** The builder the if/else-if chain of buildMap picks, or None when it throws "Unknown method.". */
  function SelectBuilder(isEmpty: JString -> bool, calcMethod: JString): Option<BuilderKind> {
    if NamesConcaveBalls(isEmpty, calcMethod) then Some(ConcaveBalls)
    else if NamesGrid(calcMethod) then Some(Grid)
    else None
  }

  /** A name that matches an ASCII word ignoring case is not one that Helper.isEmpty accepts. */
  lemma {:induction false} WordIsNotEmpty(isEmpty: JString -> bool, word: string, calcMethod: JString)
    requires IsEmptySpec(isEmpty)
    requires |word| > 0 && IsAsciiLetter(word[0])
    requires LiteralEqualsIgnoreCase(word, calcMethod)
    ensures !isEmpty(calcMethod)
  {
    LetterMatchIsNotTrimmed(word[0], calcMethod.value[0]);
    assert !IsBlank(calcMethod.value);
  }

  /**
    The two groups of names are disjoint, so the order of the branches decides nothing:
    every first-branch name selects the concave-balls builder and every grid name selects
    the grid builder.
  */
  lemma NameGroupsDisjoint(isEmpty: JString -> bool, calcMethod: JString)
    requires IsEmptySpec(isEmpty)
    ensures !(NamesConcaveBalls(isEmpty, calcMethod) && NamesGrid(calcMethod))
    ensures SelectBuilder(isEmpty, calcMethod) == Some(ConcaveBalls) <==> NamesConcaveBalls(isEmpty, calcMethod)
    ensures SelectBuilder(isEmpty, calcMethod) == Some(Grid) <==> NamesGrid(calcMethod)
    ensures SelectBuilder(isEmpty, calcMethod) == None <==> !NamesConcaveBalls(isEmpty, calcMethod) && !NamesGrid(calcMethod)
  {
    if NamesGrid(calcMethod) {
      WordIsNotEmpty(isEmpty, "grid", calcMethod);
    }
  }

  /** A null or empty method name selects the concave-balls builder. */
  lemma EmptyNameSelectsConcaveBalls(isEmpty: JString -> bool)
    requires IsEmptySpec(isEmpty)
    ensures SelectBuilder(isEmpty, None) == Some(ConcaveBalls)
    ensures SelectBuilder(isEmpty, Some("")) == Some(ConcaveBalls)
  {
  }

  /**
    For an ASCII method name the choice is decided by its lower-case form: "default" and
    "concaveballs" (or an empty name) give the concave-balls builder, "grid" the grid
    builder, and every other name fails.
  */
  lemma AsciiNameDispatch(isEmpty: JString -> bool, calcMethod: string)
    requires IsEmptySpec(isEmpty)
    requires IsAscii(calcMethod)
    ensures SelectBuilder(isEmpty, Some(calcMethod)) == Some(ConcaveBalls)
            <==> isEmpty(Some(calcMethod)) || AsciiLowerString(calcMethod) == "default" || AsciiLowerString(calcMethod) == "concaveballs"
    ensures SelectBuilder(isEmpty, Some(calcMethod)) == Some(Grid) <==> AsciiLowerString(calcMethod) == "grid"
    ensures SelectBuilder(isEmpty, Some(calcMethod)) == None
            <==> !isEmpty(Some(calcMethod)) && AsciiLowerString(calcMethod) != "default"
                 && AsciiLowerString(calcMethod) != "concaveballs" && AsciiLowerString(calcMethod) != "grid"
  {
    LowerCaseLiterals();
    LiteralEqualsIgnoreCaseAscii("Default", "default", calcMethod);
    LiteralEqualsIgnoreCaseAscii("ConcaveBalls", "concaveballs", calcMethod);
    LiteralEqualsIgnoreCaseAscii("grid", "grid", calcMethod);
    NameGroupsDisjoint(isEmpty, Some(calcMethod));
  }

  lemma LowerCaseLiterals()
    ensures IsAscii("Default") && AsciiLowerString("Default") == "default"
    ensures IsAscii("ConcaveBalls") && AsciiLowerString("ConcaveBalls") == "concaveballs"
    ensures IsAscii("grid") && AsciiLowerString("grid") == "grid"
  {
  }

  /** "GRID" selects the grid builder, "concaveBALLS" the concave-balls one, and "nonsense" fails. */
  lemma DispatchExamples(isEmpty: JString -> bool)
    requires IsEmptySpec(isEmpty)
    ensures SelectBuilder(isEmpty, Some("GRID")) == Some(Grid)
    ensures SelectBuilder(isEmpty, Some("concaveBALLS")) == Some(ConcaveBalls)
    ensures SelectBuilder(isEmpty, Some("nonsense")) == None
  {
    assert IsAscii("GRID") && AsciiLowerString("GRID") == "grid";
    AsciiNameDispatch(isEmpty, "GRID");
    assert IsAscii("concaveBALLS") && AsciiLowerString("concaveBALLS") == "concaveballs";
    AsciiNameDispatch(isEmpty, "concaveBALLS");
    assert IsAscii("nonsense") && AsciiLowerString("nonsense") == "nonsense";
    assert !IsTrimmedAway("nonsense"[0]);
    AsciiNameDispatch(isEmpty, "nonsense");
  }

  /**
    equalsIgnoreCase also folds non-ASCII characters onto ASCII letters: a dotless i (U+0131)
    in "grid" and a long s (U+017F) in "ConcaveBalls" still select those builders.
  */
  lemma NonAsciiCaseFolding(isEmpty: JString -> bool)
    requires IsEmptySpec(isEmpty)
    ensures SelectBuilder(isEmpty, Some("GR\U{0131}D")) == Some(Grid)
    ensures SelectBuilder(isEmpty, Some("ConcaveBall\U{017F}")) == Some(ConcaveBalls)
  {
    assert CharEqualsIgnoreCase('i', '\U{0131}');
    assert LiteralEqualsIgnoreCase("grid", Some("GR\U{0131}D"));
    NameGroupsDisjoint(isEmpty, Some("GR\U{0131}D"));
  }

  /** The most recent context a builder was initialised with. */
  ghost function LatestContext(calls: seq<BuilderCall>): Option<RouteSearchContext> {
    if |calls| == 0 then None
    else if calls[|calls| - 1].InitializeCall? then Some(calls[|calls| - 1].context)
    else LatestContext(calls[..|calls| - 1])
  }

  /** IsochroneMapBuilder: a concave-balls or grid builder. */
  class IsochroneMapBuilder {
    const kind: BuilderKind
    const strategy: Strategy
    var searchContext: Option<RouteSearchContext>
    ghost var calls: seq<BuilderCall>

    /** The builder works with the context it was last initialised with. */
    ghost predicate Valid()
      reads this
    {
      searchContext == LatestContext(calls)
    }

    constructor (kind: BuilderKind, strategy: Strategy)
      ensures Valid()
      ensures this.kind == kind && this.strategy == strategy
      ensures searchContext == None && calls == []
    {
      this.kind := kind;
      this.strategy := strategy;
      searchContext := None;
      calls := [];
    }

    /** initialize(searchContext). */
    method Initialize(searchContext: RouteSearchContext)
      requires Valid()
      modifies this
      ensures Valid()
      ensures this.searchContext == Some(searchContext)
      ensures calls == old(calls) + [InitializeCall(searchContext)]
    {
      this.searchContext := Some(searchContext);
      calls := calls + [InitializeCall(searchContext)];
    }

    /** compute(parameters), on the context of the latest initialize. */
    method Compute(parameters: IsochroneSearchParameters) returns (r: Result<IsochroneMap, string>)
      requires Valid() && searchContext.Some?
      modifies this`calls
      ensures Valid()
      ensures r == strategy(kind, searchContext.value, parameters)
      ensures calls == old(calls) + [ComputeCall(parameters)]
    {
      r := strategy(kind, searchContext.value, parameters);
      calls := calls + [ComputeCall(parameters)];
    }
  }

  /** IsochroneMapBuilderFactory. */
  class IsochroneMapBuilderFactory {
    const searchContext: RouteSearchContext
    /** The computation of each builder kind, fixed when the factory is made. */
    const strategy: Strategy

    constructor (searchContext: RouteSearchContext, strategy: Strategy)
      ensures this.searchContext == searchContext && this.strategy == strategy
    {
      this.searchContext := searchContext;
      this.strategy := strategy;
    }

    /**
      buildMap(parameters). On an unknown method name it fails with "Unknown method." and no
      builder is made; otherwise the selected builder is made fresh, initialised exactly once
      with the factory's context, then asked to compute once, and its result is returned.
      The ghost out-parameter exposes the builder that was used.
    */
    method BuildMap(parameters: IsochroneSearchParameters, isEmpty: JString -> bool)
      returns (r: Result<IsochroneMap, string>, ghost builder: IsochroneMapBuilder?)
      ensures SelectBuilder(isEmpty, parameters.calcMethod).None? ==> r == Failure(UNKNOWN_METHOD) && builder == null
      ensures SelectBuilder(isEmpty, parameters.calcMethod).Some? ==>
                && builder != null && fresh(builder)
                && builder.kind == SelectBuilder(isEmpty, parameters.calcMethod).value
                && builder.calls == [InitializeCall(searchContext), ComputeCall(parameters)]
                && r == strategy(builder.kind, searchContext, parameters)
    {
      var isochroneBuilder: IsochroneMapBuilder;
      var calcMethod := parameters.calcMethod;
      if isEmpty(calcMethod) || LiteralEqualsIgnoreCase("Default", calcMethod) || LiteralEqualsIgnoreCase("ConcaveBalls", calcMethod) {
        isochroneBuilder := new IsochroneMapBuilder(ConcaveBalls, strategy);
      } else if LiteralEqualsIgnoreCase("grid", calcMethod) {
        isochroneBuilder := new IsochroneMapBuilder(Grid, strategy);
      } else {
        return Failure(UNKNOWN_METHOD), null;
      }
      isochroneBuilder.Initialize(searchContext);
      r := isochroneBuilder.Compute(parameters);
      builder := isochroneBuilder;
    }
  }
}
