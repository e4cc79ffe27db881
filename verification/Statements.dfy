// The closing balance sheet: the year's balances with the year's earnings.
module Statements {
  import opened Results
  import opened Calendar
  import opened Accumulators
  import opened Configurations
  import opened Movements
  import opened CarryForward
  import opened Bookkeeping
  import opened Rows
  import opened TrialBalances
  import opened Sections
  import opened StatementRows
  import opened Reports

  datatype ClosingCommodity = ClosingCommodity(
    commodity: string, total: Balance, currentEarnings: Balance, groups: seq<StatementGroup>)

  datatype ClosingBalanceSheet = ClosingBalanceSheet(
    revision: int, fiscalYear: Period, asOf: Date, classificationComplete: bool, warnings: seq<Warning>,
    commodities: seq<ClosingCommodity>)

  // -------------------------------------------------- restricting categories

  const BalanceCategories: set<Category> := {Asset, Liability, Equity, Unclassified}

  const EarningCategories: set<Category> := {Revenue, Expense}

  const AllCategories: set<Category> := {Asset, Liability, Equity, Revenue, Expense, Unclassified}

  function FilterTotals(m: Totals, C: set<Category>): Totals {
    map k | k in m && k.category in C :: m[k]
  }

  // filterAmounts
  method FilterAmounts(m: Totals, C: set<Category>) returns (r: Totals)
    ensures r == FilterTotals(m, C)
  {
    r := map[];
    var todo := m.Keys;
    while todo != {}
      invariant todo <= m.Keys
      invariant r == map k | k in m && k !in todo && k.category in C :: m[k]
    {
      var key :| key in todo;
      if key.category in C {
        r := r[key := m[key]];
      }
      todo := todo - {key};
    }
  }

  ghost function InCategories(commodity: string, C: set<Category>): iset<AmountKey> {
    iset k: AmountKey | k.commodity == commodity && k.category in C
  }

  lemma FilterSum(m: Totals, C: set<Category>, K: iset<AmountKey>)
    ensures TotalSum(FilterTotals(m, C), K) == TotalSum(m, K * (iset k: AmountKey | k.category in C))
  {
    hide Plus, SumOver;
    var n := FilterTotals(m, C);
    var F := iset k: AmountKey | k.category in C;
    var S, T := set k | k in n && k in K, set k | k in m && k in K * F;
    assert S == T;
    SumOverSame(n, m, S);
  }

  lemma FilterCommodity(m: Totals, C: set<Category>, commodity: string)
    ensures TotalSum(FilterTotals(m, C), OfCommodity(commodity)) == TotalSum(m, InCategories(commodity, C))
  {
    hide Plus, SumOver, TotalSum, FilterTotals;
    FilterSum(m, C, OfCommodity(commodity));
    assert OfCommodity(commodity) * (iset k: AmountKey | k.category in C) == InCategories(commodity, C);
  }

  // ----------------------------------------------------- totals by commodity

  ghost function CommoditiesWith(m: Totals, C: set<Category>): set<string> {
    set k | k in m && k.category in C :: k.commodity
  }

  ghost function ByCommodity(m: Totals, C: set<Category>): map<string, Accumulator> {
    map c | c in CommoditiesWith(m, C) :: TotalSum(m, InCategories(c, C))
  }

  lemma TotalSumAdd(m: Totals, k: AmountKey, value: Accumulator, K: iset<AmountKey>)
    requires k !in m
    ensures TotalSum(m[k := value], K) == if k in K then Plus(TotalSum(m, K), value) else TotalSum(m, K)
  {
    hide Plus, SumOver;
    var n := m[k := value];
    var S, T := set j | j in m && j in K, set j | j in n && j in K;
    SumOverSame(m, n, S);
    if k in K {
      assert T == S + {k};
      SumOverInsert(n, S, k);
    } else {
      assert T == S;
    }
  }

  lemma ByCommodityStep(m: Totals, k: AmountKey, value: Accumulator, C: set<Category>)
    requires k !in m
    ensures var totals := ByCommodity(m, C);
            ByCommodity(m[k := value], C) ==
            if k.category in C then totals[k.commodity := Plus(Get(totals, k.commodity), value)] else totals
  {
    hide Plus, TotalSum;
    var n, totals := m[k := value], ByCommodity(m, C);
    assert CommoditiesWith(n, C) == CommoditiesWith(m, C) + (if k.category in C then {k.commodity} else {});
    forall c
      ensures TotalSum(n, InCategories(c, C)) ==
              if c == k.commodity && k.category in C then Plus(TotalSum(m, InCategories(c, C)), value)
              else TotalSum(m, InCategories(c, C))
    {
      TotalSumAdd(m, k, value, InCategories(c, C));
    }
    AbsentCommodity(m, C, k.commodity);
    PlusUnset(value);
  }

  lemma AbsentCommodity(m: Totals, C: set<Category>, commodity: string)
    ensures Get(ByCommodity(m, C), commodity) == TotalSum(m, InCategories(commodity, C))
  {
    hide Plus, SumOver;
    if commodity !in CommoditiesWith(m, C) {
      assert (set k | k in m && k in InCategories(commodity, C)) == {};
      EmptySum(m);
    }
  }

  // categoryTotalsByCommodity
  method TotalsByCommodity(m: Totals, C: set<Category>) returns (totals: map<string, Accumulator>)
    ensures totals == ByCommodity(m, C)
  {
    hide ByCommodity;
    totals := map[];
    var todo := m.Keys;
    NothingByCommodity(C);
    assert Restrict(m, m.Keys - todo) == map[];
    while todo != {}
      invariant todo <= m.Keys
      invariant totals == ByCommodity(Restrict(m, m.Keys - todo), C)
    {
      var key :| key in todo;
      ByCommodityStep(Restrict(m, m.Keys - todo), key, m[key], C);
      assert Restrict(m, m.Keys - (todo - {key})) == Restrict(m, m.Keys - todo)[key := m[key]];
      if key.category in C {
        totals := totals[key.commodity := Plus(Get(totals, key.commodity), m[key])];
      }
      todo := todo - {key};
    }
    assert Restrict(m, m.Keys - todo) == m;
  }

  lemma NothingByCommodity(C: set<Category>)
    ensures ByCommodity(map[], C) == map[]
  {
  }

  // amountsBalanced
  method AmountsBalanced(m: Totals) returns (balanced: bool)
    ensures balanced <==> BalancedTotals(m)
  {
    hide ByCommodity, TotalSum, OfCommodity, InCategories;
    var totals := TotalsByCommodity(m, AllCategories);
    forall c
      ensures TotalSum(m, OfCommodity(c)) == Get(totals, c)
    {
      AbsentCommodity(m, AllCategories, c);
      EveryCategory(c);
    }
    var todo := totals.Keys;
    while todo != {}
      invariant todo <= totals.Keys
      invariant forall c | c in totals && c !in todo :: IsZero(totals[c])
    {
      var c :| c in todo;
      if SignOf(totals[c]) != 0 {
        assert !IsZero(TotalSum(m, OfCommodity(c)));
        return false;
      }
      todo := todo - {c};
    }
    return true;
  }

  lemma EveryCategory(commodity: string)
    ensures InCategories(commodity, AllCategories) == OfCommodity(commodity)
  {
    forall x: Category
      ensures x in AllCategories
    {
      match x
      case Asset => assert x in AllCategories;
      case Liability => assert x in AllCategories;
      case Equity => assert x in AllCategories;
      case Revenue => assert x in AllCategories;
      case Expense => assert x in AllCategories;
      case Unclassified => assert x in AllCategories;
    }
  }

  // ------------------------------------------------- the closing balance sheet

  ghost function Earnings(m: Totals, commodity: string): Accumulator {
    TotalSum(m, InCategories(commodity, EarningCategories))
  }

  ghost function ClosingCommodityOf(commodity: string, m: Totals): ClosingCommodity {
    ClosingCommodity(commodity, BalanceText(TotalSum(m, OfCommodity(commodity))), BalanceText(Earnings(m, commodity)),
                     StatementOf(commodity, FilterTotals(m, BalanceCategories)).section.groups)
  }

  ghost function ClosingCommodities(names: seq<string>, m: Totals): seq<ClosingCommodity> {
    if names == [] then []
    else ClosingCommodities(names[..|names| - 1], m) + [ClosingCommodityOf(names[|names| - 1], m)]
  }

  ghost predicate ClosingFits(m: Totals) {
    && AllStatementsFit(FilterTotals(m, BalanceCategories))
    && forall c | c in CommoditiesIn(m) :: Fits(Earnings(m, c)) && Fits(TotalSum(m, OfCommodity(c)))
  }

  // The printed section total plus the unprinted earnings is the commodity's
  // whole sum, however the total was printed and read back.
  lemma ClosingTotal(m: Totals, commodity: string)
    requires Fits(TotalSum(FilterTotals(m, BalanceCategories), OfCommodity(commodity)))
    ensures var printed := BalanceText(TotalSum(FilterTotals(m, BalanceCategories), OfCommodity(commodity)));
            Norm(Plus(ParseBalance(printed), Earnings(m, commodity))) == Norm(TotalSum(m, OfCommodity(commodity)))
  {
    hide Plus, TotalSum, Norm, Fits, BalanceText, ParseBalance, FilterTotals;
    var section := TotalSum(FilterTotals(m, BalanceCategories), OfCommodity(commodity));
    ReparseBalance(section);
    FilterCommodity(m, BalanceCategories, commodity);
    TotalSumSplit(m, InCategories(commodity, BalanceCategories), InCategories(commodity, EarningCategories));
    BalanceAndEarnings(commodity);
    NormPlus(Norm(section), Earnings(m, commodity));
    NormPlus(section, Earnings(m, commodity));
    NormTwice(section);
  }

  lemma BalanceAndEarnings(commodity: string)
    ensures InCategories(commodity, BalanceCategories) + InCategories(commodity, EarningCategories) == OfCommodity(commodity)
    ensures InCategories(commodity, BalanceCategories) !! InCategories(commodity, EarningCategories)
  {
    EveryCategory(commodity);
    assert AllCategories == BalanceCategories + EarningCategories;
  }

  // A commodity without balance accounts has the empty section.
  lemma AbsentSection(commodity: string, m: Totals)
    requires forall k | k in m :: k.commodity != commodity
    ensures StatementOf(commodity, m).section == StatementSection(commodity, Balance("0", "0"), [])
  {
    hide Plus, SumOver, StatementGroupOf;
    assert (set k | k in m && k in OfCommodity(commodity)) == {};
    EmptySum(m);
    NoGroupsFor(commodity, m, 6);
  }

  lemma {:induction false} NoGroupsFor(commodity: string, m: Totals, n: nat)
    requires n <= 6 && forall k | k in m :: k.commodity != commodity
    ensures StatementGroups(commodity, m, n) == []
  {
    hide StatementGroupOf;
    if n > 0 {
      NoGroupsFor(commodity, m, n - 1);
      assert AccountsIn(commodity, CategoryOrder[n - 1], m) == {};
      assert DirectSums(commodity, CategoryOrder[n - 1], m) == map[];
    }
  }

  lemma {:induction false} SectionAt(names: seq<string>, m: Totals, i: nat)
    requires i < |names|
    ensures |StatementSections(names, m)| == |names| && StatementSections(names, m)[i] == StatementOf(names[i], m).section
  {
    hide StatementOf;
    if i < |names| - 1 {
      SectionAt(names[..|names| - 1], m, i);
    } else if |names| > 1 {
      SectionAt(names[..|names| - 1], m, 0);
    }
  }

  lemma StatementNamed(commodity: string, m: Totals)
    ensures StatementOf(commodity, m).section.commodity == commodity
    ensures StatementOf(commodity, m).section.total == BalanceText(TotalSum(m, OfCommodity(commodity)))
  {
  }

  // sectionByCommodity
  method IndexSections(names: seq<string>, ghost m: Totals, sections: seq<StatementSection>)
      returns (index: map<string, StatementSection>)
    requires sections == StatementSections(names, m)
    ensures forall c :: c in index <==> c in names
    ensures forall c | c in index :: index[c] == StatementOf(c, m).section
  {
    hide StatementOf;
    index := map[];
    for i := 0 to |names|
      invariant forall c :: c in index <==> c in names[..i]
      invariant forall c | c in index :: index[c] == StatementOf(c, m).section
    {
      SectionAt(names, m, i);
      StatementNamed(names[i], m);
      assert names[..i + 1] == names[..i] + [names[i]];
      index := index[sections[i].commodity := sections[i]];
    }
    assert names[..|names|] == names;
  }

  datatype ClosingResult = ClosingResult(commodities: seq<ClosingCommodity>, warnings: seq<Warning>, complete: bool)

  ghost function ClosingOf(m: Totals): ClosingResult {
    var statements := StatementsOf(FilterTotals(m, BalanceCategories));
    ClosingResult(ClosingCommodities(CommoditiesIn(m), m), statements.warnings, statements.complete)
  }

  lemma FittingSections(m: Totals, commodity: string)
    requires AllStatementsFit(m)
    ensures Fits(TotalSum(m, OfCommodity(commodity)))
  {
    hide Plus, SumOver, StatementGroupFits;
    if commodity in CommoditiesIn(m) {
      var names := CommoditiesIn(m);
      var i :| 0 <= i < |names| && names[i] == commodity;
      assert StatementFits(names[i], m);
    } else {
      assert forall k | k in m :: k.commodity in (set k | k in m :: k.commodity);
      assert (set k | k in m && k in OfCommodity(commodity)) == {};
      EmptySum(m);
    }
  }

  lemma ZeroSign(a: Accumulator)
    ensures SignOf(a) == 0 <==> IsZero(a)
  {
  }

  // One commodity of the closing sheet: the balance check and the two figures.
  method BuildClosingCommodity(commodity: string, ghost m: Totals, section: StatementSection, earnings: Accumulator)
      returns (r: Result<ClosingCommodity, ReportError>)
    requires section == StatementOf(commodity, FilterTotals(m, BalanceCategories)).section
    requires earnings == Earnings(m, commodity)
    requires Fits(TotalSum(FilterTotals(m, BalanceCategories), OfCommodity(commodity)))
    ensures r == if ClosingFault(commodity, m).Some? then Err(ClosingFault(commodity, m).value)
                 else Ok(ClosingCommodityOf(commodity, m))
  {
    hide Plus, TotalSum, Norm, Fits, BalanceText, ParseBalance, FilterTotals, StatementGroups, IsZero, SignOf;
    StatementNamed(commodity, FilterTotals(m, BalanceCategories));
    ClosingTotal(m, commodity);
    var total := Plus(ParseBalance(section.total), earnings);
    NormText(total);
    NormText(TotalSum(m, OfCommodity(commodity)));
    ZeroSign(total);
    if SignOf(total) != 0 {
      return Err(ClosingUnbalanced);
    }
    var formattedEarnings := FormatBalance(earnings);
    if formattedEarnings.Err? {
      return Err(AmountOverflow);
    }
    var formattedTotal := FormatBalance(total);
    if formattedTotal.Err? {
      return Err(AmountOverflow);
    }
    return Ok(ClosingCommodity(commodity, formattedTotal.value, formattedEarnings.value, section.groups));
  }

  // What one commodity of the closing sheet is refused for.
  ghost function ClosingFault(commodity: string, m: Totals): Option<ReportError> {
    if !IsZero(TotalSum(m, OfCommodity(commodity))) then Some(ClosingUnbalanced)
    else if !Fits(Earnings(m, commodity)) || !Fits(TotalSum(m, OfCommodity(commodity))) then Some(AmountOverflow)
    else None
  }

  // The first refusal in commodity order.
  ghost function FirstClosingFault(names: seq<string>, m: Totals): Option<ReportError> {
    if names == [] then None
    else
      var earlier := FirstClosingFault(names[..|names| - 1], m);
      if earlier.Some? then earlier else ClosingFault(names[|names| - 1], m)
  }

  lemma {:induction false} NoClosingFault(names: seq<string>, m: Totals)
    ensures FirstClosingFault(names, m).None? <==> forall i | 0 <= i < |names| :: ClosingFault(names[i], m).None?
  {
    hide ClosingFault;
    if names != [] {
      NoClosingFault(names[..|names| - 1], m);
    }
  }

  // Amounts that do not balance are refused, at the latest for a commodity
  // that does not sum to zero.
  lemma UnbalancedIsRefused(m: Totals)
    ensures !BalancedTotals(m) ==> FirstClosingFault(CommoditiesIn(m), m).Some?
    ensures BalancedTotals(m) ==> FirstClosingFault(CommoditiesIn(m), m) != Some(ClosingUnbalanced)
  {
    hide TotalSum, Fits, Earnings, FirstClosingFault;
    var names := CommoditiesIn(m);
    NoClosingFault(names, m);
    if !BalancedTotals(m) {
      var c :| !IsZero(TotalSum(m, OfCommodity(c)));
      UnbalancedIsListed(m, c);
      var i :| 0 <= i < |names| && names[i] == c;
      assert ClosingFault(names[i], m).Some?;
    } else {
      OnlyOverflows(names, m);
    }
  }

  lemma UnbalancedIsListed(m: Totals, commodity: string)
    requires !IsZero(TotalSum(m, OfCommodity(commodity)))
    ensures commodity in CommoditiesIn(m)
  {
    hide Plus, SumOver;
    var K := set k | k in m && k in OfCommodity(commodity);
    if K == {} {
      EmptySum(m);
    } else {
      var k :| k in K;
      assert k.commodity in (set k | k in m :: k.commodity);
    }
  }

  lemma {:induction false} OnlyOverflows(names: seq<string>, m: Totals)
    requires BalancedTotals(m)
    ensures FirstClosingFault(names, m) != Some(ClosingUnbalanced)
  {
    hide TotalSum, Fits, Earnings, OfCommodity, IsZero;
    if names != [] {
      OnlyOverflows(names[..|names| - 1], m);
    }
  }

  lemma {:induction false} FaultPersists(names: seq<string>, m: Totals, n: nat)
    requires n <= |names| && FirstClosingFault(names[..n], m).Some?
    ensures FirstClosingFault(names, m) == FirstClosingFault(names[..n], m)
  {
    hide ClosingFault;
    if n < |names| {
      assert names[..|names| - 1][..n] == names[..n];
      FaultPersists(names[..|names| - 1], m, n);
    } else {
      assert names[..n] == names;
    }
  }

  // Balanced amounts are refused exactly when a printed figure is out of range.
  lemma BalancedFits(m: Totals)
    requires BalancedTotals(m)
    ensures ClosingFits(m) <==>
            AllStatementsFit(FilterTotals(m, BalanceCategories)) && FirstClosingFault(CommoditiesIn(m), m).None?
  {
    hide TotalSum, Fits, Earnings, FirstClosingFault, AllStatementsFit, FilterTotals, CommoditiesIn, OfCommodity, IsZero;
    var names := CommoditiesIn(m);
    NoClosingFault(names, m);
    if FirstClosingFault(names, m).None? {
      forall c | c in names
        ensures Fits(Earnings(m, c)) && Fits(TotalSum(m, OfCommodity(c)))
      {
        var i :| 0 <= i < |names| && names[i] == c;
        assert ClosingFault(names[i], m).None?;
      }
    }
  }

  // assembleClosingBalanceSheetCommodities: the sections come first, then the
  // commodities in order, each checked for balance before it is printed.
  method AssembleClosing(m: Totals) returns (r: Result<ClosingResult, ReportError>)
    ensures r == if !AllStatementsFit(FilterTotals(m, BalanceCategories)) then Err(AmountOverflow)
                 else if FirstClosingFault(CommoditiesIn(m), m).Some? then Err(FirstClosingFault(CommoditiesIn(m), m).value)
                 else Ok(ClosingOf(m))
    ensures !BalancedTotals(m) ==> r.Err?
    ensures r.Err? ==> r.error == AmountOverflow || r.error == ClosingUnbalanced
    ensures r == Err(ClosingUnbalanced) ==> !BalancedTotals(m)
    ensures BalancedTotals(m) ==> (r.Ok? <==> ClosingFits(m))
  {
    hide StatementOf, ByCommodity, TotalSum, Fits, OfCommodity, AllStatementsFit, ClosingCommodityOf, IsZero, StatementsWarnings, StatementsComplete, FilterTotals, InCategories, CommoditiesIn, StatementSections, ClosingFault, ClosingFits, BalancedTotals;
    UnbalancedIsRefused(m);
    if BalancedTotals(m) {
      BalancedFits(m);
    }
    var filtered := FilterAmounts(m, BalanceCategories);
    var statements := AssembleStatements(filtered);
    if statements.Err? {
      return Err(AmountOverflow);
    }
    var currentEarnings := TotalsByCommodity(m, EarningCategories);
    var balanceNames := SortedCommoditiesIn(filtered);
    var index := IndexSections(balanceNames, filtered, statements.value.sections);
    var names := SortedCommoditiesIn(m);
    var commodities: seq<ClosingCommodity> := [];
    assert names[..0] == [];
    for i := 0 to |names|
      invariant commodities == ClosingCommodities(names[..i], m)
      invariant FirstClosingFault(names[..i], m).None?
    {
      var c := names[i];
      assert names[..i + 1][..i] == names[..i];
      assert c in names;
      AbsentInFiltered(c, filtered);
      var section := if c in index then index[c] else StatementSection(c, Balance("0", "0"), []);
      AbsentCommodity(m, EarningCategories, c);
      FittingSections(filtered, c);
      var closing := BuildClosingCommodity(c, m, section, Get(currentEarnings, c));
      if closing.Err? {
        FaultPersists(names, m, i + 1);
        ClosingErrors(c, m);
        return Err(closing.error);
      }
      commodities := commodities + [closing.value];
    }
    assert names[..|names|] == names;
    return Ok(ClosingResult(commodities, statements.value.warnings, statements.value.complete));
  }

  lemma ClosingErrors(commodity: string, m: Totals)
    ensures ClosingFault(commodity, m) in {None, Some(AmountOverflow), Some(ClosingUnbalanced)}
  {
  }

  lemma AbsentInFiltered(c: string, m: Totals)
    ensures c !in CommoditiesIn(m) ==> StatementOf(c, m).section == StatementSection(c, Balance("0", "0"), [])
  {
    hide StatementOf;
    if c !in CommoditiesIn(m) {
      assert forall k | k in m :: k.commodity in (set k | k in m :: k.commodity);
      AbsentSection(c, m);
    }
  }

  // What the closing balance sheet of a fiscal year covers.
  function ClosingItems(years: seq<FiscalYear>, index: nat, entries: seq<Entry>, cs: seq<Classification>): seq<Contribution>
    requires index < |years| && AllEntriesValid(entries)
  {
    Carried(years, index, entries, cs)
    + MovementItems(entries, YearPeriod(years[index]), years[index].openingEntryIDs, cs, MovementRole)
  }

  ghost function ClosingBalanceSheetFor(config: Configuration, entries: seq<Entry>, selected: PeriodText)
      : Result<ClosingBalanceSheet, ReportError>
  {
    if !ValidConfiguration(config) then Err(BadConfiguration)
    else
      var years, cs := SortYears(config.fiscalYears), SortClassifications(config.classifications);
      var choice := SelectPeriod(years, 0, selected);
      if choice.None? || choice.value.period.month != 0 then Err(InvalidPeriod)
      else if !GoodEntries(entries) then Err(InvalidEntries)
      else
        var index := choice.value.index;
        SelectedPeriod(years, 0, selected);
        GoodAreValid(entries);
        if !OpeningExists(years, index, entries, cs) then Err(BadConfiguration)
        else if !BalancedTotals(Tally(Carried(years, index, entries, cs))) then Err(OpeningUnbalanced)
        else
          var m := Tally(ClosingItems(years, index, entries, cs));
          if !ClosingFits(m) then Err(AmountOverflow)
          else
            var closing := ClosingOf(m);
            Ok(ClosingBalanceSheet(config.revision, YearPeriod(years[index]), YearPeriod(years[index]).endDate,
                                   closing.complete, closing.warnings, closing.commodities))
  }

  lemma ClosingBalanced(years: seq<FiscalYear>, index: nat, entries: seq<Entry>, cs: seq<Classification>)
    requires index < |years| && AllEntriesValid(entries)
    requires BalancedTotals(Tally(Carried(years, index, entries, cs)))
    ensures BalancedTotals(Tally(ClosingItems(years, index, entries, cs)))
  {
    hide BalancedTotals, BalancedItems, Carried, MovementItems, AllEntriesValid;
    var carried := Carried(years, index, entries, cs);
    var movement := MovementItems(entries, YearPeriod(years[index]), years[index].openingEntryIDs, cs, MovementRole);
    TallyBalanced(carried);
    MovementItemsBalanced(entries, YearPeriod(years[index]), years[index].openingEntryIDs, cs, MovementRole);
    BalancedAppend(carried, movement);
    TallyBalanced(carried + movement);
  }

  lemma WholeYearSelected(years: seq<FiscalYear>, s: Selection)
    requires s.index < |years| && s.period in PeriodsOf(SpanOf(years[s.index])) && s.period.month == 0
    ensures s.period.period == YearPeriod(years[s.index])
  {
    hide MonthOf, SpanOf;
  }

  // BuildClosingBalanceSheet: once the opening balances, the closing check can
  // no longer fail.
  method BuildClosingBalanceSheet(config: Configuration, entries: seq<Entry>, selected: PeriodText)
      returns (r: Result<ClosingBalanceSheet, ReportError>)
    ensures r == ClosingBalanceSheetFor(config, entries, selected)
    ensures r != Err(ClosingUnbalanced)
  {
    hide ValidConfiguration, GoodYears, SortYears, SortClassifications, SelectPeriod, GoodEntries, AllEntriesValid, PeriodsOf, ClosingOf, ClosingFits, Carried, MovementItems, Post, TextPeriod, OpeningExists, BalancedTotals;
    var fault := ValidateConfiguration(config);
    if fault.Some? {
      return Err(BadConfiguration);
    }
    var years, cs := SortYears(config.fiscalYears), SortClassifications(config.classifications);
    ValidYears(config);
    var choice := ChoosePeriod(config.startMonth, years, selected);
    if choice.None? || choice.value.period.month != 0 {
      return Err(InvalidPeriod);
    }
    SelectedPeriod(years, 0, selected);
    var index := choice.value.index;
    var validated := ValidateEntries(entries);
    if validated.None? {
      return Err(InvalidEntries);
    }
    var ok, opening := BuildFiscalOpeningCollected(years, index, validated.value, entries, cs, null);
    if !ok {
      return Err(BadConfiguration);
    }
    var balanced := AmountsBalanced(opening.sums);
    if !balanced {
      return Err(OpeningUnbalanced);
    }
    var year := years[index];
    var closing := opening.Clone();
    YearTextPeriod(year);
    AddMovementsCollected(closing, entries, YearPeriod(year), year.openingEntryIDs, cs, MovementRole, null);
    PostAppend(map[], Carried(years, index, entries, cs),
               MovementItems(entries, YearPeriod(year), year.openingEntryIDs, cs, MovementRole));
    ClosingBalanced(years, index, entries, cs);
    var assembled := AssembleClosing(closing.sums);
    if assembled.Err? {
      return Err(assembled.error);
    }
    WholeYearSelected(years, choice.value);
    return Ok(ClosingBalanceSheet(config.revision, choice.value.period.period, choice.value.period.period.endDate,
                                  assembled.value.complete, assembled.value.warnings, assembled.value.commodities));
  }
}
