/**
 * The editing rules of the new-diagnosis form: the three periods it starts
 * with, the edit of one field of one period with the automatic totals of the
 * balance sheet, the "omit receivables and payables" switch, the choice of
 * how many periods to submit, and the grouping of activity codes by section
 * for the code picker.
 */
module NewDiagnosis {
  import opened Wrappers
  import opened JsValues
  import opened FinancialCalculations
  import opened Sequences

  datatype IncomeField =
    OperatingIncome | NonOperatingIncome | Costs | AdminExpenses | SalesExpenses
    | Interest | NonOperatingExpenses | Taxes

  datatype BalanceField =
    CurrentAssets | NonCurrentAssets | AccountsReceivable | TotalAssets
    | CurrentLiabilities | NonCurrentLiabilities | AccountsPayable | TotalLiabilities | Equity

  /** A form field: its section (income statement or balance sheet) and its name. */
  datatype Field = Income(incomeField: IncomeField) | Balance(balanceField: BalanceField)

  function IncomeValue(inc: IncomeStatement, f: IncomeField): real {
    match f
    case OperatingIncome => inc.operatingIncome
    case NonOperatingIncome => inc.nonOperatingIncome
    case Costs => inc.costs
    case AdminExpenses => inc.adminExpenses
    case SalesExpenses => inc.salesExpenses
    case Interest => inc.interest
    case NonOperatingExpenses => inc.nonOperatingExpenses
    case Taxes => inc.taxes
  }

  function BalanceValue(bs: BalanceSheet, f: BalanceField): real {
    match f
    case CurrentAssets => bs.currentAssets
    case NonCurrentAssets => bs.nonCurrentAssets
    case AccountsReceivable => bs.accountsReceivable
    case TotalAssets => bs.totalAssets
    case CurrentLiabilities => bs.currentLiabilities
    case NonCurrentLiabilities => bs.nonCurrentLiabilities
    case AccountsPayable => bs.accountsPayable
    case TotalLiabilities => bs.totalLiabilities
    case Equity => bs.equity
  }

  /** The value of a field of a period. */
  function FieldValue(d: FinancialData, f: Field): real {
    match f
    case Income(g) => IncomeValue(d.incomeStatement, g)
    case Balance(g) => BalanceValue(d.balanceSheet, g)
  }

  /** The income statement with field `f` set to `v` and nothing else changed. */
  function SetIncome(inc: IncomeStatement, f: IncomeField, v: real): (r: IncomeStatement)
    ensures IncomeValue(r, f) == v
    ensures forall g :: g != f ==> IncomeValue(r, g) == IncomeValue(inc, g)
  {
    match f
    case OperatingIncome => inc.(operatingIncome := v)
    case NonOperatingIncome => inc.(nonOperatingIncome := v)
    case Costs => inc.(costs := v)
    case AdminExpenses => inc.(adminExpenses := v)
    case SalesExpenses => inc.(salesExpenses := v)
    case Interest => inc.(interest := v)
    case NonOperatingExpenses => inc.(nonOperatingExpenses := v)
    case Taxes => inc.(taxes := v)
  }

  /** The balance sheet with field `f` set to `v` and nothing else changed. */
  function SetBalance(bs: BalanceSheet, f: BalanceField, v: real): (r: BalanceSheet)
    ensures BalanceValue(r, f) == v
    ensures forall g :: g != f ==> BalanceValue(r, g) == BalanceValue(bs, g)
  {
    match f
    case CurrentAssets => bs.(currentAssets := v)
    case NonCurrentAssets => bs.(nonCurrentAssets := v)
    case AccountsReceivable => bs.(accountsReceivable := v)
    case TotalAssets => bs.(totalAssets := v)
    case CurrentLiabilities => bs.(currentLiabilities := v)
    case NonCurrentLiabilities => bs.(nonCurrentLiabilities := v)
    case AccountsPayable => bs.(accountsPayable := v)
    case TotalLiabilities => bs.(totalLiabilities := v)
    case Equity => bs.(equity := v)
  }

  predicate IsAssetComponent(f: BalanceField) {
    f == CurrentAssets || f == NonCurrentAssets || f == AccountsReceivable
  }

  predicate IsLiabilityComponent(f: BalanceField) {
    f == CurrentLiabilities || f == NonCurrentLiabilities || f == AccountsPayable
  }

  /** The two read-only fields the form computes. */
  predicate IsTotal(f: Field) {
    f == Balance(TotalAssets) || f == Balance(TotalLiabilities)
  }

  function AssetSum(bs: BalanceSheet): real {
    bs.currentAssets + bs.nonCurrentAssets + bs.accountsReceivable
  }

  function LiabilitySum(bs: BalanceSheet): real {
    bs.currentLiabilities + bs.nonCurrentLiabilities + bs.accountsPayable
  }

  /** Each total equals the sum of its three components. */
  predicate TotalsConsistent(bs: BalanceSheet) {
    bs.totalAssets == AssetSum(bs) && bs.totalLiabilities == LiabilitySum(bs)
  }

  /** A period with the given label and every amount 0. */
  function BlankPeriod(periodName: string): FinancialData {
    FinancialData(periodName,
      IncomeStatement(0.0, 0.0, 0.0, 0.0, 0.0, 0.0, 0.0, 0.0),
      BalanceSheet(0.0, 0.0, 0.0, 0.0, 0.0, 0.0, 0.0, 0.0, 0.0))
  }

  /** The label of the k-th period, the template `Periodo ${k}`. */
  function PeriodLabel(k: nat): string {
    "Periodo " + NatToString(k)
  }

  /** The form's initial statements: three blank periods labelled "Periodo 1" to "Periodo 3". */
  function InitialFinancialData(): (r: seq<FinancialData>)
    ensures |r| == 3
    ensures forall i :: 0 <= i < 3 ==> r[i].period == PeriodLabel(i + 1)
    ensures forall i, f :: 0 <= i < 3 ==> FieldValue(r[i], f) == 0.0
    ensures forall i :: 0 <= i < 3 ==> TotalsConsistent(r[i].balanceSheet)
  {
    [BlankPeriod(PeriodLabel(1)), BlankPeriod(PeriodLabel(2)), BlankPeriod(PeriodLabel(3))]
  }

  /**
   * One period after the form's edit of `field` to `v`: the field is set,
   * then a change to an asset (liability) component recomputes the asset
   * (liability) total of that period.
   */
  function EditPeriod(d: FinancialData, field: Field, v: real): (r: FinancialData)
    ensures r.period == d.period
    ensures FieldValue(r, field) == v
    ensures forall g :: g != field && !IsTotal(g) ==> FieldValue(r, g) == FieldValue(d, g)
    ensures field.Balance? && IsAssetComponent(field.balanceField) ==>
              r.balanceSheet.totalAssets == AssetSum(r.balanceSheet)
    ensures field.Balance? && IsLiabilityComponent(field.balanceField) ==>
              r.balanceSheet.totalLiabilities == LiabilitySum(r.balanceSheet)
    ensures !(field.Balance? && IsAssetComponent(field.balanceField)) && field != Balance(TotalAssets) ==>
              r.balanceSheet.totalAssets == d.balanceSheet.totalAssets
    ensures !(field.Balance? && IsLiabilityComponent(field.balanceField)) && field != Balance(TotalLiabilities) ==>
              r.balanceSheet.totalLiabilities == d.balanceSheet.totalLiabilities
  {
    match field
    case Income(f) => d.(incomeStatement := SetIncome(d.incomeStatement, f, v))
    case Balance(f) =>
      var bs := SetBalance(d.balanceSheet, f, v);
      var withAssets := if IsAssetComponent(f) then bs.(totalAssets := AssetSum(bs)) else bs;
      var withTotals := if IsLiabilityComponent(f) then withAssets.(totalLiabilities := LiabilitySum(withAssets)) else withAssets;
      d.(balanceSheet := withTotals)
  }

  /** Editing any field but the two read-only totals keeps both totals consistent. */
  lemma EditKeepsTotalsConsistent(d: FinancialData, field: Field, v: real)
    requires TotalsConsistent(d.balanceSheet) && !IsTotal(field)
    ensures TotalsConsistent(EditPeriod(d, field, v).balanceSheet)
  {
    var r := EditPeriod(d, field, v);
    var rb, db := r.balanceSheet, d.balanceSheet;
    forall g | g != field && !IsTotal(g)
      ensures FieldValue(r, g) == FieldValue(d, g)
    {
    }
    if !(field.Balance? && IsAssetComponent(field.balanceField)) {
      assert FieldValue(r, Balance(CurrentAssets)) == FieldValue(d, Balance(CurrentAssets));
      assert FieldValue(r, Balance(NonCurrentAssets)) == FieldValue(d, Balance(NonCurrentAssets));
      assert FieldValue(r, Balance(AccountsReceivable)) == FieldValue(d, Balance(AccountsReceivable));
      assert AssetSum(rb) == AssetSum(db);
    }
    if !(field.Balance? && IsLiabilityComponent(field.balanceField)) {
      assert FieldValue(r, Balance(CurrentLiabilities)) == FieldValue(d, Balance(CurrentLiabilities));
      assert FieldValue(r, Balance(NonCurrentLiabilities)) == FieldValue(d, Balance(NonCurrentLiabilities));
      assert FieldValue(r, Balance(AccountsPayable)) == FieldValue(d, Balance(AccountsPayable));
      assert LiabilitySum(rb) == LiabilitySum(db);
    }
  }

  /**
   * Writing straight into the asset total, which the form shows read-only,
   * keeps the rule only when the value written is the sum already there.
   */
  lemma EditOfAssetTotal(d: FinancialData, v: real)
    requires TotalsConsistent(d.balanceSheet)
    ensures TotalsConsistent(EditPeriod(d, Balance(TotalAssets), v).balanceSheet) <==> v == AssetSum(d.balanceSheet)
  {
    var bs := EditPeriod(d, Balance(TotalAssets), v).balanceSheet;
    assert bs == d.balanceSheet.(totalAssets := v);
  }

  /**
   * A period with receivables and payables omitted: both are zeroed and the
   * totals become the sums of the two remaining components.
   */
  function OmitAdditional(d: FinancialData): (r: FinancialData)
    ensures r.period == d.period && r.incomeStatement == d.incomeStatement
    ensures r.balanceSheet.accountsReceivable == 0.0 && r.balanceSheet.accountsPayable == 0.0
    ensures TotalsConsistent(r.balanceSheet)
    ensures forall f :: f != AccountsReceivable && f != AccountsPayable && f != TotalAssets && f != TotalLiabilities ==>
              BalanceValue(r.balanceSheet, f) == BalanceValue(d.balanceSheet, f)
  {
    var bs := d.balanceSheet.(accountsReceivable := 0.0, accountsPayable := 0.0);
    var bs' := bs.(totalAssets := bs.currentAssets + bs.nonCurrentAssets,
                   totalLiabilities := bs.currentLiabilities + bs.nonCurrentLiabilities);
    d.(balanceSheet := bs')
  }

  /** The state of the new-diagnosis form that the modelled rules read and change. */
  class DiagnosisForm {
    var financialData: seq<FinancialData>
    var numPeriods: int
    var omitAdditional: bool

    /** Three periods kept, of which one to three are submitted. */
    ghost predicate Valid()
      reads this
    {
      |financialData| == 3 && 1 <= numPeriods <= 3
    }

    /** Every period's totals equal the sums of their components. */
    ghost predicate Consistent()
      reads this
    {
      forall i :: 0 <= i < |financialData| ==> TotalsConsistent(financialData[i].balanceSheet)
    }

    constructor ()
      ensures Valid() && Consistent()
      ensures financialData == InitialFinancialData()
      ensures numPeriods == 3 && !omitAdditional
    {
      financialData := InitialFinancialData();
      numPeriods := 3;
      omitAdditional := false;
    }

    /**
     * The change handler of an amount input: the parsed value, 0 when the
     * text is not a number, goes into the field of that period, and the
     * balance-sheet totals follow their components.
     */
    method HandleFinancialChange(periodIdx: nat, field: Field, parsed: Option<real>)
      requires periodIdx < |financialData|
      modifies this
      ensures financialData ==
                old(financialData)[periodIdx := EditPeriod(old(financialData)[periodIdx], field, NumberOrZero(parsed))]
      ensures numPeriods == old(numPeriods) && omitAdditional == old(omitAdditional)
      ensures old(Consistent()) && !IsTotal(field) ==> Consistent()
    {
      var numValue := NumberOrZero(parsed);
      financialData := financialData[periodIdx := EditPeriod(financialData[periodIdx], field, numValue)];
      if old(Consistent()) && !IsTotal(field) {
        EditKeepsTotalsConsistent(old(financialData)[periodIdx], field, numValue);
      }
    }

    /**
     * The "omit this section" button: it flips the switch, and when the
     * section was not omitted before, it clears receivables and payables of
     * every period and recomputes the totals.
     */
    method ToggleOmitAdditional()
      modifies this
      ensures omitAdditional == !old(omitAdditional)
      ensures |financialData| == |old(financialData)|
      ensures old(omitAdditional) ==> financialData == old(financialData)
      ensures !old(omitAdditional) ==>
                forall i :: 0 <= i < |financialData| ==> financialData[i] == OmitAdditional(old(financialData)[i])
      ensures !old(omitAdditional) ==> Consistent()
      ensures numPeriods == old(numPeriods)
    {
      var wasOmitted := omitAdditional;
      omitAdditional := !omitAdditional;
      if !wasOmitted {
        var newData := financialData;
        var i := 0;
        while i < |newData|
          invariant 0 <= i <= |newData| == |old(financialData)|
          invariant forall k :: 0 <= k < i ==> newData[k] == OmitAdditional(old(financialData)[k])
          invariant forall k :: i <= k < |newData| ==> newData[k] == old(financialData)[k]
        {
          newData := newData[i := OmitAdditional(newData[i])];
          i := i + 1;
        }
        financialData := newData;
      }
    }

    /** The period-count buttons offer 1, 2 and 3. */
    method SelectNumPeriods(n: int)
      requires 1 <= n <= 3
      modifies this
      ensures numPeriods == n
      ensures financialData == old(financialData) && omitAdditional == old(omitAdditional)
    {
      numPeriods := n;
    }

    /** The periods submitted: the first `numPeriods` of them, in order. */
    function ActiveData(): (r: seq<FinancialData>)
      reads this
      requires Valid()
      ensures |r| == numPeriods
      ensures forall i :: 0 <= i < |r| ==> r[i] == financialData[i]
    {
      financialData[..numPeriods]
    }
  }

  /** One activity code of the classification, and one of its sections with its two-digit range. */
  datatype CiiuCode = CiiuCode(code: string, description: string)
  datatype CiiuSection = CiiuSection(name: string, rangeLow: int, rangeHigh: int)
  datatype CiiuGroup = CiiuGroup(section: CiiuSection, codes: seq<CiiuCode>)

  /** The picker's search: the code contains the text, or the description does, ignoring case. */
  predicate MatchesSearch(c: CiiuCode, search: string) {
    Includes(c.code, search) || Includes(ToLowerCase(c.description), ToLowerCase(search))
  }

  /** The first two characters of the code, read as a number, lie in the section's range. */
  predicate InSection(c: CiiuCode, section: CiiuSection) {
    var prefix := ParseInt(if |c.code| < 2 then c.code else c.code[..2]);
    prefix.Some? && section.rangeLow <= prefix.value <= section.rangeHigh
  }

  /**
   * `codes.filter(c => MatchesSearch(c, search))`: the matching codes, each
   * as often as in `codes`, in their original order.
   */
  function FilterBySearch(codes: seq<CiiuCode>, search: string): (r: seq<CiiuCode>)
    ensures forall c :: c in r <==> c in codes && MatchesSearch(c, search)
  {
    Filter(codes, c => MatchesSearch(c, search))
  }
  /** Each matching code is kept as often as it occurs, the others dropped, in the catalogue's order. */
  lemma FilterBySearchKeepsCountsAndOrder(codes: seq<CiiuCode>, search: string)
    ensures forall c :: multiset(FilterBySearch(codes, search))[c] == if MatchesSearch(c, search) then multiset(codes)[c] else 0
    ensures IsSubsequence(FilterBySearch(codes, search), codes)
  {
    FilterKeepsCountsAndOrder(codes, c => MatchesSearch(c, search));
  }


  /**
   * `filtered.filter(c => InSection(c, section))`: the codes of the section,
   * each as often as in `codes`, in their original order.
   */
  function CodesInSection(codes: seq<CiiuCode>, section: CiiuSection): (r: seq<CiiuCode>)
    ensures forall c :: c in r <==> c in codes && InSection(c, section)
  {
    Filter(codes, c => InSection(c, section))
  }
  /** Each code of the section is kept as often as it occurs, the others dropped, in the input's order. */
  lemma CodesInSectionKeepsCountsAndOrder(codes: seq<CiiuCode>, section: CiiuSection)
    ensures forall c :: multiset(CodesInSection(codes, section))[c] == if InSection(c, section) then multiset(codes)[c] else 0
    ensures IsSubsequence(CodesInSection(codes, section), codes)
  {
    FilterKeepsCountsAndOrder(codes, c => InSection(c, section));
  }


  /** The groups for the sections, in section order, leaving out the sections with no code. */
  function Grouped(sections: seq<CiiuSection>, codes: seq<CiiuCode>): seq<CiiuGroup> {
    if sections == [] then []
    else
      var last := sections[|sections| - 1];
      var inLast := CodesInSection(codes, last);
      Grouped(sections[..|sections| - 1], codes) + (if inLast != [] then [CiiuGroup(last, inLast)] else [])
  }

  function SectionsOf(groups: seq<CiiuGroup>): (r: seq<CiiuSection>)
    ensures |r| == |groups|
    ensures forall i :: 0 <= i < |groups| ==> r[i] == groups[i].section
  {
    seq(|groups|, i requires 0 <= i < |groups| => groups[i].section)
  }

  /** Every group is non-empty, belongs to a listed section and holds exactly that section's codes. */
  lemma {:induction false} GroupsAreSound(sections: seq<CiiuSection>, codes: seq<CiiuCode>)
    ensures forall g :: g in Grouped(sections, codes) ==>
              g.codes != [] && g.section in sections && g.codes == CodesInSection(codes, g.section)
  {
    if sections != [] {
      var init := sections[..|sections| - 1];
      GroupsAreSound(init, codes);
      forall g | g in Grouped(init, codes) ensures g.section in sections {
        assert g.section in init;
      }
    }
  }

  /** Every section with at least one code gets its group. */
  lemma {:induction false} GroupsAreComplete(sections: seq<CiiuSection>, codes: seq<CiiuCode>)
    ensures forall j :: 0 <= j < |sections| && CodesInSection(codes, sections[j]) != [] ==>
              CiiuGroup(sections[j], CodesInSection(codes, sections[j])) in Grouped(sections, codes)
  {
    if sections != [] {
      var init := sections[..|sections| - 1];
      GroupsAreComplete(init, codes);
      forall j | 0 <= j < |sections| - 1 && CodesInSection(codes, sections[j]) != []
        ensures CiiuGroup(sections[j], CodesInSection(codes, sections[j])) in Grouped(sections, codes)
      {
        assert sections[j] == init[j];
      }
    }
  }

  lemma SectionsOfAppend(a: seq<CiiuGroup>, b: seq<CiiuGroup>)
    ensures SectionsOf(a + b) == SectionsOf(a) + SectionsOf(b)
  {
    assert forall i :: 0 <= i < |a + b| ==> SectionsOf(a + b)[i] == (SectionsOf(a) + SectionsOf(b))[i];
  }

  /** The groups follow the order of the section list. */
  lemma {:induction false} GroupsInSectionOrder(sections: seq<CiiuSection>, codes: seq<CiiuCode>)
    ensures IsSubsequence(SectionsOf(Grouped(sections, codes)), sections)
  {
    if sections != [] {
      var init := sections[..|sections| - 1];
      var last := sections[|sections| - 1];
      GroupsInSectionOrder(init, codes);
      var inLast := CodesInSection(codes, last);
      var keep := inLast != [];
      var before := SectionsOf(Grouped(init, codes));
      assert SectionsOf(Grouped(sections, codes)) == before + (if keep then [last] else []) by {
        var extra := if keep then [CiiuGroup(last, inLast)] else [];
        assert Grouped(sections, codes) == Grouped(init, codes) + extra;
        SectionsOfAppend(Grouped(init, codes), extra);
        assert SectionsOf(extra) == if keep then [last] else [];
      }
      assert IsSubsequence(before + (if keep then [last] else []), sections) by {
        assert sections == init + [last];
        ExtendKeeping(before, init, last, keep);
      }
    }
  }

  /**
   * The code picker's grouping: the codes matching the search, grouped by
   * section in section order, a section appearing only when it has codes.
   */
  method GroupCiiu(codes: seq<CiiuCode>, sections: seq<CiiuSection>, search: string) returns (groups: seq<CiiuGroup>)
    ensures groups == Grouped(sections, FilterBySearch(codes, search))
    ensures forall g :: g in groups ==> g.codes != [] && g.section in sections
    ensures forall g, c :: g in groups && c in g.codes ==>
              c in codes && MatchesSearch(c, search) && InSection(c, g.section)
    ensures IsSubsequence(SectionsOf(groups), sections)
  {
    var filtered := FilterBySearch(codes, search);
    groups := [];
    var i := 0;
    while i < |sections|
      invariant 0 <= i <= |sections|
      invariant groups == Grouped(sections[..i], filtered)
    {
      var codesInSection := CodesInSection(filtered, sections[i]);
      if |codesInSection| > 0 {
        groups := groups + [CiiuGroup(sections[i], codesInSection)];
      }
      GroupedStep(sections, i, filtered);
      i := i + 1;
    }
    assert sections[..i] == sections;
    GroupsOfSearch(codes, sections, search, groups);
  }

  /** Grouping one more section adds its group, if it has codes, at the end. */
  lemma GroupedStep(sections: seq<CiiuSection>, i: int, codes: seq<CiiuCode>)
    requires 0 <= i < |sections|
    ensures Grouped(sections[..i + 1], codes) ==
            Grouped(sections[..i], codes) +
            (if |CodesInSection(codes, sections[i])| > 0 then [CiiuGroup(sections[i], CodesInSection(codes, sections[i]))] else [])
  {
    assert sections[..i + 1][..i] == sections[..i];
  }

  /** The groups of the searched catalogue: non-empty, in section order, each code matching the search and its section. */
  lemma GroupsOfSearch(codes: seq<CiiuCode>, sections: seq<CiiuSection>, search: string, groups: seq<CiiuGroup>)
    requires groups == Grouped(sections, FilterBySearch(codes, search))
    ensures forall g :: g in groups ==> g.codes != [] && g.section in sections
    ensures forall g, c :: g in groups && c in g.codes ==>
              c in codes && MatchesSearch(c, search) && InSection(c, g.section)
    ensures IsSubsequence(SectionsOf(groups), sections)
  {
    var filtered := FilterBySearch(codes, search);
    GroupsAreSound(sections, filtered);
    GroupsInSectionOrder(sections, filtered);
    forall g, c | g in groups && c in g.codes
      ensures c in codes && MatchesSearch(c, search) && InSection(c, g.section)
    {
      assert c in CodesInSection(filtered, g.section);
    }
  }
}
