/** The state of the Qt window `FinanceApp`: the list of monthly budget
    entries it keeps in `self.data`, the savings-% label, and the operations
    that add to, delete from, clear and project that list. */
module FinanceQt {
  import opened Common
  import opened Budget
  import opened Growth

  /** One stored month. */
  datatype BudgetEntry = BudgetEntry(
    month: string, salary: real, expenses: real, savings: real, invested: real)

  /** The entry `add_data` stores for one month of inputs. */
  function MakeEntry(month: string, inp: MonthInputs): (e: BudgetEntry)
    ensures e.month == month && e.salary == inp.salary
    ensures e.expenses + e.savings + e.invested == e.salary
    ensures e.expenses == ComputeMonth(inp).totalExpenses
    ensures e.savings == ComputeMonth(inp).savings
  {
    var f := ComputeMonth(inp);
    BudgetEntry(month, inp.salary, f.totalExpenses, f.savings, f.invested)
  }

  /** Expenses, savings and investment of the entry add up to its salary. */
  predicate Balanced(e: BudgetEntry)
  {
    e.expenses + e.savings + e.invested == e.salary
  }

  predicate AllBalanced(data: seq<BudgetEntry>)
  {
    forall i :: 0 <= i < |data| ==> Balanced(data[i])
  }

  /** `[d["Invested"] for d in self.data]`. */
  function InvestedSeries(data: seq<BudgetEntry>): (s: seq<real>)
    ensures |s| == |data|
    ensures forall i :: 0 <= i < |data| ==> s[i] == data[i].invested
  {
    if data == [] then [] else [data[0].invested] + InvestedSeries(data[1..])
  }

  class FinanceApp {
    var data: seq<BudgetEntry>
    /** The number shown by the savings-% label. */
    var savingsPctLabel: real

    constructor ()
      ensures data == [] && savingsPctLabel == 0.0
    {
      data := [];
      savingsPctLabel := 0.0;
    }

    /** `clear_database`: the in-memory list is emptied (the JSON file is
        removed as well, which is not modelled). */
    method ClearDatabase()
      modifies this
      ensures data == [] && savingsPctLabel == old(savingsPctLabel)
    {
      data := [];
    }

    /** `add_data`: when every field reads as a number, one entry is
        appended at the end and the label shows its savings percentage;
        otherwise the error is reported and nothing changes. */
    method AddData(month: string, form: Form) returns (r: Result<BudgetEntry, string>)
      modifies this
      ensures ParseForm(form).None? ==> r.Err? && data == old(data)
                                         && savingsPctLabel == old(savingsPctLabel)
      ensures ParseForm(form).Some? ==>
                r == Ok(MakeEntry(month, ParseForm(form).value))
                && data == old(data) + [r.value]
                && savingsPctLabel == ComputeMonth(ParseForm(form).value).savingsPct
      ensures AllBalanced(old(data)) ==> AllBalanced(data)
    {
      var parsed := ParseForm(form);
      if parsed.None? {
        return Err("Invalid input");
      }
      var inp := parsed.value;
      var entry := MakeEntry(month, inp);
      data := data + [entry];
      savingsPctLabel := ComputeMonth(inp).savingsPct;
      r := Ok(entry);
    }

    /** `update_savings_pct`, run on every edit of the form. */
    method UpdateSavingsPct(form: Form)
      modifies this
      ensures data == old(data)
      ensures savingsPctLabel == PreviewSavingsPct(form)
    {
      savingsPctLabel := PreviewSavingsPct(form);
    }

    /** `delete_entry`: the table's current row is -1 when nothing is
        selected, otherwise a row of the table, which mirrors `data`. */
    method DeleteEntry(row: int)
      requires row < |data|
      modifies this
      ensures row < 0 ==> data == old(data)
      ensures row >= 0 ==> data == RemoveAt(old(data), row)
      ensures savingsPctLabel == old(savingsPctLabel)
      ensures AllBalanced(old(data)) ==> AllBalanced(data)
    {
      if row < 0 {
        return;
      }
      data := data[..row] + data[row + 1..];
    }

    /** `show_growth_graph`: reads the rate (in percent) and the period,
        then projects the invested amounts of the stored entries. */
    method ShowGrowthGraph(cagrText: Field, periodText: Option<int>)
      returns (r: Result<Projection, GrowthError>)
      ensures !cagrText.Numeral? || periodText.None? ==> r == Err(UnreadableInput)
      ensures cagrText.Numeral? && periodText.Some? ==>
                (r.Err? <==> (|data| == 0 || periodText.value <= 0))
      ensures cagrText.Numeral? && periodText.Some? && r.Err? ==> r.error == NoDataOrInvalidPeriod
      ensures r.Ok? ==> cagrText.Numeral? && periodText.Some?
                        && var period, factor := periodText.value, MonthlyFactor(cagrText.value / 100.0);
                           |r.value.growth| == period && |r.value.cumulative| == period
                           && forall i :: 0 <= i < period ==>
                                r.value.growth[i] == ValueAfter(InvestedSeries(data), factor, i + 1)
                                && r.value.cumulative[i] == InvestedAfter(InvestedSeries(data), i + 1)
    {
      if !cagrText.Numeral? || periodText.None? {
        return Err(UnreadableInput);
      }
      var cagr := cagrText.value / 100.0;
      r := Project(InvestedSeries(data), cagr, periodText.value);
    }
  }
}
