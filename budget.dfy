/** The monthly budget arithmetic of the Qt window (`FinanceApp.add_data`) and
    its live savings-% preview (`FinanceApp.update_savings_pct`), over exact
    reals instead of floats. */
module Budget {
  import opened Common

  datatype DebtType = Personal | Housing

  /** Interest rate of every debt: 7.49 % a year. */
  const ANNUAL_INTEREST: real := 7.49 / 100.0

  /** The rate applied each month. */
  const MONTHLY_INTEREST: real := ANNUAL_INTEREST / 12.0

  /** Term of the debt in years, fixed by its type. */
  function TermYears(t: DebtType): nat
  {
    match t
    case Personal => 4
    case Housing => 25
  }

  /** Number of monthly payments of the debt. */
  function Months(t: DebtType): nat
  {
    TermYears(t) * 12
  }

  lemma TermsAndRate()
    ensures Months(Personal) == 48 && Months(Housing) == 300
    ensures MONTHLY_INTEREST == 0.0749 / 12.0 && MONTHLY_INTEREST > 0.0
  {
  }

  /** The fixed monthly payment that pays `principal` off in `months`
      payments at `monthlyRate`: the annuity formula when the rate is
      positive, an even split of the principal otherwise. */
  function Amortize(principal: real, monthlyRate: real, months: nat): (p: real)
    requires months > 0
    ensures principal == 0.0 ==> p == 0.0
    ensures principal > 0.0 ==> p > 0.0
    ensures principal < 0.0 ==> p < 0.0
  {
    if monthlyRate > 0.0 then
      var growth := Pow(1.0 + monthlyRate, months);
      PowAboveOne(1.0 + monthlyRate, months);
      AnnuityFactorPositive(monthlyRate, growth);
      principal * (monthlyRate * growth / (growth - 1.0))
    else
      principal / (months as real)
  }

  lemma AnnuityFactorPositive(r: real, g: real)
    requires r > 0.0 && g > 1.0
    ensures r * g / (g - 1.0) > 0.0
  {
    assert r * g > 0.0;
  }

  /** What is still owed after `k` monthly payments of `payment`, interest
      being added to the balance before each payment. */
  function Balance(principal: real, monthlyRate: real, payment: real, k: nat): real
  {
    if k == 0 then principal
    else Balance(principal, monthlyRate, payment, k - 1) * (1.0 + monthlyRate) - payment
  }

  lemma {:induction false} BalanceClosedForm(principal: real, r: real, payment: real, k: nat)
    ensures Balance(principal, r, payment, k) * r
         == principal * r * Pow(1.0 + r, k) - payment * (Pow(1.0 + r, k) - 1.0)
  {
    if k > 0 {
      BalanceClosedForm(principal, r, payment, k - 1);
      BalanceStep(principal, r, payment, k);
    }
  }

  /** The closed form carries over from month `k - 1` to month `k`. */
  lemma BalanceStep(principal: real, r: real, payment: real, k: nat)
    requires k > 0
    requires Balance(principal, r, payment, k - 1) * r
          == principal * r * Pow(1.0 + r, k - 1) - payment * (Pow(1.0 + r, k - 1) - 1.0)
    ensures Balance(principal, r, payment, k) * r
         == principal * r * Pow(1.0 + r, k) - payment * (Pow(1.0 + r, k) - 1.0)
  {
    ClosedFormStep(principal, r, payment,
                   Balance(principal, r, payment, k - 1), Pow(1.0 + r, k - 1),
                   Balance(principal, r, payment, k), Pow(1.0 + r, k));
  }

  /** One month of the closed form, over plain reals: `b` and `q` are the
      balance and the power before the month, `next` and `power` after it. */
  lemma ClosedFormStep(principal: real, r: real, payment: real,
                       b: real, q: real, next: real, power: real)
    requires b * r == principal * r * q - payment * (q - 1.0)
    requires next == b * (1.0 + r) - payment && power == (1.0 + r) * q
    ensures next * r == principal * r * power - payment * (power - 1.0)
  {
    calc {
      next * r;
      (b * (1.0 + r) - payment) * r;
      (b * r) * (1.0 + r) - payment * r;
      (principal * r * q - payment * (q - 1.0)) * (1.0 + r) - payment * r;
      principal * r * ((1.0 + r) * q) - payment * ((1.0 + r) * q - 1.0);
    }
  }

  lemma {:induction false} BalanceWithoutInterest(principal: real, payment: real, k: nat)
    ensures Balance(principal, 0.0, payment, k) == principal - (k as real) * payment
  {
    if k > 0 {
      BalanceWithoutInterest(principal, payment, k - 1);
    }
  }

  /** Re-simulating the loan month by month, `months` payments of the
      amortised amount leave nothing owed. */
  lemma AmortizationPaysOff(principal: real, monthlyRate: real, months: nat)
    requires months > 0 && monthlyRate >= 0.0
    ensures Balance(principal, monthlyRate, Amortize(principal, monthlyRate, months), months) == 0.0
  {
    var p := Amortize(principal, monthlyRate, months);
    if monthlyRate > 0.0 {
      var g := Pow(1.0 + monthlyRate, months);
      PowAboveOne(1.0 + monthlyRate, months);
      assert p * (g - 1.0) == principal * monthlyRate * g;
      BalanceClosedForm(principal, monthlyRate, p, months);
      assert Balance(principal, monthlyRate, p, months) * monthlyRate == 0.0;
    } else {
      BalanceWithoutInterest(principal, p, months);
    }
  }

  /** The monthly debt payment of `add_data`: it pays the debt off after
      exactly its term, is 0 for no debt and positive for a positive debt. */
  function MonthlyDebt(amount: real, t: DebtType): (p: real)
    ensures Balance(amount, MONTHLY_INTEREST, p, Months(t)) == 0.0
    ensures amount == 0.0 ==> p == 0.0
    ensures amount > 0.0 ==> p > 0.0
  {
    AmortizationPaysOff(amount, MONTHLY_INTEREST, Months(t));
    Amortize(amount, MONTHLY_INTEREST, Months(t))
  }

  /** The numbers read from the form by `add_data`. */
  datatype MonthInputs = MonthInputs(
    salary: real, phone: real, petrol: real, annualRent: real,
    living: real, debtAmount: real, debtType: DebtType)

  /** Every figure `add_data` derives for one month. */
  datatype MonthFigures = MonthFigures(
    monthlyRent: real, monthlyDebt: real, totalExpenses: real,
    remaining: real, savingsPct: real, savings: real, invested: real)

  function ComputeMonth(inp: MonthInputs): (f: MonthFigures)
    ensures f.monthlyRent * 12.0 == inp.annualRent
    ensures f.monthlyDebt == MonthlyDebt(inp.debtAmount, inp.debtType)
    ensures f.totalExpenses == inp.phone + inp.petrol + f.monthlyRent + inp.living + f.monthlyDebt
    ensures f.remaining == inp.salary - f.totalExpenses
    ensures inp.salary <= 0.0 ==> f.savingsPct == 0.0
    ensures inp.salary > 0.0 ==> f.savingsPct * inp.salary == 100.0 * f.remaining
    ensures f.savingsPct > 0.0 <==> inp.salary > 0.0 && f.remaining > 0.0
    ensures f.savingsPct <= 0.0 ==> f.savings == 0.0
    ensures f.savingsPct > 0.0 ==> f.savings * inp.salary == f.remaining * f.remaining
    ensures f.totalExpenses + f.savings + f.invested == inp.salary
  {
    var monthlyRent := inp.annualRent / 12.0;
    var monthlyDebt := MonthlyDebt(inp.debtAmount, inp.debtType);
    var totalExpenses := inp.phone + inp.petrol + monthlyRent + inp.living + monthlyDebt;
    var remaining := inp.salary - totalExpenses;
    var savingsPct := if inp.salary > 0.0 then remaining / inp.salary * 100.0 else 0.0;
    var savings := if savingsPct > 0.0 then remaining * (savingsPct / 100.0) else 0.0;
    SavingsPctFacts(inp.salary, remaining, savingsPct, savings);
    MonthFigures(monthlyRent, monthlyDebt, totalExpenses, remaining,
                 savingsPct, savings, remaining - savings)
  }

  lemma SavingsPctFacts(salary: real, remaining: real, pct: real, savings: real)
    requires pct == if salary > 0.0 then remaining / salary * 100.0 else 0.0
    requires savings == if pct > 0.0 then remaining * (pct / 100.0) else 0.0
    ensures salary > 0.0 ==> pct * salary == 100.0 * remaining
    ensures pct > 0.0 <==> salary > 0.0 && remaining > 0.0
    ensures pct > 0.0 ==> savings * salary == remaining * remaining
  {
    if salary > 0.0 {
      assert pct / 100.0 == remaining / salary;
      assert pct * salary == 100.0 * remaining;
      if pct > 0.0 {
        assert savings * salary == remaining * (remaining / salary) * salary;
      }
    }
  }

  /** When something is left over, what is not saved is invested, in the
      proportion of the expenses to the salary; with non-negative expenses
      the savings never exceed what is left over. */
  lemma SavingsAndInvestedShares(inp: MonthInputs)
    requires inp.salary > 0.0 && ComputeMonth(inp).remaining > 0.0
    ensures ComputeMonth(inp).invested * inp.salary
         == ComputeMonth(inp).remaining * ComputeMonth(inp).totalExpenses
    ensures ComputeMonth(inp).totalExpenses >= 0.0 ==>
              0.0 < ComputeMonth(inp).savings <= ComputeMonth(inp).remaining
              && ComputeMonth(inp).invested >= 0.0
  {
    var f := ComputeMonth(inp);
    ShareFacts(inp.salary, f.remaining, f.totalExpenses, f.savings, f.invested);
  }

  lemma ShareFacts(salary: real, remaining: real, expenses: real, savings: real, invested: real)
    requires salary > 0.0 && remaining > 0.0 && remaining == salary - expenses
    requires savings * salary == remaining * remaining
    requires expenses + savings + invested == salary
    ensures invested * salary == remaining * expenses
    ensures expenses >= 0.0 ==> 0.0 < savings <= remaining && invested >= 0.0
  {
    assert invested == remaining - savings;
    calc {
      invested * salary;
      remaining * salary - savings * salary;
      remaining * salary - remaining * remaining;
      remaining * (salary - remaining);
      remaining * expenses;
    }
    if expenses >= 0.0 {
      var share := remaining / salary;
      assert savings == remaining * share;
      ShareInUnitInterval(remaining, salary);
      ProductPositive(remaining, share);
      assert remaining - savings == remaining * (1.0 - share);
      ProductNonNegative(remaining, 1.0 - share);
    }
  }

  /** The part left over is a share of the salary between 0 and 1. */
  lemma ShareInUnitInterval(remaining: real, salary: real)
    requires 0.0 < remaining <= salary
    ensures 0.0 < remaining / salary <= 1.0
  {
    assert remaining / salary * salary == remaining;
  }

  lemma ProductPositive(a: real, b: real)
    requires a > 0.0 && b > 0.0
    ensures a * b > 0.0
  {
  }

  lemma ProductNonNegative(a: real, b: real)
    requires a >= 0.0 && b >= 0.0
    ensures a * b >= 0.0
  {
  }

  /** The savings percentage is at most 100 exactly when the expenses are
      not negative. */
  lemma SavingsPctAtMostHundred(inp: MonthInputs)
    requires inp.salary > 0.0
    ensures ComputeMonth(inp).savingsPct <= 100.0 <==> ComputeMonth(inp).totalExpenses >= 0.0
  {
    var f := ComputeMonth(inp);
    PctAtMostHundred(f.savingsPct, inp.salary, f.totalExpenses);
  }

  lemma PctAtMostHundred(pct: real, salary: real, expenses: real)
    requires salary > 0.0 && pct * salary == 100.0 * (salary - expenses)
    ensures pct <= 100.0 <==> expenses >= 0.0
  {
    assert (pct - 100.0) * salary == -100.0 * expenses;
  }

  // ----- the form, as read by add_data and by the live preview -----

  /** The six numeric text fields and the radio choice of the form. */
  datatype Form = Form(
    salary: Field, phone: Field, petrol: Field, annualRent: Field,
    living: Field, debtAmount: Field, debtType: DebtType)

  /** `add_data` reads every field with `float(...)`: the empty text and a
      non-number both raise, and nothing is added. */
  function ParseForm(form: Form): (r: Option<MonthInputs>)
    ensures r.Some? <==> (form.salary.Numeral? && form.phone.Numeral? && form.petrol.Numeral?
                          && form.annualRent.Numeral? && form.living.Numeral?
                          && form.debtAmount.Numeral?)
    ensures r.Some? ==> r.value == MonthInputs(form.salary.value, form.phone.value,
                                               form.petrol.value, form.annualRent.value,
                                               form.living.value, form.debtAmount.value,
                                               form.debtType)
  {
    match (form.salary, form.phone, form.petrol, form.annualRent, form.living, form.debtAmount)
    case (Numeral(s), Numeral(ph), Numeral(pe), Numeral(ar), Numeral(l), Numeral(d)) =>
      Some(MonthInputs(s, ph, pe, ar, l, d, form.debtType))
    case _ => None
  }

  predicate AnyMalformed(form: Form)
  {
    form.salary.Malformed? || form.phone.Malformed? || form.petrol.Malformed?
    || form.annualRent.Malformed? || form.living.Malformed? || form.debtAmount.Malformed?
  }

  /** The preview's reading of one field: the empty text counts as 0. */
  function OrZero(f: Field): real
    requires !f.Malformed?
  {
    if f.Numeral? then f.value else 0.0
  }

  /** The same form with every empty field read as 0. */
  function FilledInputs(form: Form): (inp: MonthInputs)
    requires !AnyMalformed(form)
    ensures ParseForm(form).Some? ==> ParseForm(form).value == inp
  {
    MonthInputs(OrZero(form.salary), OrZero(form.phone), OrZero(form.petrol),
                OrZero(form.annualRent), OrZero(form.living), OrZero(form.debtAmount),
                form.debtType)
  }

  /** The live savings-% preview: never fails, shows 0 when any field is not
      a number, and otherwise recomputes the percentage with its own guards
      (rent only when non-zero, debt only for a positive number of months). */
  function PreviewSavingsPct(form: Form): (pct: real)
    ensures AnyMalformed(form) ==> pct == 0.0
  {
    if AnyMalformed(form) then 0.0
    else
      var salary := OrZero(form.salary);
      var annualRent := OrZero(form.annualRent);
      var debtAmount := OrZero(form.debtAmount);
      var monthlyRent := if annualRent != 0.0 then annualRent / 12.0 else 0.0;
      var months := Months(form.debtType);
      var monthlyDebt := if months > 0 then Amortize(debtAmount, MONTHLY_INTEREST, months) else 0.0;
      var totalExpenses := OrZero(form.phone) + OrZero(form.petrol) + monthlyRent
                           + OrZero(form.living) + monthlyDebt;
      var remaining := salary - totalExpenses;
      if salary > 0.0 then remaining / salary * 100.0 else 0.0
  }

  /** With no malformed field, the preview shows the savings percentage
      `add_data` would compute with every empty field set to 0; in
      particular, for a fully filled form, exactly the one `add_data`
      stores. */
  lemma PreviewMatchesAddData(form: Form)
    requires !AnyMalformed(form)
    ensures PreviewSavingsPct(form) == ComputeMonth(FilledInputs(form)).savingsPct
    ensures ParseForm(form).Some? ==>
              PreviewSavingsPct(form) == ComputeMonth(ParseForm(form).value).savingsPct
  {
  }
}
