/** The simpler ledger of `finance_logic.py`: a list of categorised
    transactions, the share of them that goes to savings, and the list
    operations behind the window's buttons. */
module FinanceLogic {
  import opened Common

  datatype Transaction = Transaction(
    date: string, description: string, amount: real, category: string)

  /** `str.lower` on one character, for the ASCII letters. */
  function LowerChar(c: char): (d: char)
    ensures 'A' <= c <= 'Z' ==> d as int == c as int + 32
    ensures !('A' <= c <= 'Z') ==> d == c
    ensures !('A' <= d <= 'Z')
  {
    if 'A' <= c <= 'Z' then (c as int + 32) as char else c
  }

  function Lower(s: string): (t: string)
    ensures |t| == |s|
    ensures forall i :: 0 <= i < |s| ==> t[i] == LowerChar(s[i])
  {
    if s == [] then [] else [LowerChar(s[0])] + Lower(s[1..])
  }

  /** `category.lower() == "savings"`: seven characters, each lower-casing
      to the letter of "savings" at its place. */
  predicate IsSavings(category: string)
    ensures IsSavings(category) <==>
              |category| == 7 && forall i :: 0 <= i < 7 ==> LowerChar(category[i]) == "savings"[i]
  {
    Lower(category) == "savings"
  }

  /** Lower-casing twice changes nothing more, so the match ignores case. */
  lemma LowerIdempotent(s: string)
    ensures Lower(Lower(s)) == Lower(s)
  {
  }

  lemma SavingsIgnoresCase(category: string)
    ensures IsSavings(category) <==> IsSavings(Lower(category))
  {
    LowerIdempotent(category);
  }

  /** Which spellings of the category count as savings. */
  lemma SavingsSpellings()
    ensures IsSavings("savings") && IsSavings("Savings") && IsSavings("SAVINGS")
    ensures !IsSavings("saving") && !IsSavings("Savings ")
  {
    LowerCapitalised();
    LowerUpperCase();
  }

  lemma LowerCapitalised()
    ensures Lower("Savings") == "savings"
  {
  }

  lemma LowerUpperCase()
    ensures Lower("SAVINGS") == "savings"
  {
  }

  /** `[entry["amount"] for entry in app.data]`. */
  function Amounts(data: seq<Transaction>): (s: seq<real>)
    ensures |s| == |data|
    ensures forall i :: 0 <= i < |data| ==> s[i] == data[i].amount
  {
    if data == [] then [] else [data[0].amount] + Amounts(data[1..])
  }

  /** `sum(entry["amount"] for entry in app.data)`: not negative when no
      amount is. */
  function TotalAmount(data: seq<Transaction>): (t: real)
    ensures AllNonNegative(data) ==> t >= 0.0
  {
    SumNonNegative(Amounts(data));
    Sum(Amounts(data))
  }

  /** The transactions `update_savings_pct` counts as savings: every one of
      them has a savings category and comes from `data`, and a list whose
      every category is savings is kept whole. */
  function SavingsOnly(data: seq<Transaction>): (s: seq<Transaction>)
    ensures forall i :: 0 <= i < |s| ==> IsSavings(s[i].category)
    ensures forall e :: e in s ==> e in data
    ensures forall i :: 0 <= i < |data| && IsSavings(data[i].category) ==> data[i] in s
    ensures (forall i :: 0 <= i < |data| ==> IsSavings(data[i].category)) ==> s == data
  {
    if data == [] then []
    else if IsSavings(data[0].category) then [data[0]] + SavingsOnly(data[1..])
    else SavingsOnly(data[1..])
  }

  /** The same sum over the entries whose category is savings: 0 when no
      entry is savings, the whole total when every entry is. */
  function SavingsAmount(data: seq<Transaction>): (t: real)
    ensures (forall i :: 0 <= i < |data| ==> !IsSavings(data[i].category)) ==> t == 0.0
    ensures (forall i :: 0 <= i < |data| ==> IsSavings(data[i].category)) ==> t == TotalAmount(data)
  {
    var s := SavingsOnly(data);
    assert s != [] ==> s[0] in data;
    TotalAmount(s)
  }

  /** `(part / whole * 100) if whole > 0 else 0`. */
  function Percent(part: real, whole: real): (pct: real)
    ensures whole <= 0.0 ==> pct == 0.0
    ensures whole > 0.0 ==> pct * whole == 100.0 * part
  {
    if whole > 0.0 then
      assert part / whole * whole == part;
      part / whole * 100.0
    else 0.0
  }

  /** `update_savings_pct`: savings as a percentage of all amounts. */
  function SavingsPct(data: seq<Transaction>): real
  {
    Percent(SavingsAmount(data), TotalAmount(data))
  }

  predicate AllNonNegative(data: seq<Transaction>)
  {
    forall i :: 0 <= i < |data| ==> data[i].amount >= 0.0
  }

  /** The total of a non-empty list is its first amount plus the rest. */
  lemma TotalCons(data: seq<Transaction>)
    requires data != []
    ensures TotalAmount(data) == data[0].amount + TotalAmount(data[1..])
  {
    assert Amounts(data)[1..] == Amounts(data[1..]);
  }

  /** With non-negative amounts the savings are part of the total. */
  lemma {:induction false} SavingsWithinTotal(data: seq<Transaction>)
    requires AllNonNegative(data)
    ensures 0.0 <= SavingsAmount(data) <= TotalAmount(data)
  {
    if data != [] {
      assert AllNonNegative(data[1..]) by {
        forall i | 0 <= i < |data[1..]| ensures data[1..][i].amount >= 0.0 {
          assert data[1..][i] == data[i + 1];
        }
      }
      SavingsWithinTotal(data[1..]);
      TotalCons(data);
      var rest := SavingsOnly(data[1..]);
      if IsSavings(data[0].category) {
        TotalCons([data[0]] + rest);
        assert ([data[0]] + rest)[1..] == rest;
      }
    }
  }

  /** With non-negative amounts and a positive total, the percentage lies
      between 0 and 100. */
  lemma SavingsPctInRange(data: seq<Transaction>)
    requires AllNonNegative(data) && TotalAmount(data) > 0.0
    ensures 0.0 <= SavingsPct(data) <= 100.0
  {
    SavingsWithinTotal(data);
    var t, s, p := TotalAmount(data), SavingsAmount(data), SavingsPct(data);
    assert p == s / t * 100.0;
    FractionOfWhole(s, t);
  }

  lemma FractionOfWhole(part: real, whole: real)
    requires whole > 0.0 && 0.0 <= part <= whole
    ensures 0.0 <= part / whole <= 1.0
  {
    var q := part / whole;
    assert q * whole == part;
    assert (1.0 - q) * whole == whole - part;
  }

  lemma TotalAppend(data: seq<Transaction>, e: Transaction)
    ensures TotalAmount(data + [e]) == TotalAmount(data) + e.amount
  {
    assert Amounts(data + [e]) == Amounts(data) + [e.amount];
    SumAppend(Amounts(data), e.amount);
  }

  lemma {:induction false} SavingsOnlyAppend(data: seq<Transaction>, e: Transaction)
    ensures SavingsOnly(data + [e]) == SavingsOnly(data) + (if IsSavings(e.category) then [e] else [])
  {
    if data == [] {
      assert data + [e] == [e];
      assert SavingsOnly([e])
          == (if IsSavings(e.category) then [e] else []) + SavingsOnly([e][1..]);
    } else {
      assert (data + [e])[1..] == data[1..] + [e];
      SavingsOnlyAppend(data[1..], e);
    }
  }

  /** Appending a transaction adds its amount to both sums as it applies. */
  lemma SumsAppend(data: seq<Transaction>, e: Transaction)
    ensures TotalAmount(data + [e]) == TotalAmount(data) + e.amount
    ensures SavingsAmount(data + [e])
         == SavingsAmount(data) + (if IsSavings(e.category) then e.amount else 0.0)
  {
    TotalAppend(data, e);
    SavingsOnlyAppend(data, e);
    if IsSavings(e.category) {
      TotalAppend(SavingsOnly(data), e);
    } else {
      assert SavingsOnly(data + [e]) == SavingsOnly(data);
    }
  }

  class LedgerApp {
    var data: seq<Transaction>
    /** The percentage shown by the savings label. */
    var savingsLabel: real

    constructor ()
      ensures data == [] && savingsLabel == 0.0
    {
      data := [];
      savingsLabel := 0.0;
    }

    method UpdateSavingsPct()
      modifies this
      ensures data == old(data) && savingsLabel == SavingsPct(data)
    {
      savingsLabel := SavingsPct(data);
    }

    /** `add_data`: the amount is read with `float(...)`, which raises on an
        empty or non-numeric text before anything changes; otherwise the
        transaction is appended and the label recomputed. */
    method AddData(date: string, description: string, amountText: Field, category: string)
      returns (added: bool)
      modifies this
      ensures added == amountText.Numeral?
      ensures !added ==> data == old(data) && savingsLabel == old(savingsLabel)
      ensures added ==>
                data == old(data) + [Transaction(date, description, amountText.value, category)]
                && savingsLabel == SavingsPct(data)
    {
      if !amountText.Numeral? {
        return false;
      }
      data := data + [Transaction(date, description, amountText.value, category)];
      UpdateSavingsPct();
      added := true;
    }

    /** `delete_entry`: nothing happens when no row is selected; otherwise the
        selected row goes and the label is recomputed. */
    method DeleteEntry(row: int)
      requires row < |data|
      modifies this
      ensures row < 0 ==> data == old(data) && savingsLabel == old(savingsLabel)
      ensures row >= 0 ==> data == RemoveAt(old(data), row) && savingsLabel == SavingsPct(data)
    {
      if row >= 0 {
        data := data[..row] + data[row + 1..];
        UpdateSavingsPct();
      }
    }

    /** `clear_database`: the list is emptied only when the user confirms.
        The label is not recomputed here. */
    method ClearDatabase(confirmed: bool)
      modifies this
      ensures data == (if confirmed then [] else old(data))
      ensures savingsLabel == old(savingsLabel)
    {
      if confirmed {
        data := [];
      }
    }
  }
}
