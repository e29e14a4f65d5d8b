/** The loan overview of components/loan-tracker.tsx: totals over the loans, each loan's
    repayment progress and annual deduction, and the icon and colour tables. */
module LoanTracker {
  import opened Wrappers
  import opened Folds

  datatype Loan = Loan(
    id: string,
    kind: string,
    name: string,
    principal: real,
    currentBalance: real,
    interestRate: real,
    monthlyPayment: real,
    remainingMonths: nat,
    nextPaymentDate: string,
    status: string,
    taxDeductible: bool)

  const MockLoans: seq<Loan> := [
    Loan("1", "home", "Home Loan - HDFC", 5000000.0, 3200000.0, 8.5, 45000.0, 180, "2024-01-15", "active", true),
    Loan("2", "car", "Car Loan - SBI", 800000.0, 320000.0, 9.2, 18500.0, 18, "2024-01-10", "active", false),
    Loan("3", "personal", "Personal Loan - ICICI", 300000.0, 85000.0, 12.5, 12000.0, 8, "2024-01-20", "overdue", false)
  ]

  function Balance(l: Loan): real { l.currentBalance }
  function Payment(l: Loan): real { l.monthlyPayment }
  predicate IsDeductible(l: Loan) { l.taxDeductible }

  /** The "Annual tax deduction" shown under a deductible loan. */
  function AnnualDeduction(l: Loan): real { l.monthlyPayment * 12.0 }

  /** `totalOutstanding`: the current balances of all loans. */
  function TotalOutstanding(ls: seq<Loan>): (t: real)
    ensures ls == [] ==> t == 0.0
    ensures (forall l :: l in ls ==> l.currentBalance >= 0.0) ==> t >= 0.0
  {
    assert (forall l :: l in ls ==> l.currentBalance >= 0.0) ==> Sum(ls, Balance) >= 0.0 by {
      if forall l :: l in ls ==> l.currentBalance >= 0.0 { SumNonNegative(ls, Balance); }
    }
    Sum(ls, Balance)
  }

  /** `totalMonthlyPayment`: the monthly payments of all loans. */
  function TotalMonthlyPayment(ls: seq<Loan>): (t: real)
    ensures ls == [] ==> t == 0.0
    ensures (forall l :: l in ls ==> l.monthlyPayment >= 0.0) ==> t >= 0.0
  {
    assert (forall l :: l in ls ==> l.monthlyPayment >= 0.0) ==> Sum(ls, Payment) >= 0.0 by {
      if forall l :: l in ls ==> l.monthlyPayment >= 0.0 { SumNonNegative(ls, Payment); }
    }
    Sum(ls, Payment)
  }

  /** `taxDeductibleAmount`: the yearly payments of the deductible loans; never more than a
      year of all payments when payments are non-negative. */
  function TaxDeductibleAmount(ls: seq<Loan>): (t: real)
    ensures (forall l :: l in ls ==> !l.taxDeductible) ==> t == 0.0
    ensures (forall l :: l in ls ==> l.monthlyPayment >= 0.0) ==> 0.0 <= t <= TotalMonthlyPayment(ls) * 12.0
  {
    var kept := Filter(ls, IsDeductible);
    assert (forall l :: l in ls ==> !l.taxDeductible) ==> kept == [] by {
      if forall l :: l in ls ==> !l.taxDeductible { FilterNone(ls, IsDeductible); }
    }
    assert (forall l :: l in ls ==> l.monthlyPayment >= 0.0) ==>
      0.0 <= Sum(kept, AnnualDeduction) <= Sum(ls, Payment) * 12.0 by {
      if forall l :: l in ls ==> l.monthlyPayment >= 0.0 { DeductibleWithinYear(ls); }
    }
    Sum(kept, AnnualDeduction)
  }

  lemma DeductibleWithinYear(ls: seq<Loan>)
    requires forall l :: l in ls ==> l.monthlyPayment >= 0.0
    ensures 0.0 <= Sum(Filter(ls, IsDeductible), AnnualDeduction) <= Sum(ls, Payment) * 12.0
  {
    var kept := Filter(ls, IsDeductible);
    SumScale(kept, Payment, AnnualDeduction, 12.0);
    FilteredSumAtMostTotal(ls, IsDeductible, Payment);
  }

  /** The deductible amount is twelve times the monthly payments of the deductible loans,
      and the sum of the annual deductions the list shows under them. */
  lemma DeductibleIsTwelveMonths(ls: seq<Loan>)
    ensures TaxDeductibleAmount(ls) == TotalMonthlyPayment(Filter(ls, IsDeductible)) * 12.0
  {
    SumScale(Filter(ls, IsDeductible), Payment, AnnualDeduction, 12.0);
  }

  /** Repayment progress in percent; `None` stands for the non-finite value of a zero principal. */
  function Progress(l: Loan): (p: Option<real>)
    ensures p.None? <==> l.principal == 0.0
    ensures p.Some? ==> p.value == (l.principal - l.currentBalance) / l.principal * 100.0
    ensures l.principal != 0.0 && l.currentBalance == l.principal ==> p == Some(0.0)
  {
    if l.principal == 0.0 then None else Some((l.principal - l.currentBalance) / l.principal * 100.0)
  }

  /** With a balance between 0 and the principal the progress lies in [0, 100]. */
  lemma ProgressBounded(l: Loan)
    requires 0.0 <= l.currentBalance <= l.principal && l.principal > 0.0
    ensures Progress(l).Some? && 0.0 <= Progress(l).value <= 100.0
    ensures l.currentBalance == 0.0 ==> Progress(l) == Some(100.0)
  {
    var repaid := l.principal - l.currentBalance;
    assert 0.0 <= repaid <= l.principal;
    assert repaid / l.principal * l.principal == repaid;
    assert l.principal / l.principal == 1.0;
  }

  datatype Icon = HomeIcon | CarIcon | GraduationCapIcon | CreditCardIcon

  /** `getLoanIcon`: personal, business and any other kind share the card icon. */
  function LoanIcon(kind: string): (i: Icon)
    ensures i == HomeIcon <==> kind == "home"
    ensures i == CarIcon <==> kind == "car"
    ensures i == GraduationCapIcon <==> kind == "education"
  {
    if kind == "home" then HomeIcon
    else if kind == "car" then CarIcon
    else if kind == "education" then GraduationCapIcon
    else CreditCardIcon
  }

  /** `getStatusColor`: green, red and gray for active, overdue and paid loans, blue for any other status. */
  function StatusColor(status: string): (c: string)
    ensures status == "active" <==> c == "bg-green-500"
    ensures status == "overdue" <==> c == "bg-red-500"
    ensures status == "paid" <==> c == "bg-gray-500"
    ensures status !in {"active", "overdue", "paid"} <==> c == "bg-blue-500"
  {
    if status == "active" then "bg-green-500"
    else if status == "overdue" then "bg-red-500"
    else if status == "paid" then "bg-gray-500"
    else "bg-blue-500"
  }

  /** The built-in loans: 3605000 outstanding, 75500 a month, 540000 deductible a year. */
  lemma MockTotals()
    ensures TotalOutstanding(MockLoans) == 3605000.0
    ensures TotalMonthlyPayment(MockLoans) == 75500.0
    ensures TaxDeductibleAmount(MockLoans) == 540000.0
  {
    var s := MockLoans;
    assert s[..1][..0] == [];
    assert s[..2][..1] == s[..1];
    assert s[..3] == s;
    assert Sum(s[..1], Balance) == 3200000.0;
    assert Sum(s[..2], Balance) == 3520000.0;
    assert Sum(s[..1], Payment) == 45000.0;
    assert Sum(s[..2], Payment) == 63500.0;
    assert Filter(s[..1], IsDeductible) == [s[0]];
    assert Filter(s[..2], IsDeductible) == [s[0]];
    assert Filter(s, IsDeductible) == [s[0]];
    assert [s[0]][..0] == [];
    assert Sum([s[0]], AnnualDeduction) == 540000.0;
  }
}
