/** The demo payslips: six monthly slips computed from a base salary that
    depends on the role. Amounts are whole currency units; the percentages
    are exact round-half-up on integers. Months are counted as
    year * 12 + zero-based month. */
module Payslips {
  import opened Common
  import opened Text

  /** `Math.round(a * num / den)` for a non-negative amount: the nearest
      integer, halves rounded up. */
  function RoundRatio(a: nat, num: nat, den: nat): (r: nat)
    requires den > 0
    ensures 2 * r * den <= 2 * a * num + den < 2 * (r + 1) * den
  {
    (2 * a * num + den) / (2 * den)
  }

  /** baseSalaries[userRole] || 50000. */
  function BaseSalary(role: Role): (b: nat)
    ensures role == Employee ==> b == 50000
    ensures role == Manager ==> b == 75000
    ensures role == Admin ==> b == 100000
    ensures role.OtherRole? ==> b == 50000
  {
    match role
    case Employee => 50000
    case Manager => 75000
    case Admin => 100000
    case OtherRole(_) => 50000
  }

  const Transport: nat := 2000
  const Medical: nat := 1500
  const Insurance: nat := 500
  const SlipCount: nat := 6

  datatype PayStatus = PaidSlip | PendingSlip

  datatype Payslip = Payslip(
    id: string,
    month: int,
    employeeName: string,
    employeeRole: Role,
    basic: nat,
    hra: nat,
    transport: nat,
    medical: nat,
    bonus: nat,
    grossSalary: nat,
    tax: nat,
    providentFund: nat,
    insurance: nat,
    totalDeductions: nat,
    netSalary: int,
    status: PayStatus)

  /** The slip of iteration i, for the month i months before `currentMonth`. */
  function SlipFor(i: nat, username: string, role: Role, currentMonth: int): Payslip
  {
    var basic := BaseSalary(role);
    var hra := RoundRatio(basic, 4, 10);
    var bonus := if i == 0 then RoundRatio(basic, 1, 10) else 0;
    var gross := basic + hra + Transport + Medical + bonus;
    var tax := RoundRatio(gross, 1, 10);
    var pf := RoundRatio(basic, 12, 100);
    var deductions := tax + pf + Insurance;
    Payslip("pay-" + NatToString(i), currentMonth - i, username, role, basic, hra, Transport, Medical, bonus,
            gross, tax, pf, Insurance, deductions, gross - deductions, if i == 0 then PendingSlip else PaidSlip)
  }

  /** generateDemoPayslips: the loop pushing one slip per month, newest
      first. */
  method GenerateDemoPayslips(username: string, role: Role, currentMonth: int) returns (slips: seq<Payslip>)
    ensures |slips| == SlipCount
    ensures forall i :: 0 <= i < |slips| ==> slips[i] == SlipFor(i, username, role, currentMonth)
  {
    slips := [];
    var i := 0;
    while i < SlipCount
      invariant 0 <= i <= SlipCount
      invariant |slips| == i
      invariant forall k :: 0 <= k < i ==> slips[k] == SlipFor(k, username, role, currentMonth)
    {
      slips := slips + [SlipFor(i, username, role, currentMonth)];
      i := i + 1;
    }
  }

  /** Every slip balances: the gross is the sum of the earnings, the
      deductions the sum of tax, provident fund and insurance, the net their
      difference; only the current month carries a bonus and is pending. */
  lemma SlipBalances(i: nat, username: string, role: Role, currentMonth: int)
    ensures var p := SlipFor(i, username, role, currentMonth);
      && p.grossSalary == p.basic + p.hra + p.transport + p.medical + p.bonus
      && p.totalDeductions == p.tax + p.providentFund + p.insurance
      && p.netSalary == p.grossSalary - p.totalDeductions
      && (p.bonus > 0 <==> i == 0)
      && (p.status == PendingSlip <==> i == 0)
      && p.month == currentMonth - i
      && 10 * p.tax <= p.grossSalary + 5 < 10 * p.tax + 10
      && 0 < p.netSalary < p.grossSalary
  {
  }

  /** The slips carry the ids pay-0 to pay-5, all different. */
  lemma {:induction false} SlipIdsDistinct(username: string, role: Role, currentMonth: int, i: nat, j: nat)
    requires i != j
    ensures SlipFor(i, username, role, currentMonth).id != SlipFor(j, username, role, currentMonth).id
  {
    var a := SlipFor(i, username, role, currentMonth).id;
    var b := SlipFor(j, username, role, currentMonth).id;
    if a == b {
      assert a[4..] == NatToString(i);
      assert b[4..] == NatToString(j);
      NatToStringInjective(i, j);
    }
  }

  /** The figures of an employee's slips. */
  lemma EmployeeFigures(username: string, currentMonth: int, i: nat)
    ensures var p := SlipFor(i, username, Employee, currentMonth);
      && p.hra == 20000 && p.providentFund == 6000
      && (i == 0 ==> p.bonus == 5000 && p.grossSalary == 78500 && p.tax == 7850 && p.netSalary == 64150)
      && (i > 0 ==> p.grossSalary == 73500 && p.tax == 7350 && p.netSalary == 59650)
  {
  }

  /** The figures of a manager's slips. */
  lemma ManagerFigures(username: string, currentMonth: int, i: nat)
    ensures var p := SlipFor(i, username, Manager, currentMonth);
      && p.hra == 30000 && p.providentFund == 9000
      && (i == 0 ==> p.bonus == 7500 && p.grossSalary == 116000 && p.tax == 11600 && p.netSalary == 94900)
      && (i > 0 ==> p.grossSalary == 108500 && p.tax == 10850 && p.netSalary == 88150)
  {
  }

  /** The figures of an admin's slips. */
  lemma AdminFigures(username: string, currentMonth: int, i: nat)
    ensures var p := SlipFor(i, username, Admin, currentMonth);
      && p.hra == 40000 && p.providentFund == 12000
      && (i == 0 ==> p.bonus == 10000 && p.grossSalary == 153500 && p.tax == 15350 && p.netSalary == 125650)
      && (i > 0 ==> p.grossSalary == 143500 && p.tax == 14350 && p.netSalary == 116650)
  {
  }
}
