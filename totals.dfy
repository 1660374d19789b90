/**
 * The derived figures of the budget screen, recomputed from the five lists
 * whenever one of them changes: the per-list totals, the nursery (crèche)
 * share, the monthly provision for annual expenses, the transfer each of
 * the two partners makes (virement), the cash at hand and a 12-month
 * projection of it.
 */
module Totals {
  import opened JsBuiltins
  import opened Records

  /** The cash both partners start the year with. */
  const StartingBalance: real := 1429.0

  /** The fixed expense excluded from the shared half is found by this
      substring of its lower-cased name. */
  const CrecheKey: string := "crèche"

  const MonthNames: seq<string> :=
    ["Jan", "Fév", "Mar", "Avr", "Mai", "Juin", "Juil", "Août", "Sep", "Oct", "Nov", "Déc"]

  /** A nursery expense's name is at least as long as the key. */
  function IsCreche(e: Record): (r: bool)
    ensures r ==> |e.name| >= |CrecheKey|
  {
    Includes(ToLower(e.name), CrecheKey)
  }

  /** `fixedExpenses.find(e => e.name.toLowerCase().includes('crèche'))`,
      as the index of the record found. */
  function FindCreche(xs: seq<Record>): (r: Option<nat>)
    ensures r.Some? ==> r.value < |xs| && IsCreche(xs[r.value])
    ensures r.Some? ==> forall j :: 0 <= j < r.value ==> !IsCreche(xs[j])
    ensures r.None? ==> forall j :: 0 <= j < |xs| ==> !IsCreche(xs[j])
  {
    if xs == [] then None
    else if IsCreche(xs[0]) then Some(0)
    else match FindCreche(xs[1..])
      case None => None
      case Some(k) => Some(k + 1)
  }

  /** `find(...)?.amount || 0`: the amount of the first fixed expense whose
      name contains "crèche" in any case, and 0 when there is none. (`|| 0`
      also turns an amount of 0 into 0, which changes nothing.) */
  function Creche(fixed: seq<Record>): (r: real)
    ensures (forall i :: 0 <= i < |fixed| ==> !IsCreche(fixed[i])) ==> r == 0.0
    ensures forall i :: 0 <= i < |fixed| && IsCreche(fixed[i]) ==>
      (forall j :: 0 <= j < i ==> !IsCreche(fixed[j])) ==> r == fixed[i].amount
  {
    match FindCreche(fixed)
    case None => 0.0
    case Some(i) => fixed[i].amount
  }

  /** `Math.round(totalAnnual / 12)`: the monthly share of the annual
      expenses, to the nearest euro. */
  function Provision(totalAnnual: real): (r: int)
    ensures r as real - 0.5 <= totalAnnual / 12.0 < r as real + 0.5
  {
    Round(totalAnnual / 12.0)
  }

  /** `Math.ceil((totalFixed - creche + provision) / 2)`: each partner pays
      half of the fixed expenses other than the nursery plus the provision,
      rounded up to the euro. */
  function Virement(totalFixed: real, creche: real, provision: int): (r: int)
    ensures (totalFixed - creche + provision as real) / 2.0 <= r as real
    ensures r as real < (totalFixed - creche + provision as real) / 2.0 + 1.0
  {
    Ceil((totalFixed - creche + provision as real) / 2.0)
  }

  /** `1429 + totalReimbursed - totalPaid - totalPending`. */
  function RealCash(reimbursements: seq<Record>, exceptionalPaid: seq<Record>, pending: seq<Record>): (r: real)
    ensures (forall i :: 0 <= i < |pending| ==> pending[i].amount >= 0.0) ==>
      r <= StartingBalance + Sum(reimbursements) - Sum(exceptionalPaid)
  {
    var cash := StartingBalance + Sum(reimbursements) - Sum(exceptionalPaid) - Sum(pending);
    if forall i :: 0 <= i < |pending| ==> pending[i].amount >= 0.0 then
      SumNonNegative(pending);
      cash
    else
      cash
  }

  /** One point of the projection chart. */
  datatype Point = Point(name: string, solde: int)

  /** `Array.from({ length: 12 }, ...)`: month `i` of the year holds the
      cash at hand plus `i` monthly provisions, rounded to the euro. */
  function Projection(realCash: real, provision: int): (r: seq<Point>)
    ensures |r| == 12
    ensures forall i :: 0 <= i < 12 ==> r[i].name == MonthNames[i]
    ensures forall i :: 0 <= i < 12 ==>
      r[i].solde as real - 0.5 <= realCash + (provision * i) as real < r[i].solde as real + 0.5
  {
    seq(12, i requires 0 <= i < 12 => Point(MonthNames[i], Round(realCash + (provision * i) as real)))
  }

  /** The chart starts at the rounded cash and every month adds exactly one
      provision. */
  lemma ProjectionSteps(realCash: real, provision: int)
    ensures Projection(realCash, provision)[0].solde == Round(realCash)
    ensures forall i :: 0 <= i < 11 ==>
      Projection(realCash, provision)[i + 1].solde == Projection(realCash, provision)[i].solde + provision
  {
    var r := Projection(realCash, provision);
    assert r[0].solde == Round(realCash + 0.0);
    forall i | 0 <= i < 11
      ensures r[i + 1].solde == r[i].solde + provision
    {
      var x := realCash + (provision * i) as real;
      assert provision * (i + 1) == provision * i + provision;
      assert realCash + (provision * (i + 1)) as real == x + provision as real;
      RoundShift(x, provision);
    }
  }

  /** What the `totals` memo returns. */
  datatype Summary = Summary(
    virement: int, realCash: real, projection: seq<Point>,
    provision: int, totalFixed: real, totalAnnual: real)

  function ComputeTotals(
    fixed: seq<Record>, annual: seq<Record>, pending: seq<Record>,
    reimbursements: seq<Record>, exceptionalPaid: seq<Record>): (t: Summary)
    ensures t.totalFixed == Sum(fixed) && t.totalAnnual == Sum(annual)
    ensures t.realCash == StartingBalance + Sum(reimbursements) - Sum(exceptionalPaid) - Sum(pending)
    ensures t.provision as real - 0.5 <= t.totalAnnual / 12.0 < t.provision as real + 0.5
    ensures (t.totalFixed - Creche(fixed) + t.provision as real) / 2.0 <= t.virement as real
    ensures t.virement as real < (t.totalFixed - Creche(fixed) + t.provision as real) / 2.0 + 1.0
    ensures t.projection == Projection(t.realCash, t.provision)
    ensures t.projection[0].solde == Round(t.realCash)
    ensures forall i :: 0 <= i < 11 ==> t.projection[i + 1].solde == t.projection[i].solde + t.provision
  {
    var totalFixed := Sum(fixed);
    var totalAnnual := Sum(annual);
    var provision := Provision(totalAnnual);
    var realCash := RealCash(reimbursements, exceptionalPaid, pending);
    ProjectionSteps(realCash, provision);
    Summary(Virement(totalFixed, Creche(fixed), provision), realCash,
            Projection(realCash, provision), provision, totalFixed, totalAnnual)
  }

  /** The sums, hence all the figures, do not depend on the order of the
      annual expenses, the advances, the reimbursements and the payments. */
  lemma TotalsIgnoreOrder(
    fixed: seq<Record>, annual: seq<Record>, annual': seq<Record>,
    pending: seq<Record>, pending': seq<Record>,
    reimbursements: seq<Record>, reimbursements': seq<Record>,
    exceptionalPaid: seq<Record>, exceptionalPaid': seq<Record>)
    requires multiset(annual) == multiset(annual') && multiset(pending) == multiset(pending')
    requires multiset(reimbursements) == multiset(reimbursements')
    requires multiset(exceptionalPaid) == multiset(exceptionalPaid')
    ensures ComputeTotals(fixed, annual, pending, reimbursements, exceptionalPaid)
         == ComputeTotals(fixed, annual', pending', reimbursements', exceptionalPaid')
  {
    SumPermutation(annual, annual');
    SumPermutation(pending, pending');
    SumPermutation(reimbursements, reimbursements');
    SumPermutation(exceptionalPaid, exceptionalPaid');
  }

  /** The nursery is found whatever the case of its name... */
  lemma CrecheIgnoresCase()
    ensures Creche([Record(7, "Ma CRÈCHE", 300.0)]) == 300.0
  {
    LowerExample();
    var s := "ma crèche";
    assert s[3..] == CrecheKey;
    assert OccursAt(s, CrecheKey, 3);
    IncludesIff(s, CrecheKey);
  }

  lemma LowerExample()
    ensures ToLower("Ma CRÈCHE") == "ma crèche"
  {
    var s := ToLower("Ma CRÈCHE");
    ToLowerAt("Ma CRÈCHE");
    assert s[0] == LowerChar('M') == 'm';
    assert s[3] == LowerChar('C') == 'c';
    assert s[4] == LowerChar('R') == 'r';
    assert s[5] == LowerChar('\U{C8}') == '\U{E8}';
    assert s[6] == LowerChar('C') == 'c';
    assert s[7] == LowerChar('H') == 'h';
    assert s[8] == LowerChar('E') == 'e';
  }

  /** ...and when no lower-cased name has the word at any index, there is
      no nursery share, whatever the amounts. */
  lemma CrecheNeedsTheWord(fixed: seq<Record>)
    requires forall i, k: nat :: 0 <= i < |fixed| ==> !OccursAt(ToLower(fixed[i].name), CrecheKey, k)
    ensures Creche(fixed) == 0.0
  {
    forall i | 0 <= i < |fixed|
      ensures !IsCreche(fixed[i])
    {
      IncludesIff(ToLower(fixed[i].name), CrecheKey);
    }
  }

  /** A name without an 'è' in either case is not the nursery's. */
  lemma NoGraveNoCreche(e: Record)
    requires '\U{E8}' !in e.name && '\U{C8}' !in e.name
    ensures !IsCreche(e)
  {
    LowerKeepsGraveAbsent(e.name);
    MissingCharExcludes(ToLower(e.name), CrecheKey, '\U{E8}');
  }
}
