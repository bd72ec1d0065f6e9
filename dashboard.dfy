// The sidebar's property-area filter and the figures the dashboard
// derives from the filtered rows: loan volume, credit passes and the
// number of applicants.
module Dashboard {
  import opened Eligibility

  /** One applicant record of the data set, with the columns the filter and
      the figures read. */
  datatype Row = Row(
    loanAmount: int,      // in thousands
    creditHistory: real,  // 1.0 or 0.0 in the generated data
    propertyArea: Area)

  /** The figures shown on the dashboard's metric cards. */
  datatype Summary = Summary(totalLoan: int, creditPass: nat, applicants: nat)

  const AllAreas: set<Area> := {Urban, Semiurban, Rural}

  /** The rows whose property area is selected, in their original order. */
  function Filter(rows: seq<Row>, selected: set<Area>): (kept: seq<Row>)
    ensures |kept| <= |rows|
    ensures forall k :: 0 <= k < |kept| ==> kept[k] in rows && kept[k].propertyArea in selected
  {
    if rows == [] then []
    else
      var rest := Filter(rows[1..], selected);
      if rows[0].propertyArea in selected then [rows[0]] + rest else rest
  }

  /** Sum of the loan amounts. */
  function TotalLoan(rows: seq<Row>): (total: int)
    ensures (forall k :: 0 <= k < |rows| ==> rows[k].loanAmount >= 0) ==> total >= 0
  {
    if rows == [] then 0 else rows[0].loanAmount + TotalLoan(rows[1..])
  }

  /** Number of rows whose credit history equals 1. */
  function CreditPass(rows: seq<Row>): (n: nat)
    ensures n <= |rows|
  {
    if rows == [] then 0
    else (if rows[0].creditHistory == 1.0 then 1 else 0) + CreditPass(rows[1..])
  }

  /** The dashboard's figures for a selection. */
  function Summarize(rows: seq<Row>, selected: set<Area>): (s: Summary)
    ensures s.creditPass <= s.applicants <= |rows|
  {
    var kept := Filter(rows, selected);
    Summary(TotalLoan(kept), CreditPass(kept), |kept|)
  }

  // ---------------------------------------------------------------------
  // Properties

  /** A row is kept exactly when it is present and its area is selected. */
  lemma {:induction false} FilterMembership(rows: seq<Row>, selected: set<Area>, r: Row)
    ensures r in Filter(rows, selected) <==> r in rows && r.propertyArea in selected
  {
    if rows != [] {
      FilterMembership(rows[1..], selected, r);
      assert rows == [rows[0]] + rows[1..];
    }
  }

  /** Filtering splits over concatenation, so the kept rows keep their order. */
  lemma {:induction false} FilterAppend(xs: seq<Row>, ys: seq<Row>, selected: set<Area>)
    ensures Filter(xs + ys, selected) == Filter(xs, selected) + Filter(ys, selected)
  {
    if xs == [] {
      assert xs + ys == ys;
    } else {
      assert (xs + ys)[1..] == xs[1..] + ys;
      FilterAppend(xs[1..], ys, selected);
    }
  }

  /** Each row is kept as many times as it occurs, or not at all. */
  lemma {:induction false} FilterCount(rows: seq<Row>, selected: set<Area>, r: Row)
    ensures multiset(Filter(rows, selected))[r] ==
      if r.propertyArea in selected then multiset(rows)[r] else 0
  {
    if rows != [] {
      FilterCount(rows[1..], selected, r);
      assert rows == [rows[0]] + rows[1..];
    }
  }

  /** Selecting every area present leaves the table unchanged; this is the
      sidebar's default selection. */
  lemma {:induction false} FilterAllSelected(rows: seq<Row>, selected: set<Area>)
    requires forall k :: 0 <= k < |rows| ==> rows[k].propertyArea in selected
    ensures Filter(rows, selected) == rows
  {
    if rows != [] {
      FilterAllSelected(rows[1..], selected);
    }
  }

  /** A selection and its complement share the applicants between them. */
  lemma {:induction false} FilterPartition(rows: seq<Row>, selected: set<Area>)
    ensures |Filter(rows, selected)| + |Filter(rows, AllAreas - selected)| == |rows|
    ensures TotalLoan(Filter(rows, selected)) + TotalLoan(Filter(rows, AllAreas - selected))
         == TotalLoan(rows)
    ensures CreditPass(Filter(rows, selected)) + CreditPass(Filter(rows, AllAreas - selected))
         == CreditPass(rows)
  {
    if rows != [] {
      var area := rows[0].propertyArea;
      assert area.Urban? || area.Semiurban? || area.Rural?;
      assert area in AllAreas;
      FilterPartition(rows[1..], selected);
    }
  }

  /** Loan volume adds up over concatenation. */
  lemma {:induction false} TotalLoanAppend(xs: seq<Row>, ys: seq<Row>)
    ensures TotalLoan(xs + ys) == TotalLoan(xs) + TotalLoan(ys)
  {
    if xs == [] {
      assert xs + ys == ys;
    } else {
      assert (xs + ys)[1..] == xs[1..] + ys;
      TotalLoanAppend(xs[1..], ys);
    }
  }

  /** With non-negative amounts, a narrower selection never shows more loan volume. */
  lemma {:induction false} TotalLoanFilterBounded(rows: seq<Row>, selected: set<Area>)
    requires forall k :: 0 <= k < |rows| ==> rows[k].loanAmount >= 0
    ensures 0 <= TotalLoan(Filter(rows, selected)) <= TotalLoan(rows)
  {
    if rows != [] {
      TotalLoanFilterBounded(rows[1..], selected);
    }
  }

  /** Credit passes add up over concatenation. */
  lemma {:induction false} CreditPassAppend(xs: seq<Row>, ys: seq<Row>)
    ensures CreditPass(xs + ys) == CreditPass(xs) + CreditPass(ys)
  {
    if xs == [] {
      assert xs + ys == ys;
    } else {
      assert (xs + ys)[1..] == xs[1..] + ys;
      CreditPassAppend(xs[1..], ys);
    }
  }

  /** Every row passes exactly when the count reaches the number of rows. */
  lemma {:induction false} CreditPassAll(rows: seq<Row>)
    ensures CreditPass(rows) == |rows| <==>
      forall k :: 0 <= k < |rows| ==> rows[k].creditHistory == 1.0
  {
    if rows != [] {
      CreditPassAll(rows[1..]);
      assert forall k :: 1 <= k < |rows| ==> rows[k] == rows[1..][k - 1];
    }
  }
}
