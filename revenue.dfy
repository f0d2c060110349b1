/**
 * The revenue figures of the dashboard and of the two revenue pages.
 * Property revenue is `SUM(sold_price)` over the rows whose status is 'Sold';
 * collaboration revenue is `SUM(paid_amount)` over all collaborations; an SQL
 * SUM over no rows is NULL and the handlers read it as 0. The adjusted view
 * shown to non-superadmin users multiplies each component by 0.9.
 * In the source the dashboard computes with Decimal and the revenue pages with
 * binary floats rounded to two places; here all amounts are exact reals.
 */
module Revenue {
  import opened Wrappers
  import opened Records
  import opened Tables
  import Listing

  /** The share of revenue the adjusted view keeps. */
  const ADJUSTMENT: real := 0.9

  function Sum(xs: seq<real>): real {
    if xs == [] then 0.0 else xs[0] + Sum(xs[1..])
  }

  /** `SELECT SUM(...)`: NULL when no row is selected. */
  function SqlSum(xs: seq<real>): Option<real> {
    if xs == [] then None else Some(Sum(xs))
  }

  /** Python's `total or 0`: NULL and zero both read as 0. */
  function OrZero(v: Option<real>): real {
    if v.None? || v.value == 0.0 then 0.0 else v.value
  }

  /** The `sold_price` column of the rows `WHERE status='Sold'`. */
  function SoldPrices(props: seq<Property>): seq<real> {
    if props == [] then []
    else if IsSold(props[0]) then [props[0].soldPrice] + SoldPrices(props[1..])
    else SoldPrices(props[1..])
  }

  /** The `paid_amount` column. */
  function PaidAmounts(collabs: seq<Collaboration>): seq<real> {
    if collabs == [] then [] else [collabs[0].paidAmount] + PaidAmounts(collabs[1..])
  }

  /** The queries as the handlers run them. */
  function PropertyRevenue(props: seq<Property>): real {
    OrZero(SqlSum(SoldPrices(props)))
  }

  function CollaborationRevenue(collabs: seq<Collaboration>): real {
    OrZero(SqlSum(PaidAmounts(collabs)))
  }

  // Reference definitions: what each row adds to the total.

  function Contribution(p: Property): real {
    if IsSold(p) then p.soldPrice else 0.0
  }

  function SoldTotal(props: seq<Property>): real {
    if props == [] then 0.0 else Contribution(props[0]) + SoldTotal(props[1..])
  }

  function PaidTotal(collabs: seq<Collaboration>): real {
    if collabs == [] then 0.0 else collabs[0].paidAmount + PaidTotal(collabs[1..])
  }

  lemma {:induction false} SoldPricesSum(props: seq<Property>)
    ensures Sum(SoldPrices(props)) == SoldTotal(props)
  {
    if props != [] {
      var rest := SoldPrices(props[1..]);
      SoldPricesSum(props[1..]);
      if IsSold(props[0]) {
        assert SoldPrices(props) == [props[0].soldPrice] + rest;
        assert ([props[0].soldPrice] + rest)[1..] == rest;
      } else {
        assert SoldPrices(props) == rest;
      }
    }
  }

  lemma {:induction false} PaidAmountsSum(collabs: seq<Collaboration>)
    ensures Sum(PaidAmounts(collabs)) == PaidTotal(collabs)
  {
    if collabs != [] {
      var rest := PaidAmounts(collabs[1..]);
      PaidAmountsSum(collabs[1..]);
      assert ([collabs[0].paidAmount] + rest)[1..] == rest;
    }
  }

  /** The query with its NULL handling is the sum of `sold_price` over the sold rows, 0 when none is sold. */
  lemma {:induction false} PropertyRevenueIsSoldTotal(props: seq<Property>)
    ensures PropertyRevenue(props) == SoldTotal(props)
    ensures (forall i | 0 <= i < |props| :: !IsSold(props[i])) ==> PropertyRevenue(props) == 0.0
  {
    SoldPricesSum(props);
    if forall i | 0 <= i < |props| :: !IsSold(props[i]) {
      NothingSoldNoRevenue(props);
    }
  }

  lemma {:induction false} NothingSoldNoRevenue(props: seq<Property>)
    requires forall i | 0 <= i < |props| :: !IsSold(props[i])
    ensures SoldTotal(props) == 0.0
  {
    if props != [] {
      NothingSoldNoRevenue(props[1..]);
    }
  }

  /** The query with its NULL handling is the sum of `paid_amount`, 0 on an empty table. */
  lemma CollaborationRevenueIsPaidTotal(collabs: seq<Collaboration>)
    ensures CollaborationRevenue(collabs) == PaidTotal(collabs)
  {
    PaidAmountsSum(collabs);
  }

  /** The four figures of a revenue page. */
  datatype RevenueReport = RevenueReport(
    propertyTotal: real,
    collaborationTotal: real,
    grandTotal: real,
    profit: real)

  /** The superadmin page. `profit` is defined to equal the grand total; no cost is deducted. */
  function ActualRevenue(props: seq<Property>, collabs: seq<Collaboration>): (r: RevenueReport)
    ensures r.propertyTotal == SoldTotal(props)
    ensures r.collaborationTotal == PaidTotal(collabs)
    ensures r.grandTotal == r.propertyTotal + r.collaborationTotal
    ensures r.profit == r.grandTotal
  {
    PropertyRevenueIsSoldTotal(props);
    CollaborationRevenueIsPaidTotal(collabs);
    var propertyTotal := PropertyRevenue(props);
    var collaborationTotal := CollaborationRevenue(collabs);
    var grandTotal := propertyTotal + collaborationTotal;
    RevenueReport(propertyTotal, collaborationTotal, grandTotal, grandTotal)
  }

  /** The adjusted page: each component scaled by 0.9 before adding. */
  function AdjustedRevenue(props: seq<Property>, collabs: seq<Collaboration>): (r: RevenueReport)
    ensures r.propertyTotal == ADJUSTMENT * SoldTotal(props)
    ensures r.collaborationTotal == ADJUSTMENT * PaidTotal(collabs)
    ensures r.grandTotal == r.propertyTotal + r.collaborationTotal
    ensures r.profit == r.grandTotal
  {
    PropertyRevenueIsSoldTotal(props);
    CollaborationRevenueIsPaidTotal(collabs);
    var propertyTotal := PropertyRevenue(props) * ADJUSTMENT;
    var collaborationTotal := CollaborationRevenue(collabs) * ADJUSTMENT;
    var grandTotal := propertyTotal + collaborationTotal;
    RevenueReport(propertyTotal, collaborationTotal, grandTotal, grandTotal)
  }

  /** Every adjusted figure is 90% of the actual one, the grand total and profit included. */
  lemma AdjustedIsNinetyPercent(props: seq<Property>, collabs: seq<Collaboration>)
    ensures AdjustedRevenue(props, collabs).propertyTotal == ADJUSTMENT * ActualRevenue(props, collabs).propertyTotal
    ensures AdjustedRevenue(props, collabs).collaborationTotal == ADJUSTMENT * ActualRevenue(props, collabs).collaborationTotal
    ensures AdjustedRevenue(props, collabs).grandTotal == ADJUSTMENT * ActualRevenue(props, collabs).grandTotal
    ensures AdjustedRevenue(props, collabs).profit == ADJUSTMENT * ActualRevenue(props, collabs).profit
  {
  }

  /** With non-negative amounts the figures are non-negative and the adjusted ones never exceed the actual ones. */
  lemma {:induction false} RevenueNonNegative(props: seq<Property>, collabs: seq<Collaboration>)
    requires forall i | 0 <= i < |props| :: props[i].soldPrice >= 0.0
    requires forall i | 0 <= i < |collabs| :: collabs[i].paidAmount >= 0.0
    ensures 0.0 <= AdjustedRevenue(props, collabs).grandTotal <= ActualRevenue(props, collabs).grandTotal
  {
    SoldTotalNonNegative(props);
    PaidTotalNonNegative(collabs);
  }

  lemma {:induction false} SoldTotalNonNegative(props: seq<Property>)
    requires forall i | 0 <= i < |props| :: props[i].soldPrice >= 0.0
    ensures SoldTotal(props) >= 0.0
  {
    if props != [] {
      SoldTotalNonNegative(props[1..]);
    }
  }

  lemma {:induction false} PaidTotalNonNegative(collabs: seq<Collaboration>)
    requires forall i | 0 <= i < |collabs| :: collabs[i].paidAmount >= 0.0
    ensures PaidTotal(collabs) >= 0.0
  {
    if collabs != [] {
      PaidTotalNonNegative(collabs[1..]);
    }
  }

  /** `COUNT(*) WHERE status='Sold'` counts the same rows whose prices `SUM(sold_price)` adds. */
  lemma {:induction false} SoldCountIsSoldPrices(props: seq<Property>)
    ensures |Where(props, IsSold)| == |SoldPrices(props)|
    ensures |Where(props, IsSold)| == 0 <==> forall i | 0 <= i < |props| :: !IsSold(props[i])
  {
    if props != [] {
      SoldCountIsSoldPrices(props[1..]);
    }
  }

  /** The dashboard's `stats` dictionary. */
  datatype DashboardStats = DashboardStats(
    totalProperties: nat,
    totalSold: nat,
    collabCompleted: nat,
    totalCollab: nat,
    propertyRevenue: real,
    collaborationRevenue: real,
    totalRevenue: real,
    adjustedPropertyRevenue: real,
    adjustedCollaborationRevenue: real,
    totalAdjustedRevenue: real)

  /** The dashboard: four COUNT queries, two SUM queries and the derived totals. */
  function Dashboard(props: seq<Property>, collabs: seq<Collaboration>): (d: DashboardStats)
    ensures d.totalSold <= d.totalProperties == |props|
    ensures d.totalSold == |SoldPrices(props)|
    ensures d.totalSold == 0 <==> forall i | 0 <= i < |props| :: !IsSold(props[i])
    ensures d.totalSold == 0 ==> d.propertyRevenue == 0.0
    ensures d.collabCompleted <= d.totalCollab == |collabs|
    ensures d.totalRevenue == d.propertyRevenue + d.collaborationRevenue
    ensures d.adjustedPropertyRevenue == ADJUSTMENT * d.propertyRevenue
    ensures d.adjustedCollaborationRevenue == ADJUSTMENT * d.collaborationRevenue
    ensures d.totalAdjustedRevenue == ADJUSTMENT * d.totalRevenue
  {
    var propertyRevenue := PropertyRevenue(props);
    var collaborationRevenue := CollaborationRevenue(collabs);
    var adjustedProperty := propertyRevenue * ADJUSTMENT;
    var adjustedCollaboration := collaborationRevenue * ADJUSTMENT;
    SoldCountIsSoldPrices(props);
    DashboardStats(
      |props|,
      |Where(props, IsSold)|,
      |Where(collabs, Listing.IsSettled)|,
      |collabs|,
      propertyRevenue,
      collaborationRevenue,
      propertyRevenue + collaborationRevenue,
      adjustedProperty,
      adjustedCollaboration,
      adjustedProperty + adjustedCollaboration)
  }

  /** The dashboard's figures agree with the two revenue pages. */
  lemma DashboardMatchesReports(props: seq<Property>, collabs: seq<Collaboration>)
    ensures Dashboard(props, collabs).totalRevenue == ActualRevenue(props, collabs).grandTotal
    ensures Dashboard(props, collabs).propertyRevenue == ActualRevenue(props, collabs).propertyTotal
    ensures Dashboard(props, collabs).collaborationRevenue == ActualRevenue(props, collabs).collaborationTotal
    ensures Dashboard(props, collabs).totalAdjustedRevenue == AdjustedRevenue(props, collabs).grandTotal
    ensures Dashboard(props, collabs).adjustedPropertyRevenue == AdjustedRevenue(props, collabs).propertyTotal
    ensures Dashboard(props, collabs).adjustedCollaborationRevenue == AdjustedRevenue(props, collabs).collaborationTotal
  {
  }

  /** The dashboard's completed count is the length of the `completed` listing, and the
      remaining collaborations are those the `pending` listing shows. */
  lemma CompletedCountMatchesListing(collabs: seq<Collaboration>, props: seq<Property>, today: int)
    ensures Dashboard(props, collabs).collabCompleted == |Listing.Processed(collabs, today, Some(Listing.COMPLETED))|
    ensures Dashboard(props, collabs).totalCollab - Dashboard(props, collabs).collabCompleted
         == |Listing.Processed(collabs, today, Some(Listing.PENDING))|
  {
    Listing.CompletedSelects(collabs, today);
    Listing.PendingCompletedPartition(collabs, today);
  }

  /** Marking the property at index `k` sold at `price` replaces its old contribution to property revenue by `price`. */
  lemma {:induction false} MarkSoldRevenue(props: seq<Property>, k: nat, price: real)
    requires KeysAscending(props, PropertyKey)
    requires k < |props|
    ensures SoldTotal(UpdateWhere(props, PropertyWithId(props[k].id), MarkedSold(price)))
         == SoldTotal(props) - Contribution(props[k]) + price
  {
    var sel, f := PropertyWithId(props[k].id), MarkedSold(price);
    var rest := props[1..];
    var u := UpdateWhere(props, sel, f);
    assert u[1..] == UpdateWhere(rest, sel, f);
    assert SoldTotal(u) == Contribution(u[0]) + SoldTotal(UpdateWhere(rest, sel, f));
    if k == 0 {
      forall i | 0 <= i < |rest| ensures !sel(rest[i]) {
        assert rest[i] == props[i + 1];
      }
      UpdateNothingSelected(rest, sel, f);
    } else {
      assert KeysAscending(rest, PropertyKey) by {
        forall i, j | 0 <= i < j < |rest| ensures rest[i].id < rest[j].id {
          assert rest[i] == props[i + 1] && rest[j] == props[j + 1];
        }
      }
      assert rest[k - 1] == props[k];
      assert !sel(props[0]);
      MarkSoldRevenue(rest, k - 1, price);
    }
  }

  /** Marking sold an id that no row has leaves property revenue unchanged. */
  lemma MarkSoldMissingRevenue(props: seq<Property>, pid: int, price: real)
    requires forall i | 0 <= i < |props| :: props[i].id != pid
    ensures SoldTotal(UpdateWhere(props, PropertyWithId(pid), MarkedSold(price))) == SoldTotal(props)
  {
    UpdateNothingSelected(props, PropertyWithId(pid), MarkedSold(price));
  }
}
