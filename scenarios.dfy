/**
 * Two client runs that rely on the handlers' contracts alone: a sale, and a
 * collaboration that is listed as due soon with its pending amount derived.
 */
module Scenarios {
  import opened Wrappers
  import opened Records
  import opened Lifecycle
  import opened Listing
  import opened Store
  import Revenue
  import Tables

  /** A property priced 100 is added and then marked sold at 120. */
  method SaleScenario() returns (row: Property, revenue: real)
    ensures row.status == SOLD && row.soldPrice == 120.0 && row.price == 100.0
    ensures revenue == 120.0
  {
    var s := new Store();
    var id := s.AddProperty("Villa", "House", "Pune", "2000 sqft", 100.0, "Owner", "555");
    assert s.properties[0].id == id;
    Revenue.PropertyRevenueIsSoldTotal(s.properties);
    assert Revenue.SoldTotal(s.properties) == 0.0;
    s.MarkSold(id, 120.0);
    row := s.properties[0];
    revenue := Revenue.ActualRevenue(s.properties, s.collaborations).propertyTotal;
  }

  /** A collaboration of 1000 with 400 paid, due in ten days, is listed by `due_soon` with 600 pending. */
  method DueSoonScenario(today: int) returns (listed: seq<Row>)
    ensures |listed| == 1
    ensures listed[0].status == DueSoon && listed[0].collab.pendingAmount == 600.0
  {
    var s := new Store();
    var id := s.AddCollaboration("Supplier", "Legal", "Deeds", "Contact", "555", "a@b.c",
                                 today - 5, today + 10, 1000.0, 400.0);
    listed := CollaborationsPage(s.collaborations, today, Some(DUE_SOON));
    DueSoonSelects(s.collaborations, today);
    assert DueSoonOn(today)(s.collaborations[0]);
    assert Tables.Where(s.collaborations, DueSoonOn(today)) == s.collaborations;
  }
}
