/**
 * The collaborations page: every row gets its lifecycle status, the rows are
 * filtered by the `filter` query parameter (`pending`, `completed`, `due_soon`)
 * or sorted by due date (`due_asc`, `due_desc`). Any other value, or none, lists
 * every row in table order.
 */
module Listing {
  import opened Wrappers
  import opened Records
  import opened Lifecycle
  import opened Ordering
  import opened Tables

  /** A listed row: the stored collaboration plus its derived `status` field. */
  datatype Row = Row(collab: Collaboration, status: DueStatus)

  const PENDING: string := "pending"
  const COMPLETED: string := "completed"
  const DUE_SOON: string := "due_soon"
  const DUE_ASC: string := "due_asc"
  const DUE_DESC: string := "due_desc"

  /** The row the loop builds from `c`. */
  function Tag(c: Collaboration, today: int): Row {
    Row(c, StatusOf(c.dueDate, today))
  }

  function TagAll(data: seq<Collaboration>, today: int): (r: seq<Row>)
    ensures |r| == |data|
    ensures forall i | 0 <= i < |data| :: r[i] == Tag(data[i], today)
  {
    seq(|data|, i requires 0 <= i < |data| => Tag(data[i], today))
  }

  /** The stored collaborations behind listed rows. */
  function Collabs(rows: seq<Row>): (r: seq<Collaboration>)
    ensures |r| == |rows|
    ensures forall i | 0 <= i < |rows| :: r[i] == rows[i].collab
  {
    seq(|rows|, i requires 0 <= i < |rows| => rows[i].collab)
  }

  /** The sort key of both sort filters. */
  function DueKey(r: Row): int { r.collab.dueDate }

  /** Whether the loop appends the row rather than skipping it with `continue`. */
  predicate Kept(filter: Option<string>, r: Row) {
    && !(filter == Some(PENDING) && r.collab.pendingAmount == 0.0)
    && !(filter == Some(COMPLETED) && r.collab.pendingAmount != 0.0)
    && !(filter == Some(DUE_SOON) && r.status != DueSoon)
  }

  /** The three filter values that drop rows. */
  predicate Selective(filter: Option<string>) {
    filter == Some(PENDING) || filter == Some(COMPLETED) || filter == Some(DUE_SOON)
  }

  /** The `processed` list once the loop has seen all of `data`; defined from the last row. */
  function Processed(data: seq<Collaboration>, today: int, filter: Option<string>): seq<Row> {
    if data == [] then []
    else
      var r := Tag(data[|data| - 1], today);
      if Kept(filter, r) then Processed(data[..|data| - 1], today, filter) + [r]
      else Processed(data[..|data| - 1], today, filter)
  }

  /** What the page lists: the processed rows, sorted when the filter asks for it. */
  function Listing(data: seq<Collaboration>, today: int, filter: Option<string>): seq<Row> {
    var p := Processed(data, today, filter);
    if filter == Some(DUE_ASC) then SortBy(p, DueKey, false)
    else if filter == Some(DUE_DESC) then SortBy(p, DueKey, true)
    else p
  }

  // Selection predicates for the three dropping filters.
  predicate HasPending(c: Collaboration) { c.pendingAmount != 0.0 }
  predicate IsSettled(c: Collaboration) { c.pendingAmount == 0.0 }
  function DueSoonOn(today: int): Collaboration -> bool {
    (c: Collaboration) => StatusOf(c.dueDate, today) == DueSoon
  }

  /** `a` can be obtained from `b` by deleting elements. */
  ghost predicate SubsequenceOf<T>(a: seq<T>, b: seq<T>)
    decreases |b|
  {
    || a == []
    || (&& b != []
        && ((a != [] && a[|a| - 1] == b[|b| - 1] && SubsequenceOf(a[..|a| - 1], b[..|b| - 1]))
            || SubsequenceOf(a, b[..|b| - 1])))
  }

  /** Each filter value against the row fields it tests. */
  lemma KeptByFilter(filter: Option<string>, r: Row)
    ensures filter == Some(PENDING) ==> (Kept(filter, r) <==> r.collab.pendingAmount != 0.0)
    ensures filter == Some(COMPLETED) ==> (Kept(filter, r) <==> r.collab.pendingAmount == 0.0)
    ensures filter == Some(DUE_SOON) ==> (Kept(filter, r) <==> r.status == DueSoon)
    ensures !Selective(filter) ==> Kept(filter, r)
  {
  }

  lemma {:induction false} WhereSnoc<T>(s: seq<T>, x: T, keep: T -> bool)
    ensures Where(s + [x], keep) == Where(s, keep) + (if keep(x) then [x] else [])
  {
    if s != [] {
      WhereSnoc(s[1..], x, keep);
      assert (s + [x])[1..] == s[1..] + [x];
    }
  }

  lemma TagAllSnoc(s: seq<Collaboration>, c: Collaboration, today: int)
    ensures TagAll(s + [c], today) == TagAll(s, today) + [Tag(c, today)]
  {
  }

  /** The listing loop is a selection: the tagged rows of exactly the collaborations `keep` accepts, in table order. */
  lemma {:induction false} ProcessedSelects(data: seq<Collaboration>, today: int, filter: Option<string>,
                                            keep: Collaboration -> bool)
    requires forall c :: keep(c) == Kept(filter, Tag(c, today))
    ensures Processed(data, today, filter) == TagAll(Where(data, keep), today)
  {
    if data != [] {
      var n := |data| - 1;
      ProcessedSelects(data[..n], today, filter, keep);
      WhereSnoc(data[..n], data[n], keep);
      assert data[..n] + [data[n]] == data;
      var w := Where(data[..n], keep);
      if keep(data[n]) {
        TagAllSnoc(w, data[n], today);
      } else {
        assert Where(data, keep) == w;
      }
    }
  }

  /** Filter `pending` lists exactly the collaborations with money still pending, in table order. */
  lemma PendingSelects(data: seq<Collaboration>, today: int)
    ensures Processed(data, today, Some(PENDING)) == TagAll(Where(data, HasPending), today)
  {
    ProcessedSelects(data, today, Some(PENDING), HasPending);
  }

  /** Filter `completed` lists exactly the collaborations with nothing pending, in table order. */
  lemma CompletedSelects(data: seq<Collaboration>, today: int)
    ensures Processed(data, today, Some(COMPLETED)) == TagAll(Where(data, IsSettled), today)
  {
    ProcessedSelects(data, today, Some(COMPLETED), IsSettled);
  }

  /** Filter `due_soon` lists exactly the collaborations whose fresh status is Due Soon. */
  lemma DueSoonSelects(data: seq<Collaboration>, today: int)
    ensures Processed(data, today, Some(DUE_SOON)) == TagAll(Where(data, DueSoonOn(today)), today)
  {
    ProcessedSelects(data, today, Some(DUE_SOON), DueSoonOn(today));
  }

  /** Any other filter value, or none, drops nothing: every row, tagged, in table order. */
  lemma {:induction false} OtherFilterKeepsAll(data: seq<Collaboration>, today: int, filter: Option<string>)
    requires !Selective(filter)
    ensures Processed(data, today, filter) == TagAll(data, today)
  {
    if data != [] {
      var n := |data| - 1;
      OtherFilterKeepsAll(data[..n], today, filter);
      assert TagAll(data, today) == TagAll(data[..n], today) + [Tag(data[n], today)];
    }
  }

  lemma CollabsOfTagAll(data: seq<Collaboration>, today: int)
    ensures Collabs(TagAll(data, today)) == data
  {
  }

  /** The `pending` and `completed` listings together partition the table. */
  lemma PendingCompletedPartition(data: seq<Collaboration>, today: int)
    ensures multiset(Collabs(Processed(data, today, Some(PENDING))))
          + multiset(Collabs(Processed(data, today, Some(COMPLETED)))) == multiset(data)
    ensures |Processed(data, today, Some(PENDING))| + |Processed(data, today, Some(COMPLETED))| == |data|
  {
    PendingSelects(data, today);
    CompletedSelects(data, today);
    CollabsOfTagAll(Where(data, HasPending), today);
    CollabsOfTagAll(Where(data, IsSettled), today);
    WhereSplit(data, HasPending, IsSettled);
    assert |multiset(data)| == |data|;
  }

  /** Whatever the filter, the listed collaborations are a subsequence of the table,
      each with the status computed from its own due date. */
  lemma {:induction false} ProcessedIsSubsequence(data: seq<Collaboration>, today: int, filter: Option<string>)
    ensures SubsequenceOf(Collabs(Processed(data, today, filter)), data)
    ensures forall r | r in Processed(data, today, filter) :: r == Tag(r.collab, today) && Kept(filter, r)
  {
    if data != [] {
      var n := |data| - 1;
      var p := Processed(data[..n], today, filter);
      ProcessedIsSubsequence(data[..n], today, filter);
      var r := Tag(data[n], today);
      if Kept(filter, r) {
        assert Processed(data, today, filter) == p + [r];
        var q := Collabs(p + [r]);
        assert q[..|q| - 1] == Collabs(p);
        assert q != [] && q[|q| - 1] == data[|data| - 1];
      } else {
        assert Processed(data, today, filter) == p;
      }
    }
  }

  /** The listing handler: the status loop with its `continue`s, then the optional sort. */
  method CollaborationsPage(data: seq<Collaboration>, today: int, filter: Option<string>)
    returns (processed: seq<Row>)
    ensures processed == Listing(data, today, filter)
    ensures filter == Some(DUE_ASC) ==>
      && Sorted(processed, DueKey, false)
      && multiset(processed) == multiset(TagAll(data, today))
      && forall d :: WithKey(processed, DueKey, d) == WithKey(TagAll(data, today), DueKey, d)
    ensures filter == Some(DUE_DESC) ==>
      && Sorted(processed, DueKey, true)
      && multiset(processed) == multiset(TagAll(data, today))
      && forall d :: WithKey(processed, DueKey, d) == WithKey(TagAll(data, today), DueKey, d)
  {
    processed := [];
    for i := 0 to |data|
      invariant processed == Processed(data[..i], today, filter)
    {
      var c := data[i];
      assert data[..i + 1][..i] == data[..i];
      var status := Active;
      if c.dueDate < today {
        status := Expired;
      } else if c.dueDate <= today + DUE_SOON_DAYS {
        status := DueSoon;
      }
      var row := Row(c, status);
      if filter == Some(PENDING) && row.collab.pendingAmount == 0.0 {
        continue;
      }
      if filter == Some(COMPLETED) && row.collab.pendingAmount != 0.0 {
        continue;
      }
      if filter == Some(DUE_SOON) && status != DueSoon {
        continue;
      }
      processed := processed + [row];
    }
    assert data[..|data|] == data;
    if filter == Some(DUE_ASC) || filter == Some(DUE_DESC) {
      var descending := filter == Some(DUE_DESC);
      OtherFilterKeepsAll(data, today, filter);
      SortPermutes(processed, DueKey, descending);
      SortSorted(processed, DueKey, descending);
      forall d ensures WithKey(SortBy(processed, DueKey, descending), DueKey, d) == WithKey(processed, DueKey, d) {
        SortStable(processed, DueKey, descending, d);
      }
      processed := SortBy(processed, DueKey, descending);
    }
  }
}
