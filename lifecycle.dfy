/**
 * The lifecycle status the collaborations page derives for each row from its
 * due date and today's date (day numbers). It is computed on every listing and
 * never stored.
 */
module Lifecycle {

  /** The three labels: "Active", "Due Soon", "Expired". */
  datatype DueStatus = Active | DueSoon | Expired

  /** The window, in days after today, within which a collaboration is due soon. */
  const DUE_SOON_DAYS: int := 30

  /** Expired before today; due soon from today to today + 30, both inclusive; otherwise active. */
  function StatusOf(due: int, today: int): (s: DueStatus)
    ensures s == Expired <==> due < today
    ensures s == DueSoon <==> today <= due <= today + DUE_SOON_DAYS
    ensures s == Active <==> today + DUE_SOON_DAYS < due
  {
    if due < today then Expired
    else if due <= today + DUE_SOON_DAYS then DueSoon
    else Active
  }

  /** A rank that orders the statuses along the time axis. */
  function Rank(s: DueStatus): nat {
    match s
    case Expired => 0
    case DueSoon => 1
    case Active => 2
  }

  /** A later due date never gives an earlier status. */
  lemma StatusMonotone(due1: int, due2: int, today: int)
    requires due1 <= due2
    ensures Rank(StatusOf(due1, today)) <= Rank(StatusOf(due2, today))
  {
  }

  /** As the days pass a collaboration only moves from Active to Due Soon to Expired. */
  lemma StatusAdvancesWithTime(due: int, today1: int, today2: int)
    requires today1 <= today2
    ensures Rank(StatusOf(due, today2)) <= Rank(StatusOf(due, today1))
  {
  }

  /** The status depends only on the number of days between today and the due date. */
  lemma StatusShiftInvariant(due: int, today: int, d: int)
    ensures StatusOf(due + d, today + d) == StatusOf(due, today)
  {
  }

  /** The boundary days: yesterday is expired, today and today + 30 are due soon, today + 31 is active. */
  lemma StatusBoundaries(today: int)
    ensures StatusOf(today - 1, today) == Expired
    ensures StatusOf(today, today) == DueSoon
    ensures StatusOf(today + 30, today) == DueSoon
    ensures StatusOf(today + 31, today) == Active
  {
  }
}
