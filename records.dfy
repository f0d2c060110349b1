/**
 * The rows of the four tables of the brokerage database (`properties`,
 * `interactions`, `collaborations`, `collaboration_interactions`).
 * Money columns (DECIMAL(15,2)) are exact reals; DATE columns are day numbers.
 */
module Records {

  /** A row of `properties`. `kind` is the `type` column. `status` is free
      text: the application writes "Available" and "Sold", the edit form any string. */
  datatype Property = Property(
    id: nat,
    title: string,
    kind: string,
    location: string,
    size: string,
    price: real,
    owner: string,
    contact: string,
    status: string,
    soldPrice: real)

  /** A row of `interactions`, owned by the property `propertyId`. */
  datatype PropertyInteraction = PropertyInteraction(
    id: nat,
    propertyId: nat,
    customerName: string,
    contact: string,
    notes: string,
    date: int)

  /** A row of `collaborations`. */
  datatype Collaboration = Collaboration(
    id: nat,
    supplier: string,
    category: string,
    service: string,
    contactPerson: string,
    contactNumber: string,
    email: string,
    startDate: int,
    dueDate: int,
    totalAmount: real,
    paidAmount: real,
    pendingAmount: real)

  /** A row of `collaboration_interactions`, owned by `collaborationId`. */
  datatype CollabInteraction = CollabInteraction(
    id: nat,
    collaborationId: nat,
    note: string,
    date: int)

  const SOLD: string := "Sold"
  const AVAILABLE: string := "Available"

  // Primary keys and ordering keys, as function values for the generic table operations.
  function PropertyKey(p: Property): int { p.id }
  function InteractionKey(x: PropertyInteraction): int { x.id }
  function CollaborationKey(c: Collaboration): int { c.id }
  function CollabInteractionKey(x: CollabInteraction): int { x.id }
  function InteractionOwner(x: PropertyInteraction): int { x.propertyId }
  function CollabInteractionOwner(x: CollabInteraction): int { x.collaborationId }
  function InteractionDate(x: PropertyInteraction): int { x.date }
  function CollabInteractionDate(x: CollabInteraction): int { x.date }

  /** The rule every collaboration write keeps: pending = total - paid. */
  predicate PendingConsistent(c: Collaboration) {
    c.pendingAmount == c.totalAmount - c.paidAmount
  }

  /** Whether `SELECT ... WHERE status='Sold'` selects the row. */
  predicate IsSold(p: Property) {
    p.status == SOLD
  }

  /** The `profit` figure the collaboration edit form shows (paid - pending).
      On a row written by the application it is twice the paid amount less the total. */
  function EditFormProfit(c: Collaboration): (r: real)
    ensures PendingConsistent(c) ==> r == 2.0 * c.paidAmount - c.totalAmount
    ensures PendingConsistent(c) && c.paidAmount <= c.totalAmount ==> r <= c.paidAmount
  {
    c.paidAmount - c.pendingAmount
  }

  /** The `WHERE id=%s` condition of the property statements. */
  function PropertyWithId(pid: int): Property -> bool {
    (p: Property) => p.id == pid
  }

  /** The `SET status='Sold', sold_price=%s` of the mark-sold statement. */
  function MarkedSold(price: real): Property -> Property {
    (p: Property) => p.(status := SOLD, soldPrice := price)
  }
}
