/**
 * The four tables and the handlers that write them, one SQL statement each.
 * Each table is a sequence of rows in primary-key order; a counter per table
 * plays AUTO_INCREMENT. The foreign keys of the two interaction tables are
 * declared ON DELETE CASCADE, and an insert naming a missing parent is refused.
 */
module Store {
  import opened Wrappers
  import opened Records
  import opened Tables
  import opened Ordering
  import Revenue

  // Row conditions of the handlers' WHERE clauses.

  function NotPropertyId(pid: int): Property -> bool {
    (p: Property) => p.id != pid
  }

  function OfProperty(pid: int): PropertyInteraction -> bool {
    (x: PropertyInteraction) => x.propertyId == pid
  }

  function NotOfProperty(pid: int): PropertyInteraction -> bool {
    (x: PropertyInteraction) => x.propertyId != pid
  }

  function CollaborationWithId(cid: int): Collaboration -> bool {
    (c: Collaboration) => c.id == cid
  }

  function NotCollaborationId(cid: int): Collaboration -> bool {
    (c: Collaboration) => c.id != cid
  }

  function OfCollaboration(cid: int): CollabInteraction -> bool {
    (x: CollabInteraction) => x.collaborationId == cid
  }

  function NotOfCollaboration(cid: int): CollabInteraction -> bool {
    (x: CollabInteraction) => x.collaborationId != cid
  }

  function NotCollabInteractionId(iid: int): CollabInteraction -> bool {
    (x: CollabInteraction) => x.id != iid
  }

  /** The SET list of the property edit form: every column but the id. */
  function EditedProperty(title: string, kind: string, location: string, size: string, price: real,
                          owner: string, contact: string, status: string, soldPrice: real): Property -> Property
  {
    (p: Property) => p.(title := title, kind := kind, location := location, size := size, price := price,
                        owner := owner, contact := contact, status := status, soldPrice := soldPrice)
  }

  /** The SET list of the collaboration edit form; the pending amount is recomputed from the two amounts. */
  function EditedCollaboration(supplier: string, category: string, service: string, contactPerson: string,
                               contactNumber: string, email: string, startDate: int, dueDate: int,
                               total: real, paid: real): Collaboration -> Collaboration
  {
    (c: Collaboration) => c.(supplier := supplier, category := category, service := service,
                             contactPerson := contactPerson, contactNumber := contactNumber, email := email,
                             startDate := startDate, dueDate := dueDate,
                             totalAmount := total, paidAmount := paid, pendingAmount := total - paid)
  }

  /** Deleting collaborations keeps the pending rule of those that remain. */
  lemma WherePendingConsistent(rows: seq<Collaboration>, keep: Collaboration -> bool)
    requires forall i | 0 <= i < |rows| :: PendingConsistent(rows[i])
    ensures forall i | 0 <= i < |Where(rows, keep)| :: PendingConsistent(Where(rows, keep)[i])
  {
    var w := Where(rows, keep);
    forall i | 0 <= i < |w| ensures PendingConsistent(w[i]) {
      var j :| 0 <= j < |rows| && rows[j] == w[i];
    }
  }

  /** A detail page: the row and its interactions, newest first. */
  datatype PropertyView = PropertyView(prop: Property, interactions: seq<PropertyInteraction>)
  datatype CollaborationView = CollaborationView(collab: Collaboration, interactions: seq<CollabInteraction>)

  class Store {
    var properties: seq<Property>
    var interactions: seq<PropertyInteraction>
    var collaborations: seq<Collaboration>
    var collabInteractions: seq<CollabInteraction>
    var nextPropertyId: nat
    var nextInteractionId: nat
    var nextCollaborationId: nat
    var nextCollabInteractionId: nat

    function PropertyIds(): set<int>
      reads this
    {
      KeySet(properties, PropertyKey)
    }

    function CollaborationIds(): set<int>
      reads this
    {
      KeySet(collaborations, CollaborationKey)
    }

    /** Unique ascending keys below their counters, and no interaction without its parent. */
    ghost predicate Valid()
      reads this
    {
      && KeysAscending(properties, PropertyKey) && KeysBelow(properties, PropertyKey, nextPropertyId)
      && KeysAscending(interactions, InteractionKey) && KeysBelow(interactions, InteractionKey, nextInteractionId)
      && KeysAscending(collaborations, CollaborationKey)
      && KeysBelow(collaborations, CollaborationKey, nextCollaborationId)
      && KeysAscending(collabInteractions, CollabInteractionKey)
      && KeysBelow(collabInteractions, CollabInteractionKey, nextCollabInteractionId)
      && RefsIn(interactions, InteractionOwner, PropertyIds())
      && RefsIn(collabInteractions, CollabInteractionOwner, CollaborationIds())
    }

    /** Every stored collaboration has pending = total - paid. */
    ghost predicate AllPendingConsistent()
      reads this
    {
      forall i | 0 <= i < |collaborations| :: PendingConsistent(collaborations[i])
    }

    /** Freshly created tables: empty, AUTO_INCREMENT at 1. */
    constructor ()
      ensures Valid() && AllPendingConsistent()
      ensures properties == [] && interactions == [] && collaborations == [] && collabInteractions == []
    {
      properties, interactions, collaborations, collabInteractions := [], [], [], [];
      nextPropertyId, nextInteractionId, nextCollaborationId, nextCollabInteractionId := 1, 1, 1, 1;
    }

    /** add_property: a new row that is Available with sold price 0, whatever the form says. */
    method AddProperty(title: string, kind: string, location: string, size: string, price: real,
                       owner: string, contact: string) returns (id: nat)
      requires Valid()
      modifies this
      ensures Valid()
      ensures id == old(nextPropertyId) && nextPropertyId == id + 1
      ensures properties == old(properties)
                            + [Property(id, title, kind, location, size, price, owner, contact, AVAILABLE, 0.0)]
      ensures interactions == old(interactions) && collaborations == old(collaborations)
      ensures collabInteractions == old(collabInteractions)
      ensures nextInteractionId == old(nextInteractionId) && nextCollaborationId == old(nextCollaborationId)
      ensures nextCollabInteractionId == old(nextCollabInteractionId)
    {
      id := nextPropertyId;
      var row := Property(id, title, kind, location, size, price, owner, contact, AVAILABLE, 0.0);
      AppendKeepsKeys(properties, row, PropertyKey, nextPropertyId);
      AppendKeySet(properties, row, PropertyKey);
      RefsGrow(interactions, InteractionOwner, PropertyIds(), PropertyIds() + {id});
      properties := properties + [row];
      nextPropertyId := nextPropertyId + 1;
    }

    /** edit_property: replaces every column of the row with that id; no row, no change. */
    method EditProperty(pid: int, title: string, kind: string, location: string, size: string, price: real,
                        owner: string, contact: string, status: string, soldPrice: real)
      requires Valid()
      modifies this
      ensures Valid()
      ensures properties == UpdateWhere(old(properties), PropertyWithId(pid),
                                        EditedProperty(title, kind, location, size, price, owner, contact, status, soldPrice))
      ensures interactions == old(interactions) && collaborations == old(collaborations)
      ensures collabInteractions == old(collabInteractions)
      ensures nextPropertyId == old(nextPropertyId) && nextInteractionId == old(nextInteractionId)
      ensures nextCollaborationId == old(nextCollaborationId) && nextCollabInteractionId == old(nextCollabInteractionId)
    {
      var f := EditedProperty(title, kind, location, size, price, owner, contact, status, soldPrice);
      UpdateKeepsKeys(properties, PropertyWithId(pid), f, PropertyKey, nextPropertyId);
      UpdateKeySet(properties, PropertyWithId(pid), f, PropertyKey);
      properties := UpdateWhere(properties, PropertyWithId(pid), f);
    }

    /** mark_sold: the row with that id becomes Sold at `price`; every other row and table is untouched.
        Property revenue then counts `price` in place of what the row contributed before. */
    method MarkSold(pid: int, price: real)
      requires Valid()
      modifies this
      ensures Valid()
      ensures |properties| == |old(properties)|
      ensures forall i | 0 <= i < |properties| ::
        properties[i] == if old(properties)[i].id == pid
                         then old(properties)[i].(status := SOLD, soldPrice := price)
                         else old(properties)[i]
      ensures forall k | 0 <= k < |old(properties)| && old(properties)[k].id == pid ::
        Revenue.SoldTotal(properties)
          == Revenue.SoldTotal(old(properties)) - Revenue.Contribution(old(properties)[k]) + price
      ensures pid !in old(PropertyIds()) ==> properties == old(properties)
      ensures interactions == old(interactions) && collaborations == old(collaborations)
      ensures collabInteractions == old(collabInteractions)
      ensures nextPropertyId == old(nextPropertyId) && nextInteractionId == old(nextInteractionId)
      ensures nextCollaborationId == old(nextCollaborationId) && nextCollabInteractionId == old(nextCollabInteractionId)
    {
      var f := MarkedSold(price);
      UpdateKeepsKeys(properties, PropertyWithId(pid), f, PropertyKey, nextPropertyId);
      var before := properties;
      forall k | 0 <= k < |before| && before[k].id == pid
        ensures Revenue.SoldTotal(UpdateWhere(before, PropertyWithId(pid), f))
             == Revenue.SoldTotal(before) - Revenue.Contribution(before[k]) + price
      {
        Revenue.MarkSoldRevenue(before, k, price);
      }
      if pid !in PropertyIds() {
        forall i | 0 <= i < |before| ensures before[i].id != pid {
          assert before[i] in before;
        }
        UpdateNothingSelected(before, PropertyWithId(pid), f);
      }
      UpdateKeySet(properties, PropertyWithId(pid), f, PropertyKey);
      properties := UpdateWhere(properties, PropertyWithId(pid), f);
    }

    /** delete_property: removes the row and, by the cascade, its interactions. */
    method DeleteProperty(pid: int)
      requires Valid()
      modifies this
      ensures Valid()
      ensures properties == Where(old(properties), NotPropertyId(pid))
      ensures interactions == Where(old(interactions), NotOfProperty(pid))
      ensures pid !in PropertyIds()
      ensures forall i | 0 <= i < |interactions| :: interactions[i].propertyId != pid
      ensures collaborations == old(collaborations) && collabInteractions == old(collabInteractions)
      ensures nextPropertyId == old(nextPropertyId) && nextInteractionId == old(nextInteractionId)
      ensures nextCollaborationId == old(nextCollaborationId) && nextCollabInteractionId == old(nextCollabInteractionId)
    {
      CascadeDelete(properties, PropertyKey, NotPropertyId(pid), nextPropertyId,
                    interactions, InteractionKey, InteractionOwner, NotOfProperty(pid), nextInteractionId, pid);
      properties := Where(properties, NotPropertyId(pid));
      interactions := Where(interactions, NotOfProperty(pid));
    }

    /** add_interaction: logs an interaction stamped with today's date; refused when the property does not exist. */
    method AddInteraction(pid: nat, customerName: string, contact: string, notes: string, today: int)
      returns (ok: bool)
      requires Valid()
      modifies this
      ensures Valid()
      ensures ok <==> pid in old(PropertyIds())
      ensures ok ==> (&& interactions == old(interactions)
                          + [PropertyInteraction(old(nextInteractionId), pid, customerName, contact, notes, today)]
                      && nextInteractionId == old(nextInteractionId) + 1)
      ensures !ok ==> interactions == old(interactions) && nextInteractionId == old(nextInteractionId)
      ensures properties == old(properties) && collaborations == old(collaborations)
      ensures collabInteractions == old(collabInteractions)
      ensures nextPropertyId == old(nextPropertyId)
      ensures nextCollaborationId == old(nextCollaborationId) && nextCollabInteractionId == old(nextCollabInteractionId)
    {
      ok := pid in PropertyIds();
      if ok {
        var row := PropertyInteraction(nextInteractionId, pid, customerName, contact, notes, today);
        AppendKeepsKeys(interactions, row, InteractionKey, nextInteractionId);
        interactions := interactions + [row];
        nextInteractionId := nextInteractionId + 1;
      }
    }

    /** property_detail: the row with that id (None for the 404 page) and its interactions, latest date first. */
    function PropertyDetail(pid: int): (r: Option<PropertyView>)
      reads this
      requires Valid()
      ensures r.None? <==> pid !in PropertyIds()
      ensures r.Some? ==> r.value.prop in properties && r.value.prop.id == pid
      ensures r.Some? ==> multiset(r.value.interactions) == multiset(Where(interactions, OfProperty(pid)))
      ensures r.Some? ==> Sorted(r.value.interactions, InteractionDate, true)
    {
      var found := Where(properties, PropertyWithId(pid));
      if found == [] then
        assert pid !in PropertyIds() by {
          forall i | 0 <= i < |properties| ensures properties[i].id != pid {
          }
        }
        None
      else
        var mine := Where(interactions, OfProperty(pid));
        SortPermutes(mine, InteractionDate, true);
        SortSorted(mine, InteractionDate, true);
        Some(PropertyView(found[0], SortBy(mine, InteractionDate, true)))
    }

    /** add_collaboration: a new row whose pending amount is total - paid. */
    method AddCollaboration(supplier: string, category: string, service: string, contactPerson: string,
                            contactNumber: string, email: string, startDate: int, dueDate: int,
                            total: real, paid: real) returns (id: nat)
      requires Valid()
      modifies this
      ensures Valid()
      ensures old(AllPendingConsistent()) ==> AllPendingConsistent()
      ensures id == old(nextCollaborationId) && nextCollaborationId == id + 1
      ensures collaborations == old(collaborations)
        + [Collaboration(id, supplier, category, service, contactPerson, contactNumber, email,
                         startDate, dueDate, total, paid, total - paid)]
      ensures PendingConsistent(collaborations[|collaborations| - 1])
      ensures properties == old(properties) && interactions == old(interactions)
      ensures collabInteractions == old(collabInteractions)
      ensures nextPropertyId == old(nextPropertyId) && nextInteractionId == old(nextInteractionId)
      ensures nextCollabInteractionId == old(nextCollabInteractionId)
    {
      id := nextCollaborationId;
      var pending := total - paid;
      var row := Collaboration(id, supplier, category, service, contactPerson, contactNumber, email,
                               startDate, dueDate, total, paid, pending);
      AppendKeepsKeys(collaborations, row, CollaborationKey, nextCollaborationId);
      AppendKeySet(collaborations, row, CollaborationKey);
      RefsGrow(collabInteractions, CollabInteractionOwner, CollaborationIds(), CollaborationIds() + {id});
      collaborations := collaborations + [row];
      nextCollaborationId := nextCollaborationId + 1;
    }

    /** edit_collaboration: rewrites the row with that id, pending recomputed; no row, no change. */
    method EditCollaboration(cid: int, supplier: string, category: string, service: string, contactPerson: string,
                             contactNumber: string, email: string, startDate: int, dueDate: int,
                             total: real, paid: real)
      requires Valid()
      modifies this
      ensures Valid()
      ensures old(AllPendingConsistent()) ==> AllPendingConsistent()
      ensures collaborations == UpdateWhere(old(collaborations), CollaborationWithId(cid),
        EditedCollaboration(supplier, category, service, contactPerson, contactNumber, email,
                            startDate, dueDate, total, paid))
      ensures forall i | 0 <= i < |collaborations| && collaborations[i].id == cid ::
        PendingConsistent(collaborations[i]) && collaborations[i].pendingAmount == total - paid
      ensures properties == old(properties) && interactions == old(interactions)
      ensures collabInteractions == old(collabInteractions)
      ensures nextPropertyId == old(nextPropertyId) && nextInteractionId == old(nextInteractionId)
      ensures nextCollaborationId == old(nextCollaborationId) && nextCollabInteractionId == old(nextCollabInteractionId)
    {
      var f := EditedCollaboration(supplier, category, service, contactPerson, contactNumber, email,
                                   startDate, dueDate, total, paid);
      UpdateKeepsKeys(collaborations, CollaborationWithId(cid), f, CollaborationKey, nextCollaborationId);
      UpdateKeySet(collaborations, CollaborationWithId(cid), f, CollaborationKey);
      collaborations := UpdateWhere(collaborations, CollaborationWithId(cid), f);
    }

    /** delete_collaboration: removes the row and, by the cascade, its interactions. */
    method DeleteCollaboration(cid: int)
      requires Valid()
      modifies this
      ensures Valid()
      ensures old(AllPendingConsistent()) ==> AllPendingConsistent()
      ensures collaborations == Where(old(collaborations), NotCollaborationId(cid))
      ensures collabInteractions == Where(old(collabInteractions), NotOfCollaboration(cid))
      ensures cid !in CollaborationIds()
      ensures forall i | 0 <= i < |collabInteractions| :: collabInteractions[i].collaborationId != cid
      ensures properties == old(properties) && interactions == old(interactions)
      ensures nextPropertyId == old(nextPropertyId) && nextInteractionId == old(nextInteractionId)
      ensures nextCollaborationId == old(nextCollaborationId) && nextCollabInteractionId == old(nextCollabInteractionId)
    {
      if AllPendingConsistent() {
        WherePendingConsistent(collaborations, NotCollaborationId(cid));
      }
      CascadeDelete(collaborations, CollaborationKey, NotCollaborationId(cid), nextCollaborationId,
                    collabInteractions, CollabInteractionKey, CollabInteractionOwner, NotOfCollaboration(cid),
                    nextCollabInteractionId, cid);
      collaborations := Where(collaborations, NotCollaborationId(cid));
      collabInteractions := Where(collabInteractions, NotOfCollaboration(cid));
    }

    /** add_collab_interaction: logs a note with the date given on the form; refused when the collaboration does not exist. */
    method AddCollabInteraction(cid: nat, note: string, date: int) returns (ok: bool)
      requires Valid()
      modifies this
      ensures Valid()
      ensures ok <==> cid in old(CollaborationIds())
      ensures ok ==> (&& collabInteractions == old(collabInteractions)
                          + [CollabInteraction(old(nextCollabInteractionId), cid, note, date)]
                      && nextCollabInteractionId == old(nextCollabInteractionId) + 1)
      ensures !ok ==> (collabInteractions == old(collabInteractions)
                       && nextCollabInteractionId == old(nextCollabInteractionId))
      ensures properties == old(properties) && interactions == old(interactions)
      ensures collaborations == old(collaborations)
      ensures nextPropertyId == old(nextPropertyId) && nextInteractionId == old(nextInteractionId)
      ensures nextCollaborationId == old(nextCollaborationId)
    {
      ok := cid in CollaborationIds();
      if ok {
        var row := CollabInteraction(nextCollabInteractionId, cid, note, date);
        AppendKeepsKeys(collabInteractions, row, CollabInteractionKey, nextCollabInteractionId);
        collabInteractions := collabInteractions + [row];
        nextCollabInteractionId := nextCollabInteractionId + 1;
      }
    }

    /** delete_interaction: removes the interaction with that id. The collaboration id of the URL
        is not part of the statement, so an interaction of another collaboration is removed too. */
    method DeleteCollabInteraction(cid: int, iid: int)
      requires Valid()
      modifies this
      ensures Valid()
      ensures collabInteractions == Where(old(collabInteractions), NotCollabInteractionId(iid))
      ensures forall i | 0 <= i < |collabInteractions| :: collabInteractions[i].id != iid
      ensures properties == old(properties) && interactions == old(interactions)
      ensures collaborations == old(collaborations)
      ensures nextPropertyId == old(nextPropertyId) && nextInteractionId == old(nextInteractionId)
      ensures nextCollaborationId == old(nextCollaborationId) && nextCollabInteractionId == old(nextCollabInteractionId)
    {
      WhereAscending(collabInteractions, NotCollabInteractionId(iid), CollabInteractionKey);
      WhereBelow(collabInteractions, NotCollabInteractionId(iid), CollabInteractionKey, nextCollabInteractionId);
      WhereRefs(collabInteractions, CollabInteractionOwner, NotCollabInteractionId(iid), CollaborationIds());
      collabInteractions := Where(collabInteractions, NotCollabInteractionId(iid));
    }

    /** view_collaboration: the row with that id (None for the 404 page) and its interactions, latest date first. */
    function CollaborationDetail(cid: int): (r: Option<CollaborationView>)
      reads this
      requires Valid()
      ensures r.None? <==> cid !in CollaborationIds()
      ensures r.Some? ==> r.value.collab in collaborations && r.value.collab.id == cid
      ensures r.Some? ==> multiset(r.value.interactions) == multiset(Where(collabInteractions, OfCollaboration(cid)))
      ensures r.Some? ==> Sorted(r.value.interactions, CollabInteractionDate, true)
    {
      var found := Where(collaborations, CollaborationWithId(cid));
      if found == [] then
        assert cid !in CollaborationIds() by {
          forall i | 0 <= i < |collaborations| ensures collaborations[i].id != cid {
          }
        }
        None
      else
        var mine := Where(collabInteractions, OfCollaboration(cid));
        SortPermutes(mine, CollabInteractionDate, true);
        SortSorted(mine, CollabInteractionDate, true);
        Some(CollaborationView(found[0], SortBy(mine, CollabInteractionDate, true)))
    }
  }
}
