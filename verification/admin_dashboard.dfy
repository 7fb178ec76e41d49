/** The admin dashboard (`/admin`): creating a shipment, recording a status
    change as an update of the shipment plus a new tracking event, and the
    expand/collapse state of its lists. The database tables it writes are a
    `ShipmentTables` object; the outcome of each write is a parameter. */
module AdminDashboard {
  import opened Common
  import opened Records
  import ShipmentList

  const PendingStatus := "pending"

  /** The tables the dashboard writes to. */
  class ShipmentTables {
    var shipments: seq<Shipment>
    var events: seq<TrackingEvent>

    /** Shipment ids are a primary key. */
    ghost predicate Valid()
      reads this
    {
      DistinctShipmentIds(shipments)
    }

    constructor (shipments: seq<Shipment>, events: seq<TrackingEvent>)
      requires DistinctShipmentIds(shipments)
      ensures Valid()
      ensures this.shipments == shipments && this.events == events
    {
      this.shipments := shipments;
      this.events := events;
    }
  }

  predicate DistinctShipmentIds(shipments: seq<Shipment>)
  {
    forall i, j :: 0 <= i < j < |shipments| ==> shipments[i].id != shipments[j].id
  }

  predicate HasShipmentId(shipments: seq<Shipment>, id: string)
  {
    exists i :: 0 <= i < |shipments| && shipments[i].id == id
  }

  // ---------------------------------------------------------------------------
  // Adding a shipment
  // ---------------------------------------------------------------------------

  /** The "add shipment" form; every field is the text typed in. */
  datatype NewShipmentForm = NewShipmentForm(
    trackingNumber: string,
    userId: string,
    description: string,
    origin: string,
    destination: string,
    weight: string,
    dimensions: string,
    estimatedDelivery: string)

  const EmptyShipmentForm := NewShipmentForm("", "", "", "", "", "", "", "")

  /** The row inserted by `handleAddShipment`: the form as typed, except that
      an empty weight or delivery date becomes null, the current location is
      the origin and the status is `pending`. Description and dimensions are
      stored even when empty. */
  function NewShipmentRow(form: NewShipmentForm, id: string, now: int): (s: Shipment)
    ensures s.id == id && s.createdAt == now && s.updatedAt == now
    ensures s.trackingNumber == form.trackingNumber && s.userId == form.userId
    ensures s.origin == form.origin && s.destination == form.destination
    ensures s.status == PendingStatus && s.currentLocation == form.origin
    ensures s.weight.None? <==> form.weight == ""
    ensures s.weight.Some? ==> s.weight.value == form.weight
    ensures s.estimatedDelivery.None? <==> form.estimatedDelivery == ""
    ensures s.estimatedDelivery.Some? ==> s.estimatedDelivery.value == form.estimatedDelivery
    ensures s.description == Some(form.description) && s.dimensions == Some(form.dimensions)
  {
    Shipment(id, form.trackingNumber, form.userId, PendingStatus, form.origin, form.origin, form.destination,
      Some(form.description),
      if form.weight == "" then None else Some(form.weight),
      Some(form.dimensions),
      if form.estimatedDelivery == "" then None else Some(form.estimatedDelivery),
      now, now)
  }

  /** A new shipment is counted as pending, and its tracking number finds it. */
  lemma NewShipmentIsPending(shipments: seq<Shipment>, form: NewShipmentForm, id: string, now: int)
    ensures var st := ShipmentList.StatusStats(shipments + [NewShipmentRow(form, id, now)]);
      st.pending == ShipmentList.StatusStats(shipments).pending + 1
      && st.total == |shipments| + 1
    ensures NewShipmentRow(form, id, now)
      in ShipmentList.FilteredShipments(shipments + [NewShipmentRow(form, id, now)], form.trackingNumber, PendingStatus)
  {
    var row := NewShipmentRow(form, id, now);
    CountStatusAppend(shipments, row, PendingStatus);
    assert Common.Contains(Lower(row.trackingNumber), Lower(form.trackingNumber)) by {
      assert Lower(form.trackingNumber) <= Lower(row.trackingNumber)[0..];
    }
    ShipmentList.FilteredShipmentsMembership(shipments + [row], form.trackingNumber, PendingStatus, row);
  }

  lemma {:induction false} CountStatusAppend(shipments: seq<Shipment>, row: Shipment, status: string)
    ensures ShipmentList.CountStatus(shipments + [row], status)
      == ShipmentList.CountStatus(shipments, status) + (if row.status == status then 1 else 0)
  {
    if shipments == [] {
      assert shipments + [row] == [row];
    } else {
      assert (shipments + [row])[1..] == shipments[1..] + [row];
      CountStatusAppend(shipments[1..], row, status);
    }
  }

  // ---------------------------------------------------------------------------
  // Updating a status
  // ---------------------------------------------------------------------------

  /** The "update status" form. */
  datatype StatusForm = StatusForm(status: string, location: string, description: string)

  const EmptyStatusForm := StatusForm("", "", "")

  /** `.update({ status, current_location, updated_at }).eq('id', id)`: every
      row with that id takes the new status, location and time; no other row
      changes. Any status is accepted: there is no transition check. */
  function UpdatedRows(shipments: seq<Shipment>, id: string, form: StatusForm, now: int): (r: seq<Shipment>)
    ensures |r| == |shipments|
    ensures forall i :: 0 <= i < |r| ==>
      r[i] == if shipments[i].id == id
              then shipments[i].(status := form.status, currentLocation := form.location, updatedAt := now)
              else shipments[i]
  {
    seq(|shipments|, i requires 0 <= i < |shipments| =>
      if shipments[i].id == id
      then shipments[i].(status := form.status, currentLocation := form.location, updatedAt := now)
      else shipments[i])
  }

  /** The tracking event recorded for a status change. */
  function NewEvent(shipmentId: string, form: StatusForm, at: int): (e: TrackingEvent)
    ensures e.shipmentId == shipmentId && e.timestamp == at
    ensures e.status == form.status && e.location == form.location && e.description == form.description
  {
    TrackingEvent(shipmentId, form.status, form.location, form.description, at)
  }

  /** The update keeps the ids (so they stay distinct), and afterwards the
      shipment's status and location are those of the event recorded with it. */
  lemma UpdateAgreesWithEvent(shipments: seq<Shipment>, id: string, form: StatusForm, now: int, at: int)
    ensures DistinctShipmentIds(shipments) ==> DistinctShipmentIds(UpdatedRows(shipments, id, form, now))
    ensures var e := NewEvent(id, form, at);
      forall s :: s in UpdatedRows(shipments, id, form, now) && s.id == e.shipmentId ==>
        s.status == e.status && s.currentLocation == e.location && s.updatedAt == now
  {
    var r := UpdatedRows(shipments, id, form, now);
    forall s | s in r && s.id == id
      ensures s.status == form.status && s.currentLocation == form.location && s.updatedAt == now
    {
      var i :| 0 <= i < |r| && r[i] == s;
    }
  }

  /** The body of the status-update email request. */
  datatype StatusEmailRequest = StatusEmailRequest(
    shipmentId: string, oldStatus: string, newStatus: string, location: string, description: string)

  datatype AddOutcome = AddNotAttempted | InsertFailed | Added(createdEmailFor: string)

  datatype UpdateOutcome =
    | UpdateNotAttempted
    | ShipmentWriteFailed
    | EventWriteFailed
    | Updated(email: StatusEmailRequest)

  // ---------------------------------------------------------------------------
  // The page
  // ---------------------------------------------------------------------------

  class AdminPage {
    const tables: ShipmentTables
    var newShipment: NewShipmentForm
    var statusUpdate: StatusForm
    var selectedShipment: Option<Shipment>
    var showAddShipment: bool
    var showUpdateStatus: bool
    var updatingStatus: bool
    var expandedEvents: set<int>
    var expandedShipments: set<string>

    ghost predicate Valid()
      reads this, tables
    {
      tables.Valid()
    }

    constructor (tables: ShipmentTables)
      requires tables.Valid()
      ensures Valid()
      ensures this.tables == tables
      ensures newShipment == EmptyShipmentForm && statusUpdate == EmptyStatusForm
      ensures selectedShipment.None? && !showAddShipment && !showUpdateStatus && !updatingStatus
      ensures expandedEvents == {} && expandedShipments == {}
    {
      this.tables := tables;
      newShipment := EmptyShipmentForm;
      statusUpdate := EmptyStatusForm;
      selectedShipment := None;
      showAddShipment := false;
      showUpdateStatus := false;
      updatingStatus := false;
      expandedEvents := {};
      expandedShipments := {};
    }

    /** `handleAddShipment`. `configured` says whether a database client
        exists, `id` and `now` are what the database assigns, and `insertOk`
        is the outcome of the insert (which also fails on a repeated id). On
        success the form is cleared and hidden and the created-shipment
        email is requested for the new id; on failure nothing changes. */
    method HandleAddShipment(configured: bool, id: string, now: int, insertOk: bool) returns (outcome: AddOutcome)
      requires Valid()
      modifies this, tables
      ensures Valid()
      ensures !configured ==> outcome == AddNotAttempted
      ensures configured && (!insertOk || HasShipmentId(old(tables.shipments), id)) ==> outcome == InsertFailed
      ensures configured && insertOk && !HasShipmentId(old(tables.shipments), id) ==> outcome == Added(id)
      ensures !outcome.Added? ==> unchanged(this) && unchanged(tables)
      ensures outcome.Added? ==>
        && tables.shipments == old(tables.shipments) + [NewShipmentRow(old(newShipment), id, now)]
        && tables.events == old(tables.events)
        && newShipment == EmptyShipmentForm && !showAddShipment
        && statusUpdate == old(statusUpdate) && selectedShipment == old(selectedShipment)
        && showUpdateStatus == old(showUpdateStatus) && updatingStatus == old(updatingStatus)
        && expandedEvents == old(expandedEvents) && expandedShipments == old(expandedShipments)
    {
      if !configured {
        return AddNotAttempted;
      }
      if !insertOk || HasShipmentId(tables.shipments, id) {
        return InsertFailed;
      }
      var row := NewShipmentRow(newShipment, id, now);
      tables.shipments := tables.shipments + [row];
      newShipment := EmptyShipmentForm;
      showAddShipment := false;
      outcome := Added(id);
    }

    /** `handleUpdateStatus`: first the shipment row, then the tracking
        event; each step runs only if the one before it succeeded, and the
        email is requested only after both. `updatedAt` and `eventAt` are the
        two clock readings. A failed event insert leaves the shipment
        updated. The form is cleared and hidden only on full success, and
        `updatingStatus` is false whenever the handler ran. */
    method HandleUpdateStatus(configured: bool, updatedAt: int, eventAt: int, shipmentOk: bool, eventOk: bool)
      returns (outcome: UpdateOutcome)
      requires Valid()
      modifies this, tables
      ensures Valid()
      ensures selectedShipment == old(selectedShipment) && newShipment == old(newShipment)
      ensures showAddShipment == old(showAddShipment)
      ensures expandedEvents == old(expandedEvents) && expandedShipments == old(expandedShipments)
      ensures old(selectedShipment).None? || !configured ==> outcome == UpdateNotAttempted && unchanged(this) && unchanged(tables)
      ensures outcome != UpdateNotAttempted ==> !updatingStatus
      ensures old(selectedShipment).Some? && configured ==>
        var sel := old(selectedShipment).value;
        var form := old(statusUpdate);
        && (!shipmentOk ==> outcome == ShipmentWriteFailed && unchanged(tables))
        && (shipmentOk ==> tables.shipments == UpdatedRows(old(tables.shipments), sel.id, form, updatedAt))
        && (shipmentOk && !eventOk ==> outcome == EventWriteFailed && tables.events == old(tables.events))
        && (shipmentOk && eventOk ==>
              && outcome == Updated(StatusEmailRequest(sel.id, sel.status, form.status, form.location, form.description))
              && tables.events == old(tables.events) + [NewEvent(sel.id, form, eventAt)])
      ensures outcome.Updated? ==> statusUpdate == EmptyStatusForm && !showUpdateStatus
      ensures !outcome.Updated? ==> statusUpdate == old(statusUpdate) && showUpdateStatus == old(showUpdateStatus)
    {
      if selectedShipment.None? || !configured {
        return UpdateNotAttempted;
      }
      updatingStatus := true;
      var sel := selectedShipment.value;
      var oldStatus := sel.status;
      if !shipmentOk {
        outcome := ShipmentWriteFailed;
      } else {
        UpdateAgreesWithEvent(tables.shipments, sel.id, statusUpdate, updatedAt, eventAt);
        tables.shipments := UpdatedRows(tables.shipments, sel.id, statusUpdate, updatedAt);
        if !eventOk {
          outcome := EventWriteFailed;
        } else {
          tables.events := tables.events + [NewEvent(sel.id, statusUpdate, eventAt)];
          outcome := Updated(StatusEmailRequest(sel.id, oldStatus, statusUpdate.status,
            statusUpdate.location, statusUpdate.description));
          statusUpdate := EmptyStatusForm;
          showUpdateStatus := false;
        }
      }
      updatingStatus := false;
    }

    /** `toggleEventExpansion`. */
    method ToggleEventExpansion(eventId: int)
      modifies this
      ensures expandedEvents == ShipmentList.Toggle(old(expandedEvents), eventId)
      ensures expandedShipments == old(expandedShipments) && newShipment == old(newShipment)
      ensures statusUpdate == old(statusUpdate) && selectedShipment == old(selectedShipment)
      ensures showAddShipment == old(showAddShipment) && showUpdateStatus == old(showUpdateStatus)
      ensures updatingStatus == old(updatingStatus)
    {
      expandedEvents := ShipmentList.Toggle(expandedEvents, eventId);
    }

    /** `toggleShipmentExpansion`. */
    method ToggleShipmentExpansion(shipmentId: string)
      modifies this
      ensures expandedShipments == ShipmentList.Toggle(old(expandedShipments), shipmentId)
      ensures expandedEvents == old(expandedEvents) && newShipment == old(newShipment)
      ensures statusUpdate == old(statusUpdate) && selectedShipment == old(selectedShipment)
      ensures showAddShipment == old(showAddShipment) && showUpdateStatus == old(showUpdateStatus)
      ensures updatingStatus == old(updatingStatus)
    {
      expandedShipments := ShipmentList.Toggle(expandedShipments, shipmentId);
    }
  }
}
