/**
 * The CRM entities shared by the ETL steps: status buckets, status-change
 * events and the custom fields of a lead.
 */
module Crm {
  import opened Wrappers
  import opened Text
  import opened Sorting

  /** The semantic bucket a pipeline status is classified into. */
  datatype Bucket = Lead | Qualified | Meeting | MeetingFailed | Proposal | Negotiation | Won | Lost | Other

  /**
   * A `lead_status_changed` event: the lead it belongs to (`entity_id`), the
   * entity type, its Unix timestamp and the id read from `value_after[0].lead_status.id`.
   */
  datatype Event = Event(entityId: int, entityType: Option<string>, createdAt: int, newStatus: Option<int>)

  /** The sort key `event.get('created_at', 0)`. */
  function CreatedAt(e: Event): int {
    e.createdAt
  }

  /** The events of one lead, in their original order. */
  function EventsOf(events: seq<Event>, id: int): (r: seq<Event>)
    ensures |r| <= |events|
    ensures forall e :: e in r ==> e in events && e.entityId == id
    ensures forall e :: e in events && e.entityId == id ==> e in r
  {
    if events == [] then []
    else EventsOf(events[..|events| - 1], id)
         + (if events[|events| - 1].entityId == id then [events[|events| - 1]] else [])
  }

  /** A Python integer used as a condition: `None` and `0` are false. */
  predicate Truthy(x: Option<int>) {
    x.Some? && x.value != 0
  }

  /** The events of one lead whose entity type is exactly "lead", in their original order. */
  function LeadEventsOf(events: seq<Event>, id: int): (r: seq<Event>)
    ensures |r| <= |events|
    ensures forall e :: e in r <==> e in events && e.entityId == id && e.entityType == Some("lead")
  {
    if events == [] then []
    else
      var e := events[|events| - 1];
      LeadEventsOf(events[..|events| - 1], id)
      + (if e.entityId == id && e.entityType == Some("lead") then [e] else [])
  }

  /** The list comprehension keeping the events whose entity id is `id`, in order. */
  method FilterEvents(events: seq<Event>, id: int) returns (mine: seq<Event>)
    ensures mine == EventsOf(events, id)
  {
    mine := [];
    var i := 0;
    while i < |events|
      invariant 0 <= i <= |events|
      invariant mine == EventsOf(events[..i], id)
    {
      assert events[..i + 1][..i] == events[..i];
      if events[i].entityId == id {
        mine := mine + [events[i]];
      }
      i := i + 1;
    }
    assert events[..i] == events;
  }

  /** The same loop, also requiring the entity type "lead". */
  method FilterLeadEvents(events: seq<Event>, id: int) returns (mine: seq<Event>)
    ensures mine == LeadEventsOf(events, id)
  {
    mine := [];
    var i := 0;
    while i < |events|
      invariant 0 <= i <= |events|
      invariant mine == LeadEventsOf(events[..i], id)
    {
      assert events[..i + 1][..i] == events[..i];
      if events[i].entityId == id && events[i].entityType == Some("lead") {
        mine := mine + [events[i]];
      }
      i := i + 1;
    }
    assert events[..i] == events;
  }

  /** Sorts a list of events by time in place (through an array), as `list.sort(key=...)` does. */
  method SortEvents(changes: seq<Event>) returns (sorted: seq<Event>)
    ensures sorted == SortByKey(changes, CreatedAt)
  {
    var a := new Event[|changes|](k requires 0 <= k < |changes| => changes[k]);
    assert a[..] == changes;
    SortInPlace(a, CreatedAt);
    sorted := a[..];
  }

  /** A scalar read from a custom field's `value`: a string or a number. */
  datatype FieldValue = Str(s: string) | Number(n: int)

  /** Python truthiness of the value: a non-empty string or a non-zero number. */
  predicate ValueTruthy(v: FieldValue) {
    match v
    case Str(s) => s != ""
    case Number(n) => n != 0
  }

  /** `str(value)` */
  function Render(v: FieldValue): (r: string)
    ensures ValueTruthy(v) ==> r != ""
  {
    match v
    case Str(s) => s
    case Number(n) => IntToString(n)
  }

  /**
   * An entry of `custom_fields_values`: its `field_id`, its `field_name` and
   * its `values` list, each element being the `value` key of one value object.
   */
  datatype CustomField = CustomField(fieldId: Option<int>, fieldName: Slot<string>, values: Slot<seq<Slot<FieldValue>>>)
}
