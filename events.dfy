/** Event.py, WorkstationEvent.py, InspectorEvent.py and EventType.py: immutable event records. */
module Events {
  import opened Outcomes
  import opened Components

  /** EventType.py:4-9, plus SSS (steady-state start), which Simulation.py:108,293 uses. */
  datatype EventType = IS | ID | WS | WD | SSS | SD

  /**
   * The three record classes. The base fields (createdTime, startTime, eventType) are present in
   * every variant; the subclasses add only their own fields. An inspector event created with four
   * arguments (Simulation.py:106-107) has no component type, hence the Option.
   */
  datatype Event =
    | Plain(createdTime: real, startTime: real, eventType: EventType)
    | InspectorEvent(createdTime: real, startTime: real, eventType: EventType,
                     inspectorId: int, componentType: Option<ComponentType>)
    | WorkstationEvent(createdTime: real, startTime: real, eventType: EventType, workstationId: int)

  /** Event.__init__ (Event.py:5-15). */
  function NewEvent(createdTime: real, startTime: real, eventType: EventType): (e: Event)
    ensures e.createdTime == createdTime && e.startTime == startTime && e.eventType == eventType
    ensures !e.InspectorEvent? && !e.WorkstationEvent?
  {
    Plain(createdTime, startTime, eventType)
  }

  /** WorkstationEvent.__init__ (WorkstationEvent.py:6-16): the base fields plus the workstation id. */
  function NewWorkstationEvent(createdTime: real, startTime: real, eventType: EventType, workstationId: int): (e: Event)
    ensures e.WorkstationEvent? && e.workstationId == workstationId
    ensures e.createdTime == createdTime && e.startTime == startTime && e.eventType == eventType
  {
    WorkstationEvent(createdTime, startTime, eventType, workstationId)
  }

  /** InspectorEvent.__init__ (InspectorEvent.py:7-20): the base fields plus inspector id and component type. */
  function NewInspectorEvent(createdTime: real, startTime: real, eventType: EventType,
                             inspectorId: int, componentType: ComponentType): (e: Event)
    ensures e.InspectorEvent? && e.inspectorId == inspectorId && e.componentType == Some(componentType)
    ensures e.createdTime == createdTime && e.startTime == startTime && e.eventType == eventType
  {
    InspectorEvent(createdTime, startTime, eventType, inspectorId, Some(componentType))
  }

  /** The events of a list of optional replies, in order, with the None replies dropped. */
  function Somes(replies: seq<Option<Event>>): (events: seq<Event>)
    ensures |events| <= |replies|
    ensures forall e :: e in events <==> Some(e) in replies
  {
    if replies == [] then []
    else (if replies[0].Some? then [replies[0].value] else []) + Somes(replies[1..])
  }

  lemma {:induction false} SomesAppend(a: seq<Option<Event>>, b: seq<Option<Event>>)
    ensures Somes(a + b) == Somes(a) + Somes(b)
  {
    if a == [] {
      assert a + b == b;
    } else {
      assert (a + b)[1..] == a[1..] + b;
      SomesAppend(a[1..], b);
    }
  }

  /** Collecting one more reply appends its event, if it has one. */
  lemma {:induction false} SomesSnoc(replies: seq<Option<Event>>, k: int)
    requires 0 <= k < |replies|
    ensures Somes(replies[..k + 1]) == Somes(replies[..k]) + (if replies[k].Some? then [replies[k].value] else [])
  {
    assert replies[..k + 1] == replies[..k] + [replies[k]];
    SomesAppend(replies[..k], [replies[k]]);
    assert [replies[k]][1..] == [];
  }
}
