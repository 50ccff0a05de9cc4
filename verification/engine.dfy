/**
 * The dnd-kit engine objects the core creates and mutates. Only what the
 * core touches is modelled: assignable fields, `destroy()` (counted, so that
 * a second destruction is visible), and the manager's event monitor.
 */
module Engine {
  import opened Values
  import opened Keys

  /** The six events the session component may subscribe to. */
  datatype EventName = BeforeDragStart | DragStart | DragMove | DragOver | DragEnd | Collision

  /**
   * The unsubscribe callback `monitor.addEventListener` returns; invoking it
   * is `Manager.Unsubscribe`.
   */
  datatype Subscription = Subscription(event: EventName, handler: Opaque)

  /** `DragDropManager`. `guid` is the token Ember's `guidFor` gives it, stable for its lifetime. */
  class Manager {
    const guid: string
    const options: map<string, Opaque>
    var subscribed: seq<Subscription>
    var unsubscribed: seq<Subscription>
    var destroyCount: nat

    constructor (guid: string, options: map<string, Opaque>)
      ensures this.guid == guid && this.options == options
      ensures subscribed == [] && unsubscribed == [] && destroyCount == 0
    {
      this.guid := guid;
      this.options := options;
      subscribed, unsubscribed, destroyCount := [], [], 0;
    }

    method AddEventListener(event: EventName, handler: Opaque) returns (unsubscribe: Subscription)
      modifies this
      ensures unsubscribe == Subscription(event, handler)
      ensures subscribed == old(subscribed) + [unsubscribe]
      ensures unsubscribed == old(unsubscribed) && destroyCount == old(destroyCount)
    {
      unsubscribe := Subscription(event, handler);
      subscribed := subscribed + [unsubscribe];
    }

    method Unsubscribe(s: Subscription)
      modifies this
      ensures unsubscribed == old(unsubscribed) + [s]
      ensures subscribed == old(subscribed) && destroyCount == old(destroyCount)
    {
      unsubscribed := unsubscribed + [s];
    }

    method Destroy()
      modifies this
      ensures destroyCount == old(destroyCount) + 1
      ensures subscribed == old(subscribed) && unsubscribed == old(unsubscribed)
    {
      destroyCount := destroyCount + 1;
    }
  }

  /** The assignable fields of a `Draggable`. */
  datatype DraggableFields = DraggableFields(
    id: Option<Id>,
    element: Element,
    handle: Option<Element>,
    typ: Option<Opaque>,
    feedback: Option<Feedback>,
    disabled: Option<bool>,
    sensors: Option<Opaque>,
    data: Option<Opaque>)

  class Draggable {
    var id: Option<Id>
    var element: Element
    var handle: Option<Element>
    var typ: Option<Opaque>
    var feedback: Option<Feedback>
    var disabled: Option<bool>
    var sensors: Option<Opaque>
    var data: Option<Opaque>
    var destroyCount: nat

    function Fields(): DraggableFields
      reads this
    {
      DraggableFields(id, element, handle, typ, feedback, disabled, sensors, data)
    }

    /** `new Draggable(input, manager)`: the engine keeps the input bag it is given. */
    constructor (input: DraggableFields)
      ensures Fields() == input && destroyCount == 0
    {
      id, element, handle, typ := input.id, input.element, input.handle, input.typ;
      feedback, disabled, sensors, data := input.feedback, input.disabled, input.sensors, input.data;
      destroyCount := 0;
    }

    method Destroy()
      modifies this
      ensures Fields() == old(Fields()) && destroyCount == old(destroyCount) + 1
    {
      destroyCount := destroyCount + 1;
    }
  }

  /** dnd-kit's plugins, as far as the sortable modifier cares. */
  datatype Plugin = SortableKeyboardPlugin | OptimisticSortingPlugin | OtherPlugin(tag: Opaque)

  /** A sortable's transition: the engine's `defaultSortableTransition` or one of the caller's. */
  datatype Transition = DefaultSortableTransition | CustomTransition(config: Opaque)

  /** The assignable fields of a `Sortable`. */
  datatype SortableFields = SortableFields(
    id: Option<Id>,
    element: Element,
    index: int,
    group: Option<Id>,
    handle: Option<Element>,
    typ: Option<Opaque>,
    accept: Option<Opaque>,
    disabled: Option<bool>,
    feedback: Option<Feedback>,
    alignment: Option<Opaque>,
    modifiers: Option<Opaque>,
    sensors: Option<Opaque>,
    collisionPriority: Option<int>,
    transition: Option<Transition>,
    collisionDetector: Option<Opaque>,
    data: Option<Opaque>,
    plugins: Option<seq<Plugin>>)

  class Sortable {
    var id: Option<Id>
    var element: Element
    var index: int
    var group: Option<Id>
    var handle: Option<Element>
    var typ: Option<Opaque>
    var accept: Option<Opaque>
    var disabled: Option<bool>
    var feedback: Option<Feedback>
    var alignment: Option<Opaque>
    var modifiers: Option<Opaque>
    var sensors: Option<Opaque>
    var collisionPriority: Option<int>
    var transition: Option<Transition>
    var collisionDetector: Option<Opaque>
    var data: Option<Opaque>
    var plugins: Option<seq<Plugin>>
    var destroyCount: nat

    function Fields(): SortableFields
      reads this
    {
      SortableFields(id, element, index, group, handle, typ, accept, disabled, feedback, alignment,
                     modifiers, sensors, collisionPriority, transition, collisionDetector, data, plugins)
    }

    /** `new Sortable(input, manager)`: the engine keeps the input bag it is given. */
    constructor (input: SortableFields)
      ensures Fields() == input && destroyCount == 0
    {
      id, element, index, group, handle := input.id, input.element, input.index, input.group, input.handle;
      typ, accept, disabled, feedback := input.typ, input.accept, input.disabled, input.feedback;
      alignment, modifiers, sensors := input.alignment, input.modifiers, input.sensors;
      collisionPriority, transition, collisionDetector := input.collisionPriority, input.transition, input.collisionDetector;
      data, plugins := input.data, input.plugins;
      destroyCount := 0;
    }

    method Destroy()
      modifies this
      ensures Fields() == old(Fields()) && destroyCount == old(destroyCount) + 1
    {
      destroyCount := destroyCount + 1;
    }
  }

  /** The assignable fields of a `Droppable`. */
  datatype DroppableFields = DroppableFields(
    id: Option<Id>,
    element: Element,
    accept: Option<Opaque>,
    collisionPriority: Option<int>,
    disabled: Option<bool>,
    typ: Option<Opaque>,
    collisionDetector: Option<Opaque>,
    data: Option<Opaque>)

  class Droppable {
    var id: Option<Id>
    var element: Element
    var accept: Option<Opaque>
    var collisionPriority: Option<int>
    var disabled: Option<bool>
    var typ: Option<Opaque>
    var collisionDetector: Option<Opaque>
    var data: Option<Opaque>
    var destroyCount: nat

    function Fields(): DroppableFields
      reads this
    {
      DroppableFields(id, element, accept, collisionPriority, disabled, typ, collisionDetector, data)
    }

    /** `new Droppable(input, manager)`: the engine keeps the input bag it is given. */
    constructor (input: DroppableFields)
      ensures Fields() == input && destroyCount == 0
    {
      id, element, accept, collisionPriority := input.id, input.element, input.accept, input.collisionPriority;
      disabled, typ, collisionDetector, data := input.disabled, input.typ, input.collisionDetector, input.data;
      destroyCount := 0;
    }

    method Destroy()
      modifies this
      ensures Fields() == old(Fields()) && destroyCount == old(destroyCount) + 1
    {
      destroyCount := destroyCount + 1;
    }
  }

  /** What a draggable-registry entry looks like at one moment. */
  datatype EntrySnapshot =
    | DraggableSnapshot(fields: DraggableFields, destroyCount: nat)
    | SortableSnapshot(sortableFields: SortableFields, destroyCount: nat)
  {
    function Handle(): Option<Element> {
      match this
      case DraggableSnapshot(f, _) => f.handle
      case SortableSnapshot(f, _) => f.handle
    }

    function WithHandle(h: Option<Element>): EntrySnapshot {
      match this
      case DraggableSnapshot(f, n) => DraggableSnapshot(f.(handle := h), n)
      case SortableSnapshot(f, n) => SortableSnapshot(f.(handle := h), n)
    }
  }

  /** A value of the draggable registry: `Draggable | Sortable`. */
  datatype Entry = DraggableEntry(draggable: Draggable) | SortableEntry(sortable: Sortable) {

    function Target(): object {
      match this
      case DraggableEntry(d) => d
      case SortableEntry(s) => s
    }

    function Snapshot(): EntrySnapshot
      reads Target()
    {
      match this
      case DraggableEntry(d) => DraggableSnapshot(d.Fields(), d.destroyCount)
      case SortableEntry(s) => SortableSnapshot(s.Fields(), s.destroyCount)
    }

    /** `entry.handle = h`: only the handle changes. */
    method SetHandle(h: Option<Element>)
      modifies Target()
      ensures Snapshot() == old(Snapshot()).WithHandle(h)
    {
      match this
      case DraggableEntry(d) => d.handle := h;
      case SortableEntry(s) => s.handle := h;
    }
  }
}
