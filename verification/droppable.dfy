/**
 * The droppable modifier: creates one `Droppable` on the first render and
 * overwrites its fields on every later render. It is given no registries,
 * so it can neither read nor write them.
 */
module DroppableModifiers {
  import opened Values
  import opened Keys
  import opened Engine

  /** The named arguments of `{{droppable ...}}`. */
  datatype DroppableArgs = DroppableArgs(
    id: Option<Id>,
    accept: Option<Opaque>,
    collisionPriority: Option<int>,
    disabled: Option<bool>,
    typ: Option<Opaque>,
    collisionDetector: Option<Opaque>,
    data: Option<Opaque>)

  /** The input bag of the first render, `{ element, ...named }`. */
  function Created(element: Element, named: DroppableArgs): DroppableFields {
    DroppableFields(named.id, element, named.accept, named.collisionPriority, named.disabled,
                    named.typ, named.collisionDetector, named.data)
  }

  /** The fields after a later render over `prev`. */
  function Updated(prev: DroppableFields, element: Element, named: DroppableArgs): DroppableFields {
    DroppableFields(named.id, element, named.accept, named.collisionPriority,
                    Some(named.disabled == Some(true)), named.typ,
                    if named.collisionDetector.Some? then named.collisionDetector else prev.collisionDetector,
                    if named.data.Some? then named.data else prev.data)
  }

  class DroppableModifier {
    const manager: Manager
    var droppable: Droppable?

    /** What `createDroppableModifier(manager)` binds: an unbound modifier for `manager`. */
    constructor (manager: Manager)
      ensures this.manager == manager && droppable == null
    {
      this.manager := manager;
      droppable := null;
    }

    method Modify(element: Element, named: DroppableArgs)
      modifies this, droppable
      ensures droppable != null
      ensures old(droppable) == null ==>
        fresh(droppable) && droppable.destroyCount == 0 && droppable.Fields() == Created(element, named)
      ensures old(droppable) != null ==>
        && droppable == old(droppable) && droppable.destroyCount == old(droppable.destroyCount)
        && droppable.Fields() == Updated(old(droppable.Fields()), element, named)
    {
      if droppable != null {
        droppable.id := named.id;
        droppable.element := element;
        droppable.accept := named.accept;
        droppable.collisionPriority := named.collisionPriority;
        droppable.disabled := Some(named.disabled == Some(true));
        droppable.typ := named.typ;
        if named.collisionDetector.Some? {
          droppable.collisionDetector := named.collisionDetector;
        }
        if named.data.Some? {
          droppable.data := named.data;
        }
      } else {
        droppable := new Droppable(Created(element, named));
      }
    }

    method Cleanup()
      modifies this, droppable
      ensures droppable == null
      ensures old(droppable) != null ==>
        old(droppable).Fields() == old(droppable.Fields())
        && old(droppable).destroyCount == old(droppable.destroyCount) + 1
    {
      if droppable != null {
        droppable.Destroy();
        droppable := null;
      }
    }
  }

  /**
   * The field asymmetry of a re-render: whatever the previous fields, a
   * render with the same arguments yields the same fields except the
   * collision detector and the data, which are kept when not given.
   */
  lemma UpdateRemembers(p1: DroppableFields, p2: DroppableFields, element: Element, named: DroppableArgs)
    ensures Updated(p1, element, named).(collisionDetector := None, data := None)
         == Updated(p2, element, named).(collisionDetector := None, data := None)
    ensures Updated(p1, element, named).collisionDetector
         == (if named.collisionDetector.Some? then named.collisionDetector else p1.collisionDetector)
    ensures Updated(p1, element, named).data == (if named.data.Some? then named.data else p1.data)
  {
  }

  /**
   * On a re-render accept, collision priority and type take the argument,
   * undefined included, and disabled is coerced to a boolean.
   */
  lemma UpdateDefaults(prev: DroppableFields, element: Element, named: DroppableArgs)
    ensures var r := Updated(prev, element, named);
      && r.accept == named.accept && r.collisionPriority == named.collisionPriority && r.typ == named.typ
      && (r.disabled == Some(true) <==> named.disabled == Some(true)) && r.disabled.Some?
      && r.id == named.id && r.element == element
  {
  }

  /** Rendering twice with the same arguments is the same as rendering once. */
  lemma UpdateIdempotent(prev: DroppableFields, element: Element, named: DroppableArgs)
    ensures var once := Updated(prev, element, named);
            Updated(once, element, named) == once
  {
  }
}
