/**
 * The sortable modifier: like the draggable modifier, over a `Sortable` with
 * more fields, created with the keyboard plugin in place of the engine's
 * default plugins. Sortables share the draggable registry with draggables.
 */
module SortableModifiers {
  import opened Values
  import opened Keys
  import opened Engine
  import opened Registry

  /** The named arguments of `{{sortable ...}}`. */
  datatype SortableArgs = SortableArgs(
    id: Option<Id>,
    index: int,
    group: Option<Id>,
    handle: Arg<Element>,
    typ: Option<Opaque>,
    accept: Option<Opaque>,
    disabled: Option<bool>,
    feedback: Option<Feedback>,
    alignment: Option<Opaque>,
    modifiers: Option<Opaque>,
    sensors: Option<Opaque>,
    collisionPriority: Option<int>,
    transition: Option<Transition>,
    collisionDetector: Option<Opaque>,
    data: Option<Opaque>,
    plugins: Arg<seq<Plugin>>)

  /** The plugin list a sortable is created with when the caller passes none. */
  const KeyboardOnly: seq<Plugin> := [SortableKeyboardPlugin]

  /**
   * The input bag of the first render,
   * `{ element, plugins: [SortableKeyboardPlugin], handle: registered, ...named }`.
   */
  function Created(element: Element, registered: Option<Element>, named: SortableArgs): SortableFields {
    SortableFields(named.id, element, named.index, named.group, named.handle.Spread(registered), named.typ,
                   named.accept, named.disabled, named.feedback, named.alignment, named.modifiers,
                   named.sensors, named.collisionPriority, named.transition, named.collisionDetector,
                   named.data, named.plugins.Spread(Some(KeyboardOnly)))
  }

  /** The fields after a later render over `prev`, with `registered` the registry's handle for the new key. */
  function Updated(prev: SortableFields, element: Element, registered: Option<Element>, named: SortableArgs): SortableFields {
    SortableFields(named.id, element, named.index, named.group, named.handle.Coalesce(registered), named.typ,
                   named.accept, Some(named.disabled.GetOr(false)), Some(named.feedback.GetOr(DefaultFeedback)),
                   named.alignment, named.modifiers, named.sensors, named.collisionPriority,
                   Some(named.transition.GetOr(DefaultSortableTransition)),
                   if named.collisionDetector.Some? then named.collisionDetector else prev.collisionDetector,
                   if named.data.Some? then named.data else prev.data,
                   prev.plugins)
  }

  /** The update branch of `modify`: overwrite the fields of the existing sortable in place. */
  method Overwrite(sortable: Sortable, element: Element, registered: Option<Element>, named: SortableArgs)
    modifies sortable
    ensures sortable.Fields() == Updated(old(sortable.Fields()), element, registered, named)
    ensures sortable.destroyCount == old(sortable.destroyCount)
  {
    OverwritePlacement(sortable, element, registered, named);
    OverwriteBehaviour(sortable, named);
    OverwriteCollision(sortable, named);
  }

  /** Writes of the update branch, first part: identity, element, position and handle. */
  method OverwritePlacement(sortable: Sortable, element: Element, registered: Option<Element>, named: SortableArgs)
    modifies sortable
    ensures sortable.Fields() == old(sortable.Fields()).(id := named.id, element := element, index := named.index,
      group := named.group, handle := named.handle.Coalesce(registered))
    ensures sortable.destroyCount == old(sortable.destroyCount)
  {
    sortable.id := named.id;
    sortable.element := element;
    sortable.index := named.index;
    sortable.group := named.group;
    sortable.handle := named.handle.Coalesce(registered);
  }

  /** Writes of the update branch, second part: type, accept filter and the defaulted flags. */
  method OverwriteBehaviour(sortable: Sortable, named: SortableArgs)
    modifies sortable
    ensures sortable.Fields() == old(sortable.Fields()).(typ := named.typ, accept := named.accept,
      disabled := Some(named.disabled.GetOr(false)), feedback := Some(named.feedback.GetOr(DefaultFeedback)),
      alignment := named.alignment, modifiers := named.modifiers)
    ensures sortable.destroyCount == old(sortable.destroyCount)
  {
    sortable.typ := named.typ;
    sortable.accept := named.accept;
    sortable.disabled := Some(named.disabled.GetOr(false));
    sortable.feedback := Some(named.feedback.GetOr(DefaultFeedback));
    sortable.alignment := named.alignment;
    sortable.modifiers := named.modifiers;
  }

  /**
   * Writes of the update branch, last part: sensors, collision priority and
   * transition always; the collision detector and data only when given.
   */
  method OverwriteCollision(sortable: Sortable, named: SortableArgs)
    modifies sortable
    ensures sortable.Fields() == old(sortable.Fields()).(sensors := named.sensors,
      collisionPriority := named.collisionPriority, transition := Some(named.transition.GetOr(DefaultSortableTransition)),
      collisionDetector := if named.collisionDetector.Some? then named.collisionDetector else old(sortable.collisionDetector),
      data := if named.data.Some? then named.data else old(sortable.data))
    ensures sortable.destroyCount == old(sortable.destroyCount)
  {
    sortable.sensors := named.sensors;
    sortable.collisionPriority := named.collisionPriority;
    sortable.transition := Some(named.transition.GetOr(DefaultSortableTransition));
    if named.collisionDetector.Some? {
      sortable.collisionDetector := named.collisionDetector;
    }
    if named.data.Some? {
      sortable.data := named.data;
    }
  }

  class SortableModifier {
    const manager: Manager
    const registries: Registries
    var sortable: Sortable?
    var currentId: Option<Id>

    /** What `createSortableModifier(manager)` binds: an unbound modifier for `manager`. */
    constructor (manager: Manager, registries: Registries)
      ensures this.manager == manager && this.registries == registries
      ensures sortable == null && currentId == None
    {
      this.manager := manager;
      this.registries := registries;
      sortable, currentId := null, None;
    }

    /**
     * The `key` getter: the empty key exactly when the current id is falsy,
     * otherwise one that names both this manager and the id.
     */
    function Key(): (k: string)
      reads this
      ensures k == "" <==> !Truthy(currentId)
      ensures Truthy(currentId) ==> manager.guid + "_" <= k
    {
      DeriveKey(manager.guid, currentId)
    }

    method Modify(element: Element, named: SortableArgs)
      modifies this, sortable, registries
      ensures currentId == named.id && sortable != null
      ensures old(sortable) == null ==>
        && fresh(sortable) && sortable.destroyCount == 0
        && sortable.Fields() == Created(element, Lookup(old(registries.handles), Key()), named)
        && registries.draggables == old(registries.draggables)[Key() := SortableEntry(sortable)]
      ensures old(sortable) != null ==>
        && sortable == old(sortable) && sortable.destroyCount == old(sortable.destroyCount)
        && sortable.Fields() == Updated(old(sortable.Fields()), element, Lookup(old(registries.handles), Key()), named)
        && registries.draggables == old(registries.draggables)
      ensures registries.handles == old(registries.handles)
    {
      currentId := named.id;
      if sortable != null {
        Overwrite(sortable, element, registries.GetHandle(Key()), named);
      } else {
        sortable := new Sortable(Created(element, registries.GetHandle(Key()), named));
        registries.SetDraggable(Key(), SortableEntry(sortable));
      }
    }

    method Cleanup()
      modifies this, sortable, registries
      ensures sortable == null && currentId == old(currentId)
      ensures old(sortable) != null ==>
        && registries.draggables == old(registries.draggables) - {Key()}
        && old(sortable).Fields() == old(sortable.Fields())
        && old(sortable).destroyCount == old(sortable.destroyCount) + 1
      ensures old(sortable) == null ==> registries.draggables == old(registries.draggables)
      ensures registries.handles == old(registries.handles)
    {
      if sortable != null {
        registries.DeleteDraggable(Key());
        sortable.Destroy();
        sortable := null;
      }
    }
  }

  /**
   * The field asymmetry of a re-render: whatever the previous fields, a
   * render with the same arguments yields the same fields except the
   * collision detector and the data, which are kept when not given, and the
   * plugins, which only the first render sets.
   */
  lemma UpdateRemembers(p1: SortableFields, p2: SortableFields, element: Element,
                        registered: Option<Element>, named: SortableArgs)
    ensures Updated(p1, element, registered, named).(collisionDetector := None, data := None, plugins := None)
         == Updated(p2, element, registered, named).(collisionDetector := None, data := None, plugins := None)
    ensures Updated(p1, element, registered, named).collisionDetector
         == (if named.collisionDetector.Some? then named.collisionDetector else p1.collisionDetector)
    ensures Updated(p1, element, registered, named).data == (if named.data.Some? then named.data else p1.data)
    ensures Updated(p1, element, registered, named).plugins == p1.plugins
  {
  }

  /** Rendering twice with the same arguments is the same as rendering once. */
  lemma UpdateIdempotent(prev: SortableFields, element: Element, registered: Option<Element>, named: SortableArgs)
    ensures var once := Updated(prev, element, registered, named);
            Updated(once, element, registered, named) == once
  {
  }

  /**
   * On a re-render disabled defaults to false, feedback to 'default' and the
   * transition to the engine's default; index, group, type, accept,
   * alignment, modifiers, sensors and collision priority take the argument,
   * undefined included; the handle is the argument or the registry's.
   */
  lemma UpdateDefaults(prev: SortableFields, element: Element, registered: Option<Element>, named: SortableArgs)
    ensures var r := Updated(prev, element, registered, named);
      && (named.disabled.None? ==> r.disabled == Some(false))
      && (named.feedback.None? ==> r.feedback == Some(DefaultFeedback))
      && (named.transition.None? ==> r.transition == Some(DefaultSortableTransition))
      && r.index == named.index && r.group == named.group && r.typ == named.typ && r.accept == named.accept
      && r.alignment == named.alignment && r.modifiers == named.modifiers && r.sensors == named.sensors
      && r.collisionPriority == named.collisionPriority && r.id == named.id && r.element == element
      && (named.handle.Passed? && named.handle.given.Some? ==> r.handle == named.handle.given)
      && (!(named.handle.Passed? && named.handle.given.Some?) ==> r.handle == registered)
  {
  }

  /**
   * A sortable created without a plugins argument carries the keyboard
   * plugin and not the optimistic-sorting plugin; a plugins argument, even
   * one passed as undefined, replaces that list.
   */
  lemma CreatedPlugins(element: Element, registered: Option<Element>, named: SortableArgs)
    ensures var p := Created(element, registered, named).plugins;
      && (named.plugins == Absent ==>
            p.Some? && SortableKeyboardPlugin in p.value && OptimisticSortingPlugin !in p.value)
      && (named.plugins.Passed? ==> p == named.plugins.given)
  {
  }
}
