/**
 * The draggable modifier: creates one `Draggable` on the first render and
 * registers it under its key, overwrites its fields on every later render,
 * and unregisters and destroys it on teardown.
 */
module DraggableModifiers {
  import opened Values
  import opened Keys
  import opened Engine
  import opened Registry

  /** The named arguments of `{{draggable ...}}`. */
  datatype DraggableArgs = DraggableArgs(
    id: Option<Id>,
    handle: Arg<Element>,
    typ: Option<Opaque>,
    feedback: Option<Feedback>,
    disabled: Option<bool>,
    sensors: Option<Opaque>,
    data: Option<Opaque>)

  /**
   * The input bag of the first render, `{ element, handle: registered, ...named }`:
   * the registry's handle unless a handle argument was passed.
   */
  function Created(element: Element, registered: Option<Element>, named: DraggableArgs): DraggableFields {
    DraggableFields(named.id, element, named.handle.Spread(registered), named.typ,
                    named.feedback, named.disabled, named.sensors, named.data)
  }

  /** The fields after a later render over `prev`, with `registered` the registry's handle for the new key. */
  function Updated(prev: DraggableFields, element: Element, registered: Option<Element>, named: DraggableArgs): DraggableFields {
    DraggableFields(named.id, element, named.handle.Coalesce(registered), named.typ,
                    Some(named.feedback.GetOr(DefaultFeedback)), Some(named.disabled == Some(true)),
                    named.sensors, if named.data.Some? then named.data else prev.data)
  }

  /** The update branch of `modify`: overwrite the fields of the existing draggable in place. */
  method Overwrite(draggable: Draggable, element: Element, registered: Option<Element>, named: DraggableArgs)
    modifies draggable
    ensures draggable.Fields() == Updated(old(draggable.Fields()), element, registered, named)
    ensures draggable.destroyCount == old(draggable.destroyCount)
  {
    draggable.id := named.id;
    draggable.element := element;
    draggable.handle := named.handle.Coalesce(registered);
    draggable.typ := named.typ;
    draggable.feedback := Some(named.feedback.GetOr(DefaultFeedback));
    draggable.disabled := Some(named.disabled == Some(true));
    draggable.sensors := named.sensors;
    if named.data.Some? {
      draggable.data := named.data;
    }
  }

  class DraggableModifier {
    const manager: Manager
    const registries: Registries
    var draggable: Draggable?
    var currentId: Option<Id>

    /** What `createDraggableModifier(manager)` binds: an unbound modifier for `manager`. */
    constructor (manager: Manager, registries: Registries)
      ensures this.manager == manager && this.registries == registries
      ensures draggable == null && currentId == None
    {
      this.manager := manager;
      this.registries := registries;
      draggable, currentId := null, None;
    }

    /**
     * The `key` getter: the empty key exactly when the current id is falsy,
     * otherwise one that names both this manager and the id.
     */
    function Key(): (k: string)
      reads this
      ensures k == "" <==> !Truthy(currentId)
      ensures Truthy(currentId) ==> manager.guid + "_" <= k
    {
      DeriveKey(manager.guid, currentId)
    }

    method Modify(element: Element, named: DraggableArgs)
      modifies this, draggable, registries
      ensures currentId == named.id && draggable != null
      ensures old(draggable) == null ==>
        && fresh(draggable) && draggable.destroyCount == 0
        && draggable.Fields() == Created(element, Lookup(old(registries.handles), Key()), named)
        && registries.draggables == old(registries.draggables)[Key() := DraggableEntry(draggable)]
      ensures old(draggable) != null ==>
        && draggable == old(draggable) && draggable.destroyCount == old(draggable.destroyCount)
        && draggable.Fields() == Updated(old(draggable.Fields()), element, Lookup(old(registries.handles), Key()), named)
        && registries.draggables == old(registries.draggables)
      ensures registries.handles == old(registries.handles)
    {
      currentId := named.id;
      if draggable != null {
        Overwrite(draggable, element, registries.GetHandle(Key()), named);
      } else {
        draggable := new Draggable(Created(element, registries.GetHandle(Key()), named));
        registries.SetDraggable(Key(), DraggableEntry(draggable));
      }
    }

    method Cleanup()
      modifies this, draggable, registries
      ensures draggable == null && currentId == old(currentId)
      ensures old(draggable) != null ==>
        && registries.draggables == old(registries.draggables) - {Key()}
        && old(draggable).Fields() == old(draggable.Fields())
        && old(draggable).destroyCount == old(draggable.destroyCount) + 1
      ensures old(draggable) == null ==> registries.draggables == old(registries.draggables)
      ensures registries.handles == old(registries.handles)
    {
      if draggable != null {
        registries.DeleteDraggable(Key());
        draggable.Destroy();
        draggable := null;
      }
    }
  }

  /**
   * The field asymmetry of a re-render: whatever the previous fields, a
   * render with the same arguments yields the same fields, except `data`,
   * which a render without data leaves as it was.
   */
  lemma UpdateRemembersOnlyData(p1: DraggableFields, p2: DraggableFields, element: Element,
                                registered: Option<Element>, named: DraggableArgs)
    ensures Updated(p1, element, registered, named).(data := None) == Updated(p2, element, registered, named).(data := None)
    ensures named.data.None? ==> Updated(p1, element, registered, named).data == p1.data
    ensures named.data.Some? ==> Updated(p1, element, registered, named).data == named.data
  {
  }

  /** Rendering twice with the same arguments is the same as rendering once. */
  lemma UpdateIdempotent(prev: DraggableFields, element: Element, registered: Option<Element>, named: DraggableArgs)
    ensures var once := Updated(prev, element, registered, named);
            Updated(once, element, registered, named) == once
  {
  }

  /**
   * On a re-render the handle is the handle argument if one is given, else
   * the registry's handle for the freshly derived key; feedback defaults to
   * 'default' and disabled is coerced to a boolean.
   */
  lemma UpdateDefaults(prev: DraggableFields, element: Element, registered: Option<Element>, named: DraggableArgs)
    ensures var r := Updated(prev, element, registered, named);
      && (named.handle.Passed? && named.handle.given.Some? ==> r.handle == named.handle.given)
      && (!(named.handle.Passed? && named.handle.given.Some?) ==> r.handle == registered)
      && (named.feedback.None? ==> r.feedback == Some(DefaultFeedback))
      && (r.disabled == Some(true) <==> named.disabled == Some(true))
      && r.typ == named.typ && r.sensors == named.sensors && r.id == named.id && r.element == element
  {
  }

  /**
   * A re-render with the arguments of the first render changes nothing but
   * the feedback and disabled defaults, as long as the handle resolves the
   * same way (not passed as undefined while a handle is registered).
   */
  lemma UpdateAfterCreate(element: Element, registered: Option<Element>, named: DraggableArgs)
    requires named.handle != Passed(None) || registered == None
    ensures var created := Created(element, registered, named);
            Updated(created, element, registered, named)
              == created.(feedback := Some(named.feedback.GetOr(DefaultFeedback)),
                          disabled := Some(named.disabled == Some(true)))
  {
  }

  /**
   * The first render's handle: a passed handle argument wins, even one passed
   * as undefined, which hides a registered handle until the next render.
   */
  lemma CreatedHandle(element: Element, registered: Option<Element>, named: DraggableArgs)
    ensures named.handle == Absent ==> Created(element, registered, named).handle == registered
    ensures named.handle.Passed? ==> Created(element, registered, named).handle == named.handle.given
    ensures named.handle == Passed(None) ==>
      Updated(Created(element, registered, named), element, registered, named).handle == registered
  {
  }
}
