/**
 * The handle modifier: owns no engine object. Each render publishes its
 * element in the handle registry and pushes it onto the draggable or
 * sortable registered under the same key; teardown withdraws both, the
 * second only while the entry's handle is still this element.
 */
module HandleModifiers {
  import opened Values
  import opened Keys
  import opened Engine
  import opened Registry

  /** The named arguments of `{{handle ...}}`. */
  datatype HandleArgs = HandleArgs(id: Id)

  class HandleModifier {
    const manager: Manager?
    const registries: Registries
    var currentId: Option<Id>
    var element: Option<Element>

    /** What `createHandleModifier(manager)` binds: an unbound modifier for `manager`. */
    constructor (manager: Manager?, registries: Registries)
      ensures this.manager == manager && this.registries == registries
      ensures currentId == None && element == None
    {
      this.manager := manager;
      this.registries := registries;
      currentId, element := None, None;
    }

    /** The key this modifier would use with `id` as its current id. */
    function KeyFor(id: Option<Id>): string {
      if manager == null then "" else DeriveKey(manager.guid, id)
    }

    /** The `key` getter: empty without a truthy id or without a manager. */
    function Key(): (k: string)
      reads this
      ensures k == "" <==> !Truthy(currentId) || manager == null
    {
      KeyFor(currentId)
    }

    method Modify(element: Element, named: HandleArgs)
      modifies this, registries, registries.TargetAt(KeyFor(Some(named.id)))
      ensures this.element == Some(element) && currentId == Some(named.id)
      ensures registries.handles == old(registries.handles)[Key() := element]
      ensures registries.draggables == old(registries.draggables)
      ensures var k := Key();
        k in registries.draggables ==>
          var entry := registries.draggables[k];
          entry.Snapshot() == old(entry.Snapshot()).WithHandle(Some(element))
    {
      this.element := Some(element);
      currentId := Some(named.id);
      registries.SetHandle(Key(), element);
      var entry := registries.GetDraggable(Key());
      if entry.Some? {
        entry.value.SetHandle(this.element);
      }
    }

    method Cleanup()
      modifies registries, registries.TargetAt(Key())
      ensures registries.draggables == old(registries.draggables)
      ensures registries.handles == if Truthy(currentId) then old(registries.handles) - {Key()} else old(registries.handles)
      ensures var k := Key();
        k in registries.draggables ==>
          var entry := registries.draggables[k];
          entry.Snapshot() ==
            if Truthy(currentId) && old(entry.Snapshot()).Handle() == element
            then old(entry.Snapshot()).WithHandle(None)
            else old(entry.Snapshot())
    {
      if Truthy(currentId) {
        registries.DeleteHandle(Key());
        var entry := registries.GetDraggable(Key());
        if entry.Some? && entry.value.Snapshot().Handle() == element {
          entry.value.SetHandle(None);
        }
      }
    }
  }
}
