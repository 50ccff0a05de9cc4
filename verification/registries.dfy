/**
 * The two process-wide registries, held by one shared object that every
 * modifier is given: `draggableRegistry` (key to draggable or sortable) and
 * `handleRegistry` (key to handle element). Each is a `Map`, so a key has at
 * most one entry and a set on an existing key replaces it.
 */
module Registry {
  import opened Values
  import opened Engine

  class Registries {
    var draggables: map<string, Entry>
    var handles: map<string, Element>

    /** Both registries start empty. */
    constructor ()
      ensures draggables == map[] && handles == map[]
    {
      draggables, handles := map[], map[];
    }

    function GetDraggable(key: string): Option<Entry>
      reads this
    {
      Lookup(draggables, key)
    }

    function GetHandle(key: string): Option<Element>
      reads this
    {
      Lookup(handles, key)
    }

    /** The object registered under `key`, if any: what a write through that entry may change. */
    function TargetAt(key: string): set<object>
      reads this
    {
      if key in draggables then {draggables[key].Target()} else {}
    }

    method SetDraggable(key: string, entry: Entry)
      modifies this
      ensures draggables == old(draggables)[key := entry]
      ensures handles == old(handles)
    {
      draggables := draggables[key := entry];
    }

    method DeleteDraggable(key: string)
      modifies this
      ensures draggables == old(draggables) - {key}
      ensures handles == old(handles)
    {
      draggables := draggables - {key};
    }

    method SetHandle(key: string, element: Element)
      modifies this
      ensures handles == old(handles)[key := element]
      ensures draggables == old(draggables)
    {
      handles := handles[key := element];
    }

    method DeleteHandle(key: string)
      modifies this
      ensures handles == old(handles) - {key}
      ensures draggables == old(draggables)
    {
      handles := handles - {key};
    }
  }
}
