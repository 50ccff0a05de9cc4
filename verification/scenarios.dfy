/**
 * Whole lifecycles over fresh registries: how the modifiers of one session
 * interact through the shared registries, including the behaviours the
 * key scheme produces as written (stale entries after an id change, idless
 * modifiers sharing the empty key, a repeated session teardown).
 */
module Scenarios {
  import opened Values
  import opened Keys
  import opened Engine
  import opened Registry
  import opened DraggableModifiers
  import opened SortableModifiers
  import opened HandleModifiers
  import opened DragDropComponent

  /** Draggable arguments with only an id. */
  function JustId(id: Option<Id>): DraggableArgs {
    DraggableArgs(id, Absent, None, None, None, None, None)
  }

  /** A session's first draggable, rendered with only an id: registered under its key, without a handle. */
  method RegisteredDraggable(guid: string, id: Id) returns (registries: Registries, manager: Manager, d: Draggable, k: string)
    ensures fresh(registries) && fresh(manager) && fresh(d)
    ensures manager.guid == guid && k == DeriveKey(guid, Some(id))
    ensures registries.draggables == map[k := DraggableEntry(d)] && registries.handles == map[]
    ensures d.handle == None
  {
    registries := new Registries();
    manager := new Manager(guid, map[]);
    var dm := new DraggableModifier(manager, registries);
    var el := new Element();
    dm.Modify(el, JustId(Some(id)));
    d, k := dm.draggable, dm.Key();
  }

  /**
   * A handle rendered before its draggable: the draggable is created with
   * the handle the registry already holds for the shared key, unless a
   * handle argument is passed, which the creation spread lets win.
   */
  method HandleThenDraggable(guid: string, id: Id, named: DraggableArgs, el: Element, h: Element)
    returns (fields: DraggableFields, handles: map<string, Element>, keys: set<string>)
    requires named.id == Some(id)
    ensures fields == DraggableModifiers.Created(el, Some(h), named)
    ensures handles == map[DeriveKey(guid, Some(id)) := h]
    ensures keys == {DeriveKey(guid, Some(id))}
  {
    var registries := new Registries();
    var manager := new Manager(guid, map[]);
    var hm := new HandleModifier(manager, registries);
    hm.Modify(h, HandleArgs(id));
    var dm := new DraggableModifier(manager, registries);
    dm.Modify(el, named);
    fields, handles, keys := dm.draggable.Fields(), registries.handles, registries.draggables.Keys;
  }

  /**
   * A handle rendered after its draggable: the handle modifier pushes its
   * element onto the registered draggable, over any handle argument.
   */
  method DraggableThenHandle(guid: string, id: Id, named: DraggableArgs, el: Element, h: Element)
    returns (fields: DraggableFields, handles: map<string, Element>, keys: set<string>)
    requires named.id == Some(id)
    ensures fields == DraggableModifiers.Created(el, None, named).(handle := Some(h))
    ensures handles == map[DeriveKey(guid, Some(id)) := h]
    ensures keys == {DeriveKey(guid, Some(id))}
  {
    var registries := new Registries();
    var manager := new Manager(guid, map[]);
    var dm := new DraggableModifier(manager, registries);
    dm.Modify(el, named);
    var d := dm.draggable;
    var hm := new HandleModifier(manager, registries);
    hm.Modify(h, HandleArgs(id));
    fields, handles, keys := d.Fields(), registries.handles, registries.draggables.Keys;
  }

  /**
   * Both render orders with the same arguments: the registries end the
   * same, and the draggable ends with the same fields exactly when the
   * handle resolves to the handle element at creation, that is, when no
   * handle argument is passed or the one passed is that element.
   */
  method EitherOrder(guid: string, id: Id, named: DraggableArgs, el: Element, h: Element)
    returns (sameFields: bool, sameHandles: bool, sameKeys: bool)
    requires named.id == Some(id)
    ensures sameHandles && sameKeys
    ensures sameFields <==> named.handle == Absent || named.handle == Passed(Some(h))
  {
    var f1, h1, k1 := HandleThenDraggable(guid, id, named, el, h);
    var f2, h2, k2 := DraggableThenHandle(guid, id, named, el, h);
    sameFields, sameHandles, sameKeys := f1 == f2, h1 == h2, k1 == k2;
    if !(named.handle == Absent || named.handle == Passed(Some(h))) {
      assert f1.handle != f2.handle;
    }
  }

  /** The same for a sortable, which shares the draggable registry. */
  method SortableThenHandle(guid: string, named: SortableArgs, id: Id) returns (h: Element, handle: Option<Element>)
    requires named.id == Some(id)
    ensures handle == Some(h)
  {
    var registries := new Registries();
    var manager := new Manager(guid, map[]);
    var sm := new SortableModifier(manager, registries);
    var el := new Element();
    sm.Modify(el, named);
    var hm := new HandleModifier(manager, registries);
    h := new Element();
    hm.Modify(h, HandleArgs(id));
    handle := sm.sortable.handle;
  }

  /** For a truthy id, tearing down the handle clears the draggable's handle and the registry's. */
  method HandleTeardownClears(guid: string, id: Id) returns (handle: Option<Element>, registered: Option<Element>)
    requires Truthy(Some(id))
    ensures handle == None && registered == None
  {
    var registries, manager, d, k := RegisteredDraggable(guid, id);
    var hm := new HandleModifier(manager, registries);
    var h := new Element();
    hm.Modify(h, HandleArgs(id));
    assert hm.Key() == k && d.handle == Some(h);
    hm.Cleanup();
    handle := d.handle;
    registered := registries.GetHandle(k);
  }

  /**
   * A handle whose id is falsy files its element under the empty key and
   * onto an idless draggable, and its teardown does nothing, so both
   * outlive it.
   */
  method FalsyIdHandleOutlivesTeardown(guid: string, id: Id) returns (h: Element, handle: Option<Element>, registered: Option<Element>)
    requires !Truthy(Some(id))
    ensures handle == Some(h) && registered == Some(h)
  {
    var registries := new Registries();
    var manager := new Manager(guid, map[]);
    var dm := new DraggableModifier(manager, registries);
    var el := new Element();
    dm.Modify(el, JustId(None));
    var d := dm.draggable;
    var hm := new HandleModifier(manager, registries);
    h := new Element();
    hm.Modify(h, HandleArgs(id));
    assert hm.Key() == "" && d.handle == Some(h);
    hm.Cleanup();
    handle := d.handle;
    registered := registries.GetHandle("");
  }

  /**
   * Two handles for one id, A then B; A is torn down. The draggable keeps
   * B, because A only clears a handle that is still its own, but the
   * registry loses the key, because A deletes it unconditionally.
   */
  method HandleTeardownGuard(guid: string, id: Id) returns (b: Element, handle: Option<Element>, registered: Option<Element>)
    requires Truthy(Some(id))
    ensures handle == Some(b)
    ensures registered == None
  {
    var registries, manager, d, k := RegisteredDraggable(guid, id);
    var ha := new HandleModifier(manager, registries);
    var a := new Element();
    ha.Modify(a, HandleArgs(id));
    assert ha.Key() == k && registries.draggables[k] == DraggableEntry(d);
    var hb := new HandleModifier(manager, registries);
    b := new Element();
    hb.Modify(b, HandleArgs(id));
    assert hb.Key() == k && d.handle == Some(b) && a != b;
    ha.Cleanup();
    handle := d.handle;
    registered := registries.GetHandle(k);
  }

  /**
   * A re-render with a new id moves the modifier's key but not the registry
   * entry: the old key keeps the draggable and the new key has none. On
   * teardown only the new key is deleted, so the old key is left holding a
   * destroyed draggable.
   */
  method StaleKeyAfterIdChange(guid: string, first: Id, second: Id)
    returns (oldKeyKept: bool, newKeyRegistered: bool, staleDestroyCount: nat)
    requires Truthy(Some(first)) && Truthy(Some(second))
    requires DeriveKey(guid, Some(first)) != DeriveKey(guid, Some(second))
    ensures oldKeyKept && !newKeyRegistered
    ensures staleDestroyCount == 1
  {
    var registries := new Registries();
    var manager := new Manager(guid, map[]);
    var dm := new DraggableModifier(manager, registries);
    var el := new Element();
    dm.Modify(el, JustId(Some(first)));
    var d := dm.draggable;
    dm.Modify(el, JustId(Some(second)));
    newKeyRegistered := registries.GetDraggable(DeriveKey(guid, Some(second))).Some?;
    dm.Cleanup();
    var entry := registries.GetDraggable(DeriveKey(guid, Some(first)));
    oldKeyKept := entry == Some(DraggableEntry(d));
    staleDestroyCount := d.destroyCount;
  }

  /**
   * Two draggables without ids both use the empty key: the second replaces
   * the first in the registry, and tearing down the first removes the
   * second's entry.
   */
  method IdlessShareEmptyKey(guid: string) returns (afterSecond: Option<Entry>, second: Draggable?, afterTeardown: Option<Entry>)
    ensures second != null && afterSecond == Some(DraggableEntry(second))
    ensures afterTeardown == None
  {
    var registries := new Registries();
    var manager := new Manager(guid, map[]);
    var one := new DraggableModifier(manager, registries);
    var two := new DraggableModifier(manager, registries);
    var e1 := new Element();
    var e2 := new Element();
    one.Modify(e1, JustId(None));
    two.Modify(e2, JustId(None));
    second := two.draggable;
    afterSecond := registries.GetDraggable("");
    one.Cleanup();
    afterTeardown := registries.GetDraggable("");
  }

  /**
   * A re-render updates the draggable in place: the same object stays
   * registered under the same key and is not destroyed.
   */
  method RerenderKeepsObject(guid: string, id: Id, named: DraggableArgs)
    returns (same: bool, stillRegistered: bool, destroyCount: nat)
    requires named.id == Some(id)
    ensures same && stillRegistered && destroyCount == 0
  {
    var registries := new Registries();
    var manager := new Manager(guid, map[]);
    var dm := new DraggableModifier(manager, registries);
    var el := new Element();
    dm.Modify(el, named);
    var d := dm.draggable;
    var el2 := new Element();
    dm.Modify(el2, named);
    same := dm.draggable == d;
    stillRegistered := registries.GetDraggable(DeriveKey(guid, Some(id))) == Some(DraggableEntry(d));
    destroyCount := d.destroyCount;
  }

  /**
   * A session torn down twice: every subscription is released once, by the
   * first teardown, while the manager is destroyed twice.
   */
  method DoubleTeardown(guid: string, args: DragDropArgs)
    returns (subscribed: seq<Subscription>, unsubscribed: seq<Subscription>, destroyCount: nat)
    ensures unsubscribed == subscribed == Subscriptions(args, Events)
    ensures destroyCount == 2
  {
    var registries := new Registries();
    var session := new DragDrop(guid, registries, args);
    session.Cleanup();
    session.Cleanup();
    subscribed := session.manager.subscribed;
    unsubscribed := session.manager.unsubscribed;
    destroyCount := session.manager.destroyCount;
  }

  /**
   * Two sessions with distinct guids never share a registry key for
   * truthy ids, so their modifiers do not see each other's entries.
   */
  lemma SessionsDoNotShareKeys(g1: string, g2: string, id1: Id, id2: Id)
    requires '_' !in g1 && '_' !in g2 && g1 != g2
    requires Truthy(Some(id1)) && Truthy(Some(id2))
    ensures DeriveKey(g1, Some(id1)) != DeriveKey(g2, Some(id2))
  {
    KeyInjective(g1, Some(id1), g2, Some(id2));
  }
}
