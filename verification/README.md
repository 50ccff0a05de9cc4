# dnd-kit-ember: registries and modifier lifecycles in Dafny

dnd-kit-ember binds rendered Ember elements to dnd-kit drag-and-drop
engine objects. This project models the core of that binding:

- **Key derivation.** A draggable, sortable or handle modifier files its
  object under the key `guidFor(manager) + "_" + id`, or under `''` when the
  id is falsy (`keys.dfy`).
- **The two registries.** `draggableRegistry` maps a key to a Draggable or
  Sortable and `handleRegistry` maps a key to a handle element. They are one
  shared `Registries` object that every modifier is given
  (`registries.dfy`).
- **The Draggable, Sortable and Droppable modifiers.** The first render
  creates one engine object, and Draggable and Sortable also register it.
  Later renders overwrite that object's fields in place. Teardown
  unregisters and destroys it (`draggable.dfy`, `sortable.dfy`,
  `droppable.dfy`).
  - Each render is specified by a pure function, `Created` or `Updated`,
    of the arguments and the previous fields.
  - The methods are proved to write exactly those fields.
  - Lemmas state what the functions promise: defaults, the fields that are
    always overwritten, and the collision detector and data that survive a
    render which omits them.
- **The Handle modifier.** It publishes its element in `handleRegistry`
  and pushes it onto the draggable or sortable registered under the same
  key. On teardown it withdraws both, the second only while that handle is
  still its own (`handle.dfy`).
- **The `DragDrop` session component.** It builds the manager options from
  the supplied arguments, subscribes the supplied handlers among six fixed
  events in a fixed order, and hands out modifier classes bound to its
  manager. Its teardown releases the subscriptions and destroys the
  manager (`dragdrop.dfy`).
- **Whole lifecycles over fresh registries** (`scenarios.dfy`):
  - handle and draggable reach the same registries whichever renders
    first, and the same draggable fields unless a different `handle`
    argument is passed, which makes the order matter;
  - the handle teardown guard, and a handle with a falsy id that outlives
    its teardown;
  - the stale registry entry left by an id change;
  - idless modifiers sharing the `''` key;
  - a repeated session teardown.

Engine objects (`Manager`, `Draggable`, `Sortable`, `Droppable`) are classes
with the fields the core assigns. Each counts `destroy()` calls, so that
"destroyed once" and "destroyed twice" can both be stated. JavaScript
specifics are written out:

- undefined, `""` and `0` ids are falsy;
- numbers in a template literal print in decimal;
- `named.k ?? d` differs from `{ k: d, ...named }`. An argument passed as
  undefined overrides the default in the spread but not under `??`. The
  handle and plugins arguments are therefore modelled as `Arg`, which is
  either absent or passed.

A new Sortable's plugin list is a default the caller can replace.
`plugins: [SortableKeyboardPlugin]` comes before `...named` in the creation
bag (src/modifiers/sortable.ts:75-85). A caller's `plugins` argument,
even one passed as undefined, therefore replaces the keyboard-only list.
The comment at src/modifiers/sortable.ts:78-79 calls that list a default.
`SortableModifiers.CreatedPlugins` states both cases.

## Model

| member | source | states |
|---|---|---|
| Keys.DeriveKey | src/modifiers/draggable.ts:30-37 | the key is empty exactly when the id is falsy (undefined, "" or 0); otherwise it is the manager token, "_" and the id's text |
| Keys.NumTextInjective | src/modifiers/draggable.ts:36 | two integer ids rendered into a key by the template literal give the same text only when they are equal |
| Keys.KeyDeterminesIdText | src/modifiers/draggable.ts:35-36 | under one manager, two truthy ids give the same key if and only if they render to the same text |
| Keys.StringAndNumberIdsShareKey | src/modifiers/sortable.ts:40-41 | the string id "12" and the number id 12 derive the same key |
| Keys.KeyDeterminesManager | src/modifiers/handle.ts:35-36 | for one truthy id, two managers' keys are equal if and only if their tokens are equal |
| Keys.KeyInjective | src/modifiers/handle.ts:30-37 | for tokens without "_", two keys of truthy ids are equal if and only if the tokens and the id texts are equal |
| Values.Lookup | src/modifiers/registries.ts:3-4 | `Map.get` gives a value exactly when the key is present, and that value is the stored one |
| Registry.Registries.constructor | src/modifiers/registries.ts:3-4 | both registries start empty |
| Registry.Registries.SetDraggable | src/modifiers/registries.ts:3 | a set replaces the one entry under its key and leaves the handle registry unchanged |
| Registry.Registries.DeleteDraggable | src/modifiers/registries.ts:3 | a delete removes exactly that key and leaves the handle registry unchanged |
| Registry.Registries.SetHandle | src/modifiers/registries.ts:4 | a set replaces the one entry under its key and leaves the draggable registry unchanged |
| Registry.Registries.DeleteHandle | src/modifiers/registries.ts:4 | a delete removes exactly that key and leaves the draggable registry unchanged |
| Engine.Manager.constructor | dist/index.js:238 | a new manager keeps the options it is given and starts with no subscriptions and no destruction |
| Engine.Manager.AddEventListener | dist/index.js:250-251 | subscribing appends one subscription for that event and handler and returns its unsubscribe callback |
| Engine.Manager.Unsubscribe | dist/index.js:276-278 | invoking an unsubscribe callback records that one subscription as released and changes nothing else |
| Engine.Manager.Destroy | dist/index.js:280 | destroying the manager counts one more destruction and changes nothing else |
| Engine.Draggable.constructor | src/modifiers/draggable.ts:59-62 | a new Draggable holds the creation bag it was given and is not destroyed |
| Engine.Draggable.Destroy | src/modifiers/draggable.ts:71 | destroying counts one more destruction and keeps every field |
| Engine.Sortable.constructor | src/modifiers/sortable.ts:75-85 | a new Sortable holds the creation bag it was given and is not destroyed |
| Engine.Sortable.Destroy | src/modifiers/sortable.ts:95 | destroying counts one more destruction and keeps every field |
| Engine.Droppable.constructor | src/modifiers/droppable.ts:48 | a new Droppable holds the creation bag it was given and is not destroyed |
| Engine.Droppable.Destroy | src/modifiers/droppable.ts:54 | destroying counts one more destruction and keeps every field |
| Engine.Entry.SetHandle | src/modifiers/handle.ts:50 | assigning `handle` on a registered draggable or sortable changes its handle and nothing else |
| DraggableModifiers.Overwrite | src/modifiers/draggable.ts:46-57 | the update branch leaves the draggable's fields equal to `Updated` of its previous fields and does not destroy it |
| DraggableModifiers.DraggableModifier.constructor | src/modifiers/draggable.ts:24-28 | a bound modifier starts with no draggable and no id |
| DraggableModifiers.DraggableModifier.Key | src/modifiers/draggable.ts:30-37 | the key is empty exactly when the current id is falsy; otherwise it starts with the manager's token and "_" |
| DraggableModifiers.DraggableModifier.Modify | src/modifiers/draggable.ts:39-65 | the first render creates one fresh Draggable from the creation bag, with the registry's handle for the new key, and registers it under that key; every later render updates the same object in place and leaves both registries unchanged |
| DraggableModifiers.DraggableModifier.Cleanup | src/modifiers/draggable.ts:67-74 | with a draggable: deletes the current key, destroys it exactly once and clears the reference; without one (e.g. a second call): changes no registry |
| DraggableModifiers.UpdateRemembersOnlyData | src/modifiers/draggable.ts:46-57 | a re-render's fields do not depend on the previous ones except data, which is kept when the render passes none and replaced when it passes some |
| DraggableModifiers.UpdateIdempotent | src/modifiers/draggable.ts:46-57 | rendering twice with the same arguments gives the same fields as rendering once |
| DraggableModifiers.UpdateDefaults | src/modifiers/draggable.ts:49-53 | on a re-render the handle is the argument or the registry's handle for the recomputed key, feedback defaults to 'default', disabled is true exactly when passed as true, and type, sensors, id and element always take the new values |
| DraggableModifiers.UpdateAfterCreate | src/modifiers/draggable.ts:46-64 | re-rendering with the first render's arguments changes only the feedback and disabled defaults, as long as the handle resolves the same way |
| DraggableModifiers.CreatedHandle | src/modifiers/draggable.ts:58-64 | on creation a passed handle argument wins over the registry's handle, even when passed as undefined, and the next render restores the registry's handle |
| SortableModifiers.Overwrite | src/modifiers/sortable.ts:51-73 | the update branch leaves the sortable's fields equal to `Updated` of its previous fields and does not destroy it |
| SortableModifiers.OverwritePlacement | src/modifiers/sortable.ts:52-56 | the first group of writes sets id, element, index, group and handle and no other field |
| SortableModifiers.OverwriteBehaviour | src/modifiers/sortable.ts:57-62 | the second group of writes sets type, accept, disabled (default false), feedback (default 'default'), alignment and modifiers and no other field |
| SortableModifiers.OverwriteCollision | src/modifiers/sortable.ts:63-73 | the last group sets sensors, collision priority and transition (default the engine's), and sets the collision detector and data only when given |
| SortableModifiers.SortableModifier.constructor | src/modifiers/sortable.ts:29-33 | a bound modifier starts with no sortable and no id |
| SortableModifiers.SortableModifier.Key | src/modifiers/sortable.ts:35-42 | the key is empty exactly when the current id is falsy; otherwise it starts with the manager's token and "_" |
| SortableModifiers.SortableModifier.Modify | src/modifiers/sortable.ts:44-89 | the first render creates one fresh Sortable from the creation bag and registers it under the key in the draggable registry; every later render updates the same object in place and neither re-creates nor re-registers it |
| SortableModifiers.SortableModifier.Cleanup | src/modifiers/sortable.ts:91-98 | with a sortable: deletes the current key, destroys it exactly once and clears the reference; a second call changes no registry |
| SortableModifiers.UpdateRemembers | src/modifiers/sortable.ts:51-73 | a re-render's fields do not depend on the previous ones except the collision detector and data, which are kept when not given, and the plugins, which only creation sets |
| SortableModifiers.UpdateIdempotent | src/modifiers/sortable.ts:51-73 | rendering twice with the same arguments gives the same fields as rendering once |
| SortableModifiers.UpdateDefaults | src/modifiers/sortable.ts:54-65 | on a re-render disabled defaults to false, feedback to 'default' and the transition to the engine's default; index takes the argument; group, type, accept, alignment, modifiers, sensors and collision priority take the argument even when undefined; the handle is the argument or the registry's |
| SortableModifiers.CreatedPlugins | src/modifiers/sortable.ts:75-85 | without a plugins argument a new sortable has the keyboard plugin and not the optimistic-sorting plugin; a plugins argument replaces that list |
| DroppableModifiers.DroppableModifier.constructor | src/modifiers/droppable.ts:21-25 | a bound modifier starts with no droppable; it holds no registries |
| DroppableModifiers.DroppableModifier.Modify | src/modifiers/droppable.ts:27-50 | the first render creates one fresh Droppable from the creation bag; later renders update the same object in place; only the modifier and its droppable are written |
| DroppableModifiers.DroppableModifier.Cleanup | src/modifiers/droppable.ts:52-57 | destroys the droppable exactly once and clears the reference; a second call does nothing |
| DroppableModifiers.UpdateRemembers | src/modifiers/droppable.ts:32-46 | a re-render's fields do not depend on the previous ones except the collision detector and data, which are kept when not given |
| DroppableModifiers.UpdateDefaults | src/modifiers/droppable.ts:35-38 | on a re-render accept, collision priority and type take the argument even when undefined, and disabled is a boolean that is true exactly when passed as true |
| DroppableModifiers.UpdateIdempotent | src/modifiers/droppable.ts:32-46 | rendering twice with the same arguments gives the same fields as rendering once |
| HandleModifiers.HandleModifier.constructor | src/modifiers/handle.ts:24-28 | a bound handle modifier starts with no id and no element |
| HandleModifiers.HandleModifier.Key | src/modifiers/handle.ts:30-37 | the key is empty exactly when the id is falsy or there is no manager |
| HandleModifiers.HandleModifier.Modify | src/modifiers/handle.ts:39-52 | records element and id, sets the handle registry's entry for the key to the element, and gives an entry registered under that key this element as its handle; the draggable registry keeps its entries |
| HandleModifiers.HandleModifier.Cleanup | src/modifiers/handle.ts:54-63 | with a truthy id: deletes the handle key, and clears the registered entry's handle only if it is still this element; without one: changes nothing; never adds or removes draggable entries |
| DragDropComponent.ManagerOptions | dist/index.js:234-238 | the options hold sensors, plugins and modifiers exactly when supplied, with the supplied values, and no other key |
| DragDropComponent.BuildOptions | dist/index.js:234-237 | building the options one guarded assignment at a time gives `ManagerOptions` |
| DragDropComponent.SubscribedIff | dist/index.js:249-272 | a subscription is made for an event and handler exactly when the event is considered and that handler is the one supplied for it |
| DragDropComponent.SubscriptionsOrdered | dist/index.js:249-272 | subscriptions follow the fixed event order, so no event is subscribed twice |
| DragDropComponent.SessionSubscriptions | dist/index.js:249-272 | over the six events: one subscription per supplied handler, none for an unsupplied one, in the order beforedragstart, dragstart, dragmove, dragover, dragend, collision |
| DragDropComponent.HandlerCount | dist/index.js:249-272 | the session keeps as many unsubscribe callbacks as there are supplied handlers |
| DragDropComponent.SubscribeIfSupplied | dist/index.js:249-252 | one guarded block subscribes the event's handler and pushes its callback only when the handler is supplied |
| DragDropComponent.DragDrop.constructor | dist/index.js:232-274 | one fresh manager with `ManagerOptions`; the callbacks kept are exactly the manager's subscriptions, which are `Subscriptions` over the six events |
| DragDropComponent.DragDrop.Cleanup | dist/index.js:275-281 | invokes every kept callback in list order, empties the list and destroys the manager once more, without a guard against a second call |
| DragDropComponent.DragDrop.NewDraggableModifier | dist/index.js:282-284 | the draggable modifier class is bound to this session's manager and the shared registries |
| DragDropComponent.DragDrop.NewDroppableModifier | dist/index.js:288-290 | the droppable modifier class is bound to this session's manager |
| DragDropComponent.DragDrop.NewSortableModifier | dist/index.js:294-296 | the sortable modifier class is bound to this session's manager and the shared registries |
| DragDropComponent.DragDrop.NewHandleModifier | dist/index.js:300-302 | the handle modifier class is bound to this session's manager and the shared registries |
| Scenarios.HandleThenDraggable | src/modifiers/draggable.ts:58-64 | a handle rendered before its draggable is the registry handle the draggable is created with: its fields are the creation bag with that handle underneath the arguments; both registries hold the one shared key |
| Scenarios.DraggableThenHandle | src/modifiers/handle.ts:44-51 | a handle rendered after its draggable overwrites the draggable's handle, whatever handle argument it was created with; both registries hold the one shared key |
| Scenarios.EitherOrder | src/modifiers/handle.ts:44-51 | with the same arguments, both render orders leave the same registries, and the same draggable fields exactly when no handle argument is passed or the one passed is the handle element |
| Scenarios.SortableThenHandle | src/modifiers/handle.ts:48-51 | a handle rendered after a sortable with the same id becomes the sortable's handle |
| Scenarios.HandleTeardownClears | src/modifiers/handle.ts:54-63 | for a truthy id, tearing down a draggable's handle clears the draggable's handle and the registry's entry |
| Scenarios.FalsyIdHandleOutlivesTeardown | src/modifiers/handle.ts:44-63 | a handle with a falsy id files its element under '' and on an idless draggable, and its teardown leaves both in place |
| Scenarios.HandleTeardownGuard | src/modifiers/handle.ts:56-61 | after handles A then B for one id, tearing down A keeps B on the draggable but removes the key from the handle registry |
| Scenarios.StaleKeyAfterIdChange | src/modifiers/draggable.ts:44-74 | after a re-render with a new id, the old key still holds the draggable and the new key has none; teardown deletes only the new key, leaving the old key on a destroyed draggable |
| Scenarios.IdlessShareEmptyKey | src/modifiers/draggable.ts:30-69 | two idless draggables share the key '': the second replaces the first, and tearing down the first removes the second's entry |
| Scenarios.RerenderKeepsObject | src/modifiers/draggable.ts:46-57 | a re-render keeps the same object registered under the same key, undestroyed |
| Scenarios.DoubleTeardown | dist/index.js:275-281 | tearing a session down twice releases each subscription once and destroys the manager twice |
| Scenarios.SessionsDoNotShareKeys | src/modifiers/draggable.ts:35-36 | two sessions with distinct tokens without "_" never derive the same key for truthy ids |

## Left out

- Engine internals are not part of this model: collision detection, sensors, plugins, drag-operation state and DOM measurement. The engine constructors keep the bag they are given. Defaults or normalisation the engine applies to it are not modelled.
- Draggable and Droppable creation bags carry only the arguments their update paths also write. Other engine inputs reach the engine only through the creation spread (for a draggable, e.g. `modifiers` or `alignment`). They are not modelled.
- Ember plumbing is not modelled: `registerDestructor`, the `Modifier` and `Component` base classes, and the template with its `hash` yield (dist/index.js:306-313). `Modify` and `Cleanup` are methods the environment calls, and Ember's once-only destructor scheduling is not modelled.
- The render-completion bridge, a Promise resolved by `scheduleOnce('render')` (dist/index.js:240-247), is asynchronous framework scheduling. It is left out.
- `guidFor` is a `guid` string supplied when the manager is created. How Ember generates it is not modelled. Key injectivity across managers is proved for tokens without "_", which is the form Ember's tokens take.
- Number ids are integers. Fractional numbers and the exponent forms JavaScript prints for very large numbers are not modelled.
- An argument passed as a falsy value (`0`, `""`, `false`) is modelled as absent wherever the code tests truthiness. This covers `data`, `collisionDetector` and the session's arguments.
- DragDropComponent.DragDrop.NewDraggableModifier: the `draggableModifier` getter returns a bound class, and `@cached` makes it return the same class object on every access. Class identity is not modelled. This member models applying the bound class, whose manager is a constant of the session and so cannot change between accesses.
- DragDropComponent.DragDrop.NewDroppableModifier: the same for the `droppableModifier` getter; the `@cached` identity of the class it returns is not modelled.
- DragDropComponent.DragDrop.NewSortableModifier: the same for the `sortableModifier` getter; the `@cached` identity of the class it returns is not modelled.
- DragDropComponent.DragDrop.NewHandleModifier: the same for the `handleModifier` getter; the `@cached` identity of the class it returns is not modelled.
- The bundled copies of the modifiers in dist/index.js:17-227 are modelled once, from the src files.
- Event names are the constructors of `EventName`, standing for 'beforedragstart', 'dragstart', 'dragmove', 'dragover', 'dragend' and 'collision'.
- Type and re-export files carry no logic and are not modelled: src/types.ts, src/index.ts and the declarations.
