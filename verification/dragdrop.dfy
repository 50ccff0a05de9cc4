/**
 * The `DragDrop` session component: builds the manager's options from the
 * supplied arguments, subscribes each supplied event handler to the
 * manager's monitor, hands out modifier classes bound to its manager, and on
 * teardown runs every unsubscribe callback and destroys the manager.
 */
module DragDropComponent {
  import opened Values
  import opened Engine
  import opened Registry
  import DraggableModifiers
  import DroppableModifiers
  import SortableModifiers
  import HandleModifiers

  /**
   * The component's arguments. An argument the template leaves out, or
   * passes as a falsy value, is `None`.
   */
  datatype DragDropArgs = DragDropArgs(
    sensors: Option<Opaque>,
    plugins: Option<Opaque>,
    modifiers: Option<Opaque>,
    onBeforeDragStart: Option<Opaque>,
    onDragStart: Option<Opaque>,
    onDragMove: Option<Opaque>,
    onDragOver: Option<Opaque>,
    onDragEnd: Option<Opaque>,
    onCollision: Option<Opaque>)

  /** `options` with `name` set to the argument when it is supplied. */
  function PutIfSupplied(options: map<string, Opaque>, name: string, arg: Option<Opaque>): map<string, Opaque> {
    if arg.Some? then options[name := arg.value] else options
  }

  /**
   * The options object the manager is constructed with: exactly the
   * supplied ones of sensors, plugins and modifiers, so that an unset one
   * leaves the engine's default in place rather than overriding it.
   */
  function ManagerOptions(args: DragDropArgs): (options: map<string, Opaque>)
    ensures options.Keys <= {"sensors", "plugins", "modifiers"}
    ensures "sensors" in options <==> args.sensors.Some?
    ensures "plugins" in options <==> args.plugins.Some?
    ensures "modifiers" in options <==> args.modifiers.Some?
    ensures args.sensors.Some? ==> options["sensors"] == args.sensors.value
    ensures args.plugins.Some? ==> options["plugins"] == args.plugins.value
    ensures args.modifiers.Some? ==> options["modifiers"] == args.modifiers.value
  {
    PutIfSupplied(PutIfSupplied(PutIfSupplied(map[], "sensors", args.sensors),
                                "plugins", args.plugins),
                  "modifiers", args.modifiers)
  }

  /** The constructor's first step: the options object, built one supplied argument at a time. */
  method BuildOptions(args: DragDropArgs) returns (options: map<string, Opaque>)
    ensures options == ManagerOptions(args)
  {
    options := map[];
    if args.sensors.Some? { options := options["sensors" := args.sensors.value]; }
    if args.plugins.Some? { options := options["plugins" := args.plugins.value]; }
    if args.modifiers.Some? { options := options["modifiers" := args.modifiers.value]; }
  }

  /** The events in the order the constructor considers them. */
  const Events: seq<EventName> := [BeforeDragStart, DragStart, DragMove, DragOver, DragEnd, Collision]

  /** The position of `e` in `Events`. */
  function Rank(e: EventName): nat {
    match e
    case BeforeDragStart => 0
    case DragStart => 1
    case DragMove => 2
    case DragOver => 3
    case DragEnd => 4
    case Collision => 5
  }

  /** `Rank` indexes `Events`: every event is considered, at its rank. */
  lemma RankIndexes(e: EventName)
    ensures Rank(e) < |Events| && Events[Rank(e)] == e
  {
  }

  /** The handler argument for `e` (`onBeforeDragStart` for 'beforedragstart', and so on). */
  function HandlerFor(args: DragDropArgs, e: EventName): Option<Opaque> {
    match e
    case BeforeDragStart => args.onBeforeDragStart
    case DragStart => args.onDragStart
    case DragMove => args.onDragMove
    case DragOver => args.onDragOver
    case DragEnd => args.onDragEnd
    case Collision => args.onCollision
  }

  /** The subscription made for `e`: one when its handler is supplied, none otherwise. */
  function SubscriptionFor(args: DragDropArgs, e: EventName): seq<Subscription> {
    if HandlerFor(args, e).Some? then [Subscription(e, HandlerFor(args, e).value)] else []
  }

  /** The subscriptions made for `events`, in order. */
  function Subscriptions(args: DragDropArgs, events: seq<EventName>): seq<Subscription> {
    if events == [] then [] else SubscriptionFor(args, events[0]) + Subscriptions(args, events[1..])
  }

  /** `events` in strictly increasing `Rank`: each event at most once, in constructor order. */
  predicate RankOrdered(events: seq<EventName>) {
    forall i, j :: 0 <= i < j < |events| ==> Rank(events[i]) < Rank(events[j])
  }

  /** A subscription is made for an event exactly when the event is considered and its handler is supplied. */
  lemma {:induction false} SubscribedIff(args: DragDropArgs, events: seq<EventName>, s: Subscription)
    ensures s in Subscriptions(args, events) <==> s.event in events && HandlerFor(args, s.event) == Some(s.handler)
    decreases |events|
  {
    if events != [] {
      SubscribedIff(args, events[1..], s);
      assert events == [events[0]] + events[1..];
    }
  }

  /** A suffix of an ordered sequence is ordered. */
  lemma TailOrdered(events: seq<EventName>)
    requires events != [] && RankOrdered(events)
    ensures RankOrdered(events[1..])
  {
    var tail := events[1..];
    forall i, j | 0 <= i < j < |tail|
      ensures Rank(tail[i]) < Rank(tail[j])
    {
      assert tail[i] == events[i + 1] && tail[j] == events[j + 1];
    }
  }

  /** An event ranked below every event of an ordered sequence can be put in front of it. */
  lemma ConsOrdered(e: EventName, rest: seq<EventName>)
    requires RankOrdered(rest)
    requires forall k :: 0 <= k < |rest| ==> Rank(e) < Rank(rest[k])
    ensures RankOrdered([e] + rest)
  {
    var all := [e] + rest;
    forall i, j | 0 <= i < j < |all|
      ensures Rank(all[i]) < Rank(all[j])
    {
      assert all[j] == rest[j - 1];
      if i > 0 {
        assert all[i] == rest[i - 1];
      }
    }
  }

  /** Every subscription made for the later events is for an event ranked above the first. */
  lemma HeadBeforeRest(args: DragDropArgs, events: seq<EventName>)
    requires events != [] && RankOrdered(events)
    ensures forall k :: 0 <= k < |EventsOf(Subscriptions(args, events[1..]))| ==>
      Rank(events[0]) < Rank(EventsOf(Subscriptions(args, events[1..]))[k])
  {
    var tail := events[1..];
    var rest := Subscriptions(args, tail);
    var later := EventsOf(rest);
    forall k | 0 <= k < |later|
      ensures Rank(events[0]) < Rank(later[k])
    {
      SubscribedIff(args, tail, rest[k]);
      var m :| 0 <= m < |tail| && tail[m] == rest[k].event;
      assert events[m + 1] == later[k];
    }
  }

  /** The events of a concatenation are the concatenated events. */
  lemma {:induction false} EventsOfAppend(xs: seq<Subscription>, ys: seq<Subscription>)
    ensures EventsOf(xs + ys) == EventsOf(xs) + EventsOf(ys)
  {
    var l, r := EventsOf(xs + ys), EventsOf(xs) + EventsOf(ys);
    assert |l| == |r|;
    forall i | 0 <= i < |l|
      ensures l[i] == r[i]
    {
      if i < |xs| {
        assert (xs + ys)[i] == xs[i];
      } else {
        assert (xs + ys)[i] == ys[i - |xs|];
      }
    }
  }

  /** The subscriptions follow the order of the events, so no event is subscribed twice. */
  lemma {:induction false} SubscriptionsOrdered(args: DragDropArgs, events: seq<EventName>)
    requires RankOrdered(events)
    ensures RankOrdered(EventsOf(Subscriptions(args, events)))
    decreases |events|
  {
    if events != [] {
      var head, rest := SubscriptionFor(args, events[0]), Subscriptions(args, events[1..]);
      TailOrdered(events);
      SubscriptionsOrdered(args, events[1..]);
      EventsOfAppend(head, rest);
      if head != [] {
        HeadBeforeRest(args, events);
        assert EventsOf(head) == [events[0]];
        ConsOrdered(events[0], EventsOf(rest));
      }
    }
  }

  /** The events of `subs`, in order. */
  function EventsOf(subs: seq<Subscription>): (events: seq<EventName>)
    ensures |events| == |subs|
    ensures forall i :: 0 <= i < |subs| ==> events[i] == subs[i].event
  {
    if subs == [] then [] else [subs[0].event] + EventsOf(subs[1..])
  }

  /**
   * The session's subscriptions: one for each supplied handler and none
   * for an unsupplied one, in the order of `Events`, no event twice.
   */
  lemma SessionSubscriptions(args: DragDropArgs)
    ensures forall s :: s in Subscriptions(args, Events) <==> HandlerFor(args, s.event) == Some(s.handler)
    ensures RankOrdered(EventsOf(Subscriptions(args, Events)))
  {
    forall s
      ensures s in Subscriptions(args, Events) <==> HandlerFor(args, s.event) == Some(s.handler)
    {
      SubscribedIff(args, Events, s);
      RankIndexes(s.event);
    }
    assert RankOrdered(Events) by {
      forall i, j | 0 <= i < j < |Events|
        ensures Rank(Events[i]) < Rank(Events[j])
      {
        RankIndexes(Events[i]);
        RankIndexes(Events[j]);
      }
    }
    SubscriptionsOrdered(args, Events);
  }

  /** The events whose handler argument is supplied. */
  function SuppliedEvents(args: DragDropArgs): set<EventName> {
    set e | e in Events && HandlerFor(args, e).Some?
  }

  /** A sequence in strictly increasing `Rank` holds as many distinct events as it is long. */
  lemma {:induction false} OrderedDistinct(events: seq<EventName>)
    requires RankOrdered(events)
    ensures |set e | e in events| == |events|
    decreases |events|
  {
    if events != [] {
      OrderedDistinct(events[1..]);
      assert (set e | e in events) == {events[0]} + (set e | e in events[1..]);
      assert events[0] !in events[1..];
    }
  }

  /** The session keeps one unsubscribe callback per supplied handler. */
  lemma HandlerCount(args: DragDropArgs)
    ensures |Subscriptions(args, Events)| == |SuppliedEvents(args)|
  {
    var subs := Subscriptions(args, Events);
    var events := EventsOf(subs);
    SessionSubscriptions(args);
    OrderedDistinct(events);
    forall e | e in events
      ensures e in SuppliedEvents(args)
    {
      var i :| 0 <= i < |events| && events[i] == e;
      assert subs[i] in subs;
      RankIndexes(e);
    }
    forall e | e in SuppliedEvents(args)
      ensures e in events
    {
      var s := Subscription(e, HandlerFor(args, e).value);
      assert s in subs;
      var i :| 0 <= i < |subs| && subs[i] == s;
      assert events[i] == e;
    }
    assert (set e | e in events) == SuppliedEvents(args);
  }

  /** Considering one more event appends its subscription, if any. */
  lemma {:induction false} SubscriptionsAppend(args: DragDropArgs, events: seq<EventName>, e: EventName)
    ensures Subscriptions(args, events + [e]) == Subscriptions(args, events) + SubscriptionFor(args, e)
    decreases |events|
  {
    if events == [] {
      assert [e][1..] == [];
    } else {
      assert (events + [e])[1..] == events[1..] + [e];
      SubscriptionsAppend(args, events[1..], e);
    }
  }

  /** The subscriptions for the first `k + 1` events extend those for the first `k`. */
  lemma PrefixStep(args: DragDropArgs, k: nat)
    requires k < |Events|
    ensures Subscriptions(args, Events[..k + 1]) == Subscriptions(args, Events[..k]) + SubscriptionFor(args, Events[k])
  {
    assert Events[..k + 1] == Events[..k] + [Events[k]];
    SubscriptionsAppend(args, Events[..k], Events[k]);
  }

  /**
   * The guarded block for `Events[k]`: when its handler is supplied,
   * subscribe it and push the unsubscribe callback onto `fns`, so that the
   * callbacks kept so far are those of the first `k + 1` events.
   */
  method SubscribeIfSupplied(m: Manager, args: DragDropArgs, k: nat, fns: seq<Subscription>)
    returns (fns': seq<Subscription>)
    requires k < |Events|
    requires fns == m.subscribed == Subscriptions(args, Events[..k])
    modifies m
    ensures fns' == m.subscribed == Subscriptions(args, Events[..k + 1])
    ensures m.unsubscribed == old(m.unsubscribed) && m.destroyCount == old(m.destroyCount)
  {
    PrefixStep(args, k);
    fns' := fns;
    var handler := HandlerFor(args, Events[k]);
    if handler.Some? {
      var cleanup := m.AddEventListener(Events[k], handler.value);
      fns' := fns' + [cleanup];
    }
  }

  class DragDrop {
    const manager: Manager
    const registries: Registries
    var cleanupFns: seq<Subscription>

    /**
     * Creates the manager with the supplied options and subscribes every
     * supplied handler, keeping the unsubscribe callbacks in event order.
     * `guid` stands for the token `guidFor` assigns the new manager.
     */
    constructor (guid: string, registries: Registries, args: DragDropArgs)
      ensures fresh(manager) && manager.guid == guid && this.registries == registries
      ensures manager.options == ManagerOptions(args)
      ensures cleanupFns == manager.subscribed == Subscriptions(args, Events)
      ensures manager.unsubscribed == [] && manager.destroyCount == 0
    {
      var options := BuildOptions(args);
      var m := new Manager(guid, options);
      var fns: seq<Subscription> := [];
      fns := SubscribeIfSupplied(m, args, 0, fns);
      fns := SubscribeIfSupplied(m, args, 1, fns);
      fns := SubscribeIfSupplied(m, args, 2, fns);
      fns := SubscribeIfSupplied(m, args, 3, fns);
      fns := SubscribeIfSupplied(m, args, 4, fns);
      fns := SubscribeIfSupplied(m, args, 5, fns);
      assert Events[..6] == Events;
      manager := m;
      this.registries := registries;
      cleanupFns := fns;
    }

    /**
     * Runs every unsubscribe callback in order, forgets them and destroys the
     * manager. Nothing guards a second call: it destroys the manager again.
     */
    method Cleanup()
      modifies this, manager
      ensures cleanupFns == []
      ensures manager.unsubscribed == old(manager.unsubscribed) + old(cleanupFns)
      ensures manager.destroyCount == old(manager.destroyCount) + 1
      ensures manager.subscribed == old(manager.subscribed)
    {
      var i := 0;
      while i < |cleanupFns|
        invariant 0 <= i <= |cleanupFns|
        invariant manager.unsubscribed == old(manager.unsubscribed) + cleanupFns[..i]
        invariant manager.subscribed == old(manager.subscribed)
        invariant manager.destroyCount == old(manager.destroyCount)
        invariant cleanupFns == old(cleanupFns)
      {
        manager.Unsubscribe(cleanupFns[i]);
        assert cleanupFns[..i + 1] == cleanupFns[..i] + [cleanupFns[i]];
        i := i + 1;
      }
      assert cleanupFns[..i] == cleanupFns;
      cleanupFns := [];
      manager.Destroy();
    }

    /** Applying the class of the `draggableModifier` getter: a draggable modifier bound to this manager. */
    method NewDraggableModifier() returns (m: DraggableModifiers.DraggableModifier)
      ensures fresh(m) && m.manager == manager && m.registries == registries
      ensures m.draggable == null && m.currentId == None
    {
      m := new DraggableModifiers.DraggableModifier(manager, registries);
    }

    /** Applying the class of the `droppableModifier` getter. */
    method NewDroppableModifier() returns (m: DroppableModifiers.DroppableModifier)
      ensures fresh(m) && m.manager == manager && m.droppable == null
    {
      m := new DroppableModifiers.DroppableModifier(manager);
    }

    /** Applying the class of the `sortableModifier` getter. */
    method NewSortableModifier() returns (m: SortableModifiers.SortableModifier)
      ensures fresh(m) && m.manager == manager && m.registries == registries
      ensures m.sortable == null && m.currentId == None
    {
      m := new SortableModifiers.SortableModifier(manager, registries);
    }

    /** Applying the class of the `handleModifier` getter. */
    method NewHandleModifier() returns (m: HandleModifiers.HandleModifier)
      ensures fresh(m) && m.manager == manager && m.registries == registries
      ensures m.currentId == None && m.element == None
    {
      m := new HandleModifiers.HandleModifier(manager, registries);
    }
  }
}
