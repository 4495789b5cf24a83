/** The group component around the entities: the process-wide order
    counter, group creation from configuration and from the `set` service,
    the lookup of the groups containing an entity, and the membership deltas
    of the `set` service. */
module Component {
  import opened Basics
  import opened EntityId
  import opened Registry
  import opened Aggregation
  import opened GroupEntity

  /** The group-order entry of the host's shared data: absent until a group
      is first created, then the next order to hand out. */
  class OrderCounter {
    var next: Option<int>
    /** The orders handed out so far, oldest first. */
    ghost var issued: seq<int>

    ghost predicate Valid()
      reads this
    {
      && (next.None? ==> issued == [])
      && (forall i, j :: 0 <= i < j < |issued| ==> issued[i] < issued[j])
      && (forall i :: 0 <= i < |issued| ==> issued[i] < next.GetOr(0))
    }

    constructor ()
      ensures Valid() && next.None? && issued == []
    {
      next := None;
      issued := [];
    }

    /** Hands out the current order (starting at 0) and advances the counter. */
    method Take() returns (order: int)
      requires Valid()
      modifies this`next, this`issued
      ensures Valid()
      ensures order == old(next).GetOr(0) && next == Some(order + 1)
      ensures issued == old(issued) + [order]
    {
      if next.None? {
        next := Some(0);
      }
      order := next.value;
      next := Some(order + 1);
      issued := issued + [order];
    }

    /** Moves past the current order once it has been given to a group. */
    method Advance()
      requires Valid() && next.Some?
      modifies this`next, this`issued
      ensures Valid()
      ensures next == Some(old(next).value + 1) && issued == old(issued) + [old(next).value]
    {
      issued := issued + [next.value];
      next := Some(next.value + 1);
    }

    /** The order a new group gets: the one given, or else the next one
        the counter hands out. */
    method OrderFor(order: Option<int>) returns (groupOrder: int)
      requires Valid()
      modifies this`next, this`issued
      ensures Valid()
      ensures order.Some? ==> groupOrder == order.value && next == old(next) && issued == old(issued)
      ensures order.None? ==> groupOrder == old(next).GetOr(0) && next == Some(groupOrder + 1)
                              && issued == old(issued) + [groupOrder]
    {
      if order.Some? {
        return order.value;
      }
      groupOrder := Take();
    }
  }

  /** Builds one group entity with the given order and lets the host's
      entity-id generator `generateId` name it after `objectId`, or after
      `name` when no object id is given. */
  method NewGroupEntity(registry: GroupIntegrationRegistry, name: string, createdByService: bool,
                        entityIds: Option<seq<string>>, icon: Option<string>, mode: Option<bool>,
                        objectId: Option<string>, order: int, generateId: string -> string)
    returns (group: Group)
    requires registry.Valid()
    ensures fresh(group) && group.Valid()
    ensures group.Initial(registry, name, createdByService, entityIds, icon, mode, Some(order))
    ensures group.trackable == Trackable(group.tracking, registry.excludeDomains)
    ensures group.entityId == generateId(if objectId.Some? && objectId.value != "" then objectId.value else name)
  {
    group := new Group(registry, name, createdByService, entityIds, icon, mode, Some(order));
    group.entityId := generateId(if objectId.Some? && objectId.value != "" then objectId.value else name);
  }

  /** Creates a group entity, drawing its order from the counter when none
      is given. */
  method CreateGroupEntity(registry: GroupIntegrationRegistry, counter: OrderCounter, name: string,
                           createdByService: bool, entityIds: Option<seq<string>>, icon: Option<string>,
                           mode: Option<bool>, objectId: Option<string>, order: Option<int>,
                           generateId: string -> string)
    returns (group: Group)
    requires registry.Valid() && counter.Valid()
    modifies counter`next, counter`issued
    ensures fresh(group) && group.Valid()
    ensures group.Initial(registry, name, createdByService, entityIds, icon, mode, group.order)
    ensures group.trackable == Trackable(group.tracking, registry.excludeDomains)
    ensures counter.Valid()
    ensures order.Some? ==> group.order == order && counter.next == old(counter.next)
                            && counter.issued == old(counter.issued)
    ensures order.None? ==> group.order == Some(old(counter.next).GetOr(0))
                            && counter.next == Some(old(counter.next).GetOr(0) + 1)
                            && counter.issued == old(counter.issued) + [group.order.value]
    ensures group.entityId == generateId(if objectId.Some? && objectId.value != "" then objectId.value else name)
  {
    var groupOrder := counter.OrderFor(order);
    group := NewGroupEntity(registry, name, createdByService, entityIds, icon, mode, objectId, groupOrder, generateId);
  }

  /** One group declared in the configuration. */
  datatype GroupConfig = GroupConfig(objectId: string, name: Option<string>,
                                     entities: Option<seq<string>>, icon: Option<string>,
                                     all: Option<bool>)

  /** The name a configured group gets: its `name`, or else its object id. */
  function ConfigName(conf: GroupConfig): string {
    conf.name.GetOr(conf.objectId)
  }

  /** `group` is the entity created for `conf` with order `order`, named by
      `generateId`: built from the configuration with nothing observed, no
      state and no subscription. */
  ghost predicate Configured(group: Group, registry: GroupIntegrationRegistry, conf: GroupConfig, order: int,
                             generateId: string -> string)
    reads group, group.registry
  {
    && group.Valid() && group.registry == registry && group.order == Some(order) && !group.createdByService
    && group.name == ConfigName(conf) && group.icon == conf.icon && group.modeAll == (conf.all == Some(true))
    && group.entityId == generateId(if conf.objectId != "" then conf.objectId else ConfigName(conf))
    && group.tracking == LowerAll(conf.entities.GetOr([]))
    && group.trackable == Trackable(group.tracking, registry.excludeDomains)
    && group.onOff == map[] && group.assumed == map[] && group.onStates == {}
    && group.state == None && !group.assumedState && group.unsub == None
  }

  /** Creates the entity of one configured group with the given order. The
      order is given, so the counter is not consulted (`CreateGroupEntity`
      with an order leaves it alone). */
  method CreateConfigured(registry: GroupIntegrationRegistry, conf: GroupConfig, order: int,
                          generateId: string -> string)
    returns (group: Group)
    requires registry.Valid()
    ensures fresh(group) && Configured(group, registry, conf, order, generateId)
  {
    group := NewGroupEntity(registry, ConfigName(conf), false,
                            Some(conf.entities.GetOr([])), conf.icon,
                            Some(conf.all == Some(true)), Some(conf.objectId), order, generateId);
  }

  /** Creates the configured groups in order, each taking the next order. */
  method ProcessConfig(registry: GroupIntegrationRegistry, counter: OrderCounter,
                       configs: seq<GroupConfig>, generateId: string -> string)
    returns (groups: seq<Group>)
    requires registry.Valid() && counter.Valid()
    modifies counter`next, counter`issued
    ensures counter.Valid()
    ensures |groups| == |configs|
    ensures counter.next == Some(old(counter.next).GetOr(0) + |configs|)
    ensures counter.issued == old(counter.issued) + Orders(old(counter.next).GetOr(0), |configs|)
    ensures forall i :: 0 <= i < |groups| ==> fresh(groups[i])
    ensures forall i, j :: 0 <= i < j < |groups| ==> groups[i] != groups[j]
    ensures forall i :: 0 <= i < |groups| ==>
              Configured(groups[i], registry, configs[i], old(counter.next).GetOr(0) + i, generateId)
  {
    if counter.next.None? {
      counter.next := Some(0);
    }
    ghost var first := counter.next.value;
    ghost var before := counter.issued;
    groups := [];
    for i := 0 to |configs|
      invariant counter.Valid() && counter.next == Some(first + i)
      invariant counter.issued == before + Orders(first, i)
      invariant |groups| == i
      invariant forall k :: 0 <= k < i ==> fresh(groups[k]) && Configured(groups[k], registry, configs[k], first + k, generateId)
    {
      var group := ConfigureNext(registry, counter, configs, groups, first, before, generateId);
      groups := groups + [group];
    }
    forall i, j | 0 <= i < j < |groups| ensures groups[i] != groups[j] {
      ConfiguredOrdersIncrease(groups, registry, configs, first, generateId, i, j);
    }
  }

  /** One round of the configuration loop: creates the next configured
      group with the counter's current order, then advances the counter;
      the groups created before are left as they were. */
  method ConfigureNext(registry: GroupIntegrationRegistry, counter: OrderCounter, configs: seq<GroupConfig>,
                       groups: seq<Group>, ghost first: int, ghost before: seq<int>, generateId: string -> string)
    returns (group: Group)
    requires registry.Valid() && |groups| < |configs|
    requires counter.Valid() && counter.next == Some(first + |groups|)
    requires counter.issued == before + Orders(first, |groups|)
    requires forall k :: 0 <= k < |groups| ==> Configured(groups[k], registry, configs[k], first + k, generateId)
    modifies counter`next, counter`issued
    ensures counter.Valid() && counter.next == Some(first + |groups| + 1)
    ensures counter.issued == before + Orders(first, |groups| + 1)
    ensures fresh(group) && Configured(group, registry, configs[|groups|], first + |groups|, generateId)
    ensures forall k :: 0 <= k < |groups| ==> Configured(groups[k], registry, configs[k], first + k, generateId)
  {
    group := CreateConfigured(registry, configs[|groups|], counter.next.value, generateId);
    counter.Advance();
    OrdersStep(before, first, |groups|);
  }

  /** The orders `first`, `first + 1`, ..., `first + n - 1`. */
  function Orders(first: int, n: nat): seq<int> {
    seq(n, k => first + k)
  }

  lemma OrdersStep(before: seq<int>, first: int, n: nat)
    ensures before + Orders(first, n + 1) == (before + Orders(first, n)) + [first + n]
  {
    assert Orders(first, n + 1) == Orders(first, n) + [first + n];
  }

  /** Configured groups get strictly increasing orders, so no group is
      configured twice. */
  lemma ConfiguredOrdersIncrease(groups: seq<Group>, registry: GroupIntegrationRegistry,
                                 configs: seq<GroupConfig>, first: int, generateId: string -> string,
                                 i: int, j: int)
    requires |groups| == |configs|
    requires forall k :: 0 <= k < |groups| ==> Configured(groups[k], registry, configs[k], first + k, generateId)
    requires 0 <= i < j < |groups|
    ensures groups[i].order.Some? && groups[j].order.Some? && groups[i].order.value < groups[j].order.value
    ensures groups[i] != groups[j]
    ensures groups[i] != groups[j]
  {
    assert Configured(groups[i], registry, configs[i], first + i, generateId);
    assert Configured(groups[j], registry, configs[j], first + j, generateId);
  }

  /** The entity ids of the groups among `groups` that track `entityId`,
      in the order of `groups`. */
  ghost function Containing(groups: seq<Group>, entityId: string): (ids: seq<string>)
    reads groups
  {
    if groups == [] then []
    else
      var last := groups[|groups| - 1];
      Containing(groups[..|groups| - 1], entityId) + (if entityId in last.tracking then [last.entityId] else [])
  }

  /** An id is listed exactly when some group with that id tracks the entity. */
  lemma {:induction false} ContainingMembers(groups: seq<Group>, entityId: string, id: string)
    ensures id in Containing(groups, entityId)
        <==> exists g :: g in groups && entityId in g.tracking && g.entityId == id
  {
    if groups != [] {
      var init := groups[..|groups| - 1];
      var last := groups[|groups| - 1];
      ContainingMembers(init, entityId, id);
      var found := if entityId in last.tracking then [last.entityId] else [];
      assert Containing(groups, entityId) == Containing(init, entityId) + found;
      if id in Containing(groups, entityId) {
        if id !in Containing(init, entityId) {
          assert id in found;
          assert last in groups;
        } else {
          var g :| g in init && entityId in g.tracking && g.entityId == id;
          assert g in groups;
        }
      } else {
        forall g | g in groups && entityId in g.tracking ensures g.entityId != id {
          if g != last {
            assert g in init;
          }
        }
      }
    }
  }

  /** The groups of the component (absent before the component is set up)
      that track `entityId`. */
  method GroupsWithEntity(component: Option<seq<Group>>, entityId: string) returns (ids: seq<string>)
    ensures component.None? ==> ids == []
    ensures component.Some? ==> ids == Containing(component.value, entityId)
  {
    if component.None? {
      return [];
    }
    var groups := component.value;
    ids := [];
    for i := 0 to |groups|
      invariant ids == Containing(groups[..i], entityId)
    {
      PrefixStep(groups, i);
      if entityId in groups[i].tracking {
        ids := ids + [groups[i].entityId];
      }
    }
    WholePrefix(groups);
  }

  /** Some enumeration of a set, each element once: the order in which a
      set of ids is iterated is not fixed. */
  method SetToSeq(s: set<string>) returns (r: seq<string>)
    ensures Elements(r) == s
    ensures |r| == |s|
  {
    r := [];
    var rest := s;
    while rest != {}
      invariant rest <= s
      invariant Elements(r) == s - rest
      invariant |r| + |rest| == |s|
      decreases |rest|
    {
      var x :| x in rest;
      assert Elements(r + [x]) == Elements(r) + {x};
      r := r + [x];
      rest := rest - {x};
    }
  }

  /** Adds `delta` to the members: the new members are the set union of
      the tracked ids and `delta`, in some order. */
  method AddMembers(group: Group, store: map<string, State>, delta: seq<string>)
    requires group.Valid()
    modifies group`tracking, group`trackable, group`onOff, group`assumed, group`onStates,
             group`unsub, group`state, group`assumedState
    ensures group.Valid() && unchanged(group.registry)
    ensures Elements(group.tracking) == Elements(old(group.tracking)) + LowerSet(Elements(delta))
    ensures group.Settled(store)
    ensures (group.state, group.assumedState) == group.Recomputed(old(group.state), old(group.assumedState))
  {
    var ids := SetToSeq(Elements(group.tracking) + Elements(delta));
    LowerOfLowerSet(group.tracking, delta, ids);
    group.UpdateTrackedEntityIds(store, Some(ids));
  }

  /** Removes `delta` from the members: the new members are the set
      difference of the tracked ids and `delta`, in some order. */
  method RemoveMembers(group: Group, store: map<string, State>, delta: seq<string>)
    requires group.Valid()
    modifies group`tracking, group`trackable, group`onOff, group`assumed, group`onStates,
             group`unsub, group`state, group`assumedState
    ensures group.Valid() && unchanged(group.registry)
    ensures Elements(group.tracking) == Elements(old(group.tracking)) - Elements(delta)
    ensures group.Settled(store)
    ensures (group.state, group.assumedState) == group.Recomputed(old(group.state), old(group.assumedState))
  {
    var ids := SetToSeq(Elements(group.tracking) - Elements(delta));
    LowerOfDifference(group.tracking, delta, ids);
    group.UpdateTrackedEntityIds(store, Some(ids));
  }

  /** The number of membership arguments given to the `set` service. */
  function Given(add: Option<seq<string>>, remove: Option<seq<string>>, entities: Option<seq<string>>): (n: nat)
    ensures n == 0 <==> add.None? && remove.None? && entities.None?
    ensures n <= 3
  {
    (if add.Some? then 1 else 0) + (if remove.Some? then 1 else 0) + (if entities.Some? then 1 else 0)
  }

  /** The membership part of the `set` service on an existing group: add the
      ids in `add` (set union with the tracked ids), then remove those in
      `remove` (set difference), then replace the members by `entities`;
      each step that is given updates the tracked ids and rescans. The
      service's schema admits at most one of the three, and for that case
      the new state is stated exactly. */
  method SetServiceMembers(group: Group, store: map<string, State>, add: Option<seq<string>>,
                           remove: Option<seq<string>>, entities: Option<seq<string>>)
    requires group.Valid()
    modifies group`tracking, group`trackable, group`onOff, group`assumed, group`onStates,
             group`unsub, group`state, group`assumedState
    ensures group.Valid() && unchanged(group.registry)
    ensures entities.Some? ==> group.tracking == LowerAll(entities.value)
    ensures entities.None? && (add.Some? || remove.Some?) ==>
              Elements(group.tracking)
              == (Elements(old(group.tracking)) + (if add.Some? then LowerSet(Elements(add.value)) else {}))
                 - (if remove.Some? then Elements(remove.value) else {})
    // with no argument nothing changes
    ensures Given(add, remove, entities) == 0 ==>
              && group.tracking == old(group.tracking) && group.trackable == old(group.trackable)
              && group.onOff == old(group.onOff) && group.assumed == old(group.assumed)
              && group.onStates == old(group.onStates) && group.unsub == old(group.unsub)
              && group.state == old(group.state) && group.assumedState == old(group.assumedState)
    ensures Given(add, remove, entities) > 0 ==> group.Settled(store)
    ensures Given(add, remove, entities) == 1 ==>
              (group.state, group.assumedState) == group.Recomputed(old(group.state), old(group.assumedState))
  {
    if add.Some? {
      AddMembers(group, store, add.value);
    }
    if remove.Some? {
      RemoveMembers(group, store, remove.value);
    }
    if entities.Some? {
      group.UpdateTrackedEntityIds(store, entities);
    }
  }

  lemma LowerIdentityOnLower(s: set<string>)
    requires forall x :: x in s ==> IsLower(x)
    ensures LowerSet(s) == s
  {
  }

  lemma LowerOfLowerSet(tracking: seq<string>, delta: seq<string>, ids: seq<string>)
    requires forall x :: x in tracking ==> IsLower(x)
    requires Elements(ids) == Elements(tracking) + Elements(delta)
    ensures Elements(LowerAll(ids)) == Elements(tracking) + LowerSet(Elements(delta))
  {
    LowerAllElements(ids);
    LowerIdentityOnLower(Elements(tracking));
  }

  lemma LowerOfDifference(tracking: seq<string>, delta: seq<string>, ids: seq<string>)
    requires forall x :: x in tracking ==> IsLower(x)
    requires Elements(ids) == Elements(tracking) - Elements(delta)
    ensures Elements(LowerAll(ids)) == Elements(tracking) - Elements(delta)
  {
    LowerAllElements(ids);
    LowerIdentityOnLower(Elements(ids));
  }
}
