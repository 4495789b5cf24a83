/** A group entity: its members, the per-member observations it keeps, the
    aggregate state and assumed-state flag it derives from them, and the
    state-change subscription it holds while it is tracking. */
module GroupEntity {
  import opened Basics
  import opened EntityId
  import opened Registry
  import opened Aggregation

  class Group {
    /** The process-wide classification registry. */
    const registry: GroupIntegrationRegistry
    var name: string
    var icon: Option<string>
    /** Assigned by the host right after construction; empty until then. */
    var entityId: string
    var createdByService: bool
    /** `true` for `all`, `false` for `any`. */
    var modeAll: bool
    var order: Option<int>

    /** All declared members, lower-cased, in declaration order. */
    var tracking: seq<string>
    /** The members whose domain is not excluded: the ones watched. */
    var trackable: seq<string>

    /** Last verdict seen per member. */
    var onOff: map<string, bool>
    /** Last assumed flag seen per member. */
    var assumed: map<string, bool>
    /** On-labels of the members seen since the last rescan. */
    var onStates: set<string>

    var state: Option<string>
    var assumedState: bool
    /** The active state-change subscription, if any. */
    var unsub: Option<Subscription>

    ghost predicate Valid()
      reads this`onOff, this`assumed, this`onStates, this`unsub, this`tracking, this`trackable, registry
    {
      && registry.Valid()
      && onOff.Keys == assumed.Keys
      && onStates <= registry.onOffMapping.Keys
      && (unsub.Some? ==> unsub.value.entities == trackable && trackable != [])
      && (forall x :: x in tracking ==> IsLower(x))
      && (forall x :: x in trackable ==> x in tracking)
    }

    /** Every observation belongs to a watched member. */
    ghost predicate SeenOnlyTrackable()
      reads this`onOff, this`trackable
    {
      forall id :: id in onOff ==> id in trackable
    }

    /** The observations are exactly what a full rescan of the watched
        members in `store` finds. */
    ghost predicate Rescanned(store: map<string, State>)
      reads this`onOff, this`assumed, this`onStates, this`trackable, registry
    {
      && onOff == ObservedOnOff(registry.Snapshot(), store, trackable)
      && assumed == ObservedAssumed(store, trackable)
      && onStates == ObservedOnStates(registry.Snapshot(), store, trackable)
    }

    /** The group after its members were replaced and it was started again:
        it watches the members of a domain not excluded, is subscribed to
        exactly them (when there are any), its observations are those of a
        rescan, and once a member is observed its state and flag are the
        full reductions of them. */
    ghost predicate Settled(store: map<string, State>)
      requires Valid()
      reads this`onOff, this`assumed, this`onStates, this`unsub, this`tracking, this`trackable, this`modeAll,
            this`state, this`assumedState, registry
    {
      && trackable == Trackable(tracking, registry.excludeDomains)
      && unsub == (if trackable != [] then Some(Subscription(trackable)) else None)
      && Rescanned(store)
      && (onOff != map[] ==>
            && state == AggregateState(modeAll, onOff, onStates, registry.onOffMapping)
            && assumedState == ModeHolds(modeAll, assumed))
    }

    /** The state and assumed-state flag a recomputation without a changed
        member yields from the current observations: nothing changes while no
        member has been seen; otherwise both are fully reduced. */
    ghost function Recomputed(prevState: Option<string>, prevAssumed: bool): (Option<string>, bool)
      requires Valid()
      reads this`onOff, this`assumed, this`onStates, this`unsub, this`tracking, this`trackable, this`modeAll,
            registry
    {
      if onOff == map[] then (prevState, prevAssumed)
      else (AggregateState(modeAll, onOff, onStates, registry.onOffMapping), ModeHolds(modeAll, assumed))
    }

    /** The group exactly as built from these arguments: the members
        lower-cased in order, the watched ones those of a domain not
        excluded, nothing observed, no state and no subscription yet. */
    ghost predicate Initial(registry: GroupIntegrationRegistry, name: string, createdByService: bool,
                            entityIds: Option<seq<string>>, icon: Option<string>, mode: Option<bool>,
                            order: Option<int>)
      reads this`name, this`icon, this`createdByService, this`modeAll, this`order, this`tracking,
            this`trackable, this`onOff, this`assumed, this`onStates, this`state, this`assumedState,
            this`unsub
    {
      && this.registry == registry && this.name == name && this.icon == icon
      && this.createdByService == createdByService && this.order == order
      && modeAll == (mode == Some(true))
      && tracking == LowerAll(entityIds.GetOr([]))
      && onOff == map[] && assumed == map[] && onStates == {}
      && state == None && !assumedState && unsub == None
    }

    constructor (registry: GroupIntegrationRegistry, name: string, createdByService: bool,
                 entityIds: Option<seq<string>>, icon: Option<string>, mode: Option<bool>,
                 order: Option<int>)
      requires registry.Valid()
      ensures Valid() && SeenOnlyTrackable()
      ensures Initial(registry, name, createdByService, entityIds, icon, mode, order)
      ensures trackable == Trackable(tracking, registry.excludeDomains)
    {
      this.registry := registry;
      this.name := name;
      this.icon := icon;
      this.entityId := "";
      this.createdByService := createdByService;
      this.modeAll := mode == Some(true);
      this.order := order;
      var tracked, watched := LowerAndFilter(entityIds.GetOr([]), registry.excludeDomains);
      LowerAllIsLower(entityIds.GetOr([]));
      TrackableIsSubsequence(tracked, registry.excludeDomains);
      this.tracking := tracked;
      this.trackable := watched;
      this.onOff := map[];
      this.assumed := map[];
      this.onStates := {};
      this.state := None;
      this.assumedState := false;
      this.unsub := None;
    }

    /** Replaces the members: `tracking` becomes the lower-cased ids in the
        given order and `trackable` the ones whose domain is not excluded.
        The caller stops any subscription first. */
    method SetTracked(entityIds: Option<seq<string>>)
      requires Valid() && unsub.None?
      modifies this`tracking, this`trackable
      ensures Valid()
      ensures unchanged(registry)
      ensures tracking == LowerAll(entityIds.GetOr([]))
      ensures trackable == Trackable(tracking, registry.excludeDomains)
    {
      if entityIds.None? || |entityIds.value| == 0 {
        tracking, trackable := [], [];
        return;
      }

      var tracked, watched := LowerAndFilter(entityIds.value, registry.excludeDomains);
      LowerAllIsLower(entityIds.value);
      TrackableIsSubsequence(tracked, registry.excludeDomains);
      tracking, trackable := tracked, watched;
    }

    /** Records one member's state: its assumed flag, its verdict, and the
        on-labels it brings. */
    method SeeState(entityId: string, newState: State)
      requires Valid()
      modifies this`onOff, this`assumed, this`onStates
      ensures Valid()
      ensures unchanged(registry)
      ensures assumed == old(assumed)[entityId := newState.assumed]
      ensures onOff == old(onOff)[entityId := Classify(registry.Snapshot(), newState)]
      ensures onStates == old(onStates) + Contribution(registry.Snapshot(), newState)
    {
      ghost var t := registry.Snapshot();
      var domain := newState.domain;
      var reported := newState.state;
      var labels: set<string>;
      var on: bool;

      if domain !in registry.onStatesByDomain {
        // a domain nobody registered, such as a group of groups
        if reported in registry.onOffMapping {
          labels := {reported};
        } else if reported in registry.offOnMapping {
          labels := {registry.offOnMapping[reported]};
        } else {
          labels := {};
        }
        on := reported in registry.onOffMapping;
      } else {
        labels := registry.onStatesByDomain[domain];
        on := reported in labels;
      }
      assert labels == Contribution(t, newState) && on == Classify(t, newState);

      assumed := assumed[entityId := newState.assumed];
      onStates := onStates + labels;
      onOff := onOff[entityId := on];
    }

    /** Forgets every observation and sees again each watched member the
        store knows, in member order. */
    method ResetTrackedState(store: map<string, State>)
      requires Valid()
      modifies this`onOff, this`assumed, this`onStates
      ensures Valid() && SeenOnlyTrackable()
      ensures unchanged(registry)
      ensures Rescanned(store)
    {
      ghost var t := registry.Snapshot();
      onOff, assumed, onStates := map[], map[], {};

      for i := 0 to |trackable|
        invariant Valid()
        invariant onOff == ObservedOnOff(t, store, trackable[..i])
        invariant assumed == ObservedAssumed(store, trackable[..i])
        invariant onStates == ObservedOnStates(t, store, trackable[..i])
      {
        var id := trackable[i];
        ObservedOnOffPrefix(t, store, trackable, i);
        ObservedAssumedPrefix(store, trackable, i);
        ObservedOnStatesPrefix(t, store, trackable, i);
        if id in store {
          SeeState(id, store[id]);
        }
      }
      WholePrefix(trackable);
    }

    /** Recomputes the group's state, seeing `changed` first when a single
        member changed. Nothing is recomputed while no member has been seen. */
    method UpdateGroupStateWith(changed: Option<Change>)
      requires Valid()
      modifies this`onOff, this`assumed, this`onStates, this`state, this`assumedState
      ensures Valid()
      ensures unchanged(registry)
      ensures changed.None? ==> onOff == old(onOff) && assumed == old(assumed) && onStates == old(onStates)
      ensures changed.Some? ==>
                && assumed == old(assumed)[changed.value.entityId := changed.value.state.assumed]
                && onOff == old(onOff)[changed.value.entityId := Classify(registry.Snapshot(), changed.value.state)]
                && onStates == old(onStates) + Contribution(registry.Snapshot(), changed.value.state)
      ensures onOff == map[] ==> state == old(state) && assumedState == old(assumedState)
      ensures onOff != map[] ==>
                && assumedState == NextAssumed(modeAll, assumed, old(assumedState),
                                               if changed.Some? then Some(changed.value.state.assumed) else None)
                && state == AggregateState(modeAll, onOff, onStates, registry.onOffMapping)
    {
      if changed.Some? {
        SeeState(changed.value.entityId, changed.value.state);
      }

      if onOff == map[] {
        return;
      }

      if changed.None? || (assumedState && !changed.value.state.assumed) {
        assumedState := ModeHolds(modeAll, assumed);
      } else if changed.value.state.assumed {
        assumedState := true;
      }

      // the representative on-label and its off-label; the off-label lookup
      // is total because every on-label is a key of the on/off map (Valid)
      state := AggregateState(modeAll, onOff, onStates, registry.onOffMapping);
    }

    /** Queries all members afresh: the state is first cleared, so a group
        with no member seen is unknown. */
    method UpdateGroupState()
      requires Valid()
      modifies this`onOff, this`assumed, this`onStates, this`state, this`assumedState
      ensures Valid()
      ensures unchanged(registry)
      ensures onOff == old(onOff) && assumed == old(assumed) && onStates == old(onStates)
      ensures (state, assumedState) == Recomputed(None, old(assumedState))
    {
      state := None;
      UpdateGroupStateWith(None);
    }

    /** Subscribes to the watched members unless already subscribed or there
        is none to watch, then recomputes. */
    method StartTracking()
      requires Valid()
      modifies this`onOff, this`assumed, this`onStates, this`unsub, this`state, this`assumedState
      ensures Valid()
      ensures unchanged(registry)
      ensures onOff == old(onOff) && assumed == old(assumed) && onStates == old(onStates)
      ensures unsub == if old(unsub).None? && trackable != [] then Some(Subscription(trackable)) else old(unsub)
      ensures (state, assumedState) == Recomputed(old(state), old(assumedState))
    {
      if trackable != [] && unsub.None? {
        unsub := Some(Subscription(trackable));
      }
      UpdateGroupStateWith(None);
    }

    /** Drops the subscription, if any. */
    method Stop()
      requires Valid()
      modifies this`unsub
      ensures Valid()
      ensures unchanged(registry)
      ensures unsub.None?
    {
      if unsub.Some? {
        unsub := None;
      }
    }

    /** Rescans the members, starts tracking and recomputes. */
    method Start(store: map<string, State>)
      requires Valid()
      modifies this`onOff, this`assumed, this`onStates, this`unsub, this`state, this`assumedState
      ensures Valid() && SeenOnlyTrackable()
      ensures unchanged(registry)
      ensures Rescanned(store)
      ensures unsub == if old(unsub).None? && trackable != [] then Some(Subscription(trackable)) else old(unsub)
      ensures (state, assumedState) == Recomputed(old(state), old(assumedState))
    {
      ResetTrackedState(store);
      StartTracking();
    }

    /** Replaces the members: stop, set the members, rescan, start. The new
        subscription, if any, watches exactly the new watchable members. */
    method UpdateTrackedEntityIds(store: map<string, State>, entityIds: Option<seq<string>>)
      requires Valid()
      modifies this`tracking, this`trackable, this`onOff, this`assumed, this`onStates,
               this`unsub, this`state, this`assumedState
      ensures Valid() && SeenOnlyTrackable()
      ensures unchanged(registry)
      ensures tracking == LowerAll(entityIds.GetOr([]))
      ensures trackable == Trackable(tracking, registry.excludeDomains)
      ensures unsub == if trackable != [] then Some(Subscription(trackable)) else None
      ensures Rescanned(store)
      ensures (state, assumedState) == Recomputed(old(state), old(assumedState))
      ensures Settled(store)
    {
      ghost var prev := (state, assumedState);
      Stop();
      SetTracked(entityIds);
      assert (state, assumedState) == prev;
      ResetTrackedState(store);
      assert (state, assumedState) == prev && tracking == LowerAll(entityIds.GetOr([]));
      Start(store);
    }

    /** Reacts to one member's state change. Events that arrive while no
        subscription is active are dropped; a removed member (no new state)
        forces a rescan before the recomputation. */
    method StateChangedListener(store: map<string, State>, entityId: string, newState: Option<State>)
      requires Valid()
      modifies this`onOff, this`assumed, this`onStates, this`state, this`assumedState
      ensures Valid()
      ensures unchanged(registry)
      ensures old(unsub).None? ==>
                && onOff == old(onOff) && assumed == old(assumed) && onStates == old(onStates)
                && state == old(state) && assumedState == old(assumedState)
      ensures old(unsub).Some? && newState.None? ==>
                && Rescanned(store)
                && (state, assumedState) == Recomputed(old(state), old(assumedState))
      ensures old(unsub).Some? && newState.Some? ==>
                && assumed == old(assumed)[entityId := newState.value.assumed]
                && onOff == old(onOff)[entityId := Classify(registry.Snapshot(), newState.value)]
                && onStates == old(onStates) + Contribution(registry.Snapshot(), newState.value)
                && assumedState == NextAssumed(modeAll, assumed, old(assumedState), Some(newState.value.assumed))
                && state == AggregateState(modeAll, onOff, onStates, registry.onOffMapping)
      ensures old(SeenOnlyTrackable()) && (newState.Some? ==> entityId in trackable) ==> SeenOnlyTrackable()
    {
      if unsub.None? {
        return;
      }

      if newState.None? {
        ResetTrackedState(store);
        UpdateGroupStateWith(None);
      } else {
        UpdateGroupStateWith(Some(Change(entityId, newState.value)));
        assert entityId in onOff;
      }
    }
  }
}
