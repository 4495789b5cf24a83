# Group state aggregation

A Dafny model of the group integration of Home Assistant. A group is an
entity that stands for a list of member entities. Its state is derived from
theirs: "on" when any member is on (or every member, in `all` mode), and
otherwise the off-label that belongs to the members' common on-label (a group
of covers is "open" or "closed", a group of locks "locked" or "unlocked").

The model covers four parts.

- **The classification registry** (`registry.dfy`). This is the table that
  every integration fills at startup. It holds:
  - each on-label and its off-label;
  - the reverse map for domains with a single on-state;
  - the on-labels of each domain;
  - the domains a group never watches.

  The function `Register` specifies one registration and the method
  `OnOffStates` performs it in place. `RegisterKeepsClosed` proves that the
  lookup of an off-label during aggregation can never miss.
- **Member ids** (`entity_id.dfy`). This part covers lower-casing, the domain
  prefix, and the split of the declared members (`tracking`) into the members
  that are actually watched (`trackable`).
- **The aggregator** (`aggregation.dfy` and `group.dfy`). This is the
  `Group` class with its per-member observations: `onOff`, `assumed` and
  `onStates`. It covers:
  - the incremental update after one member changed;
  - the full rescan;
  - the `any`/`all` reduction;
  - the choice of the representative on-label;
  - the assumed-state short-cut.

  The incremental update and the rescan are related to the specification
  functions `ObservedOnOff`, `ObservedAssumed` and `ObservedOnStates`.
- **The lifecycle and the component** (`group.dfy` and `component.dfy`). This
  part covers:
  - the state-change subscription a group holds while it tracks its members;
  - the listener that reacts to member changes;
  - the process-wide order counter;
  - group creation from configuration or on demand;
  - the lookup of the groups that contain an entity;
  - the add/remove deltas of the `set` service.

`scenarios.dfy` states worked examples as lemmas and methods. They cover
covers registering "open"/"closed", mixed domains falling back to "on"/"off",
excluded domains, and one group's whole lifecycle.

Host services become parameters:
- the state machine is a `map<string, State>` (`store`);
- the entity-id generator is a function `generateId`;
- the subscription handle is a value `Subscription` holding the watched ids;
- publishing the group's state is not modelled: it has no effect on the
  group's own fields.

The domain that a registration is for is an explicit parameter. The source
takes it from a context variable.

## Model

| member | source | states |
|---|---|---|
| Registry.Register | homeassistant/components/group/__init__.py:148-157 | After a registration every given on-state is classified as on. A label already present keeps its first off-label, and new labels get the given off-label. The reverse map keeps its entries and gains one only for a single on-state whose off-state is new. The domain's on-states are replaced, not merged. |
| Registry.RegisterKeepsClosed | homeassistant/components/group/__init__.py:139-140 | Registration preserves closure: "on", every reverse-map target and every domain's on-labels stay keys of the on/off map, so the off-label lookup is total. |
| Registry.GroupIntegrationRegistry.constructor | homeassistant/components/group/__init__.py:139-142 | The registry starts with exactly the seed pair on/off and its reverse, no domain and no exclusion, and is closed. |
| Registry.GroupIntegrationRegistry.ExcludeDomain | homeassistant/components/group/__init__.py:144-146 | Adds the domain to the excluded domains and changes nothing else. |
| Registry.GroupIntegrationRegistry.OnOffStates | homeassistant/components/group/__init__.py:148-157 | The in-place registration with its loop: the new tables are exactly `Register` of the old ones, and closure is kept. |
| Registry.TheOnly | homeassistant/components/group/__init__.py:154-155 | The element picked from a one-element set is the whole set (`list(s)[0]`). |
| Registry.IsOn | homeassistant/components/group/__init__.py:160-171 | An entity is on iff the registry is set up, the store knows the entity, and its state is a key of the on/off map. |
| Aggregation.IsOnAgreesWithClassify | homeassistant/components/group/__init__.py:160-171 | For an entity of a domain that registered no on-states (a nested group), `is_on` gives exactly the verdict a parent group's `_see_state` gives it. |
| Aggregation.GroupOnIsOn | homeassistant/components/group/__init__.py:160-171 | A group whose mode holds reports its representative on-label, and `is_on` then holds for it. |
| Aggregation.Contribution | homeassistant/components/group/__init__.py:803-814 | The on-labels one member brings are keys of the on/off map when the tables are closed. A member of an unregistered domain brings at most one label. |
| Aggregation.Classify | homeassistant/components/group/__init__.py:803-814 | A member counted as on has a state that is an on-label when the tables are closed. |
| Aggregation.ModeHolds | homeassistant/components/group/__init__.py:837 | Over no members `all` holds and `any` does not; on a non-empty map `all` implies `any`. |
| Aggregation.OnLabel | homeassistant/components/group/__init__.py:842-856 | With one on-label the group uses it; with several it uses "on". |
| Aggregation.OnLabelIsOnLabel | homeassistant/components/group/__init__.py:846-862 | The representative on-label is a key of the on/off map, so the off-label lookup for it never misses. |
| Aggregation.AggregateState | homeassistant/components/group/__init__.py:842-862 | The state is unknown iff there is no on-label. When the mode holds over the verdicts the state is the on-label; otherwise it is the off-label registered for that on-label. |
| Aggregation.NextAssumed | homeassistant/components/group/__init__.py:832-840 | Without a change, or when an assumed group sees a change that is not assumed, the flag is the full reduction; an assumed change sets it; a change that is not assumed leaves a group that is not assumed unassumed. |
| Aggregation.OnMemberContributesItsLabel | homeassistant/components/group/__init__.py:803-814 | A member classified as on contributes its own label. |
| Aggregation.AssumedShortcutExactForAny | homeassistant/components/group/__init__.py:832-840 | In `any` mode the incremental assumed flag stays equal to the full reduction. |
| Aggregation.AssumedShortcutCoversAll | homeassistant/components/group/__init__.py:832-840 | In `all` mode the incremental flag is set whenever the full reduction is. |
| Aggregation.AssumedShortcutOverApproximatesAll | homeassistant/components/group/__init__.py:838-840 | In `all` mode an assumed change makes the group assumed although another member is not. |
| Aggregation.ObservedOnOff | homeassistant/components/group/__init__.py:785-793 | A rescan has a verdict for exactly the watched members the store knows. |
| Aggregation.ObservedAssumed | homeassistant/components/group/__init__.py:785-797 | A rescan has an assumed flag for exactly the watched members the store knows. |
| Aggregation.ObservedOnStates | homeassistant/components/group/__init__.py:785-793 | The rescanned on-labels are keys of the on/off map when the tables are closed. |
| Aggregation.ObservedOnStatesMembers | homeassistant/components/group/__init__.py:785-814 | A label is among the rescanned on-labels iff some watched member the store knows contributes it. |
| Aggregation.RescanVerdict | homeassistant/components/group/__init__.py:857 | After a rescan the reduction is exact: `all` iff every known watched member is on, `any` iff one is. |
| Aggregation.RescanOnMemberIsKnown | homeassistant/components/group/__init__.py:842-852 | After a rescan the group is never unknown while a watched member is on. |
| Aggregation.IncrementalMatchesRescan | homeassistant/components/group/__init__.py:826-827 | Seeing one changed member gives the same verdicts and assumed flags as a rescan of the new store. |
| Aggregation.IncrementalCoversRescan | homeassistant/components/group/__init__.py:809-813 | The incremental on-labels contain those a rescan of the new store finds. |
| Aggregation.IncrementalDiffersFromRescan | homeassistant/components/group/__init__.py:809-813 | A nested group going from "on" to "unavailable": the incremental path reports "off" where a rescan reports unknown. |
| EntityId.Lower | homeassistant/components/group/__init__.py:712 | Each character of the id becomes its lower-case form (ASCII); hence the length is kept, no upper-case letter is left, and an id already lower-case is unchanged. |
| EntityId.DomainBeforeDot | homeassistant/components/group/__init__.py:713 | The domain of `d.rest` is `d` when `d` has no dot. |
| EntityId.DomainWithoutDot | homeassistant/components/group/__init__.py:713 | An id without a dot is its own domain. |
| EntityId.DomainIsPrefixBeforeDot | homeassistant/components/group/__init__.py:713 | The domain is a prefix of the id without a '.', and the id goes on with a '.' right after it unless the domain is the whole id. |
| EntityId.LowerAllIsLower | homeassistant/components/group/__init__.py:711-713 | Every tracked id is lower-case. |
| EntityId.LowerAllAt | homeassistant/components/group/__init__.py:711-713 | The i-th tracked id is the lower-cased i-th given id. |
| EntityId.LowerAllElements | homeassistant/components/group/__init__.py:711-713 | Taken as sets, the tracked ids are the lower-cased given ids. |
| EntityId.Trackable | homeassistant/components/group/__init__.py:715-716 | Every watched id is tracked and of a domain that is not excluded. |
| EntityId.TrackableComplete | homeassistant/components/group/__init__.py:715-716 | Every tracked id of a domain that is not excluded is watched. |
| EntityId.TrackableIsSubsequence | homeassistant/components/group/__init__.py:707-719 | The watched ids are a subsequence of the tracked ids, in the same order. |
| EntityId.TrackableWithoutExclusions | homeassistant/components/group/__init__.py:715-716 | With no excluded domain every tracked id is watched. |
| EntityId.LowerAndFilter | homeassistant/components/group/__init__.py:707-719 | The loop gives the lower-cased ids in order, and as watched ids the filter of those by domain. |
| GroupEntity.Group.constructor | homeassistant/components/group/__init__.py:539-569 | The new group has the given name, icon, order and mode (`all` only for a true mode). Its members are set as `_set_tracked` sets them. Nothing is observed, and it has no state and no subscription. |
| GroupEntity.Group.SetTracked | homeassistant/components/group/__init__.py:696-719 | `tracking` is the lower-cased ids in input order, and `trackable` is the order-preserving filter of it by excluded domain. Empty or absent input gives both empty. |
| GroupEntity.Group.SeeState | homeassistant/components/group/__init__.py:795-814 | The member's assumed flag and verdict are recorded. For a registered domain the verdict is membership in and the labels are the domain's on-states. Otherwise the verdict is membership in the on/off map and the label is the state or its reverse-map target. The on-labels only grow. |
| GroupEntity.Group.ResetTrackedState | homeassistant/components/group/__init__.py:785-793 | After the rescan loop the observations are exactly what a full rescan of the watched members finds. |
| GroupEntity.Group.UpdateGroupStateWith | homeassistant/components/group/__init__.py:816-862 | A given change is seen first. While nothing is observed, the state and the flag are unchanged. Otherwise the flag follows the assumed-state short-cut and the state is `AggregateState` of the observations. |
| GroupEntity.Group.UpdateGroupState | homeassistant/components/group/__init__.py:751-755 | The state is cleared, then recomputed without a change, so a group with nothing observed is unknown. |
| GroupEntity.Group.StartTracking | homeassistant/components/group/__init__.py:728-740 | A subscription to the watched ids is created only when there are some and none is active, then the state is recomputed. |
| GroupEntity.Group.Stop | homeassistant/components/group/__init__.py:742-749 | The subscription handle is cleared. |
| GroupEntity.Group.Start | homeassistant/components/group/__init__.py:721-726 | Rescan, then start tracking: the observations are those of a rescan, and the subscription follows `StartTracking`. |
| GroupEntity.Group.UpdateTrackedEntityIds | homeassistant/components/group/__init__.py:684-694 | Stop, set the members, rescan, start: the members are as set, the observations are those of a rescan, and the subscription watches exactly the new watched ids (none if there are none). |
| GroupEntity.Group.StateChangedListener | homeassistant/components/group/__init__.py:765-783 | An event while unsubscribed changes nothing. A removed member forces a rescan before the recomputation. A new state is seen incrementally and the state is recomputed with the short-cut. Observations stay among the watched ids. |
| Component.OrderCounter.Take | homeassistant/components/group/__init__.py:584-590 | Hands out the current order (0 when none yet) and advances it. The orders handed out strictly increase. |
| Component.OrderCounter.Advance | homeassistant/components/group/__init__.py:432 | Moves the counter one past the order just given out and records that order as issued. |
| Component.OrderCounter.OrderFor | homeassistant/components/group/__init__.py:584-590 | A given order is used unchanged and leaves the counter alone; otherwise the counter hands one out. |
| Component.NewGroupEntity | homeassistant/components/group/__init__.py:592-605 | The new group is built as the constructor builds it, and named after the object id, or after the name when there is no object id. |
| Component.CreateGroupEntity | homeassistant/components/group/__init__.py:572-605 | Creates a group with the given order, or with the counter's next one, which is then advanced. |
| Component.CreateConfigured | homeassistant/components/group/__init__.py:404-428 | A configured group takes the entry's name (default: its object id) and icon, is not created by the service, and has `all` mode only when configured. It gets the given order without consulting the counter. Its entity id is generated from the object id, or from the name when the object id is empty. It tracks the lower-cased entries and watches those of a domain not excluded. It starts with nothing observed, no state, no assumed flag and no subscription. |
| Component.ProcessConfig | homeassistant/components/group/__init__.py:398-432 | Creates one distinct, new group per entry, in order, each built as `CreateConfigured` builds it, with orders first, first+1, and so on. The counter ends the number of entries further on, and exactly those orders are recorded as issued, after the earlier ones. |
| Component.ConfigureNext | homeassistant/components/group/__init__.py:405-432 | One round of the loop: the next entry's group is built as `CreateConfigured` builds it with the counter's current order, the counter advances by one and records it, and the groups created before are unchanged. |
| Component.ConfiguredOrdersIncrease | homeassistant/components/group/__init__.py:410-432 | Orders of configured groups strictly increase with their position, so no two positions hold the same group. |
| Component.ContainingMembers | homeassistant/components/group/__init__.py:188-192 | An id is listed iff some group with that id tracks the entity. |
| Component.GroupsWithEntity | homeassistant/components/group/__init__.py:179-194 | Before setup the result is empty. Otherwise it is the ids of the groups tracking the entity, in the groups' order. |
| Component.SetToSeq | homeassistant/components/group/__init__.py:326 | Some enumeration of a set, each element once: the `set` built by the service has no fixed order. |
| Component.AddMembers | homeassistant/components/group/__init__.py:324-327 | The new members, as a set, are the old ones united with the lower-cased delta. The group is then settled: it watches the new watchable members, is subscribed to exactly them (none if there are none), its observations are those of a rescan, and its state and flag are recomputed from those. Name, icon, mode, order, entity id and origin stay unchanged: they are outside the frame. |
| Component.RemoveMembers | homeassistant/components/group/__init__.py:329-332 | The new members, as a set, are the old ones minus the delta; the group is then settled as after an add, with its state and flag recomputed. Name, icon, mode, order, entity id and origin stay unchanged: they are outside the frame. |
| Component.SetServiceMembers | homeassistant/components/group/__init__.py:321-336 | Add, then remove, then replace, each when given. The resulting members are the replacement, or the union and then difference with the deltas. With no argument nothing changes. With any, the group is settled (subscription, rescan, reduced state). With exactly one, as the schema demands, the state and flag are those `async_update_tracked_entity_ids` gives. |
| Component.LowerIdentityOnLower | homeassistant/components/group/__init__.py:712 | Lower-casing a set of lower-case ids changes nothing. |
| Component.LowerOfLowerSet | homeassistant/components/group/__init__.py:326-327 | Setting the union as the members gives the old members plus the lower-cased delta. |
| Component.LowerOfDifference | homeassistant/components/group/__init__.py:331-332 | Setting the difference as the members gives exactly the difference. |
| Scenarios.Seed | homeassistant/components/group/__init__.py:139-140 | The seed tables are closed. |
| Scenarios.RegisterSingleOnState | homeassistant/components/group/__init__.py:148-157 | After a single on-state registers with a fresh off-state, the on-state is on, the off-state is off, and the reverse map leads back. |
| Scenarios.CoverRegistration | homeassistant/components/group/__init__.py:148-157 | Covers registering "open"/"closed" on the seed give the expected tables. |
| Scenarios.CoverOnOff | homeassistant/components/group/__init__.py:150-152 | The on/off map after that registration. |
| Scenarios.CoverOffOn | homeassistant/components/group/__init__.py:154-155 | The reverse map after that registration. |
| Scenarios.ObservedTwo | homeassistant/components/group/__init__.py:790-793 | A rescan of two members unites their contributions. |
| Scenarios.AnyGroupOfCoversOpen | homeassistant/components/group/__init__.py:842-860 | Two covers in `any` mode, one open: the group is "open". |
| Scenarios.AnyGroupOfCoversClosed | homeassistant/components/group/__init__.py:842-862 | Both covers closed: the group is "closed". |
| Scenarios.MixedDomainsUseGenericLabels | homeassistant/components/group/__init__.py:842-862 | A cover and a switch: the on-labels are {"open", "on"}, and the group is "on" in `any` mode and "off" in `all` mode. |
| Scenarios.ExcludedMemberIsNeverObserved | homeassistant/components/group/__init__.py:713-716 | A member of an excluded domain is not watched, so nothing is observed for it. |
| Scenarios.AssumedChangeIsImmediate | homeassistant/components/group/__init__.py:838-840 | An assumed change makes an unassumed group assumed in either mode. |
| Scenarios.LowerGarage | homeassistant/components/group/__init__.py:712 | "Cover.Garage" lower-cases to "cover.garage". |
| Scenarios.CoverMembers | homeassistant/components/group/__init__.py:707-719 | A declared "Cover.Garage" is tracked and watched as "cover.garage". |
| Scenarios.CoverRescan | homeassistant/components/group/__init__.py:785-793 | A rescan of the one cover gives its verdict and the label "open". |
| Scenarios.NewCoverRegistry | homeassistant/components/group/__init__.py:148-157 | A fresh registry after covers register holds exactly the cover tables. |
| Scenarios.NewCoverGroup | homeassistant/components/group/__init__.py:539-569 | A group over "Cover.Garage" watches "cover.garage", with nothing observed and no subscription. |
| Scenarios.StartOpen | homeassistant/components/group/__init__.py:721-740 | Starting with the cover open subscribes and reports "open". |
| Scenarios.CloseCover | homeassistant/components/group/__init__.py:765-783 | The cover closing reports "closed". |
| Scenarios.RemoveCover | homeassistant/components/group/__init__.py:775-781 | The cover vanishing leaves nothing observed, and the group keeps its last state. |

## Left out

- Service registration, reload, the service lock and the gathering of tasks in `async_setup`: these are async dispatch and concurrency. Of the `set` service only the membership deltas are modelled. Creating a group from the service, name/icon/mode edits and the `remove` service are not modelled.
- `update_tracked_entity_ids`: it only hands the async variant to the event loop from another thread.
- Config-entry hooks, the voluptuous schemas and `_conf_preprocess`: they are validation and entity-registry plumbing outside the model.
- The service schema lower-cases the ids of the deltas before the handler sees them. `Component.RemoveMembers` takes the delta as given, so a mixed-case id removes nothing in the model.
- `GroupEntity`, the base class of the platform groups: it holds preview and host-lifecycle hooks without logic of its own.
- `async_create_group` and `async_added_to_hass` / `async_will_remove_from_hass`: they only hand the group to the host and schedule `_async_start` / `_async_stop`, which are modelled.
- `extra_state_attributes`, `name`, `icon` and the other properties: these are plain reads of fields.
- Publishing the state (`async_write_ha_state`) and `async_set_context`: host calls without effect on the group's fields.
- Subscribing to state changes: the subscription is a value holding the watched ids. Delivery of events is a call of `StateChangedListener`.
- `async_generate_entity_id` is the parameter `generateId`. Its uniqueness check against existing entities is not modelled.
- The registry's tables are class attributes shared by every registry instance in the source. The model has one registry object, which every group references.
- The current domain of a registration is a parameter instead of a context variable.
- EntityId.Lower: lower-cases ASCII letters only, not the full Unicode case mapping of Python's `str.lower`.
- EntityId.Domain: the prefix before the first '.', or the whole id without a '.'. The host's `split_entity_id` is not part of this model.
- Component.SetServiceMembers: when two or more of `add_entities`, `remove_entities` and `entities` are given (the service schema rejects this) and no member is observed at the end, the state is not stated, because it then depends on the intermediate steps.
- Component.SetToSeq: the order in which Python iterates a set is not modelled. Any enumeration is allowed, so `tracking` after a delta is stated as a set only.
- `mode` is a bool, `true` for `all`. Reductions over `dict.values()` are quantifiers over the map.

## Notes on the code

- When no member has been observed (`_on_off` is empty), `_async_update_group_state` returns before it touches the state, so the group keeps its previous state; only `async_update_group_state` clears it first. One might expect such a group to degrade to unknown, but it does not. The model follows the code (`GroupEntity.Group.UpdateGroupStateWith`, `Scenarios.RemoveCover`).
- The incremental path only ever adds to `_on_states`. It therefore over-approximates what a rescan would find (`Aggregation.IncrementalCoversRescan`), and the two can report different states (`Aggregation.IncrementalDiffersFromRescan`).
