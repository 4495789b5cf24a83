/** The aggregation rules of a group: how one member's state is classified,
    which on-labels it contributes, how the verdicts are reduced by the
    group's mode, which label the group reports, and what a full rescan of
    the watched members yields. */
module Aggregation {
  import opened Basics
  import opened Registry

  /** Whether a member's state counts as on: by its domain's registered
      on-states, or, for a domain nobody registered (a group of groups), by
      being any on-label at all. */
  function Classify(t: Tables, s: State): (on: bool)
    // whatever counts as on is itself an on-label
    ensures on && Closed(t) ==> s.state in t.onOff
  {
    if s.domain in t.byDomain then s.state in t.byDomain[s.domain] else s.state in t.onOff
  }

  /** The on-labels a member's state adds to the group's on-labels. */
  function Contribution(t: Tables, s: State): (labels: set<string>)
    ensures Closed(t) ==> labels <= t.onOff.Keys
    ensures s.domain !in t.byDomain ==> |labels| <= 1
  {
    if s.domain !in t.byDomain then
      if s.state in t.onOff then {s.state}
      else if s.state in t.offOn then {t.offOn[s.state]}
      else {}
    else t.byDomain[s.domain]
  }

  /** A member that counts as on brings its own label into the on-labels. */
  lemma OnMemberContributesItsLabel(t: Tables, s: State)
    requires Classify(t, s)
    ensures s.state in Contribution(t, s)
  {
  }

  /** The group's mode applied to the members' flags: `all` when
      `modeAll`, otherwise `any` (so an empty map is on for `all` only). */
  function ModeHolds(modeAll: bool, flags: map<string, bool>): (holds: bool)
    // Python's `all(())` is true and `any(())` false
    ensures flags == map[] ==> (holds <==> modeAll)
    // on a non-empty map, `all` implies `any`
    ensures modeAll && holds && flags != map[] ==> exists k :: k in flags && flags[k]
  {
    if modeAll then forall k :: k in flags ==> flags[k]
    else exists k :: k in flags && flags[k]
  }

  /** The label the group uses for "on": the single on-label when all watched
      domains agree, the generic "on" otherwise. */
  function OnLabel(onStates: set<string>): (onLabel: string)
    requires onStates != {}
    ensures |onStates| == 1 ==> onStates == {onLabel}
    ensures |onStates| != 1 ==> onLabel == STATE_ON
  {
    if |onStates| == 1 then TheOnly(onStates) else STATE_ON
  }

  /** The group's state once at least one member has been observed: unknown
      without any on-label, otherwise the on-label when the mode holds and
      the off-label registered for it when not. */
  function AggregateState(modeAll: bool, onOff: map<string, bool>, onStates: set<string>,
                          onOffMapping: map<string, string>): (state: Option<string>)
    requires STATE_ON in onOffMapping && onStates <= onOffMapping.Keys
    ensures state.None? <==> onStates == {}
    ensures state.Some? && ModeHolds(modeAll, onOff) ==> state.value == OnLabel(onStates)
    ensures state.Some? && !ModeHolds(modeAll, onOff) ==> state.value == onOffMapping[OnLabel(onStates)]
  {
    if onStates == {} then None
    else
      var onLabel := OnLabel(onStates);
      if ModeHolds(modeAll, onOff) then Some(onLabel) else Some(onOffMapping[onLabel])
  }

  /** The representative on-label is itself an on-label, so the off-label
      lookup for it never misses and `is_on` holds for it. */
  lemma {:induction false} OnLabelIsOnLabel(t: Tables, onStates: set<string>)
    requires Closed(t) && onStates != {} && onStates <= t.onOff.Keys
    ensures OnLabel(onStates) in t.onOff
  {
    if |onStates| == 1 {
      assert OnLabel(onStates) in onStates;
    }
  }

  /** `is_on` of a nested group agrees with how a parent group classifies it:
      for an entity of a domain that registered no on-states, both ask
      whether its state is an on-label. */
  lemma IsOnAgreesWithClassify(registry: GroupIntegrationRegistry, store: map<string, State>, id: string)
    requires id in store && store[id].domain !in registry.onStatesByDomain
    ensures IsOn(registry, store, id) == Classify(registry.Snapshot(), store[id])
  {
  }

  /** A group that reports the state its mode gives when it holds is on for
      `is_on`. */
  lemma GroupOnIsOn(registry: GroupIntegrationRegistry, store: map<string, State>, id: string,
                    modeAll: bool, onOff: map<string, bool>, onStates: set<string>)
    requires registry.Valid() && onStates <= registry.onOffMapping.Keys
    requires ModeHolds(modeAll, onOff)
    requires id in store && AggregateState(modeAll, onOff, onStates, registry.onOffMapping) == Some(store[id].state)
    ensures IsOn(registry, store, id)
  {
    OnLabelIsOnLabel(registry.Snapshot(), onStates);
  }

  /** The group's assumed-state flag after an update: a full reduction when
      no single change is given or when an assumed group sees a change that
      is not assumed; set outright when the change is assumed; otherwise
      left as it was. */
  function NextAssumed(modeAll: bool, assumed: map<string, bool>, wasAssumed: bool,
                       changedAssumed: Option<bool>): (isAssumed: bool)
    // a full reduction without a change ...
    ensures changedAssumed.None? ==> isAssumed == ModeHolds(modeAll, assumed)
    // ... and when an assumed group sees a change that is not assumed
    ensures wasAssumed && changedAssumed == Some(false) ==> isAssumed == ModeHolds(modeAll, assumed)
    // an assumed change sets the flag without a reduction
    ensures changedAssumed == Some(true) ==> isAssumed
    // a change that is not assumed leaves a group that is not assumed as it was
    ensures !wasAssumed && changedAssumed == Some(false) ==> !isAssumed
  {
    if changedAssumed.None? || (wasAssumed && !changedAssumed.value) then ModeHolds(modeAll, assumed)
    else if changedAssumed.value then true
    else wasAssumed
  }

  /** In `any` mode the shortcut is exact: if the flag agreed with the
      reduction before the change, it agrees afterwards. */
  lemma AssumedShortcutExactForAny(before: map<string, bool>, wasAssumed: bool, id: string, flag: bool)
    requires wasAssumed == ModeHolds(false, before)
    ensures NextAssumed(false, before[id := flag], wasAssumed, Some(flag)) == ModeHolds(false, before[id := flag])
  {
    var after := before[id := flag];
    if flag {
      assert after[id];
    } else if !wasAssumed {
      forall k | k in after ensures !after[k] {
        if k != id {
          assert k in before;
        }
      }
    }
  }

  /** In `all` mode the shortcut never loses an assumed group: whenever the
      reduction is true, so is the flag. */
  lemma AssumedShortcutCoversAll(before: map<string, bool>, wasAssumed: bool, id: string, flag: bool)
    requires wasAssumed == ModeHolds(true, before)
    ensures ModeHolds(true, before[id := flag]) ==> NextAssumed(true, before[id := flag], wasAssumed, Some(flag))
  {
    var after := before[id := flag];
    if !wasAssumed && !flag {
      assert id in after && !after[id];
    }
  }

  /** ... but it can report an `all` group as assumed while one member is not. */
  lemma AssumedShortcutOverApproximatesAll()
    ensures var before := map["light.a" := false];
            var after := before["light.b" := true];
            NextAssumed(true, after, false, Some(true)) && !ModeHolds(true, after)
  {
    var after := map["light.a" := false]["light.b" := true];
    assert "light.a" != "light.b";
    assert "light.a" in after && !after["light.a"];
  }

  /** Verdicts of the watched members the store knows, as a full rescan finds them. */
  function ObservedOnOff(t: Tables, store: map<string, State>, ids: seq<string>): (onOff: map<string, bool>)
    ensures forall id :: id in onOff <==> id in ids && id in store
  {
    map id | id in ids && id in store :: Classify(t, store[id])
  }

  /** Assumed flags of the watched members the store knows. */
  function ObservedAssumed(store: map<string, State>, ids: seq<string>): (assumed: map<string, bool>)
    ensures assumed.Keys == set id | id in ids && id in store
  {
    map id | id in ids && id in store :: store[id].assumed
  }

  /** The union of the on-labels contributed by the watched members the
      store knows. */
  function ObservedOnStates(t: Tables, store: map<string, State>, ids: seq<string>): (labels: set<string>)
    ensures Closed(t) ==> labels <= t.onOff.Keys
  {
    if ids == [] then {}
    else
      var id := ids[|ids| - 1];
      ObservedOnStates(t, store, ids[..|ids| - 1]) + (if id in store then Contribution(t, store[id]) else {})
  }

  /** Extending a rescan by the next watched member sees that member. */
  lemma ObservedOnOffPrefix(t: Tables, store: map<string, State>, ids: seq<string>, i: nat)
    requires i < |ids|
    ensures ObservedOnOff(t, store, ids[..i + 1])
         == if ids[i] in store then ObservedOnOff(t, store, ids[..i])[ids[i] := Classify(t, store[ids[i]])]
            else ObservedOnOff(t, store, ids[..i])
  {
    assert forall x :: x in ids[..i + 1] <==> x in ids[..i] || x == ids[i];
  }

  lemma ObservedAssumedPrefix(store: map<string, State>, ids: seq<string>, i: nat)
    requires i < |ids|
    ensures ObservedAssumed(store, ids[..i + 1])
         == if ids[i] in store then ObservedAssumed(store, ids[..i])[ids[i] := store[ids[i]].assumed]
            else ObservedAssumed(store, ids[..i])
  {
    assert forall x :: x in ids[..i + 1] <==> x in ids[..i] || x == ids[i];
  }

  lemma ObservedOnStatesPrefix(t: Tables, store: map<string, State>, ids: seq<string>, i: nat)
    requires i < |ids|
    ensures ObservedOnStates(t, store, ids[..i + 1])
         == ObservedOnStates(t, store, ids[..i]) + (if ids[i] in store then Contribution(t, store[ids[i]]) else {})
  {
    PrefixStep(ids, i);
  }

  /** A label is among the rescanned on-labels exactly when some watched
      member the store knows contributes it. */
  lemma {:induction false} ObservedOnStatesMembers(t: Tables, store: map<string, State>, ids: seq<string>, x: string)
    ensures x in ObservedOnStates(t, store, ids)
        <==> exists id :: id in ids && id in store && x in Contribution(t, store[id])
  {
    if ids != [] {
      var init := ids[..|ids| - 1];
      var last := ids[|ids| - 1];
      ObservedOnStatesMembers(t, store, init, x);
      if x in ObservedOnStates(t, store, ids) {
        if x !in ObservedOnStates(t, store, init) {
          assert last in ids;
        } else {
          var id :| id in init && id in store && x in Contribution(t, store[id]);
          assert id in ids;
        }
      } else {
        forall id | id in ids && id in store ensures x !in Contribution(t, store[id]) {
          if id != last {
            assert id in init;
          }
        }
      }
    }
  }

  /** After a rescan the mode's verdict is exact: in `all` mode the group is
      on iff every watched member the store knows is on, in `any` mode iff
      one of them is. */
  lemma RescanVerdict(modeAll: bool, t: Tables, store: map<string, State>, ids: seq<string>)
    ensures ModeHolds(modeAll, ObservedOnOff(t, store, ids))
        <==> if modeAll then forall id :: id in ids && id in store ==> Classify(t, store[id])
             else exists id :: id in ids && id in store && Classify(t, store[id])
  {
  }

  /** After a rescan the group is never unknown while one watched member is on. */
  lemma RescanOnMemberIsKnown(t: Tables, store: map<string, State>, ids: seq<string>, id: string)
    requires id in ids && id in store && Classify(t, store[id])
    ensures ObservedOnStates(t, store, ids) != {}
  {
    OnMemberContributesItsLabel(t, store[id]);
    ObservedOnStatesMembers(t, store, ids, store[id].state);
  }

  /** Seeing one changed member incrementally gives the verdicts and assumed
      flags a rescan of the new store would. */
  lemma IncrementalMatchesRescan(t: Tables, store: map<string, State>, ids: seq<string>, id: string, s: State)
    requires id in ids
    ensures ObservedOnOff(t, store, ids)[id := Classify(t, s)] == ObservedOnOff(t, store[id := s], ids)
    ensures ObservedAssumed(store, ids)[id := s.assumed] == ObservedAssumed(store[id := s], ids)
  {
  }

  /** ... and at least the on-labels a rescan would find: the incremental
      on-labels only grow. */
  lemma {:induction false} IncrementalCoversRescan(t: Tables, store: map<string, State>, ids: seq<string>,
                                                   id: string, s: State)
    requires id in ids
    ensures ObservedOnStates(t, store[id := s], ids) <= ObservedOnStates(t, store, ids) + Contribution(t, s)
  {
    var store' := store[id := s];
    forall x | x in ObservedOnStates(t, store', ids)
      ensures x in ObservedOnStates(t, store, ids) + Contribution(t, s)
    {
      ObservedOnStatesMembers(t, store', ids, x);
      var k :| k in ids && k in store' && x in Contribution(t, store'[k]);
      if k != id {
        ObservedOnStatesMembers(t, store, ids, x);
      }
    }
  }

  /** The incremental on-labels can differ from a rescan's: a nested group
      that goes from "on" to "unavailable" leaves "on" behind, so the
      incremental update reports "off" where a rescan reports unknown. */
  lemma IncrementalDiffersFromRescan()
    ensures var t := Tables(map[STATE_ON := STATE_OFF], map[STATE_OFF := STATE_ON], map[]);
            var before := map["group.inner" := State(STATE_ON, "group", false)];
            var now := State("unavailable", "group", false);
            var ids := ["group.inner"];
            var incremental := ObservedOnStates(t, before, ids) + Contribution(t, now);
            var rescanned := ObservedOnStates(t, before["group.inner" := now], ids);
            var onOff := ObservedOnOff(t, before, ids)["group.inner" := Classify(t, now)];
            && AggregateState(false, onOff, incremental, t.onOff) == Some(STATE_OFF)
            && AggregateState(false, onOff, rescanned, t.onOff) == None
  {
    var t := Tables(map[STATE_ON := STATE_OFF], map[STATE_OFF := STATE_ON], map[]);
    var before := map["group.inner" := State(STATE_ON, "group", false)];
    var now := State("unavailable", "group", false);
    var ids := ["group.inner"];
    assert ids[..0] == [];
    assert "unavailable" != STATE_ON && "unavailable" != STATE_OFF;
    assert Contribution(t, now) == {};
    assert ObservedOnStates(t, before, ids) == {STATE_ON};
    var onOff := ObservedOnOff(t, before, ids)["group.inner" := Classify(t, now)];
    assert onOff == map["group.inner" := false];
    assert !ModeHolds(false, onOff);
  }
}
