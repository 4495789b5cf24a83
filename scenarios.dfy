/** Worked scenarios for the aggregation rules, stated on concrete
    registries, stores and member lists. */
module Scenarios {
  import opened Basics
  import opened EntityId
  import opened Registry
  import opened Aggregation
  import opened GroupEntity

  /** The registry as it starts: only the pair on/off. */
  function Seed(): (t: Tables)
    ensures Closed(t)
  {
    Tables(map[STATE_ON := STATE_OFF], map[STATE_OFF := STATE_ON], map[])
  }

  /** After a domain registers a single on-state with a fresh off-state, the
      on-state classifies as on, the off-state as off, and the reverse map
      leads from the off-state back to the on-state. */
  lemma RegisterSingleOnState(t: Tables, domain: string, onState: string, offState: string)
    requires onState != offState && offState !in t.offOn
    ensures var r := Register(t, domain, {onState}, offState);
            && Classify(r, State(onState, domain, false))
            && !Classify(r, State(offState, domain, false))
            && offState in r.offOn && r.offOn[offState] == onState
            && onState in r.onOff
  {
    var r := Register(t, domain, {onState}, offState);
    assert |{onState}| == 1;
    assert {onState} == {r.offOn[offState]};
  }

  /** The registry once covers registered "open" with "closed". */
  function CoverTables(): Tables {
    Tables(map[STATE_ON := STATE_OFF, "open" := "closed"],
           map[STATE_OFF := STATE_ON, "closed" := "open"],
           map["cover" := {"open"}])
  }

  lemma CoverRegistration()
    ensures Register(Seed(), "cover", {"open"}, "closed") == CoverTables()
  {
    var r := Register(Seed(), "cover", {"open"}, "closed");
    CoverOnOff(r);
    CoverOffOn(r);
    assert r.byDomain == CoverTables().byDomain;
  }

  lemma CoverOnOff(r: Tables)
    requires r == Register(Seed(), "cover", {"open"}, "closed")
    ensures r.onOff == CoverTables().onOff
  {
    var want := CoverTables().onOff;
    assert r.onOff.Keys == want.Keys == {STATE_ON, "open"};
    assert r.onOff[STATE_ON] == want[STATE_ON];
    assert r.onOff["open"] == want["open"];
  }

  lemma CoverOffOn(r: Tables)
    requires r == Register(Seed(), "cover", {"open"}, "closed")
    ensures r.offOn == CoverTables().offOn
  {
    assert |{"open"}| == 1 && "closed" != STATE_OFF;
    assert {"open"} == {r.offOn["closed"]};
    assert r.offOn.Keys == CoverTables().offOn.Keys;
  }

  /** A rescan of two members sees the first, then the second. */
  lemma ObservedTwo(t: Tables, store: map<string, State>, a: string, b: string)
    ensures ObservedOnStates(t, store, [a, b])
         == (if a in store then Contribution(t, store[a]) else {}) + (if b in store then Contribution(t, store[b]) else {})
  {
    ObservedOnStatesPrefix(t, store, [a, b], 0);
    ObservedOnStatesPrefix(t, store, [a, b], 1);
  }

  /** Two covers in `any` mode: the group reports "open" while one cover is open. */
  lemma AnyGroupOfCoversOpen()
    ensures var t := CoverTables();
            var ids := ["cover.a", "cover.b"];
            var open := map["cover.a" := State("open", "cover", false), "cover.b" := State("closed", "cover", false)];
            AggregateState(false, ObservedOnOff(t, open, ids), ObservedOnStates(t, open, ids), t.onOff) == Some("open")
  {
    var t := CoverTables();
    var ids := ["cover.a", "cover.b"];
    var open := map["cover.a" := State("open", "cover", false), "cover.b" := State("closed", "cover", false)];
    ObservedTwo(t, open, "cover.a", "cover.b");
    assert |{"open"}| == 1;
    var onOpen := ObservedOnOff(t, open, ids);
    assert "cover.a" in onOpen && onOpen["cover.a"];
  }

  /** The same group reports the single off-state once no cover is open. */
  lemma AnyGroupOfCoversClosed()
    ensures var t := CoverTables();
            var ids := ["cover.a", "cover.b"];
            var shut := map["cover.a" := State("closed", "cover", false), "cover.b" := State("closed", "cover", false)];
            AggregateState(false, ObservedOnOff(t, shut, ids), ObservedOnStates(t, shut, ids), t.onOff) == Some("closed")
  {
    var t := CoverTables();
    var ids := ["cover.a", "cover.b"];
    var shut := map["cover.a" := State("closed", "cover", false), "cover.b" := State("closed", "cover", false)];
    ObservedTwo(t, shut, "cover.a", "cover.b");
    assert |{"open"}| == 1;
    var onShut := ObservedOnOff(t, shut, ids);
    assert "closed" != "open";
    assert forall k :: k in onShut ==> !onShut[k];
  }

  /** Members of domains with different single on-states fall back to the
      generic labels. */
  lemma MixedDomainsUseGenericLabels()
    ensures var t := CoverTables();
            var ids := ["cover.a", "switch.b"];
            var store := map["cover.a" := State("closed", "cover", false), "switch.b" := State(STATE_ON, "switch", false)];
            var onStates := ObservedOnStates(t, store, ids);
            && onStates == {"open", STATE_ON}
            && AggregateState(false, ObservedOnOff(t, store, ids), onStates, t.onOff) == Some(STATE_ON)
            && AggregateState(true, ObservedOnOff(t, store, ids), onStates, t.onOff) == Some(STATE_OFF)
  {
    var t := CoverTables();
    var ids := ["cover.a", "switch.b"];
    var store := map["cover.a" := State("closed", "cover", false), "switch.b" := State(STATE_ON, "switch", false)];
    ObservedTwo(t, store, "cover.a", "switch.b");
    assert "switch" != "cover";
    assert Contribution(t, store["switch.b"]) == {STATE_ON};
    assert "open" != STATE_ON;
    assert |{"open", STATE_ON}| == 2;
    var onOff := ObservedOnOff(t, store, ids);
    assert "switch.b" in onOff && onOff["switch.b"];
    assert "cover.a" in onOff && !onOff["cover.a"];
  }

  /** A member of an excluded domain is never watched, so nothing is ever
      observed for it. */
  lemma ExcludedMemberIsNeverObserved(t: Tables, store: map<string, State>)
    ensures Trackable(["lock.front"], {"lock"}) == []
    ensures ObservedOnOff(t, store, Trackable(["lock.front"], {"lock"})) == map[]
  {
    DomainBeforeDot("lock", "front");
    assert "lock" + ['.'] + "front" == "lock.front";
  }

  /** An assumed change makes the group assumed at once, whatever the mode
      and the other members. */
  lemma AssumedChangeIsImmediate(modeAll: bool, assumed: map<string, bool>)
    ensures NextAssumed(modeAll, assumed, false, Some(true))
  {
  }

  /** A fresh registry once covers have registered. */
  method NewCoverRegistry() returns (registry: GroupIntegrationRegistry)
    ensures fresh(registry) && registry.Valid()
    ensures registry.Snapshot() == CoverTables() && registry.excludeDomains == {}
  {
    registry := new GroupIntegrationRegistry();
    registry.OnOffStates("cover", {"open"}, "closed");
    CoverRegistration();
  }

  lemma LowerGarage()
    ensures Lower("Cover.Garage") == "cover.garage"
  {
    var l := Lower("Cover.Garage");
    assert l[0] == LowerChar('C') == 'c' && l[6] == LowerChar('G') == 'g';
    assert forall i | 0 <= i < |l| :: l[i] == "cover.garage"[i];
  }

  /** A declared "Cover.Garage" is tracked and watched as "cover.garage". */
  lemma CoverMembers()
    ensures LowerAll(["Cover.Garage"]) == ["cover.garage"]
    ensures Trackable(["cover.garage"], {}) == ["cover.garage"]
  {
    assert ["Cover.Garage"][..0] == [];
    LowerGarage();
    TrackableWithoutExclusions(["cover.garage"]);
  }

  /** A rescan of the one cover, open or closed. */
  lemma CoverRescan(reported: string)
    requires reported == "open" || reported == "closed"
    ensures var store := map["cover.garage" := State(reported, "cover", false)];
            && ObservedOnOff(CoverTables(), store, ["cover.garage"]) == map["cover.garage" := reported == "open"]
            && ObservedOnStates(CoverTables(), store, ["cover.garage"]) == {"open"}
  {
    assert ["cover.garage"][..0] == [];
  }

  /** A group over one cover, whose id is lower-cased on the way in. */
  method NewCoverGroup(registry: GroupIntegrationRegistry) returns (group: Group)
    requires registry.Valid() && registry.Snapshot() == CoverTables() && registry.excludeDomains == {}
    ensures fresh(group) && group.Valid() && group.registry == registry
    ensures group.trackable == ["cover.garage"] && !group.modeAll
    ensures group.unsub.None? && group.state == None && group.onOff == map[]
  {
    CoverMembers();
    group := new Group(registry, "Covers", false, Some(["Cover.Garage"]), None, None, Some(0));
  }

  /** Starting with the cover open reports the group open. */
  method StartOpen(group: Group, store: map<string, State>)
    requires group.Valid() && group.registry.Snapshot() == CoverTables()
    requires group.trackable == ["cover.garage"] && !group.modeAll && group.unsub.None?
    requires store == map["cover.garage" := State("open", "cover", false)]
    modifies group
    ensures group.Valid() && group.trackable == ["cover.garage"] && !group.modeAll
    ensures group.unsub == Some(Subscription(["cover.garage"]))
    ensures group.state == Some("open") && group.onOff == map["cover.garage" := true]
    ensures group.onStates == {"open"}
  {
    group.Start(store);
    CoverRescan("open");
    assert |{"open"}| == 1;
  }

  /** The cover closing reports the group closed. */
  method CloseCover(group: Group, store: map<string, State>)
    requires group.Valid() && group.registry.Snapshot() == CoverTables() && !group.modeAll
    requires group.unsub.Some? && group.onOff == map["cover.garage" := true] && group.onStates == {"open"}
    requires store == map["cover.garage" := State("closed", "cover", false)]
    modifies group
    ensures group.Valid() && group.unsub == old(group.unsub)
    ensures group.state == Some("closed") && group.onOff == map["cover.garage" := false]
  {
    group.StateChangedListener(store, "cover.garage", Some(store["cover.garage"]));
    assert unchanged(group.registry);
    assert "open" != "closed" && |{"open"}| == 1;
    assert group.onOff == map["cover.garage" := false];
  }

  /** The cover vanishing from the store leaves nothing observed, and the
      group keeps its last state. */
  method RemoveCover(group: Group)
    requires group.Valid() && group.unsub.Some? && group.state == Some("closed")
    modifies group
    ensures group.Valid() && group.unsub == old(group.unsub)
    ensures group.onOff == map[] && group.state == Some("closed")
  {
    group.StateChangedListener(map[], "cover.garage", None);
    assert group.Rescanned(map[]);
  }

  /** Running the lifecycle on one cover: starting reports it open; its
      state closing reports closed; when it disappears from the store the
      group keeps reporting closed; once stopped, events change nothing. */
  method CoverLifecycle()
  {
    var registry := NewCoverRegistry();
    var group := NewCoverGroup(registry);
    StartOpen(group, map["cover.garage" := State("open", "cover", false)]);
    assert group.state == Some("open");

    var closed := State("closed", "cover", false);
    CloseCover(group, map["cover.garage" := closed]);
    assert group.state == Some("closed");

    RemoveCover(group);
    assert group.onOff == map[] && group.state == Some("closed");

    group.Stop();
    group.StateChangedListener(map["cover.garage" := closed], "cover.garage", Some(closed));
    assert group.state == Some("closed") && group.onOff == map[];
  }
}
