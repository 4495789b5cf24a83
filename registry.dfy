/** The on/off classification registry every integration fills at startup:
    which labels count as "on", the off-label each of them maps to, the
    reverse map for single-state domains, the on-labels of each domain, and
    the domains whose entities a group never watches. */
module Registry {
  import opened Basics

  /** The three classification tables the aggregation reads. */
  datatype Tables = Tables(
    onOff: map<string, string>,
    offOn: map<string, string>,
    byDomain: map<string, set<string>>)

  /** Every label that can end up among a group's on-labels has an off-label:
      the generic on-label, every reverse-map target and every domain's
      on-labels are keys of the on/off map. */
  ghost predicate Closed(t: Tables) {
    && STATE_ON in t.onOff
    && t.offOn.Values <= t.onOff.Keys
    && forall d :: d in t.byDomain ==> t.byDomain[d] <= t.onOff.Keys
  }

  /** The one element of a singleton set (`list(s)[0]` on a one-element set). */
  function TheOnly(s: set<string>): (x: string)
    requires |s| == 1
    ensures s == {x}
  {
    var x :| x in s;
    SingletonIs(s, x);
    x
  }

  lemma SingletonIs(s: set<string>, x: string)
    requires |s| == 1 && x in s
    ensures s == {x}
  {
    assert |s - {x}| == 0;
  }

  /** The tables after `domain` registers `onStates` with `offState`. */
  function Register(t: Tables, domain: string, onStates: set<string>, offState: string): (r: Tables)
    // every given on-state is now classified as on
    ensures r.onOff.Keys == t.onOff.Keys + onStates
    // the first registrant of a label keeps its off-label
    ensures forall k :: k in t.onOff ==> r.onOff[k] == t.onOff[k]
    ensures forall k :: k in onStates && k !in t.onOff ==> r.onOff[k] == offState
    // the reverse map is never overwritten ...
    ensures forall k :: k in t.offOn ==> k in r.offOn && r.offOn[k] == t.offOn[k]
    // ... and gains an entry only for a single on-state whose off-state is new
    ensures r.offOn.Keys == if |onStates| == 1 && offState !in t.offOn then t.offOn.Keys + {offState} else t.offOn.Keys
    ensures |onStates| == 1 && offState !in t.offOn ==> onStates == {r.offOn[offState]}
    // the domain's on-states are replaced, not merged
    ensures r.byDomain.Keys == t.byDomain.Keys + {domain}
    ensures r.byDomain[domain] == onStates
    ensures forall d :: d in t.byDomain && d != domain ==> r.byDomain[d] == t.byDomain[d]
  {
    Tables(
      map k | k in t.onOff.Keys + onStates :: if k in t.onOff then t.onOff[k] else offState,
      if |onStates| == 1 && offState !in t.offOn then t.offOn[offState := TheOnly(onStates)] else t.offOn,
      t.byDomain[domain := onStates])
  }

  /** Registration keeps every on-label lookup total. */
  lemma RegisterKeepsClosed(t: Tables, domain: string, onStates: set<string>, offState: string)
    requires Closed(t)
    ensures Closed(Register(t, domain, onStates, offState))
  {
    var r := Register(t, domain, onStates, offState);
    forall v | v in r.offOn.Values ensures v in r.onOff.Keys {
      var k :| k in r.offOn && r.offOn[k] == v;
      if k in t.offOn {
        assert v in t.offOn.Values;
      } else {
        assert v in onStates;
      }
    }
  }

  class GroupIntegrationRegistry {
    /** Label -> off-label for every label that counts as on. */
    var onOffMapping: map<string, string>
    /** Off-label -> the single on-label of the domain that registered it. */
    var offOnMapping: map<string, string>
    /** Domain -> the labels that count as on for it. */
    var onStatesByDomain: map<string, set<string>>
    /** Domains whose entities are never watched. */
    var excludeDomains: set<string>

    function Snapshot(): Tables
      reads this
    {
      Tables(onOffMapping, offOnMapping, onStatesByDomain)
    }

    ghost predicate Valid()
      reads this
    {
      Closed(Snapshot())
    }

    /** A registry holding only the seed pair on/off. */
    constructor ()
      ensures Valid()
      ensures onOffMapping == map[STATE_ON := STATE_OFF]
      ensures offOnMapping == map[STATE_OFF := STATE_ON]
      ensures onStatesByDomain == map[] && excludeDomains == {}
    {
      onOffMapping := map[STATE_ON := STATE_OFF];
      offOnMapping := map[STATE_OFF := STATE_ON];
      onStatesByDomain := map[];
      excludeDomains := {};
    }

    /** Marks `domain` as never watched; idempotent. */
    method ExcludeDomain(domain: string)
      requires Valid()
      modifies this`excludeDomains
      ensures Valid()
      ensures excludeDomains == old(excludeDomains) + {domain}
    {
      excludeDomains := excludeDomains + {domain};
    }

    /** Registers the on-states of `domain` and their off-state. */
    method OnOffStates(domain: string, onStates: set<string>, offState: string)
      requires Valid()
      modifies this`onOffMapping, this`offOnMapping, this`onStatesByDomain
      ensures Valid()
      ensures Snapshot() == Register(old(Snapshot()), domain, onStates, offState)
    {
      ghost var t := Snapshot();
      var mapping := onOffMapping;
      var pending := onStates;
      while pending != {}
        invariant pending <= onStates
        invariant mapping.Keys == t.onOff.Keys + (onStates - pending)
        invariant forall k :: k in mapping ==> mapping[k] == if k in t.onOff then t.onOff[k] else offState
        decreases |pending|
      {
        var onState :| onState in pending;
        if onState !in mapping {
          mapping := mapping[onState := offState];
        }
        pending := pending - {onState};
      }
      assert mapping == Register(t, domain, onStates, offState).onOff;
      onOffMapping := mapping;

      if |onStates| == 1 && offState !in offOnMapping {
        var first :| first in onStates;
        SingletonIs(onStates, first);
        assert first == TheOnly(onStates);
        offOnMapping := offOnMapping[offState := first];
      }

      onStatesByDomain := onStatesByDomain[domain := onStates];
      RegisterKeepsClosed(t, domain, onStates, offState);
    }
  }

  /** Whether the entity `entityId` is in an on-state; a registry that is
      not set up yet (`null`) reports every entity as not on. */
  function IsOn(registry: GroupIntegrationRegistry?, store: map<string, State>, entityId: string): (on: bool)
    reads registry
    ensures on <==> registry != null && entityId in store && store[entityId].state in registry.onOffMapping
  {
    if registry == null then false
    else if entityId in store then store[entityId].state in registry.onOffMapping
    else false
  }
}
