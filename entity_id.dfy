/** Entity ids: lower-casing, the domain prefix, and the split of a group's
    members into the ones it tracks and the ones it can actually watch. */
module EntityId {
  import opened Basics

  function LowerChar(c: char): char {
    if 'A' <= c <= 'Z' then (c as int + 32) as char else c
  }

  predicate IsLower(s: string) {
    forall i :: 0 <= i < |s| ==> !('A' <= s[i] <= 'Z')
  }

  /** Lower-cases an id (ASCII letters only). */
  function Lower(s: string): (r: string)
    ensures |r| == |s|
    ensures forall i :: 0 <= i < |s| ==> r[i] == LowerChar(s[i])
    ensures IsLower(r)
    ensures IsLower(s) ==> r == s
  {
    seq(|s|, i requires 0 <= i < |s| => LowerChar(s[i]))
  }

  /** The domain of an entity id: everything before the first '.', or the
      whole id when it has no '.'. */
  function Domain(id: string): string {
    if id == [] || id[0] == '.' then [] else [id[0]] + Domain(id[1..])
  }

  /** The domain is a prefix of the id without a '.', and the id goes on
      with a '.' right after it unless the domain is the whole id. */
  lemma {:induction false} DomainIsPrefixBeforeDot(id: string)
    ensures Domain(id) <= id && '.' !in Domain(id)
    ensures |Domain(id)| < |id| ==> id[|Domain(id)|] == '.'
  {
    if id != [] && id[0] != '.' {
      DomainIsPrefixBeforeDot(id[1..]);
    }
  }

  /** An id splits at its first '.': the domain is what comes before it. */
  lemma {:induction false} DomainBeforeDot(d: string, rest: string)
    requires '.' !in d
    ensures Domain(d + ['.'] + rest) == d
  {
    if d != [] {
      assert (d + ['.'] + rest)[1..] == d[1..] + ['.'] + rest;
      DomainBeforeDot(d[1..], rest);
    }
  }

  /** An id without a '.' is its own domain. */
  lemma {:induction false} DomainWithoutDot(id: string)
    requires '.' !in id
    ensures Domain(id) == id
  {
    if id != [] {
      DomainWithoutDot(id[1..]);
    }
  }

  /** Every id of a member list, lower-cased, in the given order. */
  function LowerAll(ids: seq<string>): (r: seq<string>)
    ensures |r| == |ids|
  {
    if ids == [] then [] else LowerAll(ids[..|ids| - 1]) + [Lower(ids[|ids| - 1])]
  }

  lemma LowerAllPrefix(ids: seq<string>, i: nat)
    requires i < |ids|
    ensures LowerAll(ids[..i + 1]) == LowerAll(ids[..i]) + [Lower(ids[i])]
  {
    PrefixStep(ids, i);
  }

  /** The i-th lower-cased id is the lower-cased i-th id. */
  lemma {:induction false} LowerAllAt(ids: seq<string>, i: nat)
    requires i < |ids|
    ensures LowerAll(ids)[i] == Lower(ids[i])
  {
    if i < |ids| - 1 {
      LowerAllAt(ids[..|ids| - 1], i);
    }
  }

  /** Lower-casing a member list leaves only lower-case ids. */
  lemma LowerAllIsLower(ids: seq<string>)
    ensures forall x :: x in LowerAll(ids) ==> IsLower(x)
  {
    forall x | x in LowerAll(ids) ensures IsLower(x) {
      var i :| 0 <= i < |ids| && LowerAll(ids)[i] == x;
      LowerAllAt(ids, i);
    }
  }

  /** The lower-cased ids of a member list, as a set. */
  function LowerSet(ids: set<string>): set<string> {
    set x | x in ids :: Lower(x)
  }

  function Elements(s: seq<string>): set<string> {
    set x | x in s
  }

  lemma {:induction false} LowerAllElements(ids: seq<string>)
    ensures Elements(LowerAll(ids)) == LowerSet(Elements(ids))
  {
    var l := LowerAll(ids);
    forall x | x in Elements(l) ensures x in LowerSet(Elements(ids)) {
      var i :| 0 <= i < |l| && l[i] == x;
      LowerAllAt(ids, i);
      assert ids[i] in Elements(ids);
    }
    forall x | x in LowerSet(Elements(ids)) ensures x in Elements(l) {
      var y :| y in Elements(ids) && x == Lower(y);
      var i :| 0 <= i < |ids| && ids[i] == y;
      LowerAllAt(ids, i);
      assert l[i] == x;
    }
  }

  /** `a` occurs in `b` in the same order, possibly with gaps. */
  predicate IsSubsequence(a: seq<string>, b: seq<string>)
    decreases |b|
  {
    if a == [] then true
    else if b == [] then false
    else if a[|a| - 1] == b[|b| - 1] then IsSubsequence(a[..|a| - 1], b[..|b| - 1])
    else IsSubsequence(a, b[..|b| - 1])
  }

  /** The members a group can watch: those of `tracking` whose domain is
      not excluded, in the order of `tracking`. */
  function Trackable(tracking: seq<string>, excluded: set<string>): (r: seq<string>)
    ensures |r| <= |tracking|
    ensures forall x :: x in r ==> x in tracking && Domain(x) !in excluded
  {
    if tracking == [] then []
    else
      var last := tracking[|tracking| - 1];
      Trackable(tracking[..|tracking| - 1], excluded) + (if Domain(last) !in excluded then [last] else [])
  }

  lemma TrackableAppend(tracking: seq<string>, x: string, excluded: set<string>)
    ensures Trackable(tracking + [x], excluded)
         == Trackable(tracking, excluded) + (if Domain(x) !in excluded then [x] else [])
  {
    AppendPrefix(tracking, x);
  }

  /** Nothing watchable is dropped: every member whose domain is not excluded
      is watched. */
  lemma {:induction false} TrackableComplete(tracking: seq<string>, excluded: set<string>, x: string)
    requires x in tracking && Domain(x) !in excluded
    ensures x in Trackable(tracking, excluded)
  {
    var init := tracking[..|tracking| - 1];
    if x != tracking[|tracking| - 1] {
      assert x in init;
      TrackableComplete(init, excluded, x);
    }
  }

  /** The watched members keep the order of the tracked ones. */
  lemma {:induction false} TrackableIsSubsequence(tracking: seq<string>, excluded: set<string>)
    ensures IsSubsequence(Trackable(tracking, excluded), tracking)
  {
    if tracking != [] {
      var init := tracking[..|tracking| - 1];
      var last := tracking[|tracking| - 1];
      TrackableIsSubsequence(init, excluded);
      var r := Trackable(tracking, excluded);
      if Domain(last) !in excluded {
        assert r[..|r| - 1] == Trackable(init, excluded);
      } else if r != [] {
        assert r == Trackable(init, excluded);
        assert r[|r| - 1] in r;
        assert r[|r| - 1] != last;
      }
    }
  }

  /** With no excluded domain, every tracked member is watched. */
  lemma {:induction false} TrackableWithoutExclusions(tracking: seq<string>)
    ensures Trackable(tracking, {}) == tracking
  {
    if tracking != [] {
      var init, last := tracking[..|tracking| - 1], tracking[|tracking| - 1];
      TrackableWithoutExclusions(init);
      InitLast(tracking);
    }
  }

  /** Lower-cases each id in order, keeping aside those whose domain is not
      excluded. */
  method LowerAndFilter(ids: seq<string>, excluded: set<string>) returns (tracked: seq<string>, watched: seq<string>)
    ensures tracked == LowerAll(ids)
    ensures watched == Trackable(tracked, excluded)
  {
    tracked, watched := [], [];
    for i := 0 to |ids|
      invariant tracked == LowerAll(ids[..i])
      invariant watched == Trackable(tracked, excluded)
    {
      var idLower := Lower(ids[i]);
      LowerAllPrefix(ids, i);
      TrackableAppend(tracked, idLower, excluded);
      tracked := tracked + [idLower];
      if Domain(idLower) !in excluded {
        watched := watched + [idLower];
      }
    }
    WholePrefix(ids);
  }
}
