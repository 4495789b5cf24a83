/** Values shared by every part of the group component: an optional value,
    the two generic state labels and a member's state as the host reports it. */
module Basics {

  datatype Option<T> = None | Some(value: T) {
    /** The value, or `default` when there is none. */
    function GetOr(default: T): T {
      if Some? then value else default
    }
  }

  /** The generic on-label and its off-label, the registry's seed pair. */
  const STATE_ON: string := "on"
  const STATE_OFF: string := "off"

  /** A member's state as the host's state store holds it: its label (`state`), the
      domain of its entity id and whether the assumed-state attribute is set. */
  datatype State = State(state: string, domain: string, assumed: bool)

  /** The new state delivered with a state-change event, together with the
      id of the member it belongs to. */
  datatype Change = Change(entityId: string, state: State)

  /** The handle a state-change subscription returns; it remembers the set
      of entity ids the subscription watches. */
  datatype Subscription = Subscription(entities: seq<string>)

  /** A non-empty sequence is its prefix followed by its last element
      (stated generically, so that element equality stays a plain term). */
  lemma InitLast<T>(s: seq<T>)
    requires s != []
    ensures s[..|s| - 1] + [s[|s| - 1]] == s
  {
  }

  /** One more element of a prefix. */
  lemma PrefixStep<T>(s: seq<T>, i: nat)
    requires i < |s|
    ensures s[..i + 1] == s[..i] + [s[i]] && s[..i + 1][..i] == s[..i]
  {
  }

  /** The prefix of a sequence's full length is the sequence. */
  lemma WholePrefix<T>(s: seq<T>)
    ensures s[..|s|] == s
  {
  }

  /** Appending one element keeps the old elements as a prefix. */
  lemma AppendPrefix<T>(s: seq<T>, x: T)
    ensures (s + [x])[..|s|] == s && (s + [x])[|s|] == x
  {
  }
}
