/** Who owns an entry of a loader table. */
module Ownership {
  /**
   * A mod as the tables know it: the address of its object, and which of the objects that have lived at
   * that address it is. The second part stands for the weak pointer, which tells them apart.
   */
  datatype Owner = Owner(mod: nat, born: nat)

  const MAX_NAME := 128

  /** Topics, service names and lane names share one rule. */
  predicate GoodName(name: string) {
    name != "" && |name| <= MAX_NAME
  }

  /** Between two moments a table only loses entries or gains ones with fresh ids. */
  ghost predicate Aged<E>(before: map<nat, E>, nextBefore: nat, after: map<nat, E>, nextAfter: nat) {
    && nextBefore <= nextAfter
    && forall id :: id in after && id < nextBefore ==> id in before && after[id] == before[id]
  }

  lemma AgedTrans<E>(a: map<nat, E>, na: nat, b: map<nat, E>, nb: nat, c: map<nat, E>, nc: nat)
    requires Aged(a, na, b, nb) && Aged(b, nb, c, nc)
    ensures Aged(a, na, c, nc)
  {}
}
