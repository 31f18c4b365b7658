/**
 * The part of a PostgreSQL observation entry that one lease can see: whether it may read, under which
 * listener generation, and the readiness promises it can wait for. A session is verified against every
 * environment that satisfies `Rely`; the manager is verified to be such an environment.
 */
module ObservationGate {

  /** A readiness promise; a settled one never changes again. */
  datatype Promise = Pending | Resolved(generation: nat) | Rejected

  /**
   * `losses` and `restored` are history: how often a live listener was lost, and the generation under which
   * the entry last became available. The code neither stores nor reads them.
   */
  datatype Gate = Gate(dead: bool, wasReady: bool, available: bool, generation: nat, promises: seq<Promise>,
                       keyed: bool, released: bool, losses: nat, restored: nat)
  {
    /** The lease's `isCurrent`. */
    predicate IsCurrent(g: nat) {
      !dead && available && generation == g
    }

    /** The lease's `whenReady` hands out a rejected promise in these states; an entry always has a promise. */
    predicate Refuses() {
      dead || released || promises == []
    }

    ghost predicate Valid() {
      && 0 < |promises|
      && restored <= generation
      && (available && !dead ==> generation == restored)
      && (keyed ==> wasReady)
      && (forall i :: 0 <= i < |promises| && promises[i].Resolved? ==>
            promises[i].generation <= restored
            && (promises[i].generation == generation ==> available && !dead))
    }
  }

  /** Nothing is taken back: flags that only rise, counters that only grow, promises that settle once. */
  ghost predicate Grows(g: Gate, g': Gate) {
    && (g.dead ==> g'.dead)
    && (g.released ==> g'.released)
    && (g.wasReady ==> g'.wasReady)
    && (g.keyed ==> g'.keyed)
    && g.generation <= g'.generation
    && g.losses <= g'.losses
    && g.restored <= g'.restored
    && |g.promises| <= |g'.promises|
    && (forall i :: 0 <= i < |g.promises| && !g.promises[i].Pending? ==> g'.promises[i] == g.promises[i])
  }

  /**
   * What every step of the environment promises a lease. While a generation stays live nothing is lost and no
   * catch-up is asked for; and a validated lease is asked to catch up whenever the entry becomes available again.
   */
  ghost predicate Rely(g: Gate, g': Gate, catchup: bool) {
    && g'.Valid()
    && Grows(g, g')
    && (g.IsCurrent(g'.generation) ==>
          g'.available && !g'.dead && g'.losses == g.losses && g'.restored == g.restored && !catchup)
    && (g'.restored != g.restored && g.keyed ==> catchup || g'.released)
  }
}
