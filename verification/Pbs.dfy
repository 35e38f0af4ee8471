/** The PBS datastore as the bridge sees it: one snapshot per coordinate, ascending times per group. */
module Pbs {
  import opened Wrappers

  /** A PBS backup group: namespace, backup type and backup id. */
  datatype Group = Group(ns: string, btype: string, id: string)

  /** A snapshot is addressed by its group and its backup time in seconds. */
  datatype Coord = Coord(group: Group, time: int)

  /** How a failed call is classified; the classes are disjoint. */
  datatype ErrClass = Transient | Collision | Missing | Other

  const MAX_TRANSIENT_RETRIES := 3
  const MAX_COLLISION_RETRIES := 5

  /** PBS accepts a backup iff its time exceeds every time it ever accepted in the group. */
  predicate Accepts(high: map<Group, int>, x: Coord) {
    x.group !in high || high[x.group] < x.time
  }
}
