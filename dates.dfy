/** A JavaScript `Date` as the pages read it: only the local-time fields its
    getters return (`getHours`, `getMinutes`, `getSeconds`). */
module Dates {

  datatype LocalTime = LocalTime(hours: nat, minutes: nat, seconds: nat)

  /** The ranges the `Date` getters return. */
  predicate IsClockTime(t: LocalTime) {
    t.hours < 24 && t.minutes < 60 && t.seconds < 60
  }
}
