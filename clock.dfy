/**
 * A reading of the local wall clock, broken into the fields both clients
 * format (Python `datetime.now()`, JavaScript `new Date()` with its local
 * getters). The clock itself is an input of the model.
 */
module Clock {

  datatype DateTime = DateTime(year: nat, month: nat, day: nat, hour: nat, minute: nat, second: nat)
  {
    /** The ranges a calendar reading takes (years as Python's `datetime` allows them). */
    predicate Valid() {
      1 <= year <= 9999 && 1 <= month <= 12 && 1 <= day <= 31 && hour < 24 && minute < 60 && second < 60
    }
  }
}
