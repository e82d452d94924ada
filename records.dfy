/** The values the pages keep in browser storage and pass between each
    other: the signed-in user, weight-log entries and the per-day diet
    completion record. Storage serialisation (`JSON.stringify`/`JSON.parse`)
    is treated as the identity on these values. */
module Records {

  datatype Option<T> = None | Some(value: T)

  /** The user object the authentication service returns. An id of `""`
      stands for a missing or falsy `id`. */
  datatype User = User(id: string, email: string, name: string, age: string,
                       weights: string, conditions: string)

  /** `user?.id` is truthy: there is a user and it has an id. */
  predicate HasId(user: Option<User>) {
    user.Some? && user.value.id != ""
  }

  /** One logged weight: `{id, weight, date, time, timestamp}`. The weight is
      the positive number `parseFloat` gave; `date` and `time` are the
      locale strings of the moment it was logged. */
  datatype WeightEntry = WeightEntry(id: int, weight: real, date: string, time: string, timestamp: int)

  /** What one day's diet record holds: the `eatenMeals` object as its list
      of entries in key order, and the completion percentage (a number the
      pages only read, so not necessarily whole). */
  datatype DietRecord = DietRecord(eatenMeals: seq<(string, bool)>, completionPercentage: real)

  /** A weight as the pages show it: `"N/A"`, or a weight in kilograms
      (rendered with one decimal, which is not modelled). */
  datatype WeightDisplay = NotAvailable | Kg(weight: real)

  /** `obj[key]` on an object given by its entries: the value of the entry
      with that key, if there is one. */
  function Lookup(entries: seq<(string, bool)>, key: string): (r: Option<bool>)
    ensures r.None? <==> forall i :: 0 <= i < |entries| ==> entries[i].0 != key
    ensures r.Some? ==> exists i :: 0 <= i < |entries| && entries[i] == (key, r.value)
  {
    if entries == [] then None
    else if entries[0].0 == key then Some(entries[0].1)
    else Lookup(entries[1..], key)
  }

  /** The keys of an object are distinct. */
  ghost predicate DistinctKeys(entries: seq<(string, bool)>) {
    forall i, j :: 0 <= i < j < |entries| ==> entries[i].0 != entries[j].0
  }
}
