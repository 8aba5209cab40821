/**
 * The status buttons of the Residents, Rooms and Bookings pages: "all"
 * lets every record through, any other choice only the records with
 * exactly that status.
 */
module PageFilters {

  datatype StatusFilter<S> = All | Only(status: S)

  /** `statusFilter === "all" || record.status === statusFilter`. */
  predicate Admits<S(==)>(f: StatusFilter<S>, s: S)
  {
    f.All? || f.status == s
  }
}
