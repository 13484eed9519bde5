/**
 * The server's bulk field update: the changes of a request are written
 * into every stored record of the resource type that matches the filter,
 * or into every record when the filter is absent or empty.
 */
module ResourceControl {
  import opened Wrappers
  import opened Api

  /** A stored record: field name -> value. */
  type Record = Fields

  /** The record equals the filter on every field the filter names. */
  predicate Matches(rec: Record, filter: Fields)
  {
    forall f :: f in filter ==> f in rec && rec[f] == filter[f]
  }

  /** Records the update touches: all of them without a (non-empty) filter, the matching ones otherwise. */
  predicate Selected(rec: Record, filter: Option<Fields>)
  {
    filter.None? || |filter.value| == 0 || Matches(rec, filter.value)
  }

  /** `update(**changes)` on one record: the named fields take the new values. */
  function Applied(rec: Record, filter: Option<Fields>, changes: Fields): Record
  {
    if Selected(rec, filter) then rec + changes else rec
  }

  /**
   * A selected record takes every changed field's new value and keeps its
   * other fields; a record not selected is left as it was.
   */
  lemma AppliedMeaning(rec: Record, filter: Option<Fields>, changes: Fields)
    ensures var r := Applied(rec, filter, changes);
            (!Selected(rec, filter) ==> r == rec) &&
            (Selected(rec, filter) ==>
               r.Keys == rec.Keys + changes.Keys &&
               (forall f :: f in changes ==> r[f] == changes[f]) &&
               (forall f :: f in rec && f !in changes ==> r[f] == rec[f]))
  {
  }

  /** The table after the update. */
  function UpdatedStore(store: seq<Record>, filter: Option<Fields>, changes: Fields): seq<Record>
  {
    seq(|store|, i requires 0 <= i < |store| => Applied(store[i], filter, changes))
  }

  /**
   * `UpdateFields.post`: with a non-empty filter only the matching records
   * of the type's table are updated, otherwise all of them, each in one
   * bulk statement. Finding the
   * table from the type name is left to the caller, who passes it.
   */
  method UpdateFields(records: array<Record>, filter: Option<Fields>, changes: Fields) returns (status: int)
    modifies records
    ensures records[..] == UpdatedStore(old(records[..]), filter, changes)
    ensures status == NO_CONTENT
  {
    if filter.Some? && |filter.value| > 0 {
      forall i | 0 <= i < records.Length && Matches(records[i], filter.value) {
        records[i] := records[i] + changes;
      }
    } else {
      forall i | 0 <= i < records.Length {
        records[i] := records[i] + changes;
      }
    }
    return NO_CONTENT;
  }

  /** An absent filter and an empty one both update every record with the changes. */
  lemma NoFilterUpdatesAll(store: seq<Record>, filter: Option<Fields>, changes: Fields)
    requires filter.None? || filter.value == map[]
    ensures forall i :: 0 <= i < |store| ==> UpdatedStore(store, filter, changes)[i] == store[i] + changes
  {
  }

  /** An absent filter and an empty one make the same update. */
  lemma AbsentFilterAsEmpty(store: seq<Record>, changes: Fields)
    ensures UpdatedStore(store, None, changes) == UpdatedStore(store, Some(map[]), changes)
  {
  }

  /** Updating a record a second time changes nothing more. */
  lemma AppliedTwice(rec: Record, filter: Option<Fields>, changes: Fields)
    ensures Applied(Applied(rec, filter, changes), filter, changes) == Applied(rec, filter, changes)
  {
    if Selected(rec, filter) {
      var once := rec + changes;
      if Selected(once, filter) {
        assert once + changes == once;
      }
    }
  }

  /** Applying the same update twice leaves the table as applying it once. */
  lemma UpdateIdempotent(store: seq<Record>, filter: Option<Fields>, changes: Fields)
    ensures UpdatedStore(UpdatedStore(store, filter, changes), filter, changes) ==
            UpdatedStore(store, filter, changes)
  {
    var once := UpdatedStore(store, filter, changes);
    forall i | 0 <= i < |store| ensures Applied(once[i], filter, changes) == once[i] {
      AppliedTwice(store[i], filter, changes);
    }
  }

  /** A record the filter does not select stays as it was, whatever the changes. */
  lemma UnmatchedUnchanged(store: seq<Record>, filter: Fields, changes: Fields, i: nat)
    requires i < |store| && |filter| > 0 && !Matches(store[i], filter)
    ensures UpdatedStore(store, Some(filter), changes)[i] == store[i]
  {
  }
}
