/** Where a list is mirrored in browser storage: one named entry holding its JSON. */
module Persistence {

  /** What `localStorage.getItem(name)` followed by `JSON.parse` yields: no entry (or an
      empty one), text that does not parse as a list of records, or the decoded records
      (dates already turned back into instants). */
  datatype Blob<T> = Missing | Malformed | Records(items: seq<T>)

  /** The save effect shared by the task store and the notification log: the whole list is
      written when it is non-empty, and the stored entry is left alone when it is empty. */
  function AfterSave<T>(list: seq<T>, stored: Blob<T>): (b: Blob<T>)
    ensures |list| > 0 ==> b == Records(list)
    ensures |list| == 0 ==> b == stored
  {
    if |list| > 0 then Records(list) else stored
  }
}
