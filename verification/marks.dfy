/**
 * The mark store, seen only through the calls the hooks make to it.
 * Its own bookkeeping (sets per stream, the default stream) is not part of this
 * model: every `useMark(stream, mark)` call is kept as one record in a log.
 */
module Marks {
  /** A loadable's stable identifier. */
  type Mark = string

  /** The tracking token ("stream") the surrounding tree supplies through its context. */
  type Stream = nat

  datatype MarkRecord = MarkRecord(stream: Stream, mark: Mark)

  class MarkLog {
    var records: seq<MarkRecord>

    constructor ()
      ensures records == []
    {
      records := [];
    }

    /** One `useMark(stream, mark)` call. */
    method Record(stream: Stream, mark: Mark)
      modifies this
      ensures records == old(records) + [MarkRecord(stream, mark)]
    {
      records := records + [MarkRecord(stream, mark)];
    }
  }
}
