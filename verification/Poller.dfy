/** Poller::updateChannel: what kqueue watches for one channel. */
module Pollers {

  /** The EVFILT_READ and EVFILT_WRITE filters that are registered. */
  datatype Filters = Filters(read: bool, write: bool)

  const NO_FILTERS := Filters(false, false)

  /** The two changes of one kevent call, READ first.  Deleting a filter that is not there
      fails; `stops` says whether the kernel then leaves the rest of the list alone. */
  function Updated(f: Filters, reading: bool, writing: bool, stops: bool): Filters {
    if stops && !reading && !f.read then f else Filters(reading, writing)
  }

  /** If the kernel goes on after a failure, the filters are the interest bits; if it stops,
      a channel without any filter gets one only when it wants to read. */
  lemma UpdatedIff(f: Filters, reading: bool, writing: bool, stops: bool)
    ensures (Updated(f, reading, writing, stops) == Filters(reading, writing))
              <==> (!stops || reading || f.read || f.write == writing)
    ensures Updated(NO_FILTERS, reading, writing, true) == if reading then Filters(true, writing) else NO_FILTERS
  {
  }
}
