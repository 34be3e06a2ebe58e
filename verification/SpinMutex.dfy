/** The spin mutex (mutex.cpp): one atomic flag. */
module SpinMutex {

  class Mutex {
    var locked: bool

    constructor ()
      ensures !locked
    {
      locked := false;
    }

    /** compare_exchange_strong( UNLOCKED, LOCKED); lock repeats it until it succeeds. */
    method TryLock() returns (ok: bool)
      modifies this
      ensures ok == !old(locked) && locked
    {
      ok := !locked;
      if ok {
        locked := true;
      }
    }

    /** A plain store: whoever calls it need not be the one who locked. */
    method Unlock()
      modifies this
      ensures !locked
    {
      locked := false;
    }
  }
}
