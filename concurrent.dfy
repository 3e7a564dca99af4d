/**
 * The three `java.util.concurrent` primitives the orchestrator coordinates
 * with, as sequential objects: each call is one atomic step, and any
 * interleaving of threads is a sequence of such calls.
 */
module Concurrent {
  import Common


  /** `AtomicBoolean`: a flag whose `compareAndSet` lets exactly one caller win. */
  class AtomicFlag {
    var value: bool

    constructor (initial: bool)
      ensures value == initial
    {
      value := initial;
    }

    method Get() returns (v: bool)
      ensures v == value
    {
      v := value;
    }

    method Set(v: bool)
      modifies this
      ensures value == v
    {
      value := v;
    }

    /** Succeeds, and stores `update`, only when the flag holds `expected`. */
    method CompareAndSet(expected: bool, update: bool) returns (won: bool)
      modifies this
      ensures won == (old(value) == expected)
      ensures value == if won then update else old(value)
    {
      won := value == expected;
      if won {
        value := update;
      }
    }
  }

  /** The states of a `CompletableFuture`. */
  datatype FutureState<T> = Pending | Done(value: T) | Failed(error: Common.Throwable)

  /**
   * `CompletableFuture`: a write-once cell. `complete` and
   * `completeExceptionally` change it only while it is pending, so it is
   * resolved at most once whatever the number of callers. `resolutions`
   * counts the calls that changed it.
   */
  class Promise<T> {
    var state: FutureState<T>
    ghost var resolutions: nat

    ghost predicate Valid()
      reads this
    {
      resolutions == (if state.Pending? then 0 else 1)
    }

    constructor ()
      ensures Valid() && state == Pending
    {
      state := Pending;
      resolutions := 0;
    }

    method Complete(v: T) returns (changed: bool)
      requires Valid()
      modifies this
      ensures Valid()
      ensures changed == old(state).Pending?
      ensures state == if changed then Done(v) else old(state)
    {
      changed := state.Pending?;
      if changed {
        state := Done(v);
        resolutions := resolutions + 1;
      }
    }

    method CompleteExceptionally(e: Common.Throwable) returns (changed: bool)
      requires Valid()
      modifies this
      ensures Valid()
      ensures changed == old(state).Pending?
      ensures state == if changed then Failed(e) else old(state)
    {
      changed := state.Pending?;
      if changed {
        state := Failed(e);
        resolutions := resolutions + 1;
      }
    }
  }

  /**
   * `Semaphore` with the two operations the task manager uses: a
   * non-blocking `tryAcquire` and `release`. Like Java's, `release` adds a
   * permit whether or not one was taken; keeping permits bounded is the
   * caller's discipline.
   */
  class Semaphore {
    var permits: int

    constructor (initial: int)
      ensures permits == initial
    {
      permits := initial;
    }

    method TryAcquire() returns (acquired: bool)
      modifies this
      ensures acquired == (old(permits) > 0)
      ensures permits == if acquired then old(permits) - 1 else old(permits)
    {
      acquired := permits > 0;
      if acquired {
        permits := permits - 1;
      }
    }

    method Release()
      modifies this
      ensures permits == old(permits) + 1
    {
      permits := permits + 1;
    }
  }

  /** What an `ActionListener` was told, in order. */
  datatype ListenerEvent<T> = Responded(value: T) | FailedWith(error: Common.Throwable)

  /** An `ActionListener`: records every `onResponse` and `onFailure` call it receives. */
  class Listener<T> {
    var events: seq<ListenerEvent<T>>

    constructor ()
      ensures events == []
    {
      events := [];
    }

    method OnResponse(value: T)
      modifies this
      ensures events == old(events) + [Responded(value)]
    {
      events := events + [Responded(value)];
    }

    method OnFailure(error: Common.Throwable)
      modifies this
      ensures events == old(events) + [FailedWith(error)]
    {
      events := events + [FailedWith(error)];
    }
  }
}
