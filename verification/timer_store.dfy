/**
 The timer store: a `seconds` number, starting at 0, that `increase` adds one
 to, next to a reference to the root store it belongs to (any value here).
 */
module TimerStore {
  import opened JsNumber

  datatype TimerStore<R> = TimerStore(rootStore: R, seconds: Count)

  /** The constructor: remembers the root store, `seconds` starts at 0. */
  function New<R>(rootStore: R): (t: TimerStore<R>)
    ensures t.rootStore == rootStore && t.seconds == 0
  {
    TimerStore(rootStore, 0)
  }

  /** `increase`: one more second, until the number stops at 2^53; nothing else changes. */
  function Increase<R>(t: TimerStore<R>): (r: TimerStore<R>)
    ensures r.rootStore == t.rootStore
    ensures t.seconds < MaxCount ==> r.seconds == t.seconds + 1
    ensures t.seconds == MaxCount ==> r.seconds == t.seconds
  {
    t.(seconds := Increment(t.seconds))
  }

  function IncreaseTimes<R>(t: TimerStore<R>, n: nat): TimerStore<R>
    decreases n
  {
    if n == 0 then t else IncreaseTimes(Increase(t), n - 1)
  }

  /** After n calls from construction `seconds` is n (up to 2^53), and the
      root store is still the one given. */
  lemma {:induction false} IncreaseTimesCounts<R>(t: TimerStore<R>, n: nat)
    ensures IncreaseTimes(t, n).seconds == Min(t.seconds + n, MaxCount)
    ensures IncreaseTimes(t, n).rootStore == t.rootStore
    decreases n
  {
    if n > 0 {
      IncreaseTimesCounts(Increase(t), n - 1);
    }
  }

  lemma IncreaseFromNew<R>(rootStore: R, n: nat)
    requires n <= MaxCount
    ensures IncreaseTimes(New(rootStore), n).seconds == n
  {
    IncreaseTimesCounts(New(rootStore), n);
  }
}
