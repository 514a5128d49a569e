/**
 * The JSON-file usage counter: a map from an ISO day string to the number of live API
 * requests counted on that day. Reading the file, writing it back and asking the clock
 * for today's date are outside the model; the map is the counter's state and the day
 * is passed in.
 */
module UsageCounter {

  /** `data.get(day, 0)`. */
  function Count(data: map<string, nat>, day: string): nat {
    if day in data then data[day] else 0
  }

  /** The map after one `increment` on `day`: that day's entry is the old count plus one. */
  function Bumped(data: map<string, nat>, day: string): (r: map<string, nat>)
    ensures Count(r, day) == Count(data, day) + 1
    ensures forall d :: d != day ==> Count(r, d) == Count(data, d)
    ensures r.Keys == data.Keys + {day}
  {
    data[day := Count(data, day) + 1]
  }

  /** The map after `n` increments on `day`. */
  function BumpedTimes(data: map<string, nat>, day: string, n: nat): map<string, nat> {
    if n == 0 then data else Bumped(BumpedTimes(data, day, n - 1), day)
  }

  /** `n` increments on one day raise that day's count by exactly `n` and leave every other day alone. */
  lemma {:induction false} BumpedTimesCount(data: map<string, nat>, day: string, n: nat)
    ensures Count(BumpedTimes(data, day, n), day) == Count(data, day) + n
    ensures forall d :: d != day ==> Count(BumpedTimes(data, day, n), d) == Count(data, d)
  {
    if n > 0 {
      BumpedTimesCount(data, day, n - 1);
    }
  }

  /** Starting from an empty counter, `n` increments on a day give a count of `n` for it. */
  lemma FreshCounterCountsIncrements(day: string, n: nat)
    ensures Count(BumpedTimes(map[], day, n), day) == n
  {
    BumpedTimesCount(map[], day, n);
  }

  /** `JSONUsageCounter`: the counter whose state is the day-to-count map loaded from its file. */
  class JsonUsageCounter {
    var data: map<string, nat>

    /** `__init__` / `_load`: the map read from the file, or the empty map when there is no file. */
    constructor (loaded: map<string, nat>)
      ensures data == loaded
    {
      data := loaded;
    }

    /** `get_count`: the count stored for `day`, 0 when there is none. */
    function GetCount(day: string): (n: nat)
      reads this
      ensures day !in data ==> n == 0
      ensures day in data ==> n == data[day]
    {
      Count(data, day)
    }

    /** `increment`: read, add one, store; returns the new count. */
    method Increment(day: string) returns (n: nat)
      modifies this
      ensures data == Bumped(old(data), day)
      ensures n == old(GetCount(day)) + 1 && GetCount(day) == n
      ensures forall d :: d != day ==> GetCount(d) == old(GetCount(d))
    {
      data := data[day := Count(data, day) + 1];
      n := data[day];
    }
  }
}
