/**
 * Runtime behaviour of src/part1.base/class.ts: a counter whose methods
 * update its `count` field and return the counter itself, so that calls chain.
 */
module Classes {
  import opened Wrappers
  import opened Numbers

  /** `Counter`: `add` and `subtract` change `count` in place and return `this`. */
  class Counter {
    var count: int

    /**
     * `new Counter(count = 0)`: the default applies both when the argument is
     * omitted and when it is passed as `undefined` (`None`).
     */
    constructor (count: Option<int> := None)
      ensures count.Some? ==> this.count == count.value
      ensures count.None? ==> this.count == 0
    {
      this.count := match count case Some(c) => c case None => 0;
    }

    /** `add(value)`: `count` grows by exactly `value`. */
    method Add(value: int) returns (self: Counter)
      modifies this
      ensures self == this
      ensures count == old(count) + value
    {
      count := count + value;
      self := this;
    }

    /** `subtract(value)`: `count` shrinks by exactly `value`. */
    method Subtract(value: int) returns (self: Counter)
      modifies this
      ensures self == this
      ensures count == old(count) - value
    {
      count := count - value;
      self := this;
    }
  }

  /**
   * `PowerCounter extends Counter`: the inherited `add` and `subtract` are
   * repeated here unchanged, and `pow` is added.
   */
  class PowerCounter {
    var count: int

    /** `new PowerCounter(count)`: the count is required. */
    constructor (count: int)
      ensures this.count == count
    {
      this.count := count;
    }

    /** `add(value)`, inherited from `Counter`. */
    method Add(value: int) returns (self: PowerCounter)
      modifies this
      ensures self == this
      ensures count == old(count) + value
    {
      count := count + value;
      self := this;
    }

    /** `subtract(value)`, inherited from `Counter`. */
    method Subtract(value: int) returns (self: PowerCounter)
      modifies this
      ensures self == this
      ensures count == old(count) - value
    {
      count := count - value;
      self := this;
    }

    /** `pow(value)`: `count` becomes `count ** value`. */
    method Pow(value: nat) returns (self: PowerCounter)
      modifies this
      ensures self == this
      ensures count == Power(old(count), value)
    {
      count := Power(count, value);
      self := this;
    }
  }

  /** `add(value)` followed by `subtract(value)` on the returned counter restores `count`. */
  method AddThenSubtract(c: Counter, value: int)
    modifies c
    ensures c.count == old(c.count)
  {
    var same := c.Add(value);
    same := same.Subtract(value);
  }

  /**
   * `new Counter()` and `new Counter(undefined)` start at 0; `new Counter(10)`
   * then `.add(2).subtract(3)` ends at 9.
   */
  method CounterCalls() returns (initial: int, undefinedInitial: int, chained: int)
    ensures initial == 0
    ensures undefinedInitial == 0
    ensures chained == 9
  {
    var zero := new Counter();
    initial := zero.count;
    var undefinedZero := new Counter(None);
    undefinedInitial := undefinedZero.count;
    var counter := new Counter(Some(10));
    var c := counter.Add(2);
    c := c.Subtract(3);
    chained := counter.count;
  }

  /** `new PowerCounter(2).pow(3).add(3).subtract(1)` ends at 10. */
  method PowerCounterCalls() returns (chained: int)
    ensures chained == 10
  {
    var powCounter := new PowerCounter(2);
    var c := powCounter.Pow(3);
    c := c.Add(3);
    c := c.Subtract(1);
    chained := powCounter.count;
  }
}
