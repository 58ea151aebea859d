/**
 * Runtime behaviour of src/part1.base/function.ts: an optional parameter,
 * a defaulted parameter, a rest parameter and the overloaded `reverse`.
 * Strings are sequences of characters; numbers are integers.
 */
module Functions {
  import opened Wrappers
  import opened Numbers

  // ---------------------------------------------------------------------------
  // Optional and defaulted parameters

  /** Truthiness of an optional string: `undefined` and `''` are falsy. */
  predicate Truthy(s: Option<string>) {
    s.Some? && s.value != ""
  }

  /** `buildName(firstName, lastName?)`: the first name, then a space and the last name when that is truthy. */
  function BuildName(firstName: string, lastName: Option<string>): (r: string)
    ensures |r| >= |firstName| && r[..|firstName|] == firstName
    ensures |r| > |firstName| <==> Truthy(lastName)
    ensures Truthy(lastName) ==> r[|firstName|] == ' ' && r[|firstName| + 1..] == lastName.value
  {
    if Truthy(lastName) then firstName + " " + lastName.value else firstName
  }

  /**
   * `buildName1(firstName, lastName = 'Cat')`: always the first name, a space
   * and the last name; an omitted or `undefined` last name is `'Cat'`.
   */
  function BuildName1(firstName: string, lastName: Option<string> := None): (r: string)
    ensures lastName.None? ==> r == firstName + " Cat"
    ensures lastName.Some? ==> |r| == |firstName| + 1 + |lastName.value|
    ensures lastName.Some? ==>
      r[..|firstName|] == firstName && r[|firstName|] == ' ' && r[|firstName| + 1..] == lastName.value
  {
    var last := match lastName case Some(s) => s case None => "Cat";
    firstName + " " + last
  }

  /** The four calls the file makes. */
  lemma {:induction false} BuildNameExamples()
    ensures BuildName("Tom", Some("Cat")) == "Tom Cat"
    ensures BuildName("Tom", None) == "Tom"
    ensures BuildName1("Tom", Some("Cat")) == "Tom Cat"
    ensures BuildName1("Tom") == "Tom Cat"
    ensures BuildName1("Tom", None) == "Tom Cat"
  {
  }

  /**
   * Given the same argument, the defaulted form and the optional form agree
   * exactly when the last name is truthy: an omitted or `undefined` last name
   * gives `'Cat'` in one and nothing in the other, an empty one a trailing space.
   */
  lemma {:induction false} DefaultedAgreesWithOptional(firstName: string, lastName: Option<string>)
    ensures BuildName1(firstName, lastName) == BuildName(firstName, lastName) <==> Truthy(lastName)
  {
  }

  // ---------------------------------------------------------------------------
  // Rest parameter

  /** A JavaScript array: a reference to a list of elements that grows in place. */
  class JsArray<T> {
    var elements: seq<T>

    constructor (elements: seq<T>)
      ensures this.elements == elements
    {
      this.elements := elements;
    }

    /** `array.push(item)`: appends one element and returns the new length. */
    method Append(item: T) returns (length: nat)
      modifies this
      ensures elements == old(elements) + [item]
      ensures length == |elements|
    {
      elements := elements + [item];
      length := |elements|;
    }
  }

  /** `push(array, ...items)`: appends the items to the array in place, in order, leaving its old elements as they were. */
  method Push<T>(arr: JsArray<T>, items: seq<T>)
    modifies arr
    ensures arr.elements == old(arr.elements) + items
  {
    var i := 0;
    while i < |items|
      invariant 0 <= i <= |items|
      invariant arr.elements == old(arr.elements) + items[..i]
    {
      var _ := arr.Append(items[i]);
      i := i + 1;
    }
  }

  /** `let a = []; push(a, 1, 2, 3)` leaves `a` holding 1, 2, 3. */
  method PushExample() returns (a: seq<int>)
    ensures a == [1, 2, 3]
  {
    var arr := new JsArray<int>([]);
    Push(arr, [1, 2, 3]);
    a := arr.elements;
  }

  // ---------------------------------------------------------------------------
  // Reversal of lists, strings and decimal digits

  /** `Array.prototype.reverse` on a list: the same elements in the opposite order. */
  function Reversed<T>(s: seq<T>): (r: seq<T>)
    ensures |r| == |s|
    ensures forall i :: 0 <= i < |s| ==> r[i] == s[|s| - 1 - i]
  {
    if s == [] then [] else Reversed(s[1..]) + [s[0]]
  }

  /** Reversing twice gives back the original list (and so the original string). */
  lemma {:induction false} ReversedTwice<T>(s: seq<T>)
    ensures Reversed(Reversed(s)) == s
  {
  }

  /** The decimal digits of `n`, most significant first; 0 is the single digit 0. */
  function Digits(n: nat): (ds: seq<nat>)
    ensures |ds| >= 1
    ensures forall i :: 0 <= i < |ds| ==> ds[i] < 10
    ensures ds[|ds| - 1] == n % 10
    ensures n > 0 ==> ds[0] != 0
  {
    if n < 10 then [n] else Digits(n / 10) + [n % 10]
  }

  /** The number a list of decimal digits denotes, most significant first. */
  function Value(ds: seq<nat>): (r: nat)
  {
    if ds == [] then 0 else Value(ds[..|ds| - 1]) * 10 + ds[|ds| - 1]
  }

  /** Reading back the digits of a number gives the number. */
  lemma {:induction false} ValueOfDigits(n: nat)
    ensures Value(Digits(n)) == n
  {
    if n >= 10 {
      ValueOfDigits(n / 10);
      var ds := Digits(n);
      assert ds[..|ds| - 1] == Digits(n / 10);
    }
  }

  /** A digit list without a leading zero has a positive value. */
  lemma {:induction false} ValuePositive(ds: seq<nat>)
    requires |ds| >= 1 && ds[0] != 0
    ensures Value(ds) >= 1
  {
    if |ds| > 1 {
      ValuePositive(ds[..|ds| - 1]);
    }
  }

  /** Writing the value of a digit list without a leading zero back in digits gives the list. */
  lemma {:induction false} DigitsOfValue(ds: seq<nat>)
    requires |ds| >= 1 && (ds[0] != 0 || |ds| == 1)
    requires forall i :: 0 <= i < |ds| ==> ds[i] < 10
    ensures Digits(Value(ds)) == ds
  {
    var last := ds[|ds| - 1];
    if |ds| == 1 {
      assert ds == [last];
    } else {
      var init := ds[..|ds| - 1];
      DigitsOfValue(init);
      ValuePositive(init);
      assert Value(ds) == Value(init) * 10 + last;
      assert Value(ds) / 10 == Value(init) && Value(ds) % 10 == last;
      assert ds == init + [last];
    }
  }

  /** A leading digit `d` in front of `t` contributes `d * 10^|t|`. */
  lemma {:induction false} ValuePrepend(d: nat, t: seq<nat>)
    ensures Value([d] + t) == d * Power(10, |t|) + Value(t)
    decreases |t|
  {
    if t == [] {
      assert [d] + t == [d];
    } else {
      var init := t[..|t| - 1];
      ValuePrepend(d, init);
      assert ([d] + t)[..|t|] == [d] + init;
      calc {
        Value([d] + t);
        Value([d] + init) * 10 + t[|t| - 1];
        (d * Power(10, |init|) + Value(init)) * 10 + t[|t| - 1];
        d * (Power(10, |init|) * 10) + (Value(init) * 10 + t[|t| - 1]);
        d * Power(10, |t|) + Value(t);
      }
    }
  }

  /** Reversing a list with one more element at the end puts that element first. */
  lemma {:induction false} ReversedSnoc<T>(s: seq<T>, x: T)
    ensures Reversed(s + [x]) == [x] + Reversed(s)
  {
  }

  /** A single digit denotes itself. */
  lemma {:induction false} ValueOfSingle(d: nat)
    ensures Value([d]) == d
  {
  }

  /** How many decimal digits `n` has. */
  function DigitCount(n: nat): (k: nat)
    ensures k == |Digits(n)|
  {
    if n < 10 then 1 else DigitCount(n / 10) + 1
  }

  /**
   * The number whose decimal digits are those of `n` in reverse order, built
   * by moving the last digit of `n` to the front; leading zeros of the result
   * vanish.
   */
  function DigitReversal(n: nat): (r: nat)
  {
    if n < 10 then n else (n % 10) * Power(10, DigitCount(n / 10)) + DigitReversal(n / 10)
  }

  /** The digit reversal of `n` is the value of the digits of `n` read backwards. */
  lemma {:induction false} DigitReversalReadsDigitsBackwards(n: nat)
    ensures DigitReversal(n) == Value(Reversed(Digits(n)))
  {
    if n < 10 {
      var ds := Digits(n);
      assert ds == [n];
      assert Reversed(ds) == [n];
      ValueOfSingle(n);
    } else {
      var q, d := Digits(n / 10), n % 10;
      var rq := Reversed(q);
      DigitReversalReadsDigitsBackwards(n / 10);
      var ds := Digits(n);
      assert ds == q + [d];
      ReversedSnoc(q, d);
      assert Reversed(ds) == [d] + rq;
      ValuePrepend(d, rq);
      calc {
        Value(Reversed(ds));
        Value([d] + rq);
        d * Power(10, |rq|) + Value(rq);
        d * Power(10, DigitCount(n / 10)) + DigitReversal(n / 10);
      }
    }
  }

  /** Trailing zeros are dropped: `n0` reverses to the reversal of `n`. */
  lemma {:induction false} TrailingZeroDropped(n: nat)
    ensures DigitReversal(n * 10) == DigitReversal(n)
  {
  }

  /** Without a trailing zero, reversing the digits twice gives back the number. */
  lemma {:induction false} DigitReversalTwice(n: nat)
    requires n % 10 != 0
    ensures DigitReversal(DigitReversal(n)) == n
  {
    var ds := Digits(n);
    var rs := Reversed(ds);
    assert rs[0] == n % 10;
    DigitReversalReadsDigitsBackwards(n);
    DigitsOfValue(rs);
    DigitReversalReadsDigitsBackwards(DigitReversal(n));
    ReversedTwice(ds);
    ValueOfDigits(n);
  }

  /**
   * Digit reversals of 123 and 120, the magnitudes that `reverse(-123)` and
   * `reverse(-120)` negate, and the string reversal of `'123'`.
   */
  lemma {:induction false} ReversalExamples()
    ensures DigitReversal(123) == 321
    ensures DigitReversal(120) == 21
    ensures Reversed("123") == "321"
  {
  }

  /** ECMAScript ToInt32 of an integral number: the unique value in [-2^31, 2^31) congruent to it modulo 2^32. */
  function ToInt32(n: int): (r: int)
    ensures -0x8000_0000 <= r < 0x8000_0000
    ensures (n - r) % 0x1_0000_0000 == 0
    ensures 0 <= n < 0x8000_0000 ==> r == n
  {
    var m := n % 0x1_0000_0000;
    if m >= 0x8000_0000 then m - 0x1_0000_0000 else m
  }

  /** Below this magnitude `~~(x1 / 10)` never wraps: every quotient stays under 2^31. */
  const TRUNCATION_SAFE: int := 0x8000_0000 * 10

  /**
   * The loop invariant of the number branch: the reversal of `x0` is `y1`
   * shifted past the digits still left in `x1`, plus the reversal of `x1`.
   */
  ghost predicate ReversalSplit(x0: nat, y1: int, x1: nat) {
    DigitReversal(x0) == y1 * Power(10, DigitCount(x1) - 1) + DigitReversal(x1)
  }

  /** One turn of the loop keeps the split: the last digit of `x1` moves over to `y1`. */
  lemma {:induction false} ReversalSplitStep(x0: nat, y1: int, x1: nat)
    requires x1 > 9 && ReversalSplit(x0, y1, x1)
    ensures ReversalSplit(x0, y1 * 10 + (x1 % 10) * 10, x1 / 10)
  {
    var q, d := x1 / 10, x1 % 10;
    var p := Power(10, DigitCount(q) - 1);
    assert Power(10, DigitCount(q)) == 10 * p;
    calc {
      DigitReversal(x0);
      y1 * (10 * p) + DigitReversal(x1);
      y1 * (10 * p) + d * (10 * p) + DigitReversal(q);
      { ShiftByTen(y1, d, p); }
      (y1 * 10 + d * 10) * p + DigitReversal(q);
    }
  }

  /**
   * Arithmetic of one loop turn: adding a digit and then shifting equals
   * shifting both. Kept apart so that the solver meets this product without
   * the digit functions in scope.
   */
  lemma {:induction false} ShiftByTen(y: int, d: int, p: int)
    ensures y * (10 * p) + d * (10 * p) == (y * 10 + d * 10) * p
  {
  }

  /**
   * The number branch of `reverse`. `x1` is only set for a negative input, so
   * every non-negative input yields 0; a negative input yields the negated
   * digit reversal of its magnitude.
   */
  method ReverseNumber(x: int) returns (r: int)
    ensures x >= 0 ==> r == 0
    ensures -TRUNCATION_SAFE < x < 0 ==> r == -(DigitReversal(-x) as int)
    ensures -10 < x < 0 ==> r == x
  {
    var sign := x < 0;
    var x1, y1 := 0, 0;
    if sign {
      x1 := -x;
    }
    ghost var x0 := x1;
    while x1 > 9
      invariant x1 <= x0
      invariant x0 < TRUNCATION_SAFE ==> 0 <= x1 && ReversalSplit(x0, y1, x1)
      decreases x1
    {
      if x0 < TRUNCATION_SAFE {
        ReversalSplitStep(x0, y1, x1);
        assert x1 / 10 < 0x8000_0000;
      }
      y1 := y1 * 10 + (x1 % 10) * 10;
      x1 := ToInt32(x1 / 10);
    }
    if x0 < TRUNCATION_SAFE {
      assert DigitCount(x1) == 1 && DigitReversal(x1) == x1;
      assert DigitReversal(x0) == y1 + x1;
    }
    y1 := y1 + x1;
    r := if sign then -y1 else y1;
  }

  /** The argument and result of the overloaded `reverse`: `number | string`. */
  datatype NumberOrString = Number(n: int) | Str(s: string)

  /** `reverse(x)`: the overload returns a number for a number and the reversed string for a string. */
  method Reverse(x: NumberOrString) returns (r: NumberOrString)
    ensures r.Number? <==> x.Number?
    ensures x.Str? ==> r.s == Reversed(x.s)
    ensures x.Number? && x.n >= 0 ==> r.n == 0
    ensures x.Number? && -TRUNCATION_SAFE < x.n < 0 ==> r.n == -(DigitReversal(-x.n) as int)
  {
    match x
    case Number(n) =>
      var y := ReverseNumber(n);
      r := Number(y);
    case Str(s) =>
      r := Str(Reversed(s));
  }

  /** `reverse(123)` and `reverse('123')`: the number call yields 0, not 321. */
  method ReverseCalls() returns (number: NumberOrString, text: NumberOrString)
    ensures number == Number(0)
    ensures text == Str("321")
  {
    number := Reverse(Number(123));
    text := Reverse(Str("123"));
    ReversalExamples();
  }
}
