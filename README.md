# TypeScript tutorial snippets — runtime behaviour in Dafny

The repository is a tour of TypeScript's type system. Most of its lines only
show what the compiler accepts or rejects. The few functions and classes in
`src/part1.base/` that do something when they run are modelled here, one
Dafny module per source file:

- `Functions` (`function.ts`): `buildName` with an optional last name;
  `buildName1` with a defaulted last name; `push` with a rest parameter, which
  appends to an array in place; and the overloaded `reverse`. For strings,
  `reverse` reverses the characters. For numbers, it runs a digit loop.
- `Generics` (`generic.ts`): `createArray` and `createArray1`, which fill an
  array index by index; `copyFields`, which writes the own enumerable properties of
  `source` into `target` in place.
- `Classes` (`class.ts`): `Counter` and `PowerCounter`, whose `add`,
  `subtract` and `pow` update `count` in place and return the object so that
  calls chain.
- `TypeChecks` (`type_check.ts`): the guards `isCat`, `isFish` and `move` over
  `Cat | Fish`; `padLeft`; and the two `Padder` classes.
- `Wrappers` and `Numbers`: `Option`/`Result`, and integer `**`.

JavaScript numbers are modelled as integers and strings as `seq<char>`. Arrays
and objects that the source mutates are classes with a `seq` or `map` field.
Union types (`number | string`, `string | number`, `Cat | Fish`, the padders)
are datatypes, so the `throw` branches the types exclude have no counterpart.

The number branch of `reverse` is modelled as written. `x1` is only assigned
when the input is negative. So every non-negative input, including the
file's own `reverse(123)`, returns 0. A negative input returns the negated
reversal of its decimal digits. `y1 * 10 + (x1 % 10) * 10` followed by
`y1 += x1` does reverse the digits correctly. The `~~` truncation is
modelled as ECMAScript ToInt32. The method's contract gives the digit
reversal whenever `-x < 10 * 2^31`: below that bound ToInt32 changes nothing.

`DigitReversal` moves the last digit to the front. `DigitReversalReadsDigitsBackwards`
ties it to an independent definition: the value of the list of decimal digits
read in reverse order.

`padLeft` and `SpaceRepeatingPadder` build spaces with `Array(n + 1).join(' ')`.
For `n = -1` this gives the empty string. `Array` throws a RangeError for
`n < -1` and for `n + 1 > 2^32 - 1`. The model returns `Err` in both cases.

## Model

| member | source | states |
|---|---|---|
| `Functions.BuildName` | src/part1.base/function.ts:6-12 | the result starts with `firstName`; it is longer exactly when `lastName` is truthy (present and non-empty), and then continues with a space and `lastName` |
| `Functions.BuildName1` | src/part1.base/function.ts:19-21 | the result is always `firstName`, a space, then `lastName`; an omitted or explicitly `undefined` `lastName` gives `"Cat"`, an empty one a trailing space |
| `Functions.BuildNameExamples` | src/part1.base/function.ts:13-23 | `buildName('Tom','Cat')`, `buildName1('Tom','Cat')`, `buildName1('Tom')` and `buildName1('Tom', undefined)` are `"Tom Cat"`; `buildName('Tom')` is `"Tom"` |
| `Functions.DefaultedAgreesWithOptional` | src/part1.base/function.ts:6-21 | given the same last-name argument (omitted, `undefined` or a string), the defaulted and the optional form give the same string exactly when that argument is truthy |
| `Functions.JsArray.Append` | src/part1.base/function.ts:30 | `array.push(item)` appends one element and returns the new length |
| `Functions.Push` | src/part1.base/function.ts:28-32 | the array's new elements are its old elements followed by all items in order |
| `Functions.PushExample` | src/part1.base/function.ts:34-35 | `push([], 1, 2, 3)` leaves `[1, 2, 3]` |
| `Functions.Reversed` | src/part1.base/function.ts:57 | the reversal has the same length and holds element `|s|-1-i` at index `i` |
| `Functions.ReversedTwice` | src/part1.base/function.ts:57 | reversing a string twice gives back the string |
| `Functions.DigitReversalReadsDigitsBackwards` | src/part1.base/function.ts:50-54 | the digit reversal equals the value of the decimal digits read backwards |
| `Functions.TrailingZeroDropped` | src/part1.base/function.ts:50-55 | trailing zeros vanish: the reversal of `10n` is the reversal of `n` |
| `Functions.DigitReversalTwice` | src/part1.base/function.ts:50-55 | without a trailing zero, reversing digits twice gives back the number |
| `Functions.ReversalExamples` | src/part1.base/function.ts:50-55 | the digit reversal of 123 is 321 and of 120 is 21 (the magnitudes `reverse(-123)` and `reverse(-120)` negate); `'123'` reverses to `'321'` |
| `Functions.ToInt32` | src/part1.base/function.ts:52 | `~~` gives the unique value in [-2^31, 2^31) congruent modulo 2^32, which is the value itself on [0, 2^31) |
| `Functions.ReversalSplitStep` | src/part1.base/function.ts:50-53 | one loop turn keeps the invariant "reversal of the input = `y1` shifted past the digits left in `x1` + reversal of `x1`" |
| `Functions.ReverseNumber` | src/part1.base/function.ts:44-55 | every input `>= 0` yields 0; a negative input above `-10*2^31` yields minus the digit reversal of its magnitude, and a single-digit negative input is returned unchanged |
| `Functions.Reverse` | src/part1.base/function.ts:41-61 | a number gives a number, a string gives a string; the string comes back reversed and the number as `ReverseNumber` says |
| `Functions.ReverseCalls` | src/part1.base/function.ts:63-64 | `reverse(123)` is 0, not 321; `reverse('123')` is `'321'` |
| `Generics.CreateArray` | src/part1.base/generic.ts:4-10 | the result has `length` elements (none when `length <= 0`), each equal to `value` |
| `Generics.CreateArray1` | src/part1.base/generic.ts:20-26 | the same contract as `CreateArray`, which determines the result, so the two builders agree |
| `Generics.CreateArrayCalls` | src/part1.base/generic.ts:12-28 | both builders return the same array for every input, and `createArray(3, 'x')` is `['x','x','x']` |
| `Generics.Merged` | src/part1.base/generic.ts:45-49 | after the copy, the keys are those of target and source; `source` wins on every one of its keys; every other key of `target` keeps its value |
| `Generics.CopyFields` | src/part1.base/generic.ts:44-51 | `target` becomes `Merged(old target, own enumerable properties of source)`, inherited enumerable keys are skipped, `source` is unchanged, and `target` itself is returned |
| `Generics.MergedKeepsKeys` | src/part1.base/generic.ts:44 | when the source's keys are keys of the target (`T extends U`), the target gains no key |
| `Generics.MergedIdempotent` | src/part1.base/generic.ts:45-49 | copying the same source twice equals copying it once |
| `Generics.MergedExamples` | src/part1.base/generic.ts:53-55 | `{a:1,b:2,c:3,d:4}` with `{b:10,d:20}` gives `{a:1,b:10,c:3,d:20}`; the further copy with `e:30` adds `e` |
| `Classes.Counter.constructor` | src/part1.base/class.ts:82 | `count` starts at the argument, 0 when it is omitted or passed as `undefined` |
| `Classes.Counter.Add` | src/part1.base/class.ts:84-87 | `count` grows by exactly `value` and the same counter is returned |
| `Classes.Counter.Subtract` | src/part1.base/class.ts:89-92 | `count` shrinks by exactly `value` and the same counter is returned |
| `Classes.PowerCounter.constructor` | src/part1.base/class.ts:102-104 | `count` starts at the required argument |
| `Classes.PowerCounter.Add` | src/part1.base/class.ts:84-87 | inherited `add`: `count` grows by exactly `value`, same object returned |
| `Classes.PowerCounter.Subtract` | src/part1.base/class.ts:89-92 | inherited `subtract`: `count` shrinks by exactly `value`, same object returned |
| `Classes.PowerCounter.Pow` | src/part1.base/class.ts:106-109 | `count` becomes the old `count` raised to `value`, same object returned |
| `Classes.AddThenSubtract` | src/part1.base/class.ts:84-92 | `add(v)` then `subtract(v)` restores `count` |
| `Classes.CounterCalls` | src/part1.base/class.ts:95-98 | `new Counter()` and `new Counter(undefined)` are at 0; `new Counter(10).add(2).subtract(3)` ends at 9 |
| `Classes.PowerCounterCalls` | src/part1.base/class.ts:112-115 | `new PowerCounter(2).pow(3).add(3).subtract(1)` ends at 10 |
| `TypeChecks.Invoke` | src/part1.base/type_check.ts:40 | calling a member succeeds exactly when it holds a function, else a TypeError |
| `TypeChecks.SwimAsserted` | src/part1.base/type_check.ts:39-41 | `swim(animal)` runs exactly when `isFish(animal)` holds, and throws otherwise |
| `TypeChecks.IsCat` | src/part1.base/type_check.ts:58-60 | `isCat` holds exactly when `run` reads as neither missing nor `undefined` (a function or any other defined value) |
| `TypeChecks.IsFish` | src/part1.base/type_check.ts:31-36 | `isFish` holds exactly when `swim` holds a function, that is, exactly when calling it would not throw |
| `TypeChecks.Move` | src/part1.base/type_check.ts:73-78 | `move` swims exactly when a `swim` property exists, and then succeeds exactly when `isFish` holds; otherwise it runs, and succeeds exactly when `run` holds a function (so `move` on `{}` throws) |
| `TypeChecks.GuardsOnExactShapes` | src/part1.base/type_check.ts:31-60 | on an exact `Cat`, `isCat` holds and `isFish` does not; on an exact `Fish`, the reverse |
| `TypeChecks.MoveOnExactShapes` | src/part1.base/type_check.ts:73-78 | on an exact `Cat` or `Fish`, `move` never throws, swims exactly the fish and runs exactly the cats |
| `TypeChecks.InDiffersFromTypeof` | src/part1.base/type_check.ts:31-78 | an object whose `swim` holds `undefined` passes `isCat`, fails `isFish`, and `move` still tries to swim and throws |
| `TypeChecks.AssertionExamples` | src/part1.base/type_check.ts:39-78 | `swim(tom)` throws a TypeError; the empty object from `getPet` fails `isCat`, and both `pet.swim()` and `move` on it throw |
| `TypeChecks.JoinEmptySlots` | src/part1.base/type_check.ts:86 | `Array(n).join(sep)` is `n-1` copies of `sep` for a valid length `0 <= n <= 2^32-1`, a RangeError otherwise |
| `TypeChecks.PadLeft` | src/part1.base/type_check.ts:84-92 | a string prefix is prepended as is; a count `n >= 0` gives exactly `n` spaces before `value`; `-1` gives `value`; a count outside [-1, 2^32-1) throws; `value` is always a suffix |
| `TypeChecks.Padder.GetPaddingString` | src/part1.base/type_check.ts:99-110 | a `StringPadder` returns its string; a `SpaceRepeatingPadder(n)` returns exactly `n` spaces for `n >= 0`, the empty string for `n = -1`, and a RangeError naming the array length `n + 1` for counts outside [-1, 2^32-1) |
| `TypeChecks.PadderAgreesWithPadLeft` | src/part1.base/type_check.ts:84-110 | `padLeft(v, p)` is the padder's padding string followed by `v`, and throws exactly when the padder does |
| `TypeChecks.PadderExamples` | src/part1.base/type_check.ts:114 | `SpaceRepeatingPadder(4)` pads with four spaces, `StringPadder('  ')` with two |

## Left out

- `Functions.ReverseNumber`: the ensures gives the digit reversal only for `-x < 10 * 2^31`. Below that bound the `~~` truncation is exact. The loop body models the ToInt32 wrap-around for larger magnitudes, but no contract describes its result there.
- `Functions.Reverse`: the same bound as `ReverseNumber` for its number branch.
- Floating point: numbers are integers. Non-integral arguments to `reverse`, `createArray`, `padLeft`, `add`/`subtract` and `pow` are not modelled, nor is the loss of precision above 2^53.
- `Classes.PowerCounter.Pow`: the exponent is a `nat`. A negative exponent yields a fraction in JavaScript, which integers cannot represent.
- `PowerCounter` inherits `add` and `subtract` from `Counter`. Dafny classes here have no inheritance, so both methods are repeated in `PowerCounter` with identical contracts.
- Strings are sequences of `char`. `split('')` splits UTF-16 code units, so the model does not cover surrogate pairs being split apart.
- The `throw` branches of `reverse` (function.ts:58-59) and `padLeft` (type_check.ts:91) cannot be reached: the argument is a two-variant datatype.
- `copyFields` visits keys in property order. Distinct keys are written independently, so the model picks them in any order and the result is the same.
- `Animal` records only the `run` and `swim` properties. `name` is never read at run time, and properties inherited by `in` are not distinguished from own ones.
- The value that `run()` or `swim()` returns is not modelled. `Move` records only which method was called and whether the call threw.
- `getRandomPadder` (type_check.ts:113-115) depends on `Math.random`.
- `GenericNumber` (generic.ts:30-39) only stores a field and an addition function. It has no behaviour of its own.
- `console.log` output, `alert`, and the `Animal`/`Dog`/`Husky`/`Teddy` hierarchy only print.
- `data_basic.ts`, `advance_type.ts`, `interface.ts` and `enums.ts` are not part of this model. They show compile-time type rules, enum numbering, a regular-expression search (`mySearch`), a `Date`-based `Clock`, and helpers that never return.
