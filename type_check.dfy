/**
 * Runtime behaviour of src/part1.base/type_check.ts: the type guards over
 * `Cat | Fish`, and left padding by a count of spaces or by a given prefix.
 */
module TypeChecks {
  import opened Wrappers

  // ---------------------------------------------------------------------------
  // Cat | Fish

  /** What a property lookup on an object finds at run time. */
  datatype Member = Absent | Undefined | Function | NonFunction

  /**
   * A value of static type `Cat | Fish` at run time, seen through its `run`
   * and `swim` properties (the guards never read `name`). Type assertions do
   * not check shapes, so any combination can occur.
   */
  datatype Animal = Animal(run: Member, swim: Member)

  /** An object literal built exactly to the `Cat` interface. */
  predicate ExactCat(a: Animal) {
    a.run == Function && a.swim == Absent
  }

  /** An object literal built exactly to the `Fish` interface. */
  predicate ExactFish(a: Animal) {
    a.swim == Function && a.run == Absent
  }

  /** Reading a property gives `undefined` both when it is missing and when it holds `undefined`. */
  predicate ReadsUndefined(m: Member) {
    m == Absent || m == Undefined
  }

  /** `isCat(animal)`: `(animal as Cat).run !== undefined`. */
  function IsCat(animal: Animal): (r: bool)
    ensures r <==> animal.run == Function || animal.run == NonFunction
  {
    !ReadsUndefined(animal.run)
  }

  /** `isFish(animal)`: `typeof (animal as Fish).swim === 'function'`. */
  function IsFish(animal: Animal): (r: bool)
    ensures r <==> Invoke(animal.swim, Swim).Ran?
  {
    animal.swim == Function
  }

  /** The two methods a pet may be asked to perform. */
  datatype Action = Run | Swim

  /** The outcome of calling a member: the method runs, or a TypeError says it is not a function. */
  datatype Outcome = Ran(action: Action) | TypeError(action: Action)

  /** `pet.run()` or `pet.swim()`: only a function can be called. */
  function Invoke(m: Member, action: Action): (o: Outcome)
    ensures o.action == action
    ensures o.Ran? <==> m == Function
  {
    if m == Function then Ran(action) else TypeError(action)
  }

  /** `swim(animal)`: `(animal as Fish).swim()`, whatever the animal is. */
  function SwimAsserted(animal: Animal): (o: Outcome)
    ensures o.action == Swim
    ensures o.Ran? <==> IsFish(animal)
  {
    Invoke(animal.swim, Swim)
  }

  /** `move(pet)`: calls `swim` when the pet has a `swim` property (`'swim' in pet`), `run` otherwise. */
  function Move(pet: Animal): (o: Outcome)
    ensures o.action == Swim <==> pet.swim != Absent
    ensures pet.swim != Absent ==> (o.Ran? <==> IsFish(pet))
    ensures pet.swim == Absent ==> (o.Ran? <==> pet.run == Function)
  {
    if pet.swim != Absent then Invoke(pet.swim, Swim) else Invoke(pet.run, Run)
  }

  /** On objects built to their interface, the guards tell a cat from a fish. */
  lemma GuardsOnExactShapes(a: Animal)
    ensures ExactCat(a) ==> IsCat(a) && !IsFish(a)
    ensures ExactFish(a) ==> IsFish(a) && !IsCat(a)
  {
  }

  /** On objects built to their interface, `move` never throws and swims exactly the fish. */
  lemma MoveOnExactShapes(a: Animal)
    requires ExactCat(a) || ExactFish(a)
    ensures Move(a).Ran?
    ensures Move(a).action == Swim <==> IsFish(a)
    ensures Move(a).action == Run <==> IsCat(a)
  {
  }

  /**
   * The three checks read different things: a cat whose `swim` property holds
   * `undefined` passes `isCat`, fails `isFish`, and `move` still tries to swim.
   */
  lemma InDiffersFromTypeof()
    ensures var a := Animal(Function, Undefined);
      IsCat(a) && !IsFish(a) && Move(a) == TypeError(Swim)
  {
  }

  /** `swim(tom)` on the cat `tom` throws, and so do `pet.swim()` and `move(pet)` on the empty object from `getPet`. */
  lemma AssertionExamples()
    ensures SwimAsserted(Animal(Function, Absent)) == TypeError(Swim)
    ensures !IsCat(Animal(Absent, Absent)) && Invoke(Absent, Swim) == TypeError(Swim)
    ensures Move(Animal(Absent, Absent)) == TypeError(Run)
  {
  }

  // ---------------------------------------------------------------------------
  // Padding

  /** The second argument of `padLeft`: `string | number`. */
  datatype Padding = Count(n: int) | Prefix(s: string)

  /** Thrown by `Array(length)` when `length` is not a valid array length. */
  datatype RangeError = InvalidArrayLength(length: int)

  /** The largest valid array length, 2^32 - 1. */
  const MAX_ARRAY_LENGTH: int := 0xFFFF_FFFF

  /**
   * `Array(length).join(sep)`: `length` empty slots joined by `sep`, which is
   * `length - 1` copies of `sep`; a RangeError for an invalid length.
   */
  function JoinEmptySlots(length: int, sep: char): (r: Result<string, RangeError>)
    ensures r.Ok? <==> 0 <= length <= MAX_ARRAY_LENGTH
    ensures r.Ok? ==> |r.value| == (if length > 0 then length - 1 else 0)
    ensures r.Ok? ==> forall i :: 0 <= i < |r.value| ==> r.value[i] == sep
    ensures r.Err? ==> r.error == InvalidArrayLength(length)
  {
    if 0 <= length <= MAX_ARRAY_LENGTH then
      Ok(if length > 0 then Separators(length - 1, sep) else [])
    else
      Err(InvalidArrayLength(length))
  }

  /** `count` copies of `sep`: what joining `count + 1` empty slots leaves. */
  function Separators(count: nat, sep: char): (r: string)
    ensures |r| == count
    ensures forall i :: 0 <= i < count ==> r[i] == sep
  {
    if count == 0 then [] else Separators(count - 1, sep) + [sep]
  }

  /**
   * `padLeft(value, padding)`: `padding` spaces in front of `value` for a
   * number, the string itself in front of `value` for a string.
   */
  function PadLeft(value: string, padding: Padding): (r: Result<string, RangeError>)
    ensures padding.Prefix? ==> r == Ok(padding.s + value)
    ensures padding.Count? ==> (r.Ok? <==> -1 <= padding.n < MAX_ARRAY_LENGTH)
    ensures r.Ok? ==> |r.value| >= |value| && r.value[|r.value| - |value|..] == value
    ensures padding.Count? && padding.n >= 0 && r.Ok? ==>
      |r.value| == padding.n + |value| && forall i :: 0 <= i < padding.n ==> r.value[i] == ' '
    ensures padding == Count(-1) ==> r == Ok(value)
  {
    match padding
    case Count(n) =>
      (match JoinEmptySlots(n + 1, ' ')
       case Ok(spaces) => Ok(spaces + value)
       case Err(e) => Err(e))
    case Prefix(s) => Ok(s + value)
  }

  /** The two `Padder` classes; each only reads the field its constructor set. */
  datatype Padder = SpaceRepeatingPadder(numSpaces: int) | StringPadder(text: string) {

    /** `getPaddingString()`: `numSpaces` spaces, or the string given. */
    function GetPaddingString(): (r: Result<string, RangeError>)
      ensures StringPadder? ==> r == Ok(text)
      ensures SpaceRepeatingPadder? ==> (r.Ok? <==> -1 <= numSpaces < MAX_ARRAY_LENGTH)
      ensures SpaceRepeatingPadder? && numSpaces >= 0 && r.Ok? ==>
        |r.value| == numSpaces && forall i :: 0 <= i < numSpaces ==> r.value[i] == ' '
      ensures SpaceRepeatingPadder? && numSpaces == -1 ==> r == Ok("")
      ensures r.Err? ==> r.error == InvalidArrayLength(numSpaces + 1)
    {
      match this
      case SpaceRepeatingPadder(n) => JoinEmptySlots(n + 1, ' ')
      case StringPadder(s) => Ok(s)
    }

    /** The `padLeft` argument that carries the same padding. */
    function AsPadding(): (r: Padding) {
      match this
      case SpaceRepeatingPadder(n) => Count(n)
      case StringPadder(s) => Prefix(s)
    }
  }

  /** `padLeft` puts exactly the padder's padding string in front of the value. */
  lemma PadderAgreesWithPadLeft(p: Padder, value: string)
    ensures p.GetPaddingString().Ok? <==> PadLeft(value, p.AsPadding()).Ok?
    ensures p.GetPaddingString().Ok? ==>
      PadLeft(value, p.AsPadding()).value == p.GetPaddingString().value + value
  {
  }

  /** `new SpaceRepeatingPadder(4)` pads with four spaces and `new StringPadder('  ')` with two. */
  lemma PadderExamples()
    ensures SpaceRepeatingPadder(4).GetPaddingString() == Ok("    ")
    ensures StringPadder("  ").GetPaddingString() == Ok("  ")
  {
    var spaces := Separators(4, ' ');
    assert spaces[0] == spaces[1] == spaces[2] == spaces[3] == ' ';
    assert spaces == "    ";
  }
}
