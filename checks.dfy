/**
 * The guard decisions of both copies of StrictOOP (strict-oop.js and
 * mapper.js): the visibility check, the type check, and the outcome of a
 * guarded property write or method return. Every `throw` of the source is a
 * Failure here.
 */
module Checks {
  import opened Wrappers
  import opened Js
  import opened Text
  import opened Stack

  /** Why a guarded operation throws. */
  datatype Failure =
    | StackUnreadable   // TypeError: the caller's stack line is missing or has no "at "
    | PrivateViolation  // Error: private member used outside the target's class
    | TypeMismatch      // Error: checktype rejected a value
    | UndeclaredObj     // ReferenceError: the property setter reads an undeclared `obj`
    | NullConstructor   // TypeError: the property setter reads the constructor of null
    | NotCallable       // TypeError: the wrapped member is not a function
    | SymbolToString    // TypeError: a Symbol is concatenated into checktype's message

  /** Which copy of the controller is in use; they differ only in the frame they read. */
  datatype Copy = StrictOopJs | MapperJs

  const Private: JsValue := String("private")

  /**
   * The visibility rule once the caller's frame is known: reject exactly when
   * the visibility is 'private' and the frame text does not contain the
   * target's constructor name. An unreadable frame throws before the rule is
   * applied, whatever the visibility.
   */
  function VisibilityVerdict(frame: Option<string>, ctorName: string, visibility: JsValue): (r: Outcome<Failure>)
    ensures r == Fail(StackUnreadable) <==> frame.None?
    ensures r == Fail(PrivateViolation) <==>
      frame.Some? && visibility == Private && !Occurs(frame.value, ctorName)
    ensures r.Pass? <==> frame.Some? && (visibility != Private || Occurs(frame.value, ctorName))
  {
    match frame
    case None => Fail(StackUnreadable)
    case Some(caller) =>
      if IndexOf(caller, ctorName) == -1 && LooseEqualsString(visibility, "private")
      then Fail(PrivateViolation)
      else Pass
  }

  /** `checkVisibility` of strict-oop.js: the caller is stack line 4. */
  function CheckVisibility(stack: string, ctorName: string, visibility: JsValue): (r: Outcome<Failure>)
    ensures r == Fail(StackUnreadable) <==> CallerName(stack, 4).None?
    ensures r == Fail(PrivateViolation) <==>
      CallerName(stack, 4).Some? && visibility == Private && !Occurs(CallerName(stack, 4).value, ctorName)
    ensures r.Pass? <==>
      CallerName(stack, 4).Some? && (visibility != Private || Occurs(CallerName(stack, 4).value, ctorName))
  {
    VisibilityVerdict(CallerName(stack, 4), ctorName, visibility)
  }

  /**
   * `checkvisibility` of mapper.js: the caller is stack line 3, or line 4
   * when line 3 is the method wrapper.
   */
  function MapperCheckVisibility(stack: string, ctorName: string, visibility: JsValue): (r: Outcome<Failure>)
    ensures r == Fail(StackUnreadable) <==> MapperCallerFrame(stack).None?
    ensures r == Fail(PrivateViolation) <==>
      MapperCallerFrame(stack).Some? && visibility == Private
      && !Occurs(MapperCallerFrame(stack).value, ctorName)
    ensures r.Pass? <==>
      MapperCallerFrame(stack).Some?
      && (visibility != Private || Occurs(MapperCallerFrame(stack).value, ctorName))
  {
    VisibilityVerdict(MapperCallerFrame(stack), ctorName, visibility)
  }

  /** The caller frame the given copy reads: line 4 for strict-oop.js, line 3 or 4 for mapper.js. */
  function Frame(copy: Copy, stack: string): Option<string> {
    match copy
    case StrictOopJs => CallerName(stack, 4)
    case MapperJs => MapperCallerFrame(stack)
  }

  /**
   * The visibility check the guards of the given copy call: it passes exactly
   * when that copy's frame is readable and the member is not private or the
   * frame contains the constructor name.
   */
  function Admit(copy: Copy, stack: string, ctorName: string, visibility: JsValue): (r: Outcome<Failure>)
    ensures r.Pass? <==>
      Frame(copy, stack).Some? && (visibility != Private || Occurs(Frame(copy, stack).value, ctorName))
    ensures r == Fail(StackUnreadable) <==> Frame(copy, stack).None?
    ensures r == Fail(PrivateViolation) <==>
      Frame(copy, stack).Some? && visibility == Private && !Occurs(Frame(copy, stack).value, ctorName)
  {
    match copy
    case StrictOopJs => CheckVisibility(stack, ctorName, visibility)
    case MapperJs => MapperCheckVisibility(stack, ctorName, visibility)
  }

  /** Only 'private' can reject: any other visibility, `undefined` included, never does. */
  lemma NonPrivateNeverRejected(copy: Copy, stack: string, ctorName: string, visibility: JsValue)
    requires visibility != Private
    ensures Admit(copy, stack, ctorName, visibility) != Fail(PrivateViolation)
    ensures Admit(copy, stack, ctorName, visibility).Pass? <==>
      Admit(copy, stack, ctorName, visibility) != Fail(StackUnreadable)
  {
  }

  /** Containment is transitive: a frame containing `name` contains whatever `name` contains. */
  lemma {:induction false} OccursTransitive(frame: string, name: string, part: string)
    requires Occurs(frame, name) && Occurs(name, part)
    ensures Occurs(frame, part)
  {
    var i :| OccursAt(frame, name, i);
    var j :| OccursAt(name, part, j);
    SliceOccurrences(frame, part, i, i + |name|);
    assert frame[i..i + |name|] == name;
    assert OccursAt(frame, part, i + j);
  }

  /**
   * The frame test is a substring test, so a constructor whose name is empty
   * lets every caller in, and one whose name contains "at " or " (" (text a
   * caller name never holds) lets no caller in.
   */
  lemma SubstringHeuristic(frame: string, ctorName: string)
    requires !Occurs(frame, AtMarker) && !Occurs(frame, LocationMarker)
    ensures ctorName == "" ==> VisibilityVerdict(Some(frame), ctorName, Private).Pass?
    ensures Occurs(ctorName, AtMarker) || Occurs(ctorName, LocationMarker) ==>
      VisibilityVerdict(Some(frame), ctorName, Private) == Fail(PrivateViolation)
  {
    if ctorName == "" {
      assert OccursAt(frame, ctorName, 0);
    }
    if Occurs(frame, ctorName) && Occurs(ctorName, AtMarker) {
      OccursTransitive(frame, ctorName, AtMarker);
    }
    if Occurs(frame, ctorName) && Occurs(ctorName, LocationMarker) {
      OccursTransitive(frame, ctorName, LocationMarker);
    }
  }

  /**
   * `checktype(expected, actual)`: accept when `typeof actual == expected` or
   * when the TARGET's constructor name equals `expected`; the value's own
   * class is never consulted.
   */
  function CheckType(expected: JsValue, actual: JsValue, ctorName: string): (r: Outcome<Failure>)
    ensures r.Pass? ==> expected.String?
    ensures r.Pass? <==> expected == String(TypeOf(actual)) || expected == String(ctorName)
    ensures r.Fail? ==> r.error == TypeMismatch
  {
    if !(LooseEqualsString(expected, TypeOf(actual)) || LooseEqualsString(expected, ctorName))
    then Fail(TypeMismatch)
    else Pass
  }

  /**
   * A tag naming a `typeof` result accepts exactly the values of that type,
   * unless the target's constructor happens to carry the same name.
   */
  lemma TypeOfTagAcceptsItsType(tag: string, actual: JsValue, ctorName: string)
    requires tag in TypeNames && ctorName != tag
    ensures CheckType(String(tag), actual, ctorName).Pass? <==> TypeOf(actual) == tag
  {
  }

  /** A tag equal to the target's constructor name accepts every value. */
  lemma ConstructorTagAcceptsAll(actual: JsValue, ctorName: string)
    ensures CheckType(String(ctorName), actual, ctorName).Pass?
  {
  }

  /**
   * The property setter, step by step: the constructor of the new value is
   * read when `typeof` says "object" (so `null` throws first), then the
   * visibility check, then, when a type is set, `checktype`, whose message
   * argument is built first and concatenates both the value and the type (a
   * Symbol in either throws there), then a second type test whose right-hand
   * side reads the undeclared `obj` (so it throws whenever the `typeof` test
   * fails). The effective rule: the write is stored exactly when the value is
   * not null, the visibility check passes and the type is unset or names the
   * value's `typeof`, a Symbol's excepted.
   */
  function WriteOutcome(copy: Copy, stack: string, ctorName: string, visibility: JsValue,
                        otype: JsValue, v: JsValue): (r: Outcome<Failure>)
    ensures r.Pass? <==>
      v != Null && Admit(copy, stack, ctorName, visibility).Pass?
      && (!Truthy(otype) || (otype == String(TypeOf(v)) && !v.Symbol?))
    ensures v == Null ==> r == Fail(NullConstructor)
    ensures v != Null && Admit(copy, stack, ctorName, visibility).Fail? ==>
      r == Admit(copy, stack, ctorName, visibility)
    ensures r == Fail(SymbolToString) <==>
      v != Null && Admit(copy, stack, ctorName, visibility).Pass? && Truthy(otype)
      && (v.Symbol? || otype.Symbol?)
    ensures r == Fail(UndeclaredObj) <==>
      v != Null && Admit(copy, stack, ctorName, visibility).Pass? && Truthy(otype) && !v.Symbol?
      && otype != String(TypeOf(v)) && otype == String(ctorName)
    ensures r.Pass? && Truthy(otype) ==> CheckType(otype, v, ctorName).Pass?
  {
    if v.Null? then Fail(NullConstructor)
    else
      var access := Admit(copy, stack, ctorName, visibility);
      if access.Fail? then access
      else if Truthy(otype) && (v.Symbol? || otype.Symbol?) then Fail(SymbolToString)
      else if Truthy(otype) && CheckType(otype, v, ctorName).Fail? then Fail(TypeMismatch)
      else if Truthy(otype) && !LooseEqualsString(otype, TypeOf(v)) then Fail(UndeclaredObj)
      else Pass
  }

  /**
   * The check after a wrapped method returns: when a return type is set,
   * `checktype`, whose message argument concatenates the type (so a Symbol
   * type throws before the check).
   */
  function ReturnOutcome(otype: JsValue, result: JsValue, ctorName: string): (r: Outcome<Failure>)
    ensures r.Pass? <==>
      !Truthy(otype) || otype == String(TypeOf(result)) || otype == String(ctorName)
    ensures r == Fail(SymbolToString) <==> otype.Symbol?
    ensures r.Fail? && !otype.Symbol? ==> r == Fail(TypeMismatch)
  {
    if !Truthy(otype) then Pass
    else if otype.Symbol? then Fail(SymbolToString)
    else CheckType(otype, result, ctorName)
  }
}
