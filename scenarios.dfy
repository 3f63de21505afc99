/**
 * The behaviour test/index.js checks, replayed on the model. A stack trace
 * enters only through the caller name it yields; each scenario says which.
 */
module Scenarios {
  import opened Wrappers
  import opened Js
  import opened Text
  import opened Stack
  import opened Checks
  import opened Guards

  /** A private member used from a frame that does not name the target's class is refused. */
  lemma OutsideFrameRefused(frame: string, ctorName: string)
    requires |ctorName| > 0 && ctorName[0] !in frame
    ensures VisibilityVerdict(Some(frame), ctorName, Private) == Fail(PrivateViolation)
    ensures VisibilityVerdict(Some(frame), ctorName, String("public")) == Pass
  {
    AbsentFirstChar(frame, ctorName);
  }

  /** A frame that starts with the target's class name is inside, whatever the visibility. */
  lemma InsideFramePermitted(frame: string, ctorName: string, visibility: JsValue)
    requires |ctorName| <= |frame| && frame[..|ctorName|] == ctorName
    ensures VisibilityVerdict(Some(frame), ctorName, visibility) == Pass
  {
    assert OccursAt(frame, ctorName, 0);
  }

  /**
   * For a call through mapper.js's wrapper, whose own frame sits on line 3,
   * mapper.js reads line 4 just as strict-oop.js does, and the two copies
   * decide alike.
   */
  lemma CopiesAgreeBehindWrapper(stack: string, ctorName: string, visibility: JsValue)
    requires CallerName(stack, 3).Some? && Contains(CallerName(stack, 3).value, WrapperFrame)
    ensures Admit(MapperJs, stack, ctorName, visibility) == Admit(StrictOopJs, stack, ctorName, visibility)
  {
  }

  /**
   * A typed property keeps values of its type and refuses the others,
   * leaving the stored value as it was.
   */
  lemma TypedWrites(copy: Copy, stack: string, ctorName: string)
    requires Admit(copy, stack, ctorName, String("public")).Pass?
    requires ctorName != "string" && ctorName != "number"
    ensures WriteOutcome(copy, stack, ctorName, String("public"), String("string"), String("bar")) == Pass
    ensures WriteOutcome(copy, stack, ctorName, String("public"), String("string"), Number(123)) == Fail(TypeMismatch)
    ensures WriteOutcome(copy, stack, ctorName, String("public"), String("number"), Number(123)) == Pass
    ensures WriteOutcome(copy, stack, ctorName, String("public"), String("number"), String("aaa")) == Fail(TypeMismatch)
  {
    assert "string"[0] != "number"[0];
    assert CheckType(String("string"), Number(123), ctorName) == Fail(TypeMismatch);
    assert CheckType(String("number"), String("aaa"), ctorName) == Fail(TypeMismatch);
  }

  /**
   * A type naming neither the value's `typeof` nor the target's class refuses
   * an admitted write; a Symbol value throws earlier, in checktype's message.
   */
  lemma ForeignTagRefuses(copy: Copy, stack: string, ctorName: string, visibility: JsValue,
                          tag: string, v: JsValue)
    requires v != Null && Admit(copy, stack, ctorName, visibility).Pass?
    requires tag != "" && tag != TypeOf(v) && tag != ctorName
    ensures WriteOutcome(copy, stack, ctorName, visibility, String(tag), v)
      == if v.Symbol? then Fail(SymbolToString) else Fail(TypeMismatch)
  {
  }

  /**
   * A Symbol is refused even by a property typed 'symbol', and a Symbol
   * return type refuses every result: both throw while building
   * checktype's message.
   */
  lemma SymbolsNeverTypeCheck(copy: Copy, stack: string, ctorName: string, result: JsValue)
    requires Admit(copy, stack, ctorName, String("public")).Pass?
    ensures WriteOutcome(copy, stack, ctorName, String("public"), String("symbol"), Symbol) == Fail(SymbolToString)
    ensures WriteOutcome(copy, stack, ctorName, String("public"), Symbol, String("bar")) == Fail(SymbolToString)
    ensures ReturnOutcome(Symbol, result, ctorName) == Fail(SymbolToString)
  {
  }

  /** What strict-oop.js decides for a caller outside every class. */
  lemma OutsideVerdicts(stack: string, ctorName: string)
    requires CallerName(stack, 4) == Some("Context.<anonymous>")
    requires ctorName == "MyClass" || ctorName == "Object"
    ensures Admit(StrictOopJs, stack, ctorName, Private) == Fail(PrivateViolation)
    ensures Admit(StrictOopJs, stack, ctorName, String("public")) == Pass
  {
    OutsideFrameRefused("Context.<anonymous>", ctorName);
  }

  /** What strict-oop.js decides for a caller inside a method of MyClass. */
  lemma InsideVerdicts(stack: string, frame: string, visibility: JsValue)
    requires CallerName(stack, 4) == Some(frame)
    requires frame == "MyClass.getFoo" || frame == "MyClass.foo"
    ensures Admit(StrictOopJs, stack, "MyClass", visibility) == Pass
  {
    InsideFramePermitted(frame, "MyClass", visibility);
  }

  /** A private property from outside can be neither read nor written (test/index.js:8-33). */
  method PrivatePropertyOutsideScenario(stack: string)
    requires CallerName(stack, 4) == Some("Context.<anonymous>")
  {
    OutsideVerdicts(stack, "MyClass");
    var target := new Target("MyClass", (id, args) => Undefined, map["foo" := String("bar")]);
    var oop := new StrictOOP(target, StrictOopJs);
    var foo := oop.Property("foo");
    assert target.fields == map[];
    foo := foo.Is(Private);
    var read := foo.Read(stack);
    assert read == Err(PrivateViolation);
    var write := foo.Write(stack, String("baz"));
    assert write == Fail(PrivateViolation) && foo.value == String("bar");
  }

  /** A private property from a method of its class is read and written (test/index.js:35-72). */
  method PrivatePropertyInsideScenario(stack: string)
    requires CallerName(stack, 4) == Some("MyClass.getFoo")
  {
    InsideVerdicts(stack, "MyClass.getFoo", Private);
    var target := new Target("MyClass", (id, args) => Undefined, map["foo" := String("bar")]);
    var oop := new StrictOOP(target, StrictOopJs);
    var foo := oop.Property("foo");
    foo := foo.Is(Private);
    var read := foo.Read(stack);
    assert read == Ok(String("bar"));
    var write := foo.Write(stack, String("baz"));
    assert write == Pass && foo.value == String("baz");
  }

  /**
   * Two requests for the same property share one guard: a change made
   * through the second handle shows through the first.
   */
  method SharedHandleScenario(stack: string)
    requires CallerName(stack, 4) == Some("Context.<anonymous>")
  {
    OutsideVerdicts(stack, "Object");
    var target := new Target("Object", (id, args) => Undefined, map[]);
    var oop := new StrictOOP(target, StrictOopJs);
    var first := oop.Property("foo");
    var second := oop.Property("foo");
    assert first == second && oop.properties == map["foo" := first];
    second := second.Is(Private);
    var read := first.Read(stack);
    assert read == Err(PrivateViolation);
  }

  /** Property and method guards are kept apart: registering one leaves the other registry as it was. */
  method SeparateRegistriesScenario()
  {
    var target := new Target("Object", (id, args) => Undefined, map["bar" := Function(3)]);
    var oop := new StrictOOP(target, StrictOopJs);
    var foo := oop.Property("foo");
    var bar := oop.Method("bar");
    assert oop.properties == map["foo" := foo] && oop.methods == map["bar" := bar];
    assert bar.original == Function(3);
  }

  /** A property typed 'string' keeps strings and refuses numbers (test/index.js:145-167). */
  method StringPropertyScenario(stack: string)
    requires CallerName(stack, 4) == Some("Context.<anonymous>")
  {
    OutsideVerdicts(stack, "Object");
    TypedWrites(StrictOopJs, stack, "Object");
    var target := new Target("Object", (id, args) => Undefined, map[]);
    var oop := new StrictOOP(target, StrictOopJs);
    var foo := oop.Property("foo");
    foo := foo.Type(String("string"));
    var w := foo.Write(stack, String("bar"));
    assert w == Pass && foo.value == String("bar");
    w := foo.Write(stack, Number(123));
    assert w == Fail(TypeMismatch) && foo.value == String("bar");
  }

  /** Null is refused before any check, and the value stays (strict-oop.js:92). */
  method NullWriteScenario(stack: string)
  {
    var target := new Target("Object", (id, args) => Undefined, map["foo" := Number(1)]);
    var oop := new StrictOOP(target, StrictOopJs);
    var foo := oop.Property("foo");
    var w := foo.Write(stack, Null);
    assert w == Fail(NullConstructor) && foo.value == Number(1);
  }

  /** A class-named type on a plain object refuses a string (test/index.js:194-205). */
  method ClassTypedPropertyScenario(stack: string)
    requires CallerName(stack, 4) == Some("Context.<anonymous>")
  {
    OutsideVerdicts(stack, "Object");
    assert "MyType"[0] != "string"[0] && "MyType"[0] != "Object"[0];
    ForeignTagRefuses(StrictOopJs, stack, "Object", String("public"), "MyType", String("aaa"));
    var target := new Target("Object", (id, args) => Undefined, map[]);
    var oop := new StrictOOP(target, StrictOopJs);
    var foo := oop.Property("foo");
    foo := foo.Type(String("MyType"));
    var w := foo.Write(stack, String("aaa"));
    assert w == Fail(TypeMismatch) && foo.value == Undefined;
  }

  /** A private method called from outside throws and its body never runs (test/index.js:224-243). */
  method PrivateMethodOutsideScenario(outside: string)
    requires CallerName(outside, 4) == Some("Context.<anonymous>")
  {
    OutsideVerdicts(outside, "MyClass");
    var target := new Target("MyClass", (id, args) => String("called"), map["bar" := Function(7)]);
    var oop := new StrictOOP(target, StrictOopJs);
    var bar := oop.Method("bar");
    bar := bar.Is(Private);
    var r := bar.Call(outside, []);
    assert r == Err(PrivateViolation) && target.ran == [];
  }

  /** A private method called by a method of its own class runs (test/index.js:246-265). */
  method PrivateMethodInsideScenario(inside: string)
    requires CallerName(inside, 4) == Some("MyClass.foo")
  {
    InsideVerdicts(inside, "MyClass.foo", Private);
    var target := new Target("MyClass", (id, args) => String("called"), map["bar" := Function(7)]);
    var oop := new StrictOOP(target, StrictOopJs);
    var bar := oop.Method("bar");
    bar := bar.Is(Private);
    var r := bar.Call(inside, []);
    assert r == Ok(String("called")) && target.ran == [7];
  }

  /** A result of the declared return type is passed through (test/index.js:315-399). */
  method ReturnTypeScenario(stack: string)
    requires CallerName(stack, 4) == Some("MyClass.foo")
  {
    InsideVerdicts(stack, "MyClass.foo", Undefined);
    var target := new Target("MyClass", (id, args) => String("called"), map["bar" := Function(7)]);
    var oop := new StrictOOP(target, StrictOopJs);
    var bar := oop.Method("bar");
    bar := bar.Returns(String("string"));
    var r := bar.Call(stack, []);
    assert r == Ok(String("called")) && target.ran == [7];
  }

  /** A result of another type throws after the body already ran (test/index.js:315-399). */
  method ReturnTypeMismatchScenario(stack: string)
    requires CallerName(stack, 4) == Some("MyClass.foo")
  {
    InsideVerdicts(stack, "MyClass.foo", Undefined);
    var target := new Target("MyClass", (id, args) => String("called"), map["bar" := Function(7)]);
    var oop := new StrictOOP(target, StrictOopJs);
    var bar := oop.Method("bar");
    bar := bar.Returns(String("number"));
    var r := bar.Call(stack, []);
    assert r == Err(TypeMismatch) && target.ran == [7];
  }
}
