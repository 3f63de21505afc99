# StrictOOP guard model

StrictOOP adds access control and type checks to plain JavaScript objects.
A controller (`new StrictOOP(obj)`) keeps two registries, one for properties
and one for methods, from member name to guard:

- A property guard takes over the property's value. Its getter checks
  visibility. Its setter checks visibility and then the declared type.
- A method guard wraps the original function. It checks visibility before the
  original runs and checks the declared return type after it returns.

Visibility is decided from a stack trace. The caller's name is cut out of one
stack line. The member is private-but-inside when that name contains the
target's constructor name as a substring.

The repository has two copies of the controller, `strict-oop.js` and
`mapper.js`. They differ only in the stack line they read:
- strict-oop.js always reads line 4.
- mapper.js reads line 3, or line 4 when line 3 is its own method wrapper.

The model has one set of classes. The controller's `copy` field picks which
visibility check applies. Every `throw` becomes a `Failure` value inside a
`Result` or `Outcome`.

Modules:
- `Wrappers` (wrappers.dfy): `Option`, `Result`, `Outcome`.
- `Js` (js.dfy): JavaScript values, `typeof`, truthiness, and loose equality
  with a string (sections 12.5.6, 7.1.2 and 7.2.12 of ECMA-262, ECMAScript 2015).
  The guards' string comparison is checked against a reference Abstract
  Equality Comparison that uses ToNumber on strings (section 7.1.3.1).
- `Text` (text.dfy): `String.prototype.indexOf` and `String.prototype.split`
  (sections 21.1.3.8 and 21.1.3.17 of ECMA-262). Each is proved against a
  reference notion of occurrence, and split is proved to round-trip with join.
- `Stack` (stack.dfy): `getCallerName`, and mapper.js's choice of frame.
- `Checks` (checks.dfy): the visibility check, `checktype`, and the outcome
  of a property write and of a method's return.
- `Guards` (guards.dfy): the classes `Target`, `StrictOOP`, `PropertyGuard`
  and `MethodGuard`, whose fields change in place.
- `Scenarios` (scenarios.dfy): the cases of test/index.js, replayed on the
  model as lemmas and as client methods.

Quirks the model keeps as the code has them:
- A method guard's visibility and return type start `undefined`. Undefined
  visibility behaves as public.
- A type of `null`, `undefined` or `""` means "no type".
- The setter's second type test (strict-oop.js:100, mapper.js:115) reads an
  undeclared `obj`. It throws a ReferenceError (`UndeclaredObj`) exactly when
  `checktype` passed only because the target's constructor name equals the
  type. So a write is stored exactly when:
  - the value is not `null`,
  - the visibility check passes, and
  - the type is falsy, or it equals the value's `typeof` and the value is not
    a Symbol.
- `checktype`'s message argument is built before the call, and it
  concatenates the type and, in the setter, the value (strict-oop.js:57 and
  97, mapper.js:70 and 112). Concatenating a Symbol throws a TypeError
  (`SymbolToString`). A set type that is a Symbol therefore throws on every
  write and on every return. In the return case it throws after the body ran.
  A Symbol value throws on a write whenever a type is set, even 'symbol'.
- Writing `null` throws before any check runs, because line 92 reads the
  constructor of `null`.
- `getCallerName` runs before the visibility is looked at. An unreadable stack
  line therefore throws (`StackUnreadable`) even for a public member.

In a few places the code differs from the intended design. The model follows
the code in each case:
- Caller identity is a substring test, not an exact match
  (`Checks.SubstringHeuristic`).
- The nominal branch of `checktype` compares the type with the target's
  constructor name, not with the value's (`Checks.ConstructorTagAcceptsAll`).
- Guarding a name that holds no function fails only when the wrapper is
  called (`NotCallable`), not at registration.

## Model

| member | source | states |
|---|---|---|
| `Js.TypeOf` | strict-oop.js:40 | `typeof` yields one of the seven ECMAScript 2015 type names. It is "object" exactly for `null` and objects, and "string", "number" or "function" exactly for values of that kind. |
| `Js.Truthy` | strict-oop.js:96 | A type or visibility setting is falsy exactly when it is `undefined`, `null`, `false`, `0` or `""`. |
| `Js.LooseEqualsString` | strict-oop.js:34 | `v == 'text'` holds only for the string value with those characters. |
| `Js.LooseEqualsStringAgrees` | strict-oop.js:34 | For any value that is not an object, `LooseEqualsString` gives the same answer as the standard comparison `LooseEquals` when the text does not read as a number. The same holds for any truthy value when the text is empty. |
| `Js.NotNumeric` | strict-oop.js:34 | A string whose first character is not white space, a sign or a digit is NaN under `StringToNumber`. |
| `Js.GuardStringsNotNumeric` | strict-oop.js:34 | 'private' and the seven `typeof` names are NaN under ToNumber. |
| `Js.GuardComparisonsStandard` | strict-oop.js:40 | For any value that is not an object, comparing it with 'private' or with a `typeof` name gives the standard loose-equality answer. |
| `Text.IndexOf` | strict-oop.js:34 | `indexOf` is -1 exactly when the needle occurs nowhere. Otherwise the needle occurs at the result and at no earlier index. |
| `Text.TakeUntil` | strict-oop.js:29 | The text before the first separator is a prefix of the input and contains no separator. |
| `Text.AfterFirst` | strict-oop.js:29 | The input is the text before the first separator, then the separator, then the result. |
| `Text.Split` | strict-oop.js:29 | `split` with a non-empty separator yields at least one piece, and no piece contains the separator. |
| `Text.SplitUnfold` | strict-oop.js:29 | When the separator occurs, `split` yields the text before it followed by the pieces of the rest. |
| `Text.JoinCons` | strict-oop.js:29 | Joining a piece in front of a non-empty list puts one separator between them. |
| `Text.JoinSplit` | strict-oop.js:29 | Joining the pieces of `split` with the same separator gives back the input. |
| `Text.SplitFirstPieces` | strict-oop.js:29 | Piece 0 is the text before the first separator. Piece 1 exists exactly when the separator occurs, and it is the text between the first and second separator. |
| `Text.SliceKeepsAbsence` | mapper.js:31 | Any slice of a string that lacks a needle also lacks it. |
| `Stack.Lines` | strict-oop.js:29 | The stack lines contain no newline, and they join back into the whole stack. |
| `Stack.CallerName` | strict-oop.js:24-31 | `getCallerName(n)` succeeds exactly when line n exists and contains "at ". Its result is the text after the first "at ", cut at the next "at " and then before the first " (". The result contains no newline, no "at " and no " (". mapper.js:30-31 computes the same. |
| `Stack.CallerNameFacts` | mapper.js:30-31 | Holds the facts about one stack line that the name extraction relies on. |
| `Stack.MapperCallerFrame` | mapper.js:36-41 | mapper.js reads the caller name on line 3 when that name is not the method wrapper. Otherwise it reads line 4. It fails exactly when a line it needs is unreadable. |
| `Checks.VisibilityVerdict` | strict-oop.js:34-36 | Given a readable frame, the check rejects exactly when visibility is 'private' and the frame does not contain the constructor name. An unreadable frame throws whatever the visibility. |
| `Checks.CheckVisibility` | strict-oop.js:33-37 | strict-oop.js throws `StackUnreadable` exactly when frame 4 is unreadable. It throws `PrivateViolation` exactly when frame 4 is readable, visibility is 'private' and the frame lacks the constructor name. |
| `Checks.MapperCheckVisibility` | mapper.js:35-46 | The same rule as `CheckVisibility`, applied to the frame mapper.js chooses. |
| `Checks.NonPrivateNeverRejected` | strict-oop.js:34 | Any visibility other than 'private', `undefined` included, never causes an access violation. Such a check passes whenever the stack is readable. |
| `Checks.OccursTransitive` | strict-oop.js:34 | A frame that contains the constructor name also contains every substring of that name. |
| `Checks.SubstringHeuristic` | strict-oop.js:34 | An empty constructor name admits every caller. A name containing "at " or " (" admits no caller to a private member. |
| `Checks.Admit` | strict-oop.js:53 | The visibility check each guard runs (strict-oop.js:53, 87 and 94; mapper.js:65, 101 and 109) passes exactly when the copy's frame is readable and either visibility is not 'private' or the frame contains the constructor name. It fails with `StackUnreadable` exactly when that frame is unreadable. It fails with `PrivateViolation` exactly when the frame is readable, visibility is 'private' and the frame lacks the constructor name. |
| `Checks.CheckType` | strict-oop.js:39-43 | `checktype` passes exactly when the expected tag is the string `typeof actual` or the target's constructor name. Only a string tag can pass. mapper.js:48-52 is identical. |
| `Checks.TypeOfTagAcceptsItsType` | test/index.js:145-192 | A tag naming a `typeof` result accepts exactly the values of that type, when the constructor name differs from the tag. |
| `Checks.ConstructorTagAcceptsAll` | strict-oop.js:40 | A tag equal to the target's constructor name accepts every value. |
| `Checks.WriteOutcome` | strict-oop.js:91-104 | A write succeeds exactly when the value is not null, visibility passes, and the type is falsy or equals `typeof value` for a value that is not a Symbol. Null fails with `NullConstructor`. A visibility failure is passed on unchanged. `SymbolToString` happens exactly when the write is admitted, a type is set, and the value or the type is a Symbol. `UndeclaredObj` happens exactly when only the constructor-name branch matched for a value that is not a Symbol. A stored value always satisfies `checktype`. |
| `Checks.ReturnOutcome` | strict-oop.js:57 | A result passes exactly when no return type is set, or the type equals the result's `typeof` or the target's constructor name. A Symbol return type fails with `SymbolToString`. Any other failure is `TypeMismatch`. |
| `Guards.Lookup` | strict-oop.js:76 | Reading a member that the target lacks yields `undefined`. Reading a present member yields its value. strict-oop.js:49 (mapper.js:60) reads the original function the same way. |
| `Guards.StrictOOP.constructor` | strict-oop.js:8-12 | A new controller has both registries empty. |
| `Guards.StrictOOP.Property` | strict-oop.js:14-17 | `property(name)` adds at most one entry, and a repeat request returns the registered guard with nothing changed. The guard returned belongs to this controller under that name. A first request makes a fresh guard with the target's prior value, 'public' visibility and a `null` type, and deletes the plain field. The method registry is untouched. mapper.js:10-15 is identical. |
| `Guards.StrictOOP.Method` | strict-oop.js:19-22 | `method(name)` adds at most one entry, and a repeat request returns the registered guard. The guard returned belongs to this controller under that name. A first request captures the original member and leaves visibility and type `undefined`. The property registry is untouched. mapper.js:17-22 is identical. |
| `Guards.PropertyGuard.constructor` | strict-oop.js:75-83 | The guard takes over the target's current value, which is `undefined` when absent. It starts 'public' with a `null` type, and removes the plain field. |
| `Guards.PropertyGuard.Read` | strict-oop.js:84-90 | A read returns the stored value exactly when the visibility check passes. Otherwise it fails with that check's error. Nothing changes. |
| `Guards.PropertyGuard.Write` | strict-oop.js:91-104 | The outcome is `WriteOutcome`. The stored value becomes the new value on success and stays as it was on every failure. |
| `Guards.PropertyGuard.Is` | strict-oop.js:108-111 | `is` sets only the visibility and returns the same guard. |
| `Guards.PropertyGuard.Type` | strict-oop.js:113-116 | `type` sets only the type and returns the same guard. |
| `Guards.MethodGuard.constructor` | strict-oop.js:47-51 | The wrapper captures the member as it is now (`oldFunc`), with visibility and type `undefined`. |
| `Guards.MethodGuard.Call` | strict-oop.js:52-60 | A call refused by visibility fails before the original runs, so the run trace is unchanged. Otherwise the original runs exactly once. Its result is returned unchanged when the return check passes. A failed check gives `ReturnOutcome`'s error after the run, and the run is not undone. A non-function member fails with `NotCallable` without running. |
| `Guards.MethodGuard.Is` | strict-oop.js:63-66 | `is` sets only the visibility and returns the same guard. |
| `Guards.MethodGuard.Returns` | strict-oop.js:68-71 | `returns` sets only the return type and returns the same guard. |
| `Scenarios.OutsideFrameRefused` | test/index.js:8-33 | A frame lacking the first letter of the class name makes a private member refuse access. A public member still admits it. |
| `Scenarios.InsideFramePermitted` | test/index.js:35-72 | A frame that starts with the class name is admitted whatever the visibility. |
| `Scenarios.CopiesAgreeBehindWrapper` | mapper.js:38-41 | Behind mapper.js's own wrapper frame, mapper.js and strict-oop.js reach the same visibility decision. |
| `Scenarios.TypedWrites` | test/index.js:145-192 | A 'string' property takes "bar" and refuses 123. A 'number' property takes 123 and refuses "aaa". |
| `Scenarios.ForeignTagRefuses` | test/index.js:194-205 | A non-empty type naming neither the value's `typeof` nor the target's class refuses an admitted write. The error is `TypeMismatch`, or `SymbolToString` for a Symbol value. |
| `Scenarios.SymbolsNeverTypeCheck` | strict-oop.js:96-97 | Once a write is admitted, a Symbol written under the type 'symbol' and any value written under a Symbol type fail with `SymbolToString`. So does every result under a Symbol return type (strict-oop.js:57). |
| `Scenarios.OutsideVerdicts` | test/index.js:8-33 | For a caller named "Context.<anonymous>", strict-oop.js refuses private members of MyClass and of Object, and admits their public members. |
| `Scenarios.InsideVerdicts` | test/index.js:35-72 | For a caller that is a method of MyClass, strict-oop.js admits MyClass's members whatever their visibility. |

The client methods in `Scenarios` have no `ensures`. Each requires only the
caller name its stack yields, and replays other cases from test/index.js with
`assert` statements:
- private properties from outside and inside,
- two handles sharing one guard,
- property and method registries kept apart,
- null writes,
- a class-named type,
- private methods from outside and inside,
- return types, with the body run kept after a mismatch.

## Left out

- Making the stack trace (strict-oop.js:25-28) is engine-specific. The stack
  string is an input to every guarded operation.
- `delete` and `Object.defineProperty` (strict-oop.js:77-83) are replaced by
  the guard's `Read` and `Write`. The model deletes the plain field but
  installs no accessor into `Target.fields`.
- `Target.fields` holds every member `obj[name]` reads, own and inherited
  alike. A property guard's `delete` (strict-oop.js:77) removes the name from
  it. In JavaScript, `delete` removes an own property only, so an inherited
  member of the same name would still be visible. This is not modelled.
- The wrapper stored into `parent.obj[name]` (strict-oop.js:52) is not written
  into `Target.fields`. Calls go through `MethodGuard.Call`.
- Guarding one name as both a property and a method is not modelled. In the
  source, the accessor would run during method registration.
- The registries are arrays in the source, so names such as "push" hit
  `Array.prototype`. The model uses maps.
- The original function's body is `Target.code`, a total function of its
  arguments. The model does not cover:
  - its own effects on the target or on guards, beyond being recorded in `ran`;
  - exceptions it throws;
  - its use of `this`.
- Numbers are integers. NaN, -0 and fractions are not modelled, so NaN's
  falsiness is missing.
- `Js.LooseEqualsString`: does not model an object whose ToPrimitive yields the
  compared string, nor a non-empty constructor name that reads as a number
  (such as a class named "1"). 'private' and the `typeof` names are not
  numeric (`Js.GuardStringsNotNumeric`). A class's name can be `""`, which
  reads as 0, so `0 == ""` and `false == ""` hold in JavaScript. The model's
  answer differs only for a falsy value, and a falsy value is never compared:
  `checktype` runs only when the type is truthy (strict-oop.js:57 and 96).
  `Js.LooseEqualsStringAgrees` proves that the answers agree for every truthy
  value that is not an object.
- `Js.StringToNumber` reads only the integer forms of ToNumber. Hexadecimal,
  fractions, exponents and "Infinity" count as NaN. Only space, tab, line feed
  and carriage return are trimmed.
- An object without a constructor (`Object.create(null)`) would throw at
  strict-oop.js:92. Such objects are not modelled.
- A target without a constructor (`Object.create(null)` as the target) would
  make every check throw while reading `constructor.name` (strict-oop.js:34
  and 40). `Target.ctorName` is always a string, so this case is not modelled.
- A global variable named `obj` would change strict-oop.js:100. The model
  assumes there is none.
- The dead `objtype` computations (strict-oop.js:85 and 92, mapper.js:99 and
  107) have no effect, apart from the null dereference at line 92.
- Error message texts are not modelled. Failures carry their kind only. The
  message's one effect that matters, a TypeError when a Symbol is
  concatenated, is modelled as `SymbolToString`. Concatenating an object
  (through its `toString`) is not modelled.
- Member names are strings. Guarding a Symbol-keyed member is not modelled.
  In the source, every access to such a member throws while building the
  visibility message (strict-oop.js:53, 87 and 94).
- mapper.js:134 exports nothing. The module wiring is not modelled.
- test/index.js:207-218 throws because `MyType` is not a constructor, whatever
  the guard does. Only the string write at test/index.js:194-205 is replayed.
- Concurrency: the code is single-threaded and synchronous.
