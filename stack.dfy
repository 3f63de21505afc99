/**
 * Reading the caller's name out of a stack trace. The trace itself is made by
 * the engine (a thrown and caught Error); here it is an input string.
 */
module Stack {
  import opened Wrappers
  import opened Text

  /** Marks the start of a call-site description in a stack line. */
  const AtMarker: string := "at "
  /** Separates a caller name from its source location. */
  const LocationMarker: string := " ("
  /** The frame mapper.js skips: its own method wrapper. */
  const WrapperFrame: string := ".parent.obj.(anonymous function)"

  /** The lines of a stack trace: `stack.split('\n')`. */
  function Lines(stack: string): (r: seq<string>)
    ensures |r| >= 1
    ensures forall j :: 0 <= j < |r| ==> !Occurs(r[j], "\n")
    ensures Join(r, "\n") == stack
  {
    JoinSplit(stack, "\n");
    Split(stack, "\n")
  }

  /**
   * `getCallerName(n)`:
   * `stack.split('\n')[n].split('at ')[1].split(' (')[0]`. A missing line, or
   * a line without "at ", makes one of the later `split` calls run on
   * `undefined` and throw a TypeError, modelled as None.
   */
  function CallerName(stack: string, n: nat): (r: Option<string>)
    ensures r.Some? <==> n < |Lines(stack)| && Contains(Lines(stack)[n], AtMarker)
    ensures r.Some? ==>
      r.value == TakeUntil(TakeUntil(AfterFirst(Lines(stack)[n], AtMarker), AtMarker), LocationMarker)
    ensures r.Some? ==>
      !Occurs(r.value, "\n") && !Occurs(r.value, AtMarker) && !Occurs(r.value, LocationMarker)
  {
    var lines := Lines(stack);
    if n >= |lines| then None
    else
      var parts := Split(lines[n], AtMarker);
      if |parts| < 2 then
        SplitFirstPieces(lines[n], AtMarker);
        None
      else
        var name := Split(parts[1], LocationMarker)[0];
        CallerNameFacts(lines[n], parts[1], name);
        Some(name)
  }

  /** The facts CallerName states about one stack line. */
  lemma CallerNameFacts(line: string, second: string, name: string)
    requires !Occurs(line, "\n")
    requires |Split(line, AtMarker)| >= 2 && second == Split(line, AtMarker)[1]
    requires name == Split(second, LocationMarker)[0]
    ensures Contains(line, AtMarker)
    ensures name == TakeUntil(TakeUntil(AfterFirst(line, AtMarker), AtMarker), LocationMarker)
    ensures !Occurs(name, "\n") && !Occurs(name, AtMarker) && !Occurs(name, LocationMarker)
  {
    SplitFirstPieces(line, AtMarker);
    SplitFirstPieces(second, LocationMarker);
    var rest := AfterFirst(line, AtMarker);
    var i := IndexOf(line, AtMarker);
    assert rest == line[i + |AtMarker|..] == line[i + |AtMarker|..|line|];
    SliceKeepsAbsence(line, "\n", i + |AtMarker|, |line|);
    assert second == rest[0..|second|];
    SliceKeepsAbsence(rest, "\n", 0, |second|);
    assert name == second[0..|name|];
    SliceKeepsAbsence(second, "\n", 0, |name|);
    SliceKeepsAbsence(second, AtMarker, 0, |name|);
  }

  /**
   * The frame mapper.js's `checkvisibility` reads: the caller name of line 3,
   * or of line 4 when line 3 names the method wrapper itself.
   */
  function MapperCallerFrame(stack: string): (r: Option<string>)
    ensures r.Some? ==>
      || (r == CallerName(stack, 3) && !Contains(r.value, WrapperFrame))
      || (CallerName(stack, 3).Some? && Contains(CallerName(stack, 3).value, WrapperFrame)
          && r == CallerName(stack, 4))
    ensures r.None? <==>
      || CallerName(stack, 3).None?
      || (Contains(CallerName(stack, 3).value, WrapperFrame) && CallerName(stack, 4).None?)
  {
    match CallerName(stack, 3)
    case None => None
    case Some(caller) =>
      if IndexOf(caller, WrapperFrame) > -1 then CallerName(stack, 4) else Some(caller)
  }
}
