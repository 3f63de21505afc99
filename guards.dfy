/**
 * The StrictOOP controller and its two guard classes, as objects whose fields
 * change in place: the per-target registries, the property guard that holds
 * the property's value, and the method guard that wraps the original function.
 * Accessor installation is modelled by the guards' Read, Write and Call.
 */
module Guards {
  import opened Wrappers
  import opened Js
  import opened Checks

  /** `obj[name]`: a missing member reads as undefined. */
  function Lookup(fields: map<string, JsValue>, name: string): (v: JsValue)
    ensures name !in fields ==> v == Undefined
    ensures name in fields ==> v == fields[name]
  {
    if name in fields then fields[name] else Undefined
  }

  /**
   * The object being guarded. Its function-valued members run `code`; every
   * run of one of them is recorded in `ran`, the observable side effect of
   * calling the original method.
   */
  class Target {
    const ctorName: string
    const code: (nat, seq<JsValue>) -> JsValue
    /**
     * Everything `obj[name]` can read, inherited members (a class's methods)
     * included. Removing a name stands for `delete`, which in JavaScript
     * removes an own property only.
     */
    var fields: map<string, JsValue>
    var ran: seq<nat>

    constructor (ctorName: string, code: (nat, seq<JsValue>) -> JsValue, fields: map<string, JsValue>)
      ensures this.ctorName == ctorName && this.code == code
      ensures this.fields == fields && ran == []
    {
      this.ctorName := ctorName;
      this.code := code;
      this.fields := fields;
      ran := [];
    }
  }

  /** The controller: one target, two registries from member name to guard. */
  class StrictOOP {
    const obj: Target
    const copy: Copy
    var properties: map<string, PropertyGuard>
    var methods: map<string, MethodGuard>

    /** Every registered guard belongs to this controller, under its own name. */
    ghost predicate Valid()
      reads this
    {
      && (forall n :: n in properties ==> properties[n].parent == this && properties[n].name == n)
      && (forall n :: n in methods ==> methods[n].parent == this && methods[n].name == n)
    }

    constructor (obj: Target, copy: Copy)
      ensures Valid()
      ensures this.obj == obj && this.copy == copy
      ensures properties == map[] && methods == map[]
    {
      this.obj := obj;
      this.copy := copy;
      properties := map[];
      methods := map[];
    }

    /**
     * `property(name)`: the guard registered for `name`, created on first
     * request. A repeated request returns the same guard and changes nothing.
     */
    method Property(name: string) returns (p: PropertyGuard)
      requires Valid()
      modifies this`properties, obj`fields
      ensures Valid()
      ensures properties == old(properties)[name := p]
      ensures p.parent == this && p.name == name
      ensures methods == old(methods)
      ensures name in old(properties) ==> p == old(properties[name]) && obj.fields == old(obj.fields)
      ensures name !in old(properties) ==>
        && fresh(p)
        && p.value == Lookup(old(obj.fields), name)
        && p.visibility == String("public") && p.otype == Null
        && obj.fields == old(obj.fields) - {name}
    {
      if name !in properties {
        var guard := new PropertyGuard(this, name);
        properties := properties[name := guard];
      }
      p := properties[name];
    }

    /**
     * `method(name)`: the guard registered for `name`, created on first
     * request. A repeated request returns the same guard and changes nothing.
     */
    method Method(name: string) returns (m: MethodGuard)
      requires Valid()
      modifies this`methods
      ensures Valid()
      ensures methods == old(methods)[name := m]
      ensures m.parent == this && m.name == name
      ensures properties == old(properties)
      ensures name in old(methods) ==> m == old(methods[name])
      ensures name !in old(methods) ==>
        && fresh(m)
        && m.original == Lookup(obj.fields, name)
        && m.visibility == Undefined && m.otype == Undefined
    {
      if name !in methods {
        var guard := new MethodGuard(this, name);
        methods := methods[name := guard];
      }
      m := methods[name];
    }
  }

  /** `StrictOOP.Property`: the guard that now holds a property's value. */
  class PropertyGuard {
    const parent: StrictOOP
    const name: string
    var value: JsValue
    var visibility: JsValue
    var otype: JsValue

    /** Takes over the target's current value and deletes the plain field. */
    constructor (parent: StrictOOP, name: string)
      modifies parent.obj`fields
      ensures this.parent == parent && this.name == name
      ensures value == Lookup(old(parent.obj.fields), name)
      ensures visibility == String("public") && otype == Null
      ensures parent.obj.fields == old(parent.obj.fields) - {name}
    {
      this.parent := parent;
      this.name := name;
      value := Lookup(parent.obj.fields, name);
      visibility := String("public");
      otype := Null;
      new;
      parent.obj.fields := parent.obj.fields - {name};
    }

    /** The getter: the visibility check, then the stored value; nothing changes. */
    method Read(stack: string) returns (r: Result<JsValue, Failure>)
      ensures r.Ok? <==> Admit(parent.copy, stack, parent.obj.ctorName, visibility).Pass?
      ensures r.Ok? ==> r.value == value
      ensures r.Err? ==> Admit(parent.copy, stack, parent.obj.ctorName, visibility) == Fail(r.error)
    {
      var access := Admit(parent.copy, stack, parent.obj.ctorName, visibility);
      if access.Fail? {
        return Err(access.error);
      }
      r := Ok(value);
    }

    /** The setter: stores `v` only when every check passes; a rejected write keeps the old value. */
    method Write(stack: string, v: JsValue) returns (r: Outcome<Failure>)
      modifies this`value
      ensures r == WriteOutcome(parent.copy, stack, parent.obj.ctorName, visibility, otype, v)
      ensures value == if r.Pass? then v else old(value)
    {
      if v.Null? {
        return Fail(NullConstructor);
      }
      var access := Admit(parent.copy, stack, parent.obj.ctorName, visibility);
      if access.Fail? {
        return access;
      }
      if Truthy(otype) {
        if v.Symbol? || otype.Symbol? {
          return Fail(SymbolToString);
        }
        var typed := CheckType(otype, v, parent.obj.ctorName);
        if typed.Fail? {
          return typed;
        }
      }
      if Truthy(otype) && !LooseEqualsString(otype, TypeOf(v)) {
        return Fail(UndeclaredObj);
      }
      value := v;
      r := Pass;
    }

    /** `is(visibility)`: sets the visibility only, and returns this guard for chaining. */
    method Is(v: JsValue) returns (self: PropertyGuard)
      modifies this`visibility
      ensures self == this && visibility == v
      ensures value == old(value) && otype == old(otype)
    {
      visibility := v;
      self := this;
    }

    /** `type(type)`: sets the type only, and returns this guard for chaining. */
    method Type(t: JsValue) returns (self: PropertyGuard)
      modifies this`otype
      ensures self == this && otype == t
      ensures value == old(value) && visibility == old(visibility)
    {
      otype := t;
      self := this;
    }
  }

  /** `StrictOOP.Method`: the wrapper around a target's original function. */
  class MethodGuard {
    const parent: StrictOOP
    const name: string
    /** The member as it was when the guard was made (`oldFunc`). */
    const original: JsValue
    var visibility: JsValue
    var otype: JsValue

    /** Captures the original member; visibility and return type start undefined. */
    constructor (parent: StrictOOP, name: string)
      ensures this.parent == parent && this.name == name
      ensures original == Lookup(parent.obj.fields, name)
      ensures visibility == Undefined && otype == Undefined
    {
      this.parent := parent;
      this.name := name;
      original := Lookup(parent.obj.fields, name);
      visibility := Undefined;
      otype := Undefined;
    }

    /**
     * A call through the wrapper: the visibility check comes before the
     * original runs, so a rejected call never runs it; otherwise the original
     * runs exactly once, and a return-type failure is raised after it ran,
     * without undoing it. A result that passes is returned unchanged.
     */
    method Call(stack: string, args: seq<JsValue>) returns (r: Result<JsValue, Failure>)
      modifies parent.obj`ran
      ensures
        var access := Admit(parent.copy, stack, parent.obj.ctorName, visibility);
        && (access.Fail? ==> r == Err(access.error) && parent.obj.ran == old(parent.obj.ran))
        && (access.Pass? && !original.Function? ==>
              r == Err(NotCallable) && parent.obj.ran == old(parent.obj.ran))
        && (access.Pass? && original.Function? ==>
              var result := parent.obj.code(original.id, args);
              && parent.obj.ran == old(parent.obj.ran) + [original.id]
              && r == if ReturnOutcome(otype, result, parent.obj.ctorName).Pass?
                      then Ok(result) else Err(ReturnOutcome(otype, result, parent.obj.ctorName).error))
    {
      var access := Admit(parent.copy, stack, parent.obj.ctorName, visibility);
      if access.Fail? {
        return Err(access.error);
      }
      if !original.Function? {
        return Err(NotCallable);
      }
      var result := parent.obj.code(original.id, args);
      parent.obj.ran := parent.obj.ran + [original.id];
      if Truthy(otype) {
        if otype.Symbol? {
          return Err(SymbolToString);
        }
        var typed := CheckType(otype, result, parent.obj.ctorName);
        if typed.Fail? {
          return Err(typed.error);
        }
      }
      r := Ok(result);
    }

    /** `is(visibility)`: sets the visibility only, and returns this guard for chaining. */
    method Is(v: JsValue) returns (self: MethodGuard)
      modifies this`visibility
      ensures self == this && visibility == v && otype == old(otype)
    {
      visibility := v;
      self := this;
    }

    /** `returns(type)`: sets the return type only, and returns this guard for chaining. */
    method Returns(t: JsValue) returns (self: MethodGuard)
      modifies this`otype
      ensures self == this && otype == t && visibility == old(visibility)
    {
      otype := t;
      self := this;
    }
  }
}
