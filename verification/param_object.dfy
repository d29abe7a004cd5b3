/**
 * A `Param` object as the program holds it: calling it (`Param.__call__`) updates its fields
 * in place and returns it; calling a `DefaultParam` updates a copy and leaves the original
 * untouched. Attributes other than name, value and parents come from the base class.
 */
module ParamObjects {
  import opened Wrappers
  import opened Values
  import opened ParamRecord

  /** The keyword arguments of a call: `name=`, `parents=` and any other attribute. */
  datatype Kwargs = Kwargs(name: Option<string>, parents: Option<seq<string>>, others: map<string, Value>)
  {
    /** `value` is a parameter of its own; `name` and `parents` have their own fields above. */
    predicate WellFormed()
    {
      "value" !in others && "name" !in others && "parents" !in others
    }
  }

  /** The observable state of a param object. */
  datatype ParamState = ParamState(record: Param, attrs: map<string, Value>, registered: set<string>)

  /** The keyword arguments whose names are in `allowed`, applied as attribute assignments. */
  function WithAttributes(s: ParamState, kw: Kwargs, allowed: set<string>): ParamState
  {
    ParamState(
      Param(
        if kw.name.Some? && "name" in allowed then kw.name.value else s.record.name,
        s.record.value,
        if kw.parents.Some? && "parents" in allowed then kw.parents.value else s.record.parents),
      s.attrs + (map k | k in kw.others && k in allowed :: kw.others[k]),
      s.registered)
  }

  /** The state after a call with `value` and `kw`: the value always, registered attributes only. */
  function Applied(s: ParamState, value: Value, kw: Kwargs): ParamState
  {
    WithAttributes(ParamState(Param(s.record.name, value, s.record.parents), s.attrs, s.registered), kw, s.registered)
  }

  /**
   * A call sets the value, sets the attributes that are registered, and leaves unregistered
   * attributes and the registered set as they were.
   */
  lemma AppliedSetsOnlyRegistered(s: ParamState, value: Value, kw: Kwargs)
    requires kw.WellFormed()
    ensures var t := Applied(s, value, kw);
      && t.record.value == value
      && t.registered == s.registered
      && (kw.name.Some? && "name" in s.registered ==> t.record.name == kw.name.value)
      && (kw.name.None? || "name" !in s.registered ==> t.record.name == s.record.name)
      && (kw.parents.Some? && "parents" in s.registered ==> t.record.parents == kw.parents.value)
      && (kw.parents.None? || "parents" !in s.registered ==> t.record.parents == s.record.parents)
      && (forall a :: a in kw.others && a in s.registered ==> a in t.attrs && t.attrs[a] == kw.others[a])
      && (forall a :: !(a in kw.others && a in s.registered) ==> (a in t.attrs <==> a in s.attrs))
      && (forall a :: !(a in kw.others && a in s.registered) && a in s.attrs ==> t.attrs[a] == s.attrs[a])
  {
  }

  /** Calling twice with the same arguments is calling once. */
  lemma AppliedIdempotent(s: ParamState, value: Value, kw: Kwargs)
    ensures Applied(Applied(s, value, kw), value, kw) == Applied(s, value, kw)
  {
    var t := Applied(s, value, kw);
    var extra := map k | k in kw.others && k in s.registered :: kw.others[k];
    assert t.attrs + extra == t.attrs;
  }

  class ParamObject {
    var name: string
    var value: Value
    var parents: seq<string>
    /** Attributes set up by the base class (initial value, bounds, unit, ...), by name. */
    var attrs: map<string, Value>
    /** Names of the attributes a call may set. */
    var registered: set<string>
    /** The object is a `DefaultParam`. */
    const isDefault: bool

    function State(): ParamState
      reads this
    {
      ParamState(Param(name, value, parents), attrs, registered)
    }

    /**
     * `Param(name, value, parents=...)`: parents default to `DEFAULT` and `parents` joins the
     * names the base class registered.
     */
    constructor (name: string, value: Value, parents: Option<seq<string>>, baseAttrs: map<string, Value>, baseRegistered: set<string>, isDefault: bool)
      ensures State() == ParamState(Param(name, value, if parents.Some? then parents.value else DefaultParents), baseAttrs, baseRegistered + {"parents"})
      ensures this.isDefault == isDefault
    {
      this.name := name;
      this.value := value;
      this.parents := if parents.Some? then parents.value else DefaultParents;
      this.attrs := baseAttrs;
      this.registered := baseRegistered + {"parents"};
      this.isDefault := isDefault;
    }

    /** `self.copy()`: a new object of the same kind with the same state. */
    method Copy() returns (r: ParamObject)
      ensures fresh(r) && r.State() == State() && r.isDefault == isDefault
    {
      r := new ParamObject(name, value, Some(parents), attrs, registered, isDefault);
      r.registered := registered;
    }

    /** `for k, v in kwargs.items(): if k in allowed: setattr(self, k, v)`. */
    method SetAttributes(kw: Kwargs, allowed: set<string>)
      requires kw.WellFormed()
      modifies this
      ensures State() == WithAttributes(old(State()), kw, allowed)
    {
      if kw.name.Some? && "name" in allowed {
        name := kw.name.value;
      }
      if kw.parents.Some? && "parents" in allowed {
        parents := kw.parents.value;
      }
      ghost var before, fixedName, fixedParents := attrs, name, parents;
      var todo := kw.others.Keys;
      while todo != {}
        invariant todo <= kw.others.Keys
        invariant name == fixedName && parents == fixedParents
        invariant value == old(value) && registered == old(registered)
        invariant forall a :: a in attrs <==> a in before || (a in kw.others && a !in todo && a in allowed)
        invariant forall a :: a in attrs ==>
          attrs[a] == if a in kw.others && a !in todo && a in allowed then kw.others[a] else before[a]
        decreases todo
      {
        var k :| k in todo;
        if k in allowed {
          attrs := attrs[k := kw.others[k]];
        }
        todo := todo - {k};
      }
      assert attrs == before + (map k | k in kw.others && k in allowed :: kw.others[k]);
    }

    /**
     * `param(value, **kwargs)`. A `Param` sets `value` and every registered keyword attribute
     * on itself and returns itself; a `DefaultParam` does the same on a copy and returns the copy.
     */
    method Call(value: Value, kw: Kwargs) returns (r: ParamObject)
      requires kw.WellFormed()
      modifies this
      ensures !isDefault ==> r == this && State() == Applied(old(State()), value, kw)
      ensures isDefault ==> fresh(r) && r.isDefault && unchanged(this) && r.State() == Applied(old(State()), value, kw)
    {
      if isDefault {
        r := Copy();
        r.value := value;
        r.SetAttributes(kw, registered);
      } else {
        this.value := value;
        SetAttributes(kw, registered);
        r := this;
      }
    }
  }
}
