/** Core/Entities/BaseEntity.cs, LoadProperties: the name-to-field binding of an
    entity's declared properties. Reflection is replaced by a field table per
    entity class; the loop collects the values it assigns, field by field, and
    each entity class stores them in its typed fields. */
module Binding {
  import opened Common
  import opened Dict
  import opened Raylib
  import opened Values

  /** The public settable properties of an entity class, with their types. */
  type FieldTable = seq<(string, FieldType)>

  /** The first field whose name equals `name` ignoring case (FirstOrDefault). */
  function Lookup(table: FieldTable, name: string): (r: Option<(string, FieldType)>)
    ensures r.Some? ==> r.value in table && EqualsIgnoreCase(r.value.0, name)
    ensures r.None? ==> forall f :: f in table ==> !EqualsIgnoreCase(f.0, name)
  {
    if table == [] then None
    else if EqualsIgnoreCase(table[0].0, name) then Some(table[0])
    else Lookup(table[1..], name)
  }

  /** PropertyInfo.SetValue of a converted value: null sets a value-typed field to its
      default and a reference field to null; a value of another type throws. None means
      an exception escapes, from the conversion or from SetValue. */
  function Assignable(converted: Option<Value>, t: FieldType): (r: Option<Value>)
    ensures r.Some? ==> r.value.Null? || IsInstanceOf(r.value, t)
  {
    if converted.Some? && (converted.value.Null? || IsInstanceOf(converted.value, t)) then converted
    else None
  }

  /** The warning for a property the class does not have. */
  function UnknownPropertyWarning(className: string, name: string): GpuCall {
    TraceLog(LogWarning, "[" + className + "]: Couldn't set unknown property \"" + name + "\"!")
  }

  /** Where the binding of a prefix of the properties stands: the fields bound so far
      (by their declared names), the warnings logged, and whether an exception escaped. */
  datatype BindState = BindState(bound: map<string, Value>, log: seq<GpuCall>, thrown: bool)

  /** One property. */
  function BindOne(className: string, table: FieldTable, s: BindState, entry: (string, Value), conv: Converter): BindState {
    match Lookup(table, entry.0)
    case None => s.(log := s.log + [UnknownPropertyWarning(className, entry.0)])
    case Some(field) =>
      match Assignable(Convert(entry.1, field.1, conv), field.1)
      case None => s.(thrown := true)
      case Some(v) => s.(bound := s.bound[field.0 := v])
  }

  /** The binding of the properties in enumeration order; it stops at an exception. */
  function Bind(className: string, table: FieldTable, props: Dict<string, Value>, conv: Converter): BindState
    decreases |props|
  {
    if props == [] then BindState(map[], [], false)
    else
      var s := Bind(className, table, props[..|props| - 1], conv);
      if s.thrown then s else BindOne(className, table, s, props[|props| - 1], conv)
  }

  /** LoadProperties. */
  method LoadProperties(className: string, table: FieldTable, props: Dict<string, Value>, conv: Converter, dev: Device)
    returns (bound: map<string, Value>, thrown: bool)
    modifies dev
    ensures var s := Bind(className, table, props, conv);
      bound == s.bound && thrown == s.thrown && dev.calls == old(dev.calls) + s.log
    ensures dev.state == old(dev.state) && dev.Env() == old(dev.Env()) && dev.nextHandle == old(dev.nextHandle)
  {
    bound, thrown := map[], false;
    var i := 0;
    while i < |props|
      invariant 0 <= i <= |props|
      invariant var s := Bind(className, table, props[..i], conv);
        bound == s.bound && thrown == s.thrown && dev.calls == old(dev.calls) + s.log
      invariant !thrown
      invariant dev.state == old(dev.state) && dev.Env() == old(dev.Env()) && dev.nextHandle == old(dev.nextHandle)
    {
      var (name, value) := props[i];
      assert props[..i + 1][..i] == props[..i];
      var field := Lookup(table, name);
      if field.None? {
        dev.Log(LogWarning, "[" + className + "]: Couldn't set unknown property \"" + name + "\"!");
        i := i + 1;
        continue;
      }
      var v := Assignable(Convert(value, field.value.1, conv), field.value.1);
      if v.None? {
        thrown := true;
        assert Bind(className, table, props[..i + 1], conv).thrown;
        BindStopsAtThrow(className, table, props, conv, i + 1);
        return;
      }
      bound := bound[field.value.0 := v.value];
      i := i + 1;
    }
    assert props[..i] == props;
  }

  /** Once an exception escapes, the rest of the properties change nothing. */
  lemma {:induction false} BindStopsAtThrow(className: string, table: FieldTable, props: Dict<string, Value>, conv: Converter, k: nat)
    requires k <= |props| && Bind(className, table, props[..k], conv).thrown
    ensures Bind(className, table, props, conv) == Bind(className, table, props[..k], conv)
    decreases |props| - k
  {
    if k < |props| {
      assert props[..k + 1][..k] == props[..k];
      BindStopsAtThrow(className, table, props, conv, k + 1);
    } else {
      assert props[..k] == props;
    }
  }

  /** The index of the last property whose name selects the field `f`. */
  function LastFor(table: FieldTable, props: Dict<string, Value>, f: string): (r: Option<nat>)
    ensures r.Some? ==> r.value < |props| && Lookup(table, props[r.value].0).Some? && Lookup(table, props[r.value].0).value.0 == f
    ensures r.Some? ==> forall j :: r.value < j < |props| ==> Lookup(table, props[j].0).None? || Lookup(table, props[j].0).value.0 != f
    ensures r.None? ==> forall j :: 0 <= j < |props| ==> Lookup(table, props[j].0).None? || Lookup(table, props[j].0).value.0 != f
    decreases |props|
  {
    if props == [] then None
    else
      var last := props[|props| - 1];
      if Lookup(table, last.0).Some? && Lookup(table, last.0).value.0 == f then Some(|props| - 1)
      else LastFor(table, props[..|props| - 1], f)
  }

  /** When binding completes, a field is bound iff some property names it, and it holds
      the conversion of the LAST such property: properties apply in order and a later
      one, possibly spelled in another case, overrides an earlier one. */
  lemma {:induction false} LastWins(className: string, table: FieldTable, props: Dict<string, Value>, conv: Converter, f: string)
    requires !Bind(className, table, props, conv).thrown
    ensures var s := Bind(className, table, props, conv);
      && (f in s.bound <==> LastFor(table, props, f).Some?)
      && (f in s.bound ==>
            var k := LastFor(table, props, f).value;
            Assignable(Convert(props[k].1, Lookup(table, props[k].0).value.1, conv), Lookup(table, props[k].0).value.1) == Some(s.bound[f]))
    decreases |props|
  {
    if props != [] {
      var init := props[..|props| - 1];
      var s0 := Bind(className, table, init, conv);
      assert !s0.thrown;
      LastWins(className, table, init, conv, f);
      var last := props[|props| - 1];
      if LastFor(table, props, f) != LastFor(table, init, f) {
        assert LastFor(table, props, f) == Some(|props| - 1);
      } else if LastFor(table, init, f).Some? {
        var k := LastFor(table, init, f).value;
        assert props[k] == init[k];
      }
    }
  }

  /** Case does not matter: two spellings of a name that differ only in ASCII case select
      the same field. */
  lemma {:induction false} LookupIgnoresCase(table: FieldTable, a: string, b: string)
    requires EqualsIgnoreCase(a, b)
    ensures Lookup(table, a) == Lookup(table, b)
  {
    if table != [] {
      assert EqualsIgnoreCase(table[0].0, a) <==> EqualsIgnoreCase(table[0].0, b);
      LookupIgnoresCase(table[1..], a, b);
    }
  }

  /** A property that selects no field logs one warning naming the class and the
      property and changes no field; binding goes on with the next property. */
  lemma UnknownNameOnlyWarns(className: string, table: FieldTable, props: Dict<string, Value>, entry: (string, Value), conv: Converter)
    requires !Bind(className, table, props, conv).thrown
    requires forall f :: f in table ==> !EqualsIgnoreCase(f.0, entry.0)
    ensures var s := Bind(className, table, props, conv);
      Bind(className, table, props + [entry], conv)
        == s.(log := s.log + [TraceLog(LogWarning, "[" + className + "]: Couldn't set unknown property \"" + entry.0 + "\"!")])
  {
    assert (props + [entry])[..|props|] == props;
  }

  /** The value stored for a field of each type: the bound value, the type default
      when null was bound, and `current` when nothing was. */
  function AsVec3(bound: map<string, Value>, f: string, current: Vec3): Vec3 {
    if f !in bound then current else if bound[f].Vec? then bound[f].v else Zero
  }

  function AsReal(bound: map<string, Value>, f: string, current: real): real {
    if f !in bound then current else if bound[f].Single? then bound[f].f else 0.0
  }

  function AsInt(bound: map<string, Value>, f: string, current: int): int {
    if f !in bound then current else if bound[f].Int32? then bound[f].i else 0
  }

  function AsBool(bound: map<string, Value>, f: string, current: bool): bool {
    if f !in bound then current else bound[f].Boolean? && bound[f].b
  }

  function AsColor(bound: map<string, Value>, f: string, current: Color): Color {
    if f !in bound then current else if bound[f].Col? then bound[f].c else DefaultColor
  }

  function AsString(bound: map<string, Value>, f: string, current: Option<string>): Option<string> {
    if f !in bound then current else if bound[f].Str? then Some(bound[f].s) else None
  }
}
