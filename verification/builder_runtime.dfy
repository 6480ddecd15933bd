/**
 What the code generated by the `Builder` derive does when it runs: `builder()` creates the
 initial state, the setters update one slot each, and `build` turns the state into the
 record's field values or reports the first missing field (builder/src/lib.rs).

 Field values are abstract (`Value`); a builder instance is a map from field name to the
 contents of that field's `Option` slot.
 */
module BuilderRuntime {
  import opened Outcomes
  import opened Syntax
  import opened Builder

  /** Run-time values, kept abstract: opaque scalars, vectors, and `Option` values. */
  datatype Value = Scalar(token: int) | Vector(items: seq<Value>) | Optional(opt: Option<Value>)

  /** A builder instance: the contents of each field's slot, by field name. */
  type State = map<string, Option<Value>>

  /** The result of the generated `build`: the record's field values in declaration order, or the error. */
  datatype BuildResult = Built(values: seq<Value>) | BuildError(message: string)

  const MissingPrefix: string := "missing "

  predicate DistinctSlots(d: BuilderDecl) {
    forall i, j :: 0 <= i < |d.slots| && 0 <= j < |d.slots| && i != j ==> d.slots[i].field != d.slots[j].field
  }

  predicate HasSlots(slots: seq<SlotDecl>, st: State) {
    forall i :: 0 <= i < |slots| ==> slots[i].field in st
  }

  // ---------------------------------------------------------------------------
  // `builder()`
  // ---------------------------------------------------------------------------

  function InitialSlot(s: SlotDecl): Option<Value> {
    if s.startsEmpty then Some(Vector([])) else None
  }

  /** `builder()`: one slot per field, holding an empty vector or nothing. */
  function Init(d: BuilderDecl): (st: State)
    requires DistinctSlots(d)
    ensures HasSlots(d.slots, st)
    ensures forall g :: g in st ==> exists i :: 0 <= i < |d.slots| && d.slots[i].field == g
    ensures forall i :: 0 <= i < |d.slots| ==> st[d.slots[i].field] == InitialSlot(d.slots[i])
  {
    map i | 0 <= i < |d.slots| :: d.slots[i].field := InitialSlot(d.slots[i])
  }

  // ---------------------------------------------------------------------------
  // Setters
  // ---------------------------------------------------------------------------

  /** The full setter for field `f`: the slot now holds `v`; no other slot changes. */
  function FullSet(st: State, f: string, v: Value): (st': State)
    requires f in st
    ensures st'.Keys == st.Keys
    ensures st'[f] == Some(v)
    ensures forall g :: g in st && g != f ==> st'[g] == st[g]
  {
    st[f := Some(v)]
  }

  /** A slot an append setter can work on: empty, or holding a vector (the compiler guarantees this). */
  predicate Appendable(slot: Option<Value>) {
    slot.None? || slot.value.Vector?
  }

  /** The elements of an appendable slot; an absent slot counts as empty. */
  function Items(slot: Option<Value>): seq<Value>
    requires Appendable(slot)
  {
    if slot.None? then [] else slot.value.items
  }

  /** `get_or_insert_with(Vec::new).push(v)`. */
  function Push(slot: Option<Value>, v: Value): (r: Option<Value>)
    requires Appendable(slot)
    ensures Appendable(r)
    ensures r == Some(Vector(Items(slot) + [v]))
  {
    match slot
    case None =>
      assert [] + [v] == [v];
      Some(Vector([v]))
    case Some(vec) => Some(Vector(vec.items + [v]))
  }

  /** The append setter for field `f`: the slot's vector gains `v` at its end; no other slot changes. */
  function Append(st: State, f: string, v: Value): (st': State)
    requires f in st && Appendable(st[f])
    ensures st'.Keys == st.Keys
    ensures st'[f] == Some(Vector(Items(st[f]) + [v]))
    ensures forall g :: g in st && g != f ==> st'[g] == st[g]
  {
    st[f := Push(st[f], v)]
  }

  /** Calling the append setter of field `f` once per element of `xs`, in order. */
  function AppendEach(st: State, f: string, xs: seq<Value>): (st': State)
    requires f in st && Appendable(st[f])
    ensures f in st' && Appendable(st'[f])
    decreases |xs|
  {
    if |xs| == 0 then st
    else AppendEach(Append(st, f, xs[0]), f, xs[1..])
  }

  /** `n` appends leave the slot holding what it held followed by the `n` elements in call order, and touch nothing else. */
  lemma {:induction false} AppendEachInOrder(st: State, f: string, xs: seq<Value>)
    requires f in st && Appendable(st[f])
    ensures AppendEach(st, f, xs).Keys == st.Keys
    ensures |xs| > 0 ==> AppendEach(st, f, xs)[f] == Some(Vector(Items(st[f]) + xs))
    ensures forall g :: g in st && g != f ==> AppendEach(st, f, xs)[g] == st[g]
    decreases |xs|
  {
    if |xs| > 0 {
      var st1 := Append(st, f, xs[0]);
      AppendEachInOrder(st1, f, xs[1..]);
      if |xs| > 1 {
        assert Items(st1[f]) + xs[1..] == Items(st[f]) + xs;
      } else {
        assert xs == [xs[0]];
      }
    }
  }

  /** Calling full setters for fields `fs[i]` with values `vs[i]`, in order. */
  function SetEach(st: State, fs: seq<string>, vs: seq<Value>): (st': State)
    requires |fs| == |vs|
    requires forall i :: 0 <= i < |fs| ==> fs[i] in st
    ensures st'.Keys == st.Keys
    decreases |fs|
  {
    if |fs| == 0 then st
    else SetEach(FullSet(st, fs[0], vs[0]), fs[1..], vs[1..])
  }

  /** After full setters on distinct fields, each set slot holds its value and every other slot is as before. */
  lemma {:induction false} SetEachEffect(st: State, fs: seq<string>, vs: seq<Value>)
    requires |fs| == |vs|
    requires forall i :: 0 <= i < |fs| ==> fs[i] in st
    requires forall i, j :: 0 <= i < |fs| && 0 <= j < |fs| && i != j ==> fs[i] != fs[j]
    ensures forall i :: 0 <= i < |fs| ==> SetEach(st, fs, vs)[fs[i]] == Some(vs[i])
    ensures forall g :: g in st && g !in fs ==> SetEach(st, fs, vs)[g] == st[g]
    decreases |fs|
  {
    if |fs| > 0 {
      var st1 := FullSet(st, fs[0], vs[0]);
      SetEachEffect(st1, fs[1..], vs[1..]);
      assert forall i :: 1 <= i < |fs| ==> fs[1..][i - 1] == fs[i] && vs[1..][i - 1] == vs[i];
      assert fs[0] !in fs[1..];
    }
  }

  // ---------------------------------------------------------------------------
  // `build`
  // ---------------------------------------------------------------------------

  /** A slot `build` insists on (not an `Option` field) that holds nothing. */
  predicate Missing(s: SlotDecl, st: State)
    requires s.field in st
  {
    !s.passThrough && st[s.field].None?
  }

  /** The value `build` puts in the record for a slot: an `Option` field's slot as it is, any other slot's contents. */
  function SlotValue(s: SlotDecl, st: State): Value
    requires s.field in st && !Missing(s, st)
  {
    if s.passThrough then Optional(st[s.field]) else st[s.field].value
  }

  /** `slots[k]` is the first missing slot. */
  ghost predicate FirstMissing(slots: seq<SlotDecl>, st: State, k: int)
    requires HasSlots(slots, st)
  {
    && 0 <= k < |slots|
    && Missing(slots[k], st)
    && forall j :: 0 <= j < k ==> !Missing(slots[j], st)
  }

  /**
   The generated `build`: the fields are visited in declaration order and the first missing
   one ends it with `missing <name>`; on success every field value is its slot's value.
   */
  function BuildSlots(slots: seq<SlotDecl>, st: State): (r: BuildResult)
    requires HasSlots(slots, st)
    ensures r.Built? <==> forall i :: 0 <= i < |slots| ==> !Missing(slots[i], st)
    ensures r.BuildError? ==> exists k :: FirstMissing(slots, st, k) && r.message == MissingPrefix + slots[k].field
    ensures r.Built? ==> |r.values| == |slots| && forall i :: 0 <= i < |slots| ==> r.values[i] == SlotValue(slots[i], st)
  {
    if |slots| == 0 then Built([])
    else
      var s := slots[0];
      assert forall i :: 0 <= i < |slots| - 1 ==> slots[1..][i] == slots[i + 1];
      if Missing(s, st) then
        assert FirstMissing(slots, st, 0);
        BuildError(MissingPrefix + s.field)
      else
        match BuildSlots(slots[1..], st)
        case BuildError(m) =>
          assert forall k :: FirstMissing(slots[1..], st, k) ==> FirstMissing(slots, st, k + 1);
          BuildError(m)
        case Built(vs) => Built([SlotValue(s, st)] + vs)
  }

  function Build(d: BuilderDecl, st: State): BuildResult
    requires HasSlots(d.slots, st)
  {
    BuildSlots(d.slots, st)
  }

  /** An `Option` field never makes `build` fail, and reaches the record exactly as its slot holds it. */
  lemma OptionFieldsPassThrough(d: BuilderDecl, st: State, i: int)
    requires HasSlots(d.slots, st)
    requires 0 <= i < |d.slots| && d.slots[i].passThrough
    ensures (forall j :: 0 <= j < |d.slots| && j != i ==> !Missing(d.slots[j], st)) ==> Build(d, st).Built?
    ensures Build(d, st).Built? ==> Build(d, st).values[i] == Optional(st[d.slots[i].field])
  {
  }

  /** The record value a field gets when it was given `v` through its full setter. */
  function Direct(s: SlotDecl, v: Value): Value {
    if s.passThrough then Optional(Some(v)) else v
  }

  function FieldNames(slots: seq<SlotDecl>): (fs: seq<string>)
    ensures |fs| == |slots| && forall i :: 0 <= i < |slots| ==> fs[i] == slots[i].field
  {
    seq(|slots|, i requires 0 <= i < |slots| => slots[i].field)
  }

  /**
   Round trip: giving every slot a value the way a full setter does (`self.f = Some(v)`) and
   then calling `build` yields exactly those values, an `Option` field holding `Some` of its value.
   */
  lemma BuildAfterSettingAll(d: BuilderDecl, st: State, vs: seq<Value>)
    requires DistinctSlots(d)
    requires HasSlots(d.slots, st)
    requires |vs| == |d.slots|
    ensures Build(d, SetEach(st, FieldNames(d.slots), vs))
            == Built(seq(|vs|, i requires 0 <= i < |vs| => Direct(d.slots[i], vs[i])))
  {
    var fs := FieldNames(d.slots);
    SetEachEffect(st, fs, vs);
    var st' := SetEach(st, fs, vs);
    var r := Build(d, st');
    assert forall i :: 0 <= i < |d.slots| ==> st'[d.slots[i].field] == Some(vs[i]);
    assert r.Built?;
  }

  /**
   Building straight from `builder()`: fails naming the first field that is neither an `Option`
   nor a `Vec`; otherwise every `Vec` field is empty and every `Option` field is `None`.
   */
  lemma BuildFromInit(d: BuilderDecl)
    requires DistinctSlots(d)
    ensures var r := Build(d, Init(d));
      && (r.Built? <==> forall i :: 0 <= i < |d.slots| ==> d.slots[i].passThrough || d.slots[i].startsEmpty)
      && (r.BuildError? ==> exists k ::
            && 0 <= k < |d.slots| && !d.slots[k].passThrough && !d.slots[k].startsEmpty
            && (forall j :: 0 <= j < k ==> d.slots[j].passThrough || d.slots[j].startsEmpty)
            && r.message == MissingPrefix + d.slots[k].field)
      && (r.Built? ==> forall i :: 0 <= i < |d.slots| ==>
            r.values[i] == (if d.slots[i].passThrough then Optional(InitialSlot(d.slots[i])) else Vector([])))
  {
    var st := Init(d);
    assert forall i :: 0 <= i < |d.slots| ==> (Missing(d.slots[i], st) <==> !d.slots[i].passThrough && !d.slots[i].startsEmpty);
  }

  /** `build` right after `builder()` names the first slot that is neither passed through nor started empty. */
  lemma InitNamesFirstRequired(d: BuilderDecl, k: int)
    requires DistinctSlots(d)
    requires 0 <= k < |d.slots| && !d.slots[k].passThrough && !d.slots[k].startsEmpty
    requires forall j :: 0 <= j < k ==> d.slots[j].passThrough || d.slots[j].startsEmpty
    ensures Build(d, Init(d)) == BuildError(MissingPrefix + d.slots[k].field)
  {
    BuildFromInit(d);
    var r := Build(d, Init(d));
    var k' :| 0 <= k' < |d.slots| && !d.slots[k'].passThrough && !d.slots[k'].startsEmpty
            && (forall j :: 0 <= j < k' ==> d.slots[j].passThrough || d.slots[j].startsEmpty)
            && r.message == MissingPrefix + d.slots[k'].field;
    assert k' == k;
  }

  // ---------------------------------------------------------------------------
  // The generated builder, end to end
  // ---------------------------------------------------------------------------

  /** The slots of a derived builder mirror the record's fields: same names, same order, shapes from the declared types. */
  lemma DerivedSlots(input: DeriveInput, d: BuilderDecl)
    requires DeriveBuilder(input) == Generated(d)
    ensures input.data.Struct? && input.data.fields.Named?
    ensures |d.slots| == |input.data.fields.named|
    ensures forall i :: 0 <= i < |d.slots| ==>
      && d.slots[i].field == input.data.fields.named[i].name
      && d.slots[i].startsEmpty == IsVecShaped(input.data.fields.named[i].ty)
      && d.slots[i].passThrough == IsOptionShaped(input.data.fields.named[i].ty)
    ensures DistinctNames(input.data.fields.named) ==> DistinctSlots(d)
  {
  }

  /**
   `builder()` of a derived builder starts every `Vec`-shaped field (whatever its directive)
   as `Some(vec![])` and every other field as `None`.
   */
  lemma DerivedInitialState(input: DeriveInput, d: BuilderDecl)
    requires DeriveBuilder(input) == Generated(d)
    requires DistinctNames(input.data.fields.named)
    ensures DistinctSlots(d)
    ensures forall i :: 0 <= i < |input.data.fields.named| ==>
      Init(d)[input.data.fields.named[i].name]
        == (if IsVecShaped(input.data.fields.named[i].ty) then Some(Vector([])) else None)
  {
    DerivedSlots(input, d);
  }

  /**
   A field that is neither `Option` nor `Vec`, left unset after `builder()`, makes `build`
   fail, and the report names the first such field in declaration order.
   */
  lemma DerivedBuildNamesFirstMissing(input: DeriveInput, d: BuilderDecl, k: int)
    requires DeriveBuilder(input) == Generated(d)
    requires DistinctNames(input.data.fields.named)
    requires 0 <= k < |input.data.fields.named|
    requires !IsOptionShaped(input.data.fields.named[k].ty) && !IsVecShaped(input.data.fields.named[k].ty)
    requires forall j :: 0 <= j < k ==>
      IsOptionShaped(input.data.fields.named[j].ty) || IsVecShaped(input.data.fields.named[j].ty)
    ensures Build(d, Init(d)) == BuildError(MissingPrefix + input.data.fields.named[k].name)
  {
    DerivedSlots(input, d);
    InitNamesFirstRequired(d, k);
  }
}
