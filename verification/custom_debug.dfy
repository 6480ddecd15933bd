/**
 The `CustomDebug` derive (debug/src/lib.rs): for a record with named fields it generates a
 `Debug` implementation that renders the record's name and one entry per field, in
 declaration order, either with the field's own `Debug` rendering or through the format
 template of a `#[debug = "..."]` attribute. For a generic record, every type parameter gets a
 `Debug` bound except those named as the first argument of a `PhantomData` field.

 The rendering itself (`std::fmt`) is kept abstract: the default rendering and the template
 application are parameters of `Render`.
 */
module CustomDebug {
  import opened Outcomes
  import opened Syntax

  const DebugAttr: string := "debug"
  const PhantomIdent: string := "PhantomData"

  /** The diagnostic for a name-value attribute whose name is not `debug`. */
  const DebugMessage: string := "expected `debug \"...\"`"

  // ---------------------------------------------------------------------------
  // `#[debug = "..."]` resolution
  // ---------------------------------------------------------------------------

  /** `a` is `#[debug = "template"]`. */
  predicate IsFmtAttr(a: Attribute, template: string) {
    a.Parsed? && a.meta.MetaNameValue? && IsIdent(a.meta.path, DebugAttr) && a.meta.lit == Str(template)
  }

  /** `a` is `#[name = lit]` for some name other than `debug`. */
  predicate IsForeignNameValue(a: Attribute) {
    a.Parsed? && a.meta.MetaNameValue? && !IsIdent(a.meta.path, DebugAttr)
  }

  /**
   `get_fmt_attr`: every branch for the first attribute returns or panics, so the first
   attribute alone decides; without attributes there is no template.
   */
  function GetFmtAttr(attrs: seq<Attribute>): (r: Outcome<Option<string>>)
    ensures r == Ok(None) <==> |attrs| == 0
    ensures forall s :: r == Ok(Some(s)) <==> |attrs| > 0 && IsFmtAttr(attrs[0], s)
    ensures r.Err? <==> |attrs| > 0 && IsForeignNameValue(attrs[0])
    ensures r.Err? ==> r.msg == DebugMessage
    ensures r.Panic? ==> r.reason == Unimplemented
  {
    if |attrs| == 0 then Ok(None)
    else
      match attrs[0]
      case Parsed(MetaNameValue(path, lit)) =>
        if IsIdent(path, DebugAttr) then
          match lit
          case Str(s) => Ok(Some(s))
          case OtherLit => Panic(Unimplemented)
        else Err(DebugMessage)
      case Parsed(MetaList(_, _)) => Panic(Unimplemented)
      case Parsed(MetaPath(_)) => Panic(Unimplemented)
      case Unparsable => Panic(Unimplemented)
  }

  /** Attributes after the first never matter, even a later `#[debug = "..."]`. */
  lemma OnlyFirstAttributeCounts(first: Attribute, rest: seq<Attribute>)
    ensures GetFmtAttr([first] + rest) == GetFmtAttr([first])
  {
  }

  // ---------------------------------------------------------------------------
  // Generic-bound inference
  // ---------------------------------------------------------------------------

  /**
   `ty` is `...::PhantomData<A, ...>` whose first argument `A` is a path type ending in the
   identifier `n`.
   */
  ghost predicate MarksPhantom(ty: Ty, n: string) {
    && ty.PathType? && |ty.path.segments| > 0
    && var last := ty.path.segments[|ty.path.segments| - 1];
    && last.ident == PhantomIdent
    && last.arguments.AngleBracketed? && |last.arguments.args| > 0
    && var first := last.arguments.args[0];
    && first.TypeArg? && first.ty.PathType? && |first.ty.path.segments| > 0
    && first.ty.path.segments[|first.ty.path.segments| - 1].ident == n
  }

  /** A field type the phantom scan passes over: a path not ending in `PhantomData`, or a bare `PhantomData`. */
  ghost predicate NotPhantom(ty: Ty) {
    && ty.PathType? && |ty.path.segments| > 0
    && var last := ty.path.segments[|ty.path.segments| - 1];
    && (last.ident != PhantomIdent || last.arguments.NoArguments?)
  }

  /**
   The per-field step of the phantom scan: the identifier a `PhantomData` field marks, nothing
   for other path types, and a panic for every shape the scan does not handle (a non-path field
   type, a path without segments, `PhantomData()`, `PhantomData<>`, a first argument that is not
   a path type).
   */
  function FieldPhantom(f: Field): (r: Outcome<Option<string>>)
    ensures !r.Err?
    ensures r.Ok? && r.value.Some? ==> MarksPhantom(f.ty, r.value.value)
    ensures forall n :: MarksPhantom(f.ty, n) ==> r == Ok(Some(n))
    ensures r == Ok(None) <==> NotPhantom(f.ty)
    ensures f.ty.OtherType? ==> r == Panic(Unimplemented)
  {
    match f.ty
    case OtherType => Panic(Unimplemented)
    case PathType(p) =>
      if |p.segments| == 0 then Panic(Unimplemented)
      else
        var seg := p.segments[|p.segments| - 1];
        if seg.ident != PhantomIdent then Ok(None)
        else
          match seg.arguments
          case NoArguments => Ok(None)
          case Parenthesized => Panic(Unimplemented)
          case AngleBracketed(args) =>
            if |args| == 0 then Panic(Unreachable)
            else
              match args[0]
              case TypeArg(PathType(q)) =>
                if |q.segments| == 0 then Panic(Unreachable)
                else Ok(Some(q.segments[|q.segments| - 1].ident))
              case _ => Panic(Unimplemented)
  }

  /**
   The phantom set: the identifiers marked by the record's `PhantomData` fields. The scan
   visits every field, so one field of an unhandled shape makes it panic.
   */
  function PhantomSet(fields: seq<Field>): (r: Outcome<set<string>>)
    ensures !r.Err?
    ensures r.Panic? <==> exists i :: 0 <= i < |fields| && FieldPhantom(fields[i]).Panic?
    ensures r.Ok? ==> forall n :: n in r.value <==> exists i :: 0 <= i < |fields| && FieldPhantom(fields[i]) == Ok(Some(n))
  {
    if |fields| == 0 then Ok({})
    else
      assert forall i :: 0 <= i < |fields| - 1 ==> fields[1..][i] == fields[i + 1];
      var here := FieldPhantom(fields[0]);
      match here
      case Panic(p) => Panic(p)
      case Err(m) => assert false; Err(m)
      case Ok(o) =>
        match PhantomSet(fields[1..])
        case Ok(rest) =>
          Ok(if o.Some? then {o.value} + rest else rest)
        case Err(m) => assert false; Err(m)
        case Panic(p) => Panic(p)
  }

  /** The names of the type parameters that get a `Debug` bound, in declaration order. */
  function WhereBounds(generics: seq<GenericParam>, phantoms: set<string>): (r: seq<string>)
    ensures |r| <= |generics|
    ensures forall n :: n in r <==> n !in phantoms && exists i :: 0 <= i < |generics| && generics[i] == TypeParam(n)
  {
    if |generics| == 0 then []
    else
      assert forall i :: 0 <= i < |generics| - 1 ==> generics[1..][i] == generics[i + 1];
      var rest := WhereBounds(generics[1..], phantoms);
      if generics[0].TypeParam? && generics[0].name !in phantoms then [generics[0].name] + rest else rest
  }

  /** The bounds keep declaration order: bounding a concatenation bounds each part in turn. */
  lemma {:induction false} WhereBoundsKeepOrder(a: seq<GenericParam>, b: seq<GenericParam>, phantoms: set<string>)
    ensures WhereBounds(a + b, phantoms) == WhereBounds(a, phantoms) + WhereBounds(b, phantoms)
  {
    if |a| == 0 {
      assert a + b == b;
    } else {
      assert (a + b)[0] == a[0];
      assert (a + b)[1..] == a[1..] + b;
      WhereBoundsKeepOrder(a[1..], b, phantoms);
    }
  }

  /** The generated `impl` header: its generic parameters and the parameters bounded by `Debug`. */
  datatype DebugHeader = DebugHeader(params: seq<GenericParam>, bounds: seq<string>)

  /**
   The header choice: a record without generic parameters (of any kind) gets a plain header,
   and its field types are not scanned; otherwise the phantom set decides the bounds.
   */
  function ImplHeader(generics: seq<GenericParam>, fields: seq<Field>): (r: Outcome<DebugHeader>)
    ensures !r.Err?
    ensures |generics| == 0 ==> r == Ok(DebugHeader([], []))
    ensures |generics| > 0 ==> (r.Panic? <==> exists i :: 0 <= i < |fields| && FieldPhantom(fields[i]).Panic?)
    ensures r.Ok? ==> r.value.params == generics
    ensures r.Ok? ==> forall n :: n in r.value.bounds <==>
      && (exists i :: 0 <= i < |generics| && generics[i] == TypeParam(n))
      && (forall j :: 0 <= j < |fields| ==> FieldPhantom(fields[j]) != Ok(Some(n)))
  {
    if |generics| == 0 then Ok(DebugHeader([], []))
    else
      match PhantomSet(fields)
      case Ok(phantoms) => Ok(DebugHeader(generics, WhereBounds(generics, phantoms)))
      case Err(m) => assert false; Err(m)
      case Panic(p) => Panic(p)
  }

  // ---------------------------------------------------------------------------
  // Field-ordered rendering
  // ---------------------------------------------------------------------------

  /** One `.field(name, ...)` call: rendered by default, or through `format`. */
  datatype DebugEntry = DebugEntry(field: string, format: Option<string>)

  /** The generated implementation: `f.debug_struct(name)`, the entries in order, `.finish()`. */
  datatype DebugImpl = DebugImpl(name: string, header: DebugHeader, entries: seq<DebugEntry>)

  /** The entry of one field: named after it, with the template its first attribute gives. */
  function FieldEntry(f: Field): (r: Outcome<DebugEntry>)
    ensures r == Ok(DebugEntry(f.name, None)) <==> |f.attrs| == 0
    ensures forall t :: r == Ok(DebugEntry(f.name, Some(t))) <==> |f.attrs| > 0 && IsFmtAttr(f.attrs[0], t)
    ensures r.Ok? ==> r.value.field == f.name
    ensures r.Err? <==> |f.attrs| > 0 && IsForeignNameValue(f.attrs[0])
    ensures r.Err? ==> r.msg == DebugMessage
    ensures r.Panic? ==> r.reason == Unimplemented
  {
    match GetFmtAttr(f.attrs)
    case Ok(format) => Ok(DebugEntry(f.name, format))
    case Err(m) => Err(m)
    case Panic(p) => Panic(p)
  }

  function AllFieldEntries(fields: seq<Field>): (outs: seq<Outcome<DebugEntry>>)
    ensures |outs| == |fields|
    ensures forall i :: 0 <= i < |fields| ==> outs[i] == FieldEntry(fields[i])
  {
    seq(|fields|, i requires 0 <= i < |fields| => FieldEntry(fields[i]))
  }

  /** Every diagnostic a debug expansion carries is the `debug` diagnostic. */
  lemma EntryErrorsAreDebugMessages(fields: seq<Field>)
    ensures Combine(AllFieldEntries(fields)).Rejected? ==>
      forall i :: 0 <= i < |Combine(AllFieldEntries(fields)).errors| ==>
        Combine(AllFieldEntries(fields)).errors[i] == DebugMessage
  {
    var outs := AllFieldEntries(fields);
    if Combine(outs).Rejected? {
      var es := Combine(outs).errors;
      forall i | 0 <= i < |es|
        ensures es[i] == DebugMessage
      {
        assert es[i] in es;
        var k :| 0 <= k < |outs| && outs[k] == Err(es[i]);
        assert GetFmtAttr(fields[k].attrs).Err?;
      }
    }
  }

  /**
   `derive` and `impl_debug`: a record with named fields is required (anything else panics
   first); then the header is built (its phantom scan may panic); then the field entries are
   produced in order, the first panic aborting and every malformed attribute being reported.
   */
  function DeriveDebug(input: DeriveInput): (r: Expansion<DebugImpl>)
    ensures !(input.data.Struct? && input.data.fields.Named?) ==> r == Panicked(Unimplemented)
    ensures r.Rejected? ==> forall i :: 0 <= i < |r.errors| ==> r.errors[i] == DebugMessage
    ensures r.Rejected? ==>
      input.data.Struct? && input.data.fields.Named? && r.errors == ErrorMessages(AllFieldEntries(input.data.fields.named))
    ensures input.data.Struct? && input.data.fields.Named? ==>
      && (r.Generated? <==>
            && ImplHeader(input.generics, input.data.fields.named).Ok?
            && forall i :: 0 <= i < |input.data.fields.named| ==> GetFmtAttr(input.data.fields.named[i].attrs).Ok?)
      && (r.Panicked? <==>
            || ImplHeader(input.generics, input.data.fields.named).Panic?
            || exists i :: 0 <= i < |input.data.fields.named| && GetFmtAttr(input.data.fields.named[i].attrs).Panic?)
    ensures r.Generated? ==>
      && input.data.Struct? && input.data.fields.Named?
      && var fields := input.data.fields.named;
      && ImplHeader(input.generics, fields).Ok?
      && r.item.name == input.ident
      && r.item.header == ImplHeader(input.generics, fields).value
      && |r.item.entries| == |fields|
      && forall i :: 0 <= i < |fields| ==>
        && GetFmtAttr(fields[i].attrs).Ok?
        && r.item.entries[i] == DebugEntry(fields[i].name, GetFmtAttr(fields[i].attrs).value)
  {
    match input.data
    case Struct(Named(fields)) =>
      (match ImplHeader(input.generics, fields)
       case Panic(p) => Panicked(p)
       case Err(m) => assert false; Rejected([m])
       case Ok(header) =>
         var outs := AllFieldEntries(fields);
         match Combine(outs)
         case Panicked(p) => Panicked(p)
         case Rejected(es) =>
           EntryErrorsAreDebugMessages(fields);
           Rejected(es)
         case Generated(entries) => Generated(DebugImpl(input.ident, header, entries)))
    case _ => Panicked(Unimplemented)
  }

  /** What the generated `fmt` writes: the record's name and a (name, text) pair per entry. */
  datatype Rendering = Rendering(name: string, entries: seq<(string, string)>)

  /**
   The entries of the rendering: each field's name with its default rendering `show`, or with
   `apply(template, value)` when the field has a template.
   */
  function RenderEntries<V>(entries: seq<DebugEntry>, values: seq<V>, show: V -> string, apply: (string, V) -> string)
    : (r: seq<(string, string)>)
    requires |values| == |entries|
    ensures |r| == |entries|
    ensures forall i :: 0 <= i < |entries| ==> r[i].0 == entries[i].field
    ensures forall i :: 0 <= i < |entries| && entries[i].format.None? ==> r[i].1 == show(values[i])
    ensures forall i :: 0 <= i < |entries| && entries[i].format.Some? ==> r[i].1 == apply(entries[i].format.value, values[i])
  {
    if |entries| == 0 then []
    else
      var e := entries[0];
      var text := match e.format
        case None => show(values[0])
        case Some(t) => apply(t, values[0]);
      var rest := RenderEntries(entries[1..], values[1..], show, apply);
      assert forall i :: 1 <= i < |entries| ==> entries[1..][i - 1] == entries[i] && values[1..][i - 1] == values[i];
      [(e.field, text)] + rest
  }

  function Render<V>(impl: DebugImpl, values: seq<V>, show: V -> string, apply: (string, V) -> string): Rendering
    requires |values| == |impl.entries|
  {
    Rendering(impl.name, RenderEntries(impl.entries, values, show, apply))
  }

  /**
   The derived rendering lists, under the record's name, one entry per field in declaration
   order; a field whose first attribute is `#[debug = "t"]` is rendered through `t`, any other
   field (necessarily one without attributes) by its default rendering.
   */
  lemma DerivedRendering<V>(input: DeriveInput, impl: DebugImpl, values: seq<V>, show: V -> string, apply: (string, V) -> string)
    requires DeriveDebug(input) == Generated(impl)
    requires |values| == |input.data.fields.named|
    ensures |impl.entries| == |values|
    ensures Render(impl, values, show, apply).name == input.ident
    ensures |Render(impl, values, show, apply).entries| == |values|
    ensures forall i :: 0 <= i < |values| ==>
      && Render(impl, values, show, apply).entries[i].0 == input.data.fields.named[i].name
      && (forall t :: |input.data.fields.named[i].attrs| > 0 && IsFmtAttr(input.data.fields.named[i].attrs[0], t) ==>
            Render(impl, values, show, apply).entries[i].1 == apply(t, values[i]))
      && (|input.data.fields.named[i].attrs| == 0 ==> Render(impl, values, show, apply).entries[i].1 == show(values[i]))
  {
    var fields := input.data.fields.named;
    var es := RenderEntries(impl.entries, values, show, apply);
    forall i | 0 <= i < |values|
      ensures es[i].0 == fields[i].name
      ensures forall t :: |fields[i].attrs| > 0 && IsFmtAttr(fields[i].attrs[0], t) ==> es[i].1 == apply(t, values[i])
      ensures |fields[i].attrs| == 0 ==> es[i].1 == show(values[i])
    {
      assert impl.entries[i] == DebugEntry(fields[i].name, GetFmtAttr(fields[i].attrs).value);
    }
  }

  // ---------------------------------------------------------------------------
  // Properties of the bound inference
  // ---------------------------------------------------------------------------

  /** A record without generic parameters gets no bounds, whatever its field types. */
  lemma NoGenericsNoBounds(input: DeriveInput, impl: DebugImpl)
    requires DeriveDebug(input) == Generated(impl)
    requires |input.generics| == 0
    ensures impl.header == DebugHeader([], [])
  {
  }

  /** The phantom scan passes over a field of a plain path type wherever it sits. */
  lemma {:induction false} PhantomSetSkipsPlainField(pre: seq<Field>, g: Field, post: seq<Field>)
    requires NotPhantom(g.ty)
    ensures PhantomSet(pre + [g] + post) == PhantomSet(pre + post)
  {
    if |pre| == 0 {
      assert pre + [g] + post == [g] + post;
      assert pre + post == post;
      assert ([g] + post)[0] == g;
      assert ([g] + post)[1..] == post;
      assert FieldPhantom(g) == Ok(None);
    } else {
      assert (pre + [g] + post)[0] == pre[0];
      assert (pre + [g] + post)[1..] == pre[1..] + [g] + post;
      assert (pre + post)[0] == pre[0];
      assert (pre + post)[1..] == pre[1..] + post;
      PhantomSetSkipsPlainField(pre[1..], g, post);
    }
  }

  /**
   Exemption depends only on membership in the phantom set: adding a field of a plain path
   type, such as one that uses a parameter directly, changes no bound.
   */
  lemma DirectUseAddsNoBound(generics: seq<GenericParam>, pre: seq<Field>, g: Field, post: seq<Field>)
    requires NotPhantom(g.ty)
    ensures ImplHeader(generics, pre + [g] + post) == ImplHeader(generics, pre + post)
  {
    PhantomSetSkipsPlainField(pre, g, post);
  }

  /** `struct S<T> { marker: PhantomData<T>, value: T }`: `T` gets no bound although `value` uses it directly. */
  lemma PhantomExemptEvenIfUsedDirectly()
    ensures ImplHeader([TypeParam("T")],
                       [Field("marker", Wrap(PhantomIdent, Named1("T")), []), Field("value", Named1("T"), [])])
            == Ok(DebugHeader([TypeParam("T")], []))
  {
    var fields := [Field("marker", Wrap(PhantomIdent, Named1("T")), []), Field("value", Named1("T"), [])];
    assert FieldPhantom(fields[0]) == Ok(Some("T"));
    assert FieldPhantom(fields[1]) == Ok(None);
    var h := ImplHeader([TypeParam("T")], fields);
    assert h.Ok?;
    assert "T" !in h.value.bounds;
    assert forall n :: n !in h.value.bounds;
  }

  /** In a generic record, a field whose type is not a path (a reference, a tuple, ...) makes the derive panic. */
  lemma NonPathFieldPanics(input: DeriveInput, k: int)
    requires input.data.Struct? && input.data.fields.Named?
    requires |input.generics| > 0
    requires 0 <= k < |input.data.fields.named| && input.data.fields.named[k].ty.OtherType?
    ensures DeriveDebug(input).Panicked?
  {
    assert FieldPhantom(input.data.fields.named[k]).Panic?;
  }
}
