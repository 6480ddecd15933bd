/**
 The `Builder` derive (builder/src/lib.rs): from a record with named fields it generates
 a `<Record>Builder` type with one `Option`-typed slot per field, a `builder()` factory,
 per-field setters (a full setter, and an append setter for fields carrying
 `#[builder(each = "...")]`), and a `build` that checks the required fields.

 This module models what the generator decides (slot types, initial contents, which
 setters exist with which parameter types, which fields `build` requires); the run-time
 behaviour of the generated code is in BuilderRuntime.
 */
module Builder {
  import opened Outcomes
  import opened Syntax

  const OptionIdent: string := "Option"
  const VecIdent: string := "Vec"
  const BuilderAttr: string := "builder"
  const EachKey: string := "each"

  /** The diagnostic for a `builder(...)` attribute whose key is not `each`. */
  const EachMessage: string := "expected `builder(each = \"...\")`"

  /** The panic message when an `each` directive sits on a field that is not `Vec`-shaped. */
  const VecExpectMessage: string := "invalid Vec<> inner type"

  // ---------------------------------------------------------------------------
  // Wrapper classification
  // ---------------------------------------------------------------------------

  /** `ty` is a path whose last segment is `w<..., t>`: identifier `w`, angle-bracketed arguments, last one the type `t`. */
  ghost predicate WrappedBy(ty: Ty, w: string, t: Ty) {
    && ty.PathType?
    && |ty.path.segments| > 0
    && var last := ty.path.segments[|ty.path.segments| - 1];
    && last.ident == w
    && last.arguments.AngleBracketed?
    && |last.arguments.args| > 0
    && last.arguments.args[|last.arguments.args| - 1] == TypeArg(t)
  }

  /**
   `extract_inner_type`: only the last path segment is looked at, and of its angle-bracketed
   arguments only the last; the leading `::`, the other segments and any qualified-self part
   play no role.
   */
  function ExtractInnerType(ty: Ty, expected: string): (r: Option<Ty>)
    ensures r.Some? ==> WrappedBy(ty, expected, r.value)
    ensures r.None? ==> forall t :: !WrappedBy(ty, expected, t)
  {
    match ty
    case OtherType => None
    case PathType(p) =>
      if |p.segments| == 0 then None
      else
        var last := p.segments[|p.segments| - 1];
        if last.ident != expected then None
        else
          match last.arguments
          case AngleBracketed(args) =>
            if |args| > 0 && args[|args| - 1].TypeArg? then Some(args[|args| - 1].ty) else None
          case _ => None
  }

  /** Wrapping a type and classifying it against the same wrapper name gives the type back. */
  lemma ExtractWrapped(w: string, t: Ty)
    ensures ExtractInnerType(Wrap(w, t), w) == Some(t)
    ensures forall v :: v != w ==> ExtractInnerType(Wrap(w, t), v) == None
  {
  }

  predicate IsOptionShaped(ty: Ty) {
    ExtractInnerType(ty, OptionIdent).Some?
  }

  predicate IsVecShaped(ty: Ty) {
    ExtractInnerType(ty, VecIdent).Some?
  }

  // ---------------------------------------------------------------------------
  // Builder slot typing
  // ---------------------------------------------------------------------------

  /** `::std::option::Option<t>`. */
  function StdOption(t: Ty): Ty {
    PathType(Path(true, [
      PathSegment("std", NoArguments),
      PathSegment("option", NoArguments),
      PathSegment(OptionIdent, AngleBracketed([TypeArg(t)]))
    ]))
  }

  /** The type of the builder slot for a field declared with type `ty`. */
  function SlotType(ty: Ty): (r: Ty)
    ensures IsOptionShaped(r)
    ensures forall t :: WrappedBy(ty, OptionIdent, t) ==> r == ty
    ensures (forall t :: !WrappedBy(ty, OptionIdent, t)) ==> WrappedBy(r, OptionIdent, ty) && r.path.global
  {
    if IsOptionShaped(ty) then ty else StdOption(ty)
  }

  /** The parameter type of the full setter: the declared type with one `Option` layer removed. */
  function SetterParam(ty: Ty): (r: Ty)
    ensures forall t :: WrappedBy(ty, OptionIdent, t) ==> r == t
    ensures (forall t :: !WrappedBy(ty, OptionIdent, t)) ==> r == ty
  {
    match ExtractInnerType(ty, OptionIdent)
    case Some(inner) => inner
    case None => ty
  }

  /**
   Every slot is `Option`-typed, and what it optionally holds is exactly the full setter's
   parameter type: an `Option` field keeps its declared type (no double wrapping), any other
   field `T` becomes `Option<T>`.
   */
  lemma SlotTypeIsOptionOfParam(ty: Ty)
    ensures IsOptionShaped(SlotType(ty))
    ensures ExtractInnerType(SlotType(ty), OptionIdent) == Some(SetterParam(ty))
    ensures IsOptionShaped(ty) ==> SlotType(ty) == ty
    ensures !IsOptionShaped(ty) ==> SlotType(ty) == StdOption(ty) && SetterParam(ty) == ty
  {
  }

  // ---------------------------------------------------------------------------
  // `each` directive resolution
  // ---------------------------------------------------------------------------

  /**
   What one attribute contributes to the `each` lookup: `None` when the loop moves on to the
   next attribute, otherwise the final answer. Only the first nested item of a `builder(...)`
   list is examined, since every branch for it returns or panics.
   */
  function EachOfAttribute(a: Attribute): (r: Option<Outcome<string>>)
    ensures r.None? <==> a.Parsed? && a.meta.MetaList? && (!IsIdent(a.meta.path, BuilderAttr) || |a.meta.nested| == 0)
    ensures forall s :: r == Some(Ok(s)) <==>
      && a.Parsed? && a.meta.MetaList? && IsIdent(a.meta.path, BuilderAttr) && |a.meta.nested| > 0
      && a.meta.nested[0].NestedItem? && a.meta.nested[0].meta.MetaNameValue?
      && IsIdent(a.meta.nested[0].meta.path, EachKey) && a.meta.nested[0].meta.lit == Str(s)
    ensures r.Some? && r.value.Err? <==>
      && a.Parsed? && a.meta.MetaList? && IsIdent(a.meta.path, BuilderAttr) && |a.meta.nested| > 0
      && a.meta.nested[0].NestedItem? && a.meta.nested[0].meta.MetaNameValue?
      && !IsIdent(a.meta.nested[0].meta.path, EachKey)
    ensures r.Some? && r.value.Err? ==> r.value.msg == EachMessage
    ensures r.Some? && r.value.Panic? ==> r.value.reason == Unimplemented
    ensures !a.Parsed? || !a.meta.MetaList? ==> r == Some(Panic(Unimplemented))
  {
    match a
    case Unparsable => Some(Panic(Unimplemented))
    case Parsed(MetaPath(_)) => Some(Panic(Unimplemented))
    case Parsed(MetaNameValue(_, _)) => Some(Panic(Unimplemented))
    case Parsed(MetaList(p, nested)) =>
      if !IsIdent(p, BuilderAttr) || |nested| == 0 then None
      else
        match nested[0]
        case NestedItem(MetaNameValue(key, lit)) =>
          if IsIdent(key, EachKey) then
            match lit
            case Str(s) => Some(Ok(s))
            case OtherLit => Some(Panic(Unimplemented))
          else Some(Err(EachMessage))
        case _ => Some(Panic(Unimplemented))
  }

  /** The lookup passes over this attribute: a list attribute under another path, or an empty `builder()`. */
  predicate Skipped(a: Attribute) {
    EachOfAttribute(a).None?
  }

  /** `attrs[k]` is the first attribute the lookup does not pass over. */
  ghost predicate FirstDecisive(attrs: seq<Attribute>, k: int) {
    && 0 <= k < |attrs|
    && !Skipped(attrs[k])
    && forall j :: 0 <= j < k ==> Skipped(attrs[j])
  }

  function AsDirective(o: Outcome<string>): Outcome<Option<string>> {
    match o
    case Ok(s) => Ok(Some(s))
    case Err(m) => Err(m)
    case Panic(p) => Panic(p)
  }

  /**
   `get_one_time_ident`: the first attribute that is not passed over decides; when every
   attribute is passed over there is no directive.
   */
  function GetOneTimeIdent(attrs: seq<Attribute>): (r: Outcome<Option<string>>)
    ensures r == Ok(None) <==> forall i :: 0 <= i < |attrs| ==> Skipped(attrs[i])
    ensures forall k :: FirstDecisive(attrs, k) ==> r == AsDirective(EachOfAttribute(attrs[k]).value)
    ensures r.Err? ==> r.msg == EachMessage
  {
    if |attrs| == 0 then Ok(None)
    else
      assert forall i :: 0 <= i < |attrs| - 1 ==> attrs[1..][i] == attrs[i + 1];
      assert forall k :: FirstDecisive(attrs, k) && k > 0 ==> FirstDecisive(attrs[1..], k - 1);
      match EachOfAttribute(attrs[0])
      case None => GetOneTimeIdent(attrs[1..])
      case Some(o) => AsDirective(o)
  }

  /** The attribute `#[builder(each = "alias")]`. */
  function EachAttribute(alias: string): Attribute {
    Parsed(MetaList(Ident(BuilderAttr), [NestedItem(MetaNameValue(Ident(EachKey), Str(alias)))]))
  }

  /** The first `builder(each = "s")`, after attributes that are passed over, yields `s`; later attributes play no role. */
  lemma FirstEachWins(pre: seq<Attribute>, alias: string, post: seq<Attribute>)
    requires forall i :: 0 <= i < |pre| ==> Skipped(pre[i])
    ensures GetOneTimeIdent(pre + [EachAttribute(alias)] + post) == Ok(Some(alias))
  {
    var attrs := pre + [EachAttribute(alias)] + post;
    assert attrs[|pre|] == EachAttribute(alias);
    assert FirstDecisive(attrs, |pre|);
  }

  /** A `builder(key = ...)` with a key other than `each` is reported, whatever follows it. */
  lemma UnknownKeyRejected(pre: seq<Attribute>, key: string, lit: Lit, more: seq<NestedMeta>, post: seq<Attribute>)
    requires forall i :: 0 <= i < |pre| ==> Skipped(pre[i])
    requires key != EachKey
    ensures GetOneTimeIdent(pre + [Parsed(MetaList(Ident(BuilderAttr), [NestedItem(MetaNameValue(Ident(key), lit))] + more))] + post)
            == Err(EachMessage)
  {
    var a := Parsed(MetaList(Ident(BuilderAttr), [NestedItem(MetaNameValue(Ident(key), lit))] + more));
    var attrs := pre + [a] + post;
    assert attrs[|pre|] == a;
    assert EachOfAttribute(a) == Some(Err(EachMessage));
    assert FirstDecisive(attrs, |pre|);
  }

  /** A list attribute under any path other than `builder` is passed over. */
  lemma OtherListsSkipped(p: Path, nested: seq<NestedMeta>, rest: seq<Attribute>)
    requires !IsIdent(p, BuilderAttr)
    ensures GetOneTimeIdent([Parsed(MetaList(p, nested))] + rest) == GetOneTimeIdent(rest)
  {
    assert ([Parsed(MetaList(p, nested))] + rest)[1..] == rest;
  }

  // ---------------------------------------------------------------------------
  // Setter selection
  // ---------------------------------------------------------------------------

  /**
   A generated setter method. `SetAll(name, param)` is `fn name(&mut self, v: param)` storing
   `Some(v)` in the field's slot; `AppendOne(name, elem)` is `fn name(&mut self, v: elem)`
   pushing `v` onto the slot's vector.
   */
  datatype Setter = SetAll(name: string, param: Ty) | AppendOne(name: string, elem: Ty)

  predicate HasFullSetter(ss: seq<Setter>) {
    exists i :: 0 <= i < |ss| && ss[i].SetAll?
  }

  predicate HasAppendSetter(ss: seq<Setter>) {
    exists i :: 0 <= i < |ss| && ss[i].AppendOne?
  }

  predicate SetterNamesDistinct(ss: seq<Setter>) {
    forall i, j :: 0 <= i < |ss| && 0 <= j < |ss| && i != j ==> ss[i].name != ss[j].name
  }

  /**
   `field_setter`: the setters generated for one field. Without a directive, only the full
   setter; with alias `a`, the append setter (whose element type is the `Vec` argument of the
   `Option`-unwrapped field type), followed by the full setter unless `a` is the field's own
   name; a malformed directive replaces the setters by its diagnostic.
   */
  function FieldSetters(f: Field): (r: Outcome<seq<Setter>>)
    ensures r.Err? <==> GetOneTimeIdent(f.attrs).Err?
    ensures r.Err? ==> r.msg == EachMessage
    ensures r.Panic? <==>
      || GetOneTimeIdent(f.attrs).Panic?
      || (GetOneTimeIdent(f.attrs).Ok? && GetOneTimeIdent(f.attrs).value.Some? && !IsVecShaped(SetterParam(f.ty)))
    ensures r.Ok? ==> GetOneTimeIdent(f.attrs).Ok?
    ensures r.Ok? ==> (HasAppendSetter(r.value) <==> GetOneTimeIdent(f.attrs).value.Some?)
    ensures r.Ok? ==>
      (HasFullSetter(r.value) <==>
        GetOneTimeIdent(f.attrs).value.None? || GetOneTimeIdent(f.attrs).value.value != f.name)
    ensures r.Ok? ==> SetterNamesDistinct(r.value)
    ensures r.Ok? ==> forall i :: 0 <= i < |r.value| && r.value[i].SetAll? ==>
      r.value[i] == SetAll(f.name, SetterParam(f.ty))
    ensures r.Ok? ==> forall i :: 0 <= i < |r.value| && r.value[i].AppendOne? ==>
      && r.value[i].name == GetOneTimeIdent(f.attrs).value.value
      && WrappedBy(SetterParam(f.ty), VecIdent, r.value[i].elem)
  {
    var setAll := SetAll(f.name, SetterParam(f.ty));
    match GetOneTimeIdent(f.attrs)
    case Ok(None) =>
      assert [setAll][0].SetAll?;
      Ok([setAll])
    case Ok(Some(alias)) =>
      (match ExtractInnerType(SetterParam(f.ty), VecIdent)
       case None => Panic(VecExpectMessage)
       case Some(elem) =>
         var setOnce := AppendOne(alias, elem);
         if alias == f.name then
           assert [setOnce][0].AppendOne?;
           Ok([setOnce])
         else
           assert [setOnce, setAll][0].AppendOne? && [setOnce, setAll][1].SetAll?;
           Ok([setOnce, setAll]))
    case Err(m) => Err(m)
    case Panic(p) => Panic(p)
  }

  /** A field without any attribute gets exactly the full setter. */
  lemma PlainFieldGetsFullSetter(name: string, ty: Ty)
    ensures FieldSetters(Field(name, ty, [])) == Ok([SetAll(name, SetterParam(ty))])
  {
  }

  // ---------------------------------------------------------------------------
  // The generated builder
  // ---------------------------------------------------------------------------

  /**
   One builder slot: the field it stands for, its type, whether `builder()` starts it as
   `Some(vec![])`, whether `build` copies it through as it is (an `Option` field) rather than
   requiring it to be set, and the setters generated for it.
   */
  datatype SlotDecl = SlotDecl(field: string, ty: Ty, startsEmpty: bool, passThrough: bool, setters: seq<Setter>)

  /** The generated `<target>Builder` type `name`, with its slots in field declaration order. */
  datatype BuilderDecl = BuilderDecl(target: string, name: string, slots: seq<SlotDecl>)

  function SlotOf(f: Field, setters: seq<Setter>): SlotDecl {
    SlotDecl(f.name, SlotType(f.ty), IsVecShaped(f.ty), IsOptionShaped(f.ty), setters)
  }

  function AllFieldSetters(fields: seq<Field>): (outs: seq<Outcome<seq<Setter>>>)
    ensures |outs| == |fields|
    ensures forall i :: 0 <= i < |fields| ==> outs[i] == FieldSetters(fields[i])
  {
    seq(|fields|, i requires 0 <= i < |fields| => FieldSetters(fields[i]))
  }

  function SlotsOf(fields: seq<Field>, groups: seq<seq<Setter>>): (slots: seq<SlotDecl>)
    requires |groups| == |fields|
    ensures |slots| == |fields|
    ensures forall i :: 0 <= i < |fields| ==> slots[i] == SlotOf(fields[i], groups[i])
  {
    seq(|fields|, i requires 0 <= i < |fields| => SlotOf(fields[i], groups[i]))
  }

  /** Every diagnostic a builder expansion carries is the `each` diagnostic. */
  lemma SetterErrorsAreEachMessages(fields: seq<Field>)
    ensures Combine(AllFieldSetters(fields)).Rejected? ==>
      forall i :: 0 <= i < |Combine(AllFieldSetters(fields)).errors| ==>
        Combine(AllFieldSetters(fields)).errors[i] == EachMessage
  {
    var outs := AllFieldSetters(fields);
    if Combine(outs).Rejected? {
      var es := Combine(outs).errors;
      assert es == ErrorMessages(outs);
      forall i | 0 <= i < |es|
        ensures es[i] == EachMessage
      {
        assert es[i] in es;
        var k :| 0 <= k < |outs| && outs[k] == Err(es[i]);
        assert FieldSetters(fields[k]).Err?;
      }
    }
  }

  /**
   `derive`, `derive_struct` and `derive_struct_named`: only records with named fields are
   supported (anything else panics); the first field whose setter generation panics aborts the
   expansion; otherwise the diagnostics of all malformed directives are emitted, or the builder.
   */
  function DeriveBuilder(input: DeriveInput): (r: Expansion<BuilderDecl>)
    ensures !(input.data.Struct? && input.data.fields.Named?) ==> r == Panicked(Unimplemented)
    ensures r.Rejected? ==> forall i :: 0 <= i < |r.errors| ==> r.errors[i] == EachMessage
    ensures r.Rejected? ==>
      input.data.Struct? && input.data.fields.Named? && r.errors == ErrorMessages(AllFieldSetters(input.data.fields.named))
    ensures input.data.Struct? && input.data.fields.Named? ==>
      && (r.Generated? <==> forall i :: 0 <= i < |input.data.fields.named| ==> FieldSetters(input.data.fields.named[i]).Ok?)
      && (r.Panicked? <==> exists i :: 0 <= i < |input.data.fields.named| && FieldSetters(input.data.fields.named[i]).Panic?)
    ensures r.Generated? ==>
      && input.data.Struct? && input.data.fields.Named?
      && r.item.target == input.ident
      && r.item.name == input.ident + "Builder"
      && |r.item.slots| == |input.data.fields.named|
      && forall i :: 0 <= i < |input.data.fields.named| ==>
        && FieldSetters(input.data.fields.named[i]).Ok?
        && r.item.slots[i] == SlotOf(input.data.fields.named[i], FieldSetters(input.data.fields.named[i]).value)
  {
    match input.data
    case Struct(Named(fields)) =>
      var outs := AllFieldSetters(fields);
      (match Combine(outs)
       case Panicked(p) => Panicked(p)
       case Rejected(es) =>
         SetterErrorsAreEachMessages(fields);
         Rejected(es)
       case Generated(groups) =>
         Generated(BuilderDecl(input.ident, input.ident + "Builder", SlotsOf(fields, groups))))
    case _ => Panicked(Unimplemented)
  }
}
