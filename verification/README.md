# Builder and CustomDebug derives, modelled in Dafny

This project models the two derive macros of a procedural-macro workshop solution:

- **`Builder`** (`builder/src/lib.rs`) turns a non-generic record with named fields into a
  `<Record>Builder` type with these parts:
  - one `Option`-typed slot per field;
  - a `builder()` factory;
  - a full setter per field;
  - an append setter for fields marked `#[builder(each = "...")]`;
  - a `build` that fails with `missing <field>` on the first unset required field.
- **`CustomDebug`** (`debug/src/lib.rs`) generates a `Debug` implementation with these parts:
  - one entry per field, in declaration order;
  - per-field `#[debug = "..."]` format templates;
  - a `Debug` bound on every type parameter except those that appear as `PhantomData<T>`.

The model describes what the derives decide and what the generated code does, not the tokens
they emit. It has these modules:

- `Syntax` holds the parsed input: paths, types, attributes and their `Meta` contents,
  fields, generics.
- `Outcomes` holds the result shapes. A derive step can give a value, a compile error it emits
  (`Err`), or a panic of the derive itself (`Panic`; `unimplemented!`, `unreachable!`, `expect`).
  `Combine` evaluates a lazily mapped iterator spliced into `quote!`: the first panic aborts;
  otherwise all compile errors are reported.
- `Builder` holds wrapper classification, `each` resolution, slot typing and setter selection,
  and the generated builder's declaration.
- `BuilderRuntime` models the generated code at run time. A builder instance is a map from
  field name to slot contents. `Init` is `builder()`. `FullSet` and `Append` are the setters.
  `Build` is `build`.
- `CustomDebug` holds `get_fmt_attr`, the phantom scan, the where-bounds, the header choice,
  the field entries, and an abstract rendering.
- `Scenarios` states lemmas about two concrete records under the builder derive. The first is a record with
  an appendable `Vec` and an `Option` field. The second is the demo program's `Command`.

The model follows the code as written. These behaviours of the code are easy to miss:

- `builder()` starts **every** `Vec`-shaped field as `Some(vec![])`, with or without an
  `each` directive. So a `Vec` field never makes `build` fail.
- A type parameter that appears as the first argument of any `PhantomData` field gets no
  `Debug` bound, even when another field uses it directly. Type parameters that no field uses
  are still bounded.
- `get_one_time_ident` skips only list attributes under another path and empty `builder()`
  lists. A path or name-value attribute (for example a doc comment), or one `parse_meta`
  rejects, makes the derive panic. The first `builder(...)` list with contents decides. A non-string
  `each` value panics; it is not reported as a diagnostic.
- `get_fmt_attr` looks only at the first attribute. A first attribute `#[name = ...]` with a
  name other than `debug` is reported, and this includes doc comments. Any other first
  attribute panics. Later attributes never matter.
- The wrapper match (`extract_inner_type`) uses the last path segment and its **last**
  type argument. The phantom scan uses the **first** argument.

## Model

| member | source | states |
|---|---|---|
| Builder.ExtractInnerType | builder/src/lib.rs:177-197 | The result is some `t` exactly when the type is a path whose last segment is the wrapper name with angle-bracketed arguments, the last being the type `t`; otherwise no such `t` exists |
| Builder.ExtractWrapped | builder/src/lib.rs:177-197 | Classifying `w<t>` against `w` gives back `t`, and against any other name gives nothing |
| Builder.SlotType | builder/src/lib.rs:59-63 | The slot type is always `Option`-shaped: an `Option` field keeps its declared type, any other type `T` becomes `::std::option::Option<T>` |
| Builder.SetterParam | builder/src/lib.rs:88-91 | The full setter's parameter is the `Option` field's wrapped type, or the declared type when the field is not an `Option` |
| Builder.SlotTypeIsOptionOfParam | builder/src/lib.rs:52-64 | Every slot type is `Option`-shaped and wraps exactly the full setter's parameter type; an `Option` field keeps its declared type, any other `T` becomes `::std::option::Option<T>` |
| Builder.EachOfAttribute | builder/src/lib.rs:201-236 | One attribute is passed over iff it is a list under another path or an empty `builder()`; `builder(each = "s")` as its first item decides `s`; a first name-value item with another key gives the `each` diagnostic; a path or name-value attribute, or one that does not parse, panics |
| Builder.GetOneTimeIdent | builder/src/lib.rs:199-239 | No directive iff every attribute is passed over; otherwise the first attribute not passed over decides the answer; every diagnostic is ``expected `builder(each = "...")` `` |
| Builder.FirstEachWins | builder/src/lib.rs:200-213 | After attributes that are passed over, `builder(each = "s")` yields `s`, whatever follows it |
| Builder.UnknownKeyRejected | builder/src/lib.rs:217-225 | A `builder(k = ...)` with `k` not `each`, after passed-over attributes, yields the diagnostic ``expected `builder(each = "...")` `` |
| Builder.OtherListsSkipped | builder/src/lib.rs:203-204 | A list attribute under a path other than `builder` does not change the answer |
| Builder.FieldSetters | builder/src/lib.rs:86-123 | Setter selection: with no directive, only the full setter; with an alias, an append setter; the full setter is present iff there is no alias or the alias differs from the field name; setter names are distinct; the full setter takes the `Option`-unwrapped type; the append setter takes the `Vec` element type; a malformed directive gives only its diagnostic; an alias on a non-`Vec` field panics |
| Builder.PlainFieldGetsFullSetter | builder/src/lib.rs:93-98 | A field without attributes gets exactly one setter, the full setter named after the field |
| Builder.SetterErrorsAreEachMessages | builder/src/lib.rs:121 | Every diagnostic a rejected builder expansion carries is the `each` diagnostic |
| Builder.DeriveBuilder | builder/src/lib.rs:6-34 | Non-record or non-named input panics; a record with named fields is generated iff every field's setter generation succeeds, and panics iff some field's panics (otherwise it is rejected, carrying one `each` diagnostic per malformed field, in field order); a generated builder is named `<Record>Builder` and has one slot per field, in order, each with that field's slot type, shapes and setters |
| Outcomes.ErrorMessages | builder/src/lib.rs:77-83 | The diagnostics are exactly the messages of the failed steps: each comes from a failed step and every failed step contributes its own |
| Outcomes.ErrorMessagesKeepOrder | builder/src/lib.rs:77-83 | The diagnostics of a concatenation of steps are those of each part in turn, so they follow the order of the steps |
| Outcomes.Combine | builder/src/lib.rs:77-83 | The first panic aborts and its reason is kept; otherwise, if any step failed, every compile error is reported in order; otherwise every value is kept in order |
| BuilderRuntime.Init | builder/src/lib.rs:152-175 | `builder()` has exactly one slot per field, holding an empty vector for fields that start empty and nothing otherwise |
| BuilderRuntime.DerivedSlots | builder/src/lib.rs:56-64 | The slots of a derived builder carry the field names in declaration order; `Vec` fields start empty and `Option` fields pass through |
| BuilderRuntime.DerivedInitialState | builder/src/lib.rs:157-164 | `builder()` starts every `Vec`-shaped field as `Some(vec![])` and every other field as `None` |
| BuilderRuntime.FullSet | builder/src/lib.rs:93-98 | The full setter for `f` makes slot `f` hold `Some(v)` and leaves every other slot and the set of slots unchanged |
| BuilderRuntime.Push | builder/src/lib.rs:105 | Pushing onto a slot yields a vector of the old elements followed by the new one; an absent slot counts as empty |
| BuilderRuntime.Append | builder/src/lib.rs:103-107 | The append setter extends slot `f`'s vector by one element at its end, first starting an absent slot as empty; no other slot changes |
| BuilderRuntime.AppendEachInOrder | builder/src/lib.rs:103-107 | After `n > 0` appends, the slot holds its earlier elements followed by the `n` elements in call order; no other slot changes |
| BuilderRuntime.SetEachEffect | builder/src/lib.rs:93-98 | After full setters on distinct fields, each set slot holds its value and every other slot is unchanged |
| BuilderRuntime.BuildSlots | builder/src/lib.rs:126-150 | `build` succeeds iff no required (non-`Option`) field is unset; on failure the message is `missing <name>` for the first unset required field in declaration order; on success each value is the stored value, an `Option` field's slot being copied as it is |
| BuilderRuntime.OptionFieldsPassThrough | builder/src/lib.rs:134-135 | An unset `Option` field never makes `build` fail, and its value is its slot as it is |
| BuilderRuntime.BuildAfterSettingAll | builder/src/lib.rs:131-147 | Round trip: assigning every slot as a full setter does (`self.f = Some(v)`), then building, returns exactly those values, with `Option` fields holding `Some` of theirs |
| BuilderRuntime.BuildFromInit | builder/src/lib.rs:131-164 | Building straight after `builder()` fails on the first field that is neither `Option` nor `Vec`; if no such field exists, it succeeds with empty vectors and `None`s |
| BuilderRuntime.InitNamesFirstRequired | builder/src/lib.rs:131-164 | `build` right after `builder()` reports `missing <name>` for the first slot that is neither an `Option` nor started as an empty vector |
| BuilderRuntime.DerivedBuildNamesFirstMissing | builder/src/lib.rs:131-164 | For a derived builder, `builder().build()` reports `missing <name>` for the first field that is neither `Option`- nor `Vec`-shaped |
| Scenarios.PointSetters | builder/src/lib.rs:100-119 | `x: Vec<i32>` with `each = "push_x"` gets `push_x(i32)` and then `x(Vec<i32>)`; `y: Option<String>` gets `y(String)` |
| Scenarios.PointDerives | builder/src/lib.rs:25-34 | The derive for `Point` generates `PointBuilder` with exactly the expected slots and setters |
| Scenarios.PointPushTwiceThenBuild | builder/src/lib.rs:103-107 | `builder().push_x(1).push_x(2).build()` gives `x == [1, 2]` and `y == None` |
| Scenarios.CommandBuildReportsExecutable | main.rs:11-21 | For the demo's `Command`, `builder().build()` fails with `missing _executable` |
| CustomDebug.GetFmtAttr | debug/src/lib.rs:95-118 | No template iff there are no attributes; template `s` iff the first attribute is `debug = "s"`; the diagnostic ``expected `debug "..."` `` iff the first attribute is a name-value under another name; every other first attribute panics |
| CustomDebug.OnlyFirstAttributeCounts | debug/src/lib.rs:96-116 | Attributes after the first never change the answer |
| CustomDebug.FieldPhantom | debug/src/lib.rs:57-77 | A `PhantomData<A, ...>` field whose `A` is a path type contributes the last identifier of `A`, and anything it contributes is such an identifier; a non-`PhantomData` path or a bare `PhantomData` contributes nothing; a non-path type panics |
| CustomDebug.PhantomSet | debug/src/lib.rs:54-78 | The phantom set is exactly the identifiers the fields contribute; the scan panics iff some field has an unhandled shape |
| CustomDebug.PhantomSetSkipsPlainField | debug/src/lib.rs:57-73 | Inserting a field of a plain path type anywhere among the fields leaves the phantom scan's outcome unchanged |
| CustomDebug.WhereBounds | debug/src/lib.rs:82-88 | A name is bounded iff it is a type parameter (not a lifetime or const) outside the phantom set; there are no more bounds than parameters |
| CustomDebug.WhereBoundsKeepOrder | debug/src/lib.rs:82-88 | Bounds follow declaration order: the bounds of a concatenation are the bounds of each part in turn |
| CustomDebug.ImplHeader | debug/src/lib.rs:53-93 | A generic header keeps all parameters and bounds exactly the type parameters that no field marks as phantom; it panics iff some field has an unhandled shape |
| CustomDebug.NoGenericsNoBounds | debug/src/lib.rs:36-37 | A record without generic parameters gets a plain header with no bounds |
| CustomDebug.DirectUseAddsNoBound | debug/src/lib.rs:54-88 | Exemption depends only on phantom-set membership: inserting a field that uses a parameter directly, anywhere among the fields, changes no bound |
| CustomDebug.PhantomExemptEvenIfUsedDirectly | debug/src/lib.rs:82-88 | For `S<T> { marker: PhantomData<T>, value: T }`, `T` gets no bound |
| CustomDebug.NonPathFieldPanics | debug/src/lib.rs:76 | In a generic record, a field of non-path type makes the derive panic |
| CustomDebug.FieldEntry | debug/src/lib.rs:23-32 | A field's entry is named after the field and has no template iff it has no attributes, template `t` iff its first attribute is `debug = "t"`; the `debug` diagnostic iff its first attribute is a foreign name-value; any other first attribute panics |
| CustomDebug.EntryErrorsAreDebugMessages | debug/src/lib.rs:25-31 | Every diagnostic a rejected debug expansion carries is the `debug` diagnostic |
| CustomDebug.DeriveDebug | debug/src/lib.rs:9-34 | Non-record or non-named input panics; a record with named fields is generated iff its header and every field's attribute resolve, and panics iff the header or some field's attribute panics (otherwise it is rejected, carrying one `debug` diagnostic per field with a foreign first name-value attribute, in field order); a generated implementation has the record's name, the computed header, and one entry per field in declaration order with that field's template |
| CustomDebug.RenderEntries | debug/src/lib.rs:23-32 | One entry per field, in order, named after the field: the template applied to the value when there is one, the default rendering otherwise |
| CustomDebug.DerivedRendering | debug/src/lib.rs:42-48 | The derived rendering uses the record's name and lists every field in order; `#[debug = "t"]` as first attribute renders through `t`; a field without attributes renders by default |

## Left out

- Token emission (`quote!`, `format_ident!`, `stringify!`) and `syn` parsing are not modelled. The parsed input is the `Syntax` datatypes. The output is the declarations `BuilderDecl` and `DebugImpl`.
- Spans and `to_compile_error` are not modelled. A diagnostic is its message string.
- `std::fmt` is not modelled. The default rendering and template application are function parameters of `Render`. `format_args!` semantics are abstract.
- Values are abstract (`Value`), and `clone` is not modelled. `build`'s `Box<dyn Error>` is its message string.
- BuilderRuntime.Append: requires the slot to be empty or hold a vector. The Rust type checker guarantees this for the generated code. Slot typing of run-time values is not modelled.
- Builder.GetOneTimeIdent: an alias that is not a valid identifier makes `format_ident!` panic. This is not modelled; the alias is kept as a string.
- The qualified-self part of a path type (`<T as Trait>::X`) is not modelled. Neither derive inspects it.
- `impl_debug_header_generic` drops any `where` clause written on the record (`split_for_impl`'s third part is discarded). The model's header holds only the generated bounds.
- Span-sensitive identifier comparison is not modelled. Identifiers compare as strings.
- Calling a generated setter by method name (Rust method resolution) is not modelled. The setters are modelled per slot, as `FullSet` and `Append` on the field's name. Duplicate method names across fields are a compile error that the derive does not detect.
- CustomDebug.EntryErrorsAreDebugMessages and CustomDebug.DeriveDebug: the model records the diagnostic the derive emits for a foreign name-value attribute. The derive splices that `compile_error!` into the `f.debug_struct(..) .field(..) ... .finish()` method chain (debug/src/lib.rs:30 and 45-47), where it does not parse. The compiler would then report a syntax error at that point instead of this message. The builder derive's diagnostics sit in item position inside an `impl` block, where they are well-formed.
- BuilderRuntime.BuildAfterSettingAll: assigns every slot directly. When a field's `each` alias equals its name, that field has no full setter (builder/src/lib.rs:110-116), so this assignment is not reachable through a setter call for that field.
- Builder.DeriveBuilder: the record's generic and lifetime parameters are not carried to the builder. The derive emits `pub struct <Record>Builder` and `impl <Record>` without them (builder/src/lib.rs:66-69 and 167), so for a generic record the code the model calls `Generated` is rejected by the compiler. The run-time lemmas of `BuilderRuntime` describe the generated code only for non-generic records.
- CustomDebug.ImplHeader: the where-clause entry is the whole type parameter followed by `: ::std::fmt::Debug` (debug/src/lib.rs:82-86), so it repeats the parameter's inline bounds and default (`T: Clone: ::std::fmt::Debug`, `T = u8: ::std::fmt::Debug`). Such code does not parse. Type parameters in the model carry only their name, so the model's header, and `Generated` from `DeriveDebug`, describe only non-phantom parameters declared bare.
