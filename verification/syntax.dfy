/**
 The parsed input of a derive: the part of `syn`'s syntax tree that the two derives
 inspect. Anything the derives never look inside is collapsed into one opaque
 alternative (`OtherType`, `OtherArg`, `OtherLit`).
 */
module Syntax {

  /** A path such as `::std::option::Option<T>`; `global` records the leading `::`. */
  datatype Path = Path(global: bool, segments: seq<PathSegment>)

  datatype PathSegment = PathSegment(ident: string, arguments: PathArguments)

  /** `Foo`, `Foo<A, B>` or `Fn(A) -> B`. */
  datatype PathArguments =
    | NoArguments
    | AngleBracketed(args: seq<GenericArgument>)
    | Parenthesized

  /** One argument between angle brackets: a type, a lifetime, or anything else (const, binding, constraint). */
  datatype GenericArgument = TypeArg(ty: Ty) | LifetimeArg(lifetime: string) | OtherArg

  /** A declared type: a path type, or any other form (reference, tuple, array, slice, pointer, ...). */
  datatype Ty = PathType(path: Path) | OtherType

  datatype Lit = Str(value: string) | OtherLit

  /** The structured form of an attribute's contents (`parse_meta`). */
  datatype Meta =
    | MetaPath(path: Path)
    | MetaList(path: Path, nested: seq<NestedMeta>)
    | MetaNameValue(path: Path, lit: Lit)

  datatype NestedMeta = NestedItem(meta: Meta) | NestedLit(lit: Lit)

  /** An attribute on a field; `Unparsable` is one whose tokens `parse_meta` rejects. */
  datatype Attribute = Parsed(meta: Meta) | Unparsable

  datatype Field = Field(name: string, ty: Ty, attrs: seq<Attribute>)

  datatype Fields = Named(named: seq<Field>) | Unnamed(unnamed: seq<Field>) | Unit

  datatype Data = Struct(fields: Fields) | Enum | Union

  datatype GenericParam = TypeParam(name: string) | LifetimeParam(name: string) | ConstParam(name: string)

  datatype DeriveInput = DeriveInput(ident: string, generics: seq<GenericParam>, data: Data)

  /** `Path::is_ident`: no leading `::`, exactly one segment, no arguments, and that identifier. */
  predicate IsIdent(p: Path, name: string) {
    && !p.global
    && |p.segments| == 1
    && p.segments[0].arguments.NoArguments?
    && p.segments[0].ident == name
  }

  /** The path `name`, as `is_ident` recognises it. */
  function Ident(name: string): (p: Path)
    ensures IsIdent(p, name)
  {
    Path(false, [PathSegment(name, NoArguments)])
  }

  /** The type `w<t>`: a one-segment path whose only argument is `t`. */
  function Wrap(w: string, t: Ty): Ty {
    PathType(Path(false, [PathSegment(w, AngleBracketed([TypeArg(t)]))]))
  }

  /** The plain type named `name` (a one-segment path without arguments). */
  function Named1(name: string): Ty {
    PathType(Ident(name))
  }

  /** Field names of a record are distinct (the compiler rejects a record that repeats one). */
  predicate DistinctNames(fields: seq<Field>) {
    forall i, j :: 0 <= i < |fields| && 0 <= j < |fields| && i != j ==> fields[i].name != fields[j].name
  }
}
