/**
 Lemmas about two concrete records under the `Builder` derive: a record with an
 appendable vector and an optional field, and the `Command` record of the demo program
 (main.rs), whose `builder().build()` fails because its first `String` field is unset.
 */
module Scenarios {
  import opened Outcomes
  import opened Syntax
  import opened Builder
  import opened BuilderRuntime

  /** `struct Point { #[builder(each = "push_x")] x: Vec<i32>, y: Option<String> }`. */
  function PointInput(): DeriveInput {
    DeriveInput("Point", [], Struct(Named([
      Field("x", Wrap(VecIdent, Named1("i32")), [EachAttribute("push_x")]),
      Field("y", Wrap(OptionIdent, Named1("String")), [])
    ])))
  }

  /** The setters of `Point`: `push_x` then `x` for the vector, `y` taking a `String` for the option. */
  lemma PointSetters()
    ensures FieldSetters(PointInput().data.fields.named[0])
            == Ok([AppendOne("push_x", Named1("i32")), SetAll("x", Wrap(VecIdent, Named1("i32")))])
    ensures FieldSetters(PointInput().data.fields.named[1]) == Ok([SetAll("y", Named1("String"))])
  {
    var fields := PointInput().data.fields.named;
    assert GetOneTimeIdent(fields[0].attrs) == Ok(Some("push_x")) by {
      FirstEachWins([], "push_x", []);
      assert [] + [EachAttribute("push_x")] + [] == fields[0].attrs;
    }
    assert GetOneTimeIdent(fields[1].attrs) == Ok(None);
    ExtractWrapped(VecIdent, Named1("i32"));
    ExtractWrapped(OptionIdent, Named1("String"));
  }

  /** The builder generated for `Point`. */
  function PointBuilder(): BuilderDecl {
    BuilderDecl("Point", "Point" + "Builder", [
      SlotDecl("x", StdOption(Wrap(VecIdent, Named1("i32"))), true, false,
               [AppendOne("push_x", Named1("i32")), SetAll("x", Wrap(VecIdent, Named1("i32")))]),
      SlotDecl("y", Wrap(OptionIdent, Named1("String")), false, true, [SetAll("y", Named1("String"))])
    ])
  }

  /**
   `PointBuilder` has an `Option<Vec<i32>>` slot with both `push_x` and the full setter `x`,
   and keeps `Option<String>` as the slot type of `y`.
   */
  lemma PointDerives()
    ensures DeriveBuilder(PointInput()) == Generated(PointBuilder())
  {
    var input := PointInput();
    var fields := input.data.fields.named;
    PointSetters();
    assert Combine(AllFieldSetters(fields)).Generated?;
    var d := DeriveBuilder(input).item;
    DerivedSlots(input, d);
    ExtractWrapped(VecIdent, Named1("i32"));
    ExtractWrapped(OptionIdent, Named1("String"));
    assert d.slots[0] == PointBuilder().slots[0];
    assert d.slots[1] == PointBuilder().slots[1];
    assert d.slots == PointBuilder().slots;
  }

  /** `Point::builder()` starts `x` as an empty vector and `y` as `None`. */
  lemma PointInit()
    ensures DistinctSlots(PointBuilder())
    ensures Init(PointBuilder()) == map["x" := Some(Vector([])), "y" := None]
  {
    var d := PointBuilder();
    var st := Init(d);
    assert d.slots[0].field == "x" && d.slots[1].field == "y";
    assert st["x"] == Some(Vector([])) && st["y"] == None;
    assert st.Keys == {"x", "y"};
  }

  /** `.push_x(1).push_x(2)` on the initial state. */
  lemma PointPushTwice()
    ensures AppendEach(map["x" := Some(Vector([])), "y" := None], "x", [Scalar(1), Scalar(2)])
            == map["x" := Some(Vector([Scalar(1), Scalar(2)])), "y" := None]
  {
    var st: State := map["x" := Some(Vector([])), "y" := None];
    AppendEachInOrder(st, "x", [Scalar(1), Scalar(2)]);
    assert Items(st["x"]) + [Scalar(1), Scalar(2)] == [Scalar(1), Scalar(2)];
  }

  /** `build` on `x == Some(vec![1, 2])`, `y == None`. */
  lemma PointBuildPushed()
    ensures Build(PointBuilder(), map["x" := Some(Vector([Scalar(1), Scalar(2)])), "y" := None])
            == Built([Vector([Scalar(1), Scalar(2)]), Optional(None)])
  {
    var st: State := map["x" := Some(Vector([Scalar(1), Scalar(2)])), "y" := None];
    var r := Build(PointBuilder(), st);
    assert r.Built?;
    assert |r.values| == 2;
    assert r.values[0] == Vector([Scalar(1), Scalar(2)]);
    assert r.values[1] == Optional(None);
    assert r.values == [Vector([Scalar(1), Scalar(2)]), Optional(None)];
  }

  /** `Point::builder().push_x(1).push_x(2).build()` gives `x == vec![1, 2]` and `y == None`. */
  lemma PointPushTwiceThenBuild()
    ensures DistinctSlots(PointBuilder())
    ensures "x" in Init(PointBuilder()) && Appendable(Init(PointBuilder())["x"])
    ensures Build(PointBuilder(), AppendEach(Init(PointBuilder()), "x", [Scalar(1), Scalar(2)]))
            == Built([Vector([Scalar(1), Scalar(2)]), Optional(None)])
  {
    PointInit();
    PointPushTwice();
    PointBuildPushed();
  }

  /** The demo program's `Command { _executable: String, _args: Vec<String>, _env: Vec<String>, _current_dir: String }`. */
  function CommandInput(): DeriveInput {
    DeriveInput("Command", [], Struct(Named([
      Field("_executable", Named1("String"), []),
      Field("_args", Wrap(VecIdent, Named1("String")), []),
      Field("_env", Wrap(VecIdent, Named1("String")), []),
      Field("_current_dir", Named1("String"), [])
    ])))
  }

  /** Every field of `Command` gets its full setter, so the derive generates the builder. */
  lemma CommandDerives()
    ensures DeriveBuilder(CommandInput()).Generated?
  {
    var fields := CommandInput().data.fields.named;
    var outs := AllFieldSetters(fields);
    forall i | 0 <= i < |fields|
      ensures outs[i].Ok?
    {
      PlainFieldGetsFullSetter(fields[i].name, fields[i].ty);
    }
  }

  /** The field names of `Command` are distinct. */
  lemma CommandNamesDistinct()
    ensures DistinctNames(CommandInput().data.fields.named)
  {
    var fields := CommandInput().data.fields.named;
    assert fields[0].name[1] == 'e' && fields[1].name[1] == 'a' && fields[2].name[1] == 'e' && fields[3].name[1] == 'c';
    assert fields[0].name[2] == 'x' && fields[2].name[2] == 'n';
  }

  /** `Command::builder().build()` reports `missing _executable`: the vectors start empty, the strings do not. */
  lemma CommandBuildReportsExecutable()
    ensures DeriveBuilder(CommandInput()).Generated?
    ensures var d := DeriveBuilder(CommandInput()).item;
      && DistinctSlots(d)
      && Build(d, Init(d)) == BuildError(MissingPrefix + "_executable")
  {
    var input := CommandInput();
    CommandDerives();
    CommandNamesDistinct();
    var d := DeriveBuilder(input).item;
    assert !IsOptionShaped(input.data.fields.named[0].ty) && !IsVecShaped(input.data.fields.named[0].ty) by {
      assert input.data.fields.named[0].ty == Named1("String");
    }
    DerivedSlots(input, d);
    DerivedBuildNamesFirstMissing(input, d, 0);
  }
}
