/**
 Result shapes shared by both derives.

 - Option<T>: Rust's `Option`, used for the "nothing found" answers of the classifiers.
 - Outcome<T>: the answer of one generation step: a value, a compile error the derive
   emits in place of the code it could not produce (`to_compile_error`), or a panic of
   the derive itself (`unimplemented!`, `unreachable!`, `expect`).
 - Expansion<T>: the whole expansion of one derive: the generated item, the compile
   errors it carries, or the panic that aborted it.
 */
module Outcomes {

  datatype Option<+T> = None | Some(value: T)

  datatype Outcome<+T> = Ok(value: T) | Err(msg: string) | Panic(reason: string)

  datatype Expansion<+T> = Generated(item: T) | Rejected(errors: seq<string>) | Panicked(reason: string)

  /** Panic message of `unimplemented!()`. */
  const Unimplemented: string := "not implemented"

  /** Panic message of `unreachable!()`. */
  const Unreachable: string := "internal error: entered unreachable code"

  /**
   The messages of the `Err` outcomes, in order: every message comes from an `Err`, every
   `Err` contributes its message, and `ErrorMessagesKeepOrder` fixes the order.
   */
  function ErrorMessages<T>(outs: seq<Outcome<T>>): (ms: seq<string>)
    ensures |ms| <= |outs|
    ensures |ms| == 0 <==> forall i :: 0 <= i < |outs| ==> !outs[i].Err?
    ensures forall m :: m in ms ==> exists i :: 0 <= i < |outs| && outs[i] == Err(m)
    ensures forall i :: 0 <= i < |outs| && outs[i].Err? ==> outs[i].msg in ms
  {
    if |outs| == 0 then []
    else
      var rest := ErrorMessages(outs[1..]);
      assert forall i :: 0 <= i < |outs| - 1 ==> outs[1..][i] == outs[i + 1];
      if outs[0].Err? then [outs[0].msg] + rest else rest
  }

  /** A single outcome contributes its message exactly when it is an `Err`. */
  lemma ErrorMessagesOfOne<T>(o: Outcome<T>)
    ensures ErrorMessages([o]) == if o.Err? then [o.msg] else []
  {
    assert [o][1..] == [];
  }

  /**
   The messages of a concatenation are the messages of each part in turn; with
   `ErrorMessagesOfOne` this determines `ErrorMessages` completely, order included.
   */
  lemma {:induction false} ErrorMessagesKeepOrder<T>(a: seq<Outcome<T>>, b: seq<Outcome<T>>)
    ensures ErrorMessages(a + b) == ErrorMessages(a) + ErrorMessages(b)
  {
    if |a| == 0 {
      assert a + b == b;
    } else {
      assert (a + b)[0] == a[0];
      assert (a + b)[1..] == a[1..] + b;
      ErrorMessagesKeepOrder(a[1..], b);
    }
  }

  /** `outs[k]` is the first panic among `outs`. */
  ghost predicate FirstPanic<T>(outs: seq<Outcome<T>>, k: int) {
    && 0 <= k < |outs|
    && outs[k].Panic?
    && forall j :: 0 <= j < k ==> !outs[j].Panic?
  }

  /**
   Evaluates a sequence of generation steps the way a lazily mapped iterator spliced
   into one `quote!` does: the first panic aborts everything; otherwise every compile
   error is emitted, in order; otherwise the values are all there.
   */
  function Combine<T>(outs: seq<Outcome<T>>): (r: Expansion<seq<T>>)
    ensures r.Panicked? <==> exists i :: 0 <= i < |outs| && outs[i].Panic?
    ensures r.Panicked? ==> exists k :: FirstPanic(outs, k) && r.reason == outs[k].reason
    ensures r.Rejected? ==> r.errors == ErrorMessages(outs) && |r.errors| > 0
    ensures r.Generated? <==> forall i :: 0 <= i < |outs| ==> outs[i].Ok?
    ensures r.Generated? ==> |r.item| == |outs| && forall i :: 0 <= i < |outs| ==> r.item[i] == outs[i].value
  {
    if |outs| == 0 then Generated([])
    else
      assert forall i :: 0 <= i < |outs| - 1 ==> outs[1..][i] == outs[i + 1];
      var rest := Combine(outs[1..]);
      assert forall k :: FirstPanic(outs[1..], k) && !outs[0].Panic? ==> FirstPanic(outs, k + 1);
      match outs[0]
      case Panic(p) =>
        assert FirstPanic(outs, 0);
        Panicked(p)
      case Err(m) =>
        if rest.Panicked? then rest
        else Rejected([m] + ErrorMessages(outs[1..]))
      case Ok(v) =>
        match rest
        case Panicked(p) => Panicked(p)
        case Rejected(es) => Rejected(es)
        case Generated(vs) => Generated([v] + vs)
  }
}
