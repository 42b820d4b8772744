/**
 Evaluation of a JavaScript object literal such as `{ a: 1, ...src, b: 2 }`.
 Members are evaluated left to right; a later member that defines a key
 overrides every earlier one, whether it is a property or a spread.
 */
module ObjectLiteral {
  import opened Wrappers
  import opened JsValues

  /** One member of an object literal: `key: value`, or `...source` for a plain object. */
  datatype Member = Prop(key: string, value: Value) | Spread(source: Object)

  /** True iff member `m` writes key `k`. */
  predicate Defines(m: Member, k: string)
  {
    match m
    case Prop(key, _) => key == k
    case Spread(src) => k in src
  }

  /** The value member `m` writes to key `k`. */
  function WrittenValue(m: Member, k: string): Value
    requires Defines(m, k)
  {
    match m
    case Prop(_, v) => v
    case Spread(src) => src[k]
  }

  /** The object after applying one more member to `obj`. */
  function Apply(obj: Object, m: Member): Object
  {
    match m
    case Prop(k, v) => obj[k := v]
    case Spread(src) => obj + src
  }

  /** The object an object literal with members `ms` evaluates to. */
  function Eval(ms: seq<Member>): Object
    decreases |ms|
  {
    if |ms| == 0 then map[] else Apply(Eval(ms[..|ms| - 1]), ms[|ms| - 1])
  }

  /** The position of the last member of `ms` that writes `k`, if any member does. */
  function LastWriter(ms: seq<Member>, k: string): (r: Option<nat>)
    ensures r.Some? ==> r.value < |ms| && Defines(ms[r.value], k)
    ensures r.Some? ==> forall j :: r.value < j < |ms| ==> !Defines(ms[j], k)
    ensures r.None? <==> forall j :: 0 <= j < |ms| ==> !Defines(ms[j], k)
    decreases |ms|
  {
    if |ms| == 0 then None
    else if Defines(ms[|ms| - 1], k) then Some(|ms| - 1)
    else LastWriter(ms[..|ms| - 1], k)
  }

  /** "Later assignment overrides earlier": a key is present exactly when some member
      writes it, and its value is the one written by the last such member. */
  lemma {:induction false} EvalIsLastWriter(ms: seq<Member>, k: string)
    ensures k in Eval(ms) <==> LastWriter(ms, k).Some?
    ensures k in Eval(ms) ==> Eval(ms)[k] == WrittenValue(ms[LastWriter(ms, k).value], k)
    decreases |ms|
  {
    if |ms| > 0 {
      var init := ms[..|ms| - 1];
      EvalIsLastWriter(init, k);
      if !Defines(ms[|ms| - 1], k) {
        assert LastWriter(ms, k) == LastWriter(init, k);
        if LastWriter(init, k).Some? {
          assert ms[LastWriter(init, k).value] == init[LastWriter(init, k).value];
        }
      }
    }
  }

  /** A member that writes `k` and is followed by no other writer of `k` decides its value. */
  lemma EvalDecidedBy(ms: seq<Member>, i: nat, k: string)
    requires i < |ms| && Defines(ms[i], k)
    requires forall j :: i < j < |ms| ==> !Defines(ms[j], k)
    ensures k in Eval(ms) && Eval(ms)[k] == WrittenValue(ms[i], k)
  {
    EvalIsLastWriter(ms, k);
  }

  /** The keys of an evaluated literal are exactly the keys some member writes. */
  lemma EvalKeys(ms: seq<Member>, k: string)
    ensures k in Eval(ms) <==> exists j :: 0 <= j < |ms| && Defines(ms[j], k)
  {
    EvalIsLastWriter(ms, k);
  }
}
