/** The value tree in which rows and replies travel, and its deep comparison. */
module DbValue {
  import opened Common

  datatype Val = Nil | Int(i: int) | Str(s: bytes) | Arr(a: seq<Val>)

  /** The comparison used to verify persisted rows: kinds first, then contents. */
  predicate EqualValue(a: Val, b: Val)
    decreases a
  {
    match (a, b)
    case (Nil, Nil) => true
    case (Int(i), Int(j)) => i == j
    case (Str(s), Str(t)) => s == t
    case (Arr(x), Arr(y)) => |x| == |y| && forall k :: 0 <= k < |x| ==> EqualValue(x[k], y[k])
    case _ => false
  }

  /** The deep comparison accepts exactly identical trees. */
  lemma {:induction false} EqualValueIsEquality(a: Val, b: Val)
    ensures EqualValue(a, b) <==> a == b
    decreases a
  {
    if a.Arr? && b.Arr? && |a.a| == |b.a| {
      forall k | 0 <= k < |a.a| ensures EqualValue(a.a[k], b.a[k]) <==> a.a[k] == b.a[k] {
        EqualValueIsEquality(a.a[k], b.a[k]);
      }
      if EqualValue(a, b) { assert a.a == b.a; }
    }
  }

  datatype ResultClass =
    | Success | Failure | Retryable | OutcomeUnknown | IdentityConflict
    | Superseded | BusinessRejected | VersionConflict
}
