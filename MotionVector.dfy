/**
 * The motion vector of the motion model: an ordered pair of motion points.
 *
 * A motion point is opaque here; all that is used of it is decidable
 * equality (its `Equals`), a hash code and a text form, which arrive as the
 * type parameter's `==` and as function parameters.
 *
 * `Start` and `End` are reference-typed properties: the parameterless
 * constructor leaves both null. Where the source would dereference a null
 * point, the model returns `Err(NullReference)`.
 */
module MotionModel {
  import opened Wrappers

  datatype Exception = NullReference

  datatype MotionVector<P> = MotionVector(start: Option<P>, end: Option<P>)

  /** A vector built by the two-point constructor: neither point is null. */
  predicate IsComplete<P>(v: MotionVector<P>) {
    v.start.Some? && v.end.Some?
  }

  /** The parameterless constructor: both points stay null. */
  function Empty<P>(): (v: MotionVector<P>)
    ensures v.start.None? && v.end.None?
  {
    MotionVector(None, None)
  }

  /** The two-point constructor stores the points unchanged. */
  function Create<P>(startPoint: P, endPoint: P): (v: MotionVector<P>)
    ensures IsComplete(v)
    ensures v.start.value == startPoint && v.end.value == endPoint
  {
    MotionVector(Some(startPoint), Some(endPoint))
  }

  /**
   * `Start.Equals(p) || End.Equals(p)`: the `||` short-circuits, so a null
   * `End` is only dereferenced when `Start` differs from `p`.
   */
  function Contains<P(==)>(v: MotionVector<P>, p: P): (r: Result<bool, Exception>)
    ensures r.Err? <==> v.start.None? || (v.start != Some(p) && v.end.None?)
    ensures r.Ok? ==> (r.value <==> v.start == Some(p) || v.end == Some(p))
  {
    match v.start
    case None => Err(NullReference)
    case Some(s) =>
      if s == p then Ok(true)
      else match v.end
        case None => Err(NullReference)
        case Some(e) => Ok(e == p)
  }

  /**
   * `other.Start.Equals(this.Start) && other.End.Equals(this.End)`: the
   * receivers are `other`'s points, so a null point of `other` throws, while
   * a null point of `this` only makes that comparison false.
   */
  function IsEqual<P(==)>(self: MotionVector<P>, other: MotionVector<P>): (r: Result<bool, Exception>)
    ensures r.Err? <==> other.start.None? || (other.start == self.start && other.end.None?)
    ensures r.Ok? ==> (r.value <==> self == other)
  {
    match other.start
    case None => Err(NullReference)
    case Some(os) =>
      if Some(os) != self.start then Ok(false)
      else match other.end
        case None => Err(NullReference)
        case Some(oe) => Ok(Some(oe) == self.end)
  }

  /**
   * What an argument of `Equals` can be, seen from the receiver: null, the
   * receiver itself (the same reference), another motion vector whose
   * run-time type is or is not exactly `MotionVector`, or an object of an
   * unrelated type.
   */
  datatype Argument<P> =
    | Null
    | This
    | Vector(vector: MotionVector<P>, exactType: bool)
    | Foreign

  /** `Equals(MotionVector other)`; its static type rules out `Foreign`. */
  function Equals<P(==)>(self: MotionVector<P>, other: Argument<P>): (r: Result<bool, Exception>)
    requires !other.Foreign?
    ensures r.Err? ==> other.Vector?
    ensures r.Ok? ==> (r.value <==> other.This? || (other.Vector? && other.vector == self))
  {
    match other
    case Null => Ok(false)
    case This => Ok(true)
    case Vector(v, _) => IsEqual(self, v)
  }

  /** `Equals(object obj)`: a different run-time type compares unequal. */
  function EqualsObject<P(==)>(self: MotionVector<P>, obj: Argument<P>): (r: Result<bool, Exception>)
    ensures r.Err? ==> obj.Vector? && obj.exactType
    ensures r.Ok? ==> (r.value <==> obj.This? || (obj.Vector? && obj.exactType && obj.vector == self))
  {
    match obj
    case Null => Ok(false)
    case This => Ok(true)
    case Foreign => Ok(false)
    case Vector(v, exactType) => if !exactType then Ok(false) else IsEqual(self, v)
  }

  /**
   * `((Start?.GetHashCode() ?? 0) * 397) ^ End.GetHashCode()` in unchecked
   * 32-bit arithmetic: a null `Start` hashes as 0, a null `End` throws.
   */
  function GetHashCode<P>(v: MotionVector<P>, pointHash: P -> bv32): (r: Result<bv32, Exception>)
    ensures r.Err? <==> v.end.None?
    ensures v.start.None? && v.end.Some? ==> r == Ok(pointHash(v.end.value))
  {
    var startHash: bv32 := match v.start case None => 0 case Some(s) => pointHash(s);
    match v.end
    case None => Err(NullReference)
    case Some(e) => Ok((startHash * 397) ^ pointHash(e))
  }

  /** `$"{Start} -> {End}"`; a null point interpolates as the empty string. */
  function ToString<P>(v: MotionVector<P>, show: P -> string): (r: string)
    ensures var a := PointText(v.start, show); var b := PointText(v.end, show);
      |r| == |a| + 4 + |b| && r[..|a|] == a && r[|a|..|a| + 4] == " -> " && r[|a| + 4..] == b
  {
    PointText(v.start, show) + " -> " + PointText(v.end, show)
  }

  function PointText<P>(p: Option<P>, show: P -> string): string {
    match p
    case None => ""
    case Some(q) => show(q)
  }

  // ---------------------------------------------------------------------
  // Properties
  // ---------------------------------------------------------------------

  /** On a constructed vector, `Contains(p)` holds exactly for its two points. */
  lemma ContainsExactlyEndpoints<P>(a: P, b: P, p: P)
    ensures Contains(Create(a, b), p) == Ok(p == a || p == b)
  {
  }

  /** Equality of constructed vectors is pairwise equality of their points. */
  lemma EqualityIsPointwise<P>(a: P, b: P, c: P, d: P)
    ensures IsEqual(Create(a, b), Create(c, d)) == Ok(a == c && b == d)
    ensures EqualsObject(Create(a, b), Vector(Create(c, d), true)) == Ok(a == c && b == d)
  {
  }

  /** The vector is ordered: reversing it keeps it equal only when its points coincide. */
  lemma ReversedEqualsOnlyWhenDegenerate<P>(a: P, b: P)
    ensures IsEqual(Create(a, b), Create(b, a)) == Ok(a == b)
  {
  }

  /** Equality on constructed vectors is an equivalence relation. */
  lemma EqualityIsEquivalence<P>(u: MotionVector<P>, v: MotionVector<P>, w: MotionVector<P>)
    requires IsComplete(u) && IsComplete(v) && IsComplete(w)
    ensures IsEqual(u, u) == Ok(true)
    ensures IsEqual(u, v) == IsEqual(v, u)
    ensures IsEqual(u, v) == Ok(true) && IsEqual(v, w) == Ok(true) ==> IsEqual(u, w) == Ok(true)
  {
  }

  /** Null and objects of another run-time type never compare equal. */
  lemma NullAndForeignAreUnequal<P>(v: MotionVector<P>, w: MotionVector<P>)
    ensures Equals(v, Null) == Ok(false) && EqualsObject(v, Null) == Ok(false)
    ensures EqualsObject(v, Foreign) == Ok(false)
    ensures EqualsObject(v, Vector(w, false)) == Ok(false)
  {
  }

  /** Equal vectors have equal hash codes (point hashing is a function of the point). */
  lemma EqualVectorsHashEqually<P>(u: MotionVector<P>, v: MotionVector<P>, pointHash: P -> bv32)
    requires IsEqual(u, v) == Ok(true)
    ensures GetHashCode(u, pointHash) == GetHashCode(v, pointHash)
  {
  }

  /**
   * Equality is not symmetric once a start point is null: a default-built
   * vector compares unequal to a constructed one, while the reverse
   * comparison dereferences the null start and throws.
   */
  lemma NullStartBreaksSymmetry<P>(a: P, b: P)
    ensures IsEqual(Empty(), Create(a, b)) == Ok(false)
    ensures IsEqual(Create(a, b), Empty()).Err?
  {
  }
}
