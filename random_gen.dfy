/**
  A weighted random generator: a fixed list of outcomes, a parallel list of
  probabilities, and a draw that maps a uniform value `u` in [0, 1) through the
  cumulative distribution to one outcome.

  Probabilities are exact reals here (the Java class works on 32-bit floats),
  and the uniform value is a parameter of the draw instead of being taken from
  a random source inside it.
 */
module Solution {

  /** Bounds that every probability must respect, and the total they must reach. */
  const MinProbability: real := 0.0
  const MaxProbability: real := 1.0
  const RequiredSum: real := 1.0

  /** The three reasons for which construction is refused, in the order they are checked. */
  datatype ValidationError = LengthMismatch | OutOfRange | SumNotOne

  datatype Option<+T> = None | Some(value: T)

  datatype Result<+T> = Ok(value: T) | Err(error: ValidationError)

  const InvalidInputsPrefix: string := "Invalid inputs: "

  /** The reason text of each validation error. */
  function Reason(e: ValidationError): string
  {
    match e
    case LengthMismatch => "randomNums and probabilities must have the same length."
    case OutOfRange => "probabilities must be between 0.0 and 1.0 (inclusive)."
    case SumNotOne => "sum of probabilities must be 1.0."
  }

  /** The text carried by the exception raised for each validation error. */
  function Message(e: ValidationError): string
  {
    InvalidInputsPrefix + Reason(e)
  }

  /** Callers can tell the three causes apart by the message alone. */
  lemma MessagesDistinct(e1: ValidationError, e2: ValidationError)
    requires e1 != e2
    ensures Message(e1) != Message(e2)
  {
  }

  /** Sum of the first `n` probabilities: the running sum after `n` steps of a scan. */
  function PrefixSum(p: seq<real>, n: nat): real
    requires n <= |p|
  {
    if n == 0 then 0.0 else PrefixSum(p, n - 1) + p[n - 1]
  }

  function Sum(p: seq<real>): real
  {
    PrefixSum(p, |p|)
  }

  predicate InRange(x: real)
  {
    !(x < MinProbability || x > MaxProbability)
  }

  predicate AllInRange(p: seq<real>)
  {
    forall i :: 0 <= i < |p| ==> InRange(p[i])
  }

  /** A list of probabilities the generator accepts. */
  predicate IsDistribution(p: seq<real>)
  {
    AllInRange(p) && Sum(p) == RequiredSum
  }

  /** Both arrays are present and pair up position by position. */
  predicate SameLength(randomNums: array?<int>, probabilities: array?<real>)
  {
    randomNums != null && probabilities != null && randomNums.Length == probabilities.Length
  }

  /** The empty list sums to 0, so an accepted list is never empty. */
  lemma DistributionNonEmpty(p: seq<real>)
    requires IsDistribution(p)
    ensures |p| > 0
  {
  }

  /** With non-negative entries the running sum never decreases. */
  lemma {:induction false} PrefixSumMonotone(p: seq<real>, i: nat, j: nat)
    requires forall k :: 0 <= k < |p| ==> p[k] >= 0.0
    requires i <= j <= |p|
    ensures PrefixSum(p, i) <= PrefixSum(p, j)
    decreases j
  {
    if i < j {
      PrefixSumMonotone(p, i, j - 1);
    }
  }

  /** In an accepted list every running sum lies in [0, 1]. */
  lemma PrefixSumBounds(p: seq<real>, n: nat)
    requires IsDistribution(p)
    requires n <= |p|
    ensures MinProbability <= PrefixSum(p, n) <= RequiredSum
  {
    PrefixSumMonotone(p, 0, n);
    PrefixSumMonotone(p, n, |p|);
  }

  /** Two distinct non-negative entries together never exceed a sum that covers both. */
  lemma {:induction false} PairBelowPrefixSum(p: seq<real>, a: nat, b: nat, n: nat)
    requires forall k :: 0 <= k < |p| ==> p[k] >= 0.0
    requires a < b < n <= |p|
    ensures p[a] + p[b] <= PrefixSum(p, n)
    decreases n
  {
    if b < n - 1 {
      PairBelowPrefixSum(p, a, b, n - 1);
    } else {
      PrefixSumMonotone(p, 0, a);
      PrefixSumMonotone(p, a + 1, n - 1);
    }
  }

  /** The search for the selected index, resumed at index `i` once every
      earlier running sum has been found not to exceed `u`. */
  function SelectFrom(p: seq<real>, u: real, i: nat): (k: nat)
    requires i < |p|
    requires forall j :: 1 <= j <= i ==> PrefixSum(p, j) <= u
    ensures i <= k < |p|
    ensures forall j :: 1 <= j <= k ==> PrefixSum(p, j) <= u
    ensures u < PrefixSum(p, k + 1) || k == |p| - 1
    decreases |p| - i
  {
    if u < PrefixSum(p, i + 1) || i == |p| - 1 then i else SelectFrom(p, u, i + 1)
  }

  /** The index a draw of `u` selects: the first index whose running sum
      (itself included) exceeds `u`, and the last index when there is none. */
  function Select(p: seq<real>, u: real): (k: nat)
    requires |p| > 0
    ensures k < |p|
    ensures forall j :: 1 <= j <= k ==> PrefixSum(p, j) <= u
    ensures u < PrefixSum(p, k + 1) || k == |p| - 1
  {
    SelectFrom(p, u, 0)
  }

  /** The two properties in Select's contract determine the index. */
  lemma SelectUnique(p: seq<real>, u: real, k: nat)
    requires k < |p|
    requires forall j :: 1 <= j <= k ==> PrefixSum(p, j) <= u
    requires u < PrefixSum(p, k + 1) || k == |p| - 1
    ensures Select(p, u) == k
  {
  }

  /** When no running sum exceeds `u` the last index is selected. For an
      accepted list this needs a draw of at least 1; in the Java class it
      happens only once the caller has changed the shared probability array. */
  lemma SelectFallback(p: seq<real>, u: real)
    requires |p| > 0
    requires forall j :: 1 <= j <= |p| ==> PrefixSum(p, j) <= u
    ensures Select(p, u) == |p| - 1
  {
  }

  /** For an accepted list and a draw in [0, 1), the selected index is one whose
      interval [running sum before it, running sum after it) holds `u`: the
      last-element fallback is never needed, and a selected outcome always has
      positive probability. */
  lemma SelectedIntervalContainsDraw(p: seq<real>, u: real)
    requires IsDistribution(p)
    requires MinProbability <= u < RequiredSum
    ensures |p| > 0
    ensures PrefixSum(p, Select(p, u)) <= u < PrefixSum(p, Select(p, u) + 1)
    ensures p[Select(p, u)] > 0.0
  {
  }

  /** For an accepted list, a draw in [0, 1) selects index `k` exactly when it
      falls in [PrefixSum(p, k), PrefixSum(p, k + 1)), an interval of length
      p[k]: the intervals partition [0, 1) in the order of the list. */
  lemma SelectIffInInterval(p: seq<real>, u: real, k: nat)
    requires IsDistribution(p)
    requires MinProbability <= u < RequiredSum
    requires k < |p|
    ensures Select(p, u) == k <==> PrefixSum(p, k) <= u < PrefixSum(p, k + 1)
    ensures PrefixSum(p, k + 1) - PrefixSum(p, k) == p[k]
  {
    SelectedIntervalContainsDraw(p, u);
    if PrefixSum(p, k) <= u < PrefixSum(p, k + 1) {
      forall j | 1 <= j <= k
        ensures PrefixSum(p, j) <= u
      {
        PrefixSumMonotone(p, j, k);
      }
      SelectUnique(p, u, k);
    }
  }

  /** A larger draw never selects an earlier index. */
  lemma SelectMonotone(p: seq<real>, u1: real, u2: real)
    requires |p| > 0
    requires u1 <= u2
    ensures Select(p, u1) <= Select(p, u2)
  {
  }

  /** An outcome of probability 1 in an accepted list is selected by every draw in [0, 1). */
  lemma CertainOutcome(p: seq<real>, u: real, k: nat)
    requires IsDistribution(p)
    requires MinProbability <= u < RequiredSum
    requires k < |p| && p[k] == 1.0
    ensures Select(p, u) == k
  {
    SelectedIntervalContainsDraw(p, u);
    var s := Select(p, u);
    if s < k {
      PairBelowPrefixSum(p, s, k, |p|);
    } else if s > k {
      PairBelowPrefixSum(p, k, s, |p|);
    }
  }

  class RandomGen {
    const randomNums: array<int>
    const probabilities: array<real>

    /** What every instance keeps: the arrays pair up and are not empty. Their
        contents are the caller's arrays, not copies, so only the lengths are
        guaranteed for the lifetime of the instance. */
    predicate Valid()
    {
      0 < randomNums.Length == probabilities.Length
    }

    /** Stores the arrays it is given, once Create has validated them. */
    constructor (randomNums: array<int>, probabilities: array<real>)
      requires randomNums.Length == probabilities.Length
      requires IsDistribution(probabilities[..])
      ensures this.randomNums == randomNums && this.probabilities == probabilities
      ensures Valid()
    {
      this.randomNums := randomNums;
      this.probabilities := probabilities;
    }

    /** Runs the three checks in order and reports the first that fails. */
    static method ValidateInputs(randomNums: array?<int>, probabilities: array?<real>)
      returns (err: Option<ValidationError>)
      ensures !SameLength(randomNums, probabilities) ==> err == Some(LengthMismatch)
      ensures SameLength(randomNums, probabilities) && !AllInRange(probabilities[..]) ==>
                err == Some(OutOfRange)
      ensures (SameLength(randomNums, probabilities) && AllInRange(probabilities[..]) &&
               Sum(probabilities[..]) != RequiredSum) ==> err == Some(SumNotOne)
      ensures SameLength(randomNums, probabilities) && IsDistribution(probabilities[..]) ==>
                err == None
      ensures err == None ==> randomNums != null && 0 < randomNums.Length
    {
      if randomNums == null || probabilities == null || randomNums.Length != probabilities.Length {
        return Some(LengthMismatch);
      }
      var sum := 0.0;
      var i := 0;
      while i < probabilities.Length
        invariant 0 <= i <= probabilities.Length
        invariant sum == PrefixSum(probabilities[..], i)
        invariant forall j :: 0 <= j < i ==> InRange(probabilities[j])
      {
        var probability := probabilities[i];
        if probability < MinProbability || probability > MaxProbability {
          assert !InRange(probabilities[..][i]);
          return Some(OutOfRange);
        }
        sum := sum + probability;
        i := i + 1;
      }
      assert probabilities[..] == probabilities[..i];
      if sum != RequiredSum {
        return Some(SumNotOne);
      }
      DistributionNonEmpty(probabilities[..]);
      return None;
    }

    /** The public constructor: validation, then storing the arrays themselves. */
    static method Create(randomNums: array?<int>, probabilities: array?<real>)
      returns (r: Result<RandomGen>)
      ensures !SameLength(randomNums, probabilities) ==> r == Err(LengthMismatch)
      ensures SameLength(randomNums, probabilities) && !AllInRange(probabilities[..]) ==>
                r == Err(OutOfRange)
      ensures (SameLength(randomNums, probabilities) && AllInRange(probabilities[..]) &&
               Sum(probabilities[..]) != RequiredSum) ==> r == Err(SumNotOne)
      ensures SameLength(randomNums, probabilities) && IsDistribution(probabilities[..]) ==>
                r.Ok? && fresh(r.value) && r.value.Valid() &&
                r.value.randomNums == randomNums && r.value.probabilities == probabilities
    {
      var err := ValidateInputs(randomNums, probabilities);
      if err.Some? {
        return Err(err.value);
      }
      var g := new RandomGen(randomNums, probabilities);
      return Ok(g);
    }

    /** One draw for the uniform value `u`: accumulates the running sum and
        returns the outcome at the first index whose running sum exceeds `u`,
        or the last outcome when none does. */
    method NextNum(u: real) returns (r: int)
      requires Valid()
      ensures r == randomNums[Select(probabilities[..], u)]
      ensures r in randomNums[..]
    {
      var cumulativeProbability := 0.0;
      var i := 0;
      while i < probabilities.Length
        invariant 0 <= i <= probabilities.Length
        invariant cumulativeProbability == PrefixSum(probabilities[..], i)
        invariant forall j :: 1 <= j <= i ==> PrefixSum(probabilities[..], j) <= u
      {
        cumulativeProbability := cumulativeProbability + probabilities[i];
        if u < cumulativeProbability {
          SelectUnique(probabilities[..], u, i);
          return randomNums[i];
        }
        i := i + 1;
      }
      SelectUnique(probabilities[..], u, probabilities.Length - 1);
      return randomNums[randomNums.Length - 1];
    }
  }
}
