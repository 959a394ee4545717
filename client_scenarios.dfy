/**
  A caller of the generator. The methods below work through the scenarios of
  RandomGenTest.java, plus two that it does not have (two empty arrays, and the
  draw 0.5 on the five-outcome distribution). Every assertion follows from the
  definitions and contracts of `Solution`.
 */
module Client {
  import opened Solution

  /** Construction: one accepted input and one input per validation error. */
  method ConstructionScenarios()
  {
    var nums := new int[] [1, 2, 3];
    var valid := new real[] [0.2, 0.3, 0.5];
    assert valid[..] == [0.2, 0.3, 0.5];
    assert PrefixSum(valid[..], 1) == 0.2;
    assert PrefixSum(valid[..], 2) == 0.5;
    assert Sum(valid[..]) == 1.0;
    assert IsDistribution(valid[..]);
    var r := RandomGen.Create(nums, valid);
    assert r.Ok?;

    r := RandomGen.Create(null, valid);
    assert r == Err(LengthMismatch);
    r := RandomGen.Create(nums, null);
    assert r == Err(LengthMismatch);

    var longer := new real[] [0.2, 0.3, 0.5, 0.1];
    r := RandomGen.Create(nums, longer);
    assert r == Err(LengthMismatch);

    var negative := new real[] [0.2, -0.3, 0.5];
    assert !InRange(negative[..][1]);
    r := RandomGen.Create(nums, negative);
    assert r == Err(OutOfRange);

    var short := new real[] [0.2, 0.3, 0.4];
    assert short[..] == [0.2, 0.3, 0.4];
    assert PrefixSum(short[..], 1) == 0.2;
    assert PrefixSum(short[..], 2) == 0.5;
    assert AllInRange(short[..]) && Sum(short[..]) == 0.9;
    r := RandomGen.Create(nums, short);
    assert r == Err(SumNotOne);

    // Two empty arrays have the same length but sum to 0.
    var noNums := new int[0];
    var noProbabilities := new real[0];
    r := RandomGen.Create(noNums, noProbabilities);
    assert r == Err(SumNotOne);
  }

  /** The exception messages the tests compare against, one per error, each
      written as the template's fixed part followed by the cause. */
  method MessageScenarios()
  {
    assert Message(LengthMismatch) ==
      "Invalid inputs: " + "randomNums and probabilities must have the same length.";
    assert Message(OutOfRange) ==
      "Invalid inputs: " + "probabilities must be between 0.0 and 1.0 (inclusive).";
    assert Message(SumNotOne) ==
      "Invalid inputs: " + "sum of probabilities must be 1.0.";
  }

  /** Draws: a single certain outcome, and the five-outcome distribution. */
  method DrawScenarios(u: real)
    requires 0.0 <= u < 1.0
  {
    var single := new int[] [42];
    var certain := new real[] [1.0];
    assert certain[..] == [1.0];
    assert PrefixSum(certain[..], 1) == 1.0;
    assert IsDistribution(certain[..]);
    var r := RandomGen.Create(single, certain);
    var g := r.value;
    var n := g.NextNum(u);
    assert n == 42;

    var nums := new int[] [-1, 0, 1, 2, 3];
    var probabilities := new real[] [0.01, 0.3, 0.58, 0.1, 0.01];
    var p := probabilities[..];
    assert p == [0.01, 0.3, 0.58, 0.1, 0.01];
    assert PrefixSum(p, 1) == 0.01;
    assert PrefixSum(p, 2) == 0.31;
    assert PrefixSum(p, 3) == 0.89;
    assert PrefixSum(p, 4) == 0.99;
    assert Sum(p) == 1.0;
    assert IsDistribution(p);
    r := RandomGen.Create(nums, probabilities);
    g := r.value;
    n := g.NextNum(u);
    assert nums[..] == [-1, 0, 1, 2, 3];
    assert -1 <= n <= 3;

    // 0.5 falls in [0.31, 0.89), the interval of the third outcome.
    SelectIffInInterval(p, 0.5, 2);
    n := g.NextNum(0.5);
    assert n == 1;
  }
}
