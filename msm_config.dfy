/**
 * Command-line configuration of the MSM benchmark: the flag-value parsers for
 * the test set, the vendor and the algorithm, the vendor printer, the
 * post-parse sort of the degree list and the point counts derived from it.
 */
module MsmConfig {

  datatype TestSet = Random | NonUniform

  datatype Vendor = Arkworks | Bellman | Halo2

  /** What a flag-value parser reports: the value it stored, or why it refused the input. */
  datatype Parsed<T> = Ok(value: T) | Refused(reason: string)

  /** The spellings advertised by the help text of --test_set. */
  function TestSetName(t: TestSet): (r: string)
    ensures r == "random" || r == "non_uniform"
  {
    match t
    case Random => "random"
    case NonUniform => "non_uniform"
  }

  /** Value parser of --test_set. */
  function ParseTestSet(input: string): (r: Parsed<TestSet>)
    ensures r.Ok? <==> exists t :: TestSetName(t) == input
    ensures r.Ok? ==> TestSetName(r.value) == input
    ensures r.Refused? ==> r.reason == "Unknown test set: " + input
  {
    if input == "random" then assert TestSetName(Random) == input; Ok(Random)
    else if input == "non_uniform" then assert TestSetName(NonUniform) == input; Ok(NonUniform)
    else Refused("Unknown test set: " + input)
  }

  /** Parsing an advertised test-set spelling gives that test set back. */
  lemma TestSetRoundTrip(t: TestSet)
    ensures ParseTestSet(TestSetName(t)) == Ok(t)
  {
  }

  /** Printer of a vendor; the exact inverse of ParseVendor on the accepted spellings. */
  function VendorToString(vendor: Vendor): (r: string)
    ensures r == "arkworks" || r == "bellman" || r == "halo2"
  {
    match vendor
    case Arkworks => "arkworks"
    case Bellman => "bellman"
    case Halo2 => "halo2"
  }

  /** Value parser of --vendor: it accepts exactly the strings VendorToString prints. */
  function ParseVendor(input: string): (r: Parsed<Vendor>)
    ensures r.Ok? <==> exists v :: VendorToString(v) == input
    ensures r.Ok? ==> VendorToString(r.value) == input
    ensures r.Refused? ==> r.reason == "Unknown vendor: " + input
  {
    if input == "arkworks" then assert VendorToString(Arkworks) == input; Ok(Arkworks)
    else if input == "bellman" then assert VendorToString(Bellman) == input; Ok(Bellman)
    else if input == "halo2" then assert VendorToString(Halo2) == input; Ok(Halo2)
    else Refused("Unknown vendor: " + input)
  }

  /** Parsing what VendorToString prints gives the vendor back. */
  lemma VendorRoundTrip(vendor: Vendor)
    ensures ParseVendor(VendorToString(vendor)) == Ok(vendor)
  {
  }

  /** No two vendors share a spelling. */
  lemma VendorToStringInjective(v: Vendor, w: Vendor)
    ensures VendorToString(v) == VendorToString(w) ==> v == w
  {
  }

  /** The --algo callback: the number it stores in the algorithm field, or its refusal. */
  function ParseAlgorithm(arg: string): (r: Parsed<int>)
    ensures r.Ok? <==> arg == "bellman_msm" || arg == "cuzk"
    ensures r.Ok? ==> (r.value == 0 <==> arg == "bellman_msm") && (r.value == 1 <==> arg == "cuzk")
    ensures r.Refused? ==> r.reason == "Not supported algorithm: " + arg
  {
    if arg == "bellman_msm" then Ok(0)
    else if arg == "cuzk" then Ok(1)
    else Refused("Not supported algorithm: " + arg)
  }

  predicate Sorted(s: seq<nat>) {
    forall i, j :: 0 <= i < j < |s| ==> s[i] <= s[j]
  }

  /** Places x into the sorted sequence s. */
  function InsertSorted(x: nat, s: seq<nat>): (r: seq<nat>)
    requires Sorted(s)
    ensures Sorted(r)
    ensures multiset(r) == multiset(s) + multiset{x}
    ensures |r| == |s| + 1 && r[0] == (if s == [] || x <= s[0] then x else s[0])
  {
    if s == [] || x <= s[0] then
      [x] + s
    else
      var tail := InsertSorted(x, s[1..]);
      assert s == [s[0]] + s[1..];
      [s[0]] + tail
  }

  /** Ascending order of a degree list, as `ranges::sort` leaves it. */
  function SortAscending(s: seq<nat>): (r: seq<nat>)
    ensures Sorted(r)
    ensures multiset(r) == multiset(s)
  {
    if s == [] then []
    else
      assert s == [s[0]] + s[1..];
      InsertSorted(s[0], SortAscending(s[1..]))
  }

  function Pow2(n: nat): (r: nat)
    ensures r >= 1
  {
    if n == 0 then 1 else 2 * Pow2(n - 1)
  }

  lemma {:induction false} Pow2Monotone(m: nat, n: nat)
    requires m <= n
    ensures Pow2(m) <= Pow2(n)
  {
    if m < n {
      Pow2Monotone(m, n - 1);
    }
  }

  const Int32Modulus: int := 0x1_0000_0000
  const U64Modulus: int := 0x1_0000_0000_0000_0000

  /** Two's-complement reinterpretation of a value as a 32-bit signed int. */
  function ToInt32(x: int): (r: int)
    ensures -Int32Modulus / 2 <= r < Int32Modulus / 2
    ensures (r - x) % Int32Modulus == 0
  {
    (x + Int32Modulus / 2) % Int32Modulus - Int32Modulus / 2
  }

  /** Conversion of a signed value to uint64_t (reduction modulo 2^64). */
  function ToU64(x: int): (r: nat)
    ensures r < U64Modulus
    ensures (r - x) % U64Modulus == 0
  {
    x % U64Modulus
  }

  lemma {:induction false} Pow2Add(a: nat, b: nat)
    ensures Pow2(a + b) == Pow2(a) * Pow2(b)
  {
    if b > 0 {
      Pow2Add(a, b - 1);
    }
  }

  lemma Pow2Values()
    ensures Pow2(30) == 0x4000_0000 && Pow2(31) == 0x8000_0000
  {
    assert Pow2(10) == 1024;
    Pow2Add(10, 10);
    Pow2Add(20, 10);
  }

  /** 2^d fits a 32-bit int for d up to 30; 2^31 wraps to the most negative int. */
  lemma Int32OfPow2(degree: nat)
    requires degree <= 31
    ensures degree <= 30 ==> ToInt32(Pow2(degree)) == Pow2(degree)
    ensures degree == 31 ==> ToInt32(Pow2(degree)) + Pow2(31) == 0
    ensures degree == 31 ==> ToU64(ToInt32(Pow2(degree))) == U64Modulus - Pow2(31)
  {
    Pow2Values();
    if degree <= 30 {
      Pow2Monotone(degree, 30);
    } else {
      assert ToInt32(0x8000_0000) == -0x8000_0000;
      assert ToU64(-0x8000_0000) == U64Modulus - 0x8000_0000;
    }
  }

  /**
   * `1 << degree` as written: the shift is on the int literal 1, so the
   * result is a 32-bit int, which push_back then converts to uint64_t.
   * Degrees above 31 are undefined behaviour in C++ and are not modelled.
   */
  function IntShiftToU64(degree: nat): (r: nat)
    requires degree <= 31
    ensures degree <= 30 ==> r == Pow2(degree)
    ensures degree == 31 ==> r == U64Modulus - Pow2(31)
  {
    Int32OfPow2(degree);
    ToU64(ToInt32(Pow2(degree)))
  }

  /** The point count that degree 31 yields differs from 2^31. */
  lemma IntShiftWrongAtDegree31()
    ensures IntShiftToU64(31) != Pow2(31)
  {
  }

  /**
   * The shift as written still never decreases as the degree grows: the
   * wrapped count at 31 exceeds every count below it.
   */
  lemma IntShiftMonotone(a: nat, b: nat)
    requires a <= b <= 31
    ensures IntShiftToU64(a) <= IntShiftToU64(b)
  {
    Pow2Values();
    if b <= 30 {
      Pow2Monotone(a, b);
    } else if a <= 30 {
      Pow2Monotone(a, 30);
    }
  }

  /** `uint64_t{1} << degree`: the shift on a 64-bit unsigned value. */
  function U64Shift(degree: nat): (r: nat)
    requires degree < 64
    ensures r == Pow2(degree) && r < U64Modulus
  {
    Pow2Bound(degree);
    ToU64(Pow2(degree))
  }

  lemma {:induction false} Pow2Bound(n: nat)
    requires n < 64
    ensures Pow2(n) < U64Modulus
  {
    Pow2Monotone(n, 63);
    assert Pow2(63) == 0x8000_0000_0000_0000 by {
      Pow2Values();
      Pow2Add(30, 30);
      Pow2Add(60, 3);
    }
  }

  /** 2^d for each degree d, in order. */
  function PowersOfTwo(degrees: seq<nat>): (r: seq<nat>)
    ensures |r| == |degrees|
  {
    seq(|degrees|, i requires 0 <= i < |degrees| => Pow2(degrees[i]))
  }

  /** Sorted degrees give non-decreasing point counts. */
  lemma SortedDegreesGiveSortedPointNums(degrees: seq<nat>)
    requires Sorted(degrees)
    ensures Sorted(PowersOfTwo(degrees))
  {
    var p := PowersOfTwo(degrees);
    forall i, j | 0 <= i < j < |p|
      ensures p[i] <= p[j]
    {
      Pow2Monotone(degrees[i], degrees[j]);
    }
  }

  class Config {
    /** The -n values: each is the log2 of a point count (uint64_t). */
    var degrees: seq<nat>

    /**
     * Parse: `parsed` is what the flag parser stored for -n and `parserOk`
     * whether it accepted the whole command line. Only a successful parse
     * sorts the degrees.
     */
    method Parse(parsed: seq<nat>, parserOk: bool) returns (ok: bool)
      modifies this
      ensures ok == parserOk
      ensures !ok ==> degrees == parsed
      ensures ok ==> Sorted(degrees) && multiset(degrees) == multiset(parsed)
      ensures ok ==> degrees == SortAscending(parsed)
    {
      degrees := parsed;
      if !parserOk {
        return false;
      }
      degrees := SortAscending(degrees);
      return true;
    }

    /** GetPointNums as written, with the shift on a 32-bit int. */
    method GetPointNums() returns (pointNums: seq<nat>)
      requires forall i :: 0 <= i < |degrees| ==> degrees[i] <= 31
      ensures |pointNums| == |degrees|
      ensures forall i :: 0 <= i < |degrees| ==> pointNums[i] == IntShiftToU64(degrees[i])
      ensures forall i :: 0 <= i < |degrees| && degrees[i] <= 30 ==> pointNums[i] == Pow2(degrees[i])
      ensures Sorted(degrees) ==> Sorted(pointNums)
    {
      pointNums := [];
      for k := 0 to |degrees|
        invariant |pointNums| == k
        invariant forall i :: 0 <= i < k ==> pointNums[i] == IntShiftToU64(degrees[i])
      {
        pointNums := pointNums + [IntShiftToU64(degrees[k])];
      }
      if Sorted(degrees) {
        forall i, j | 0 <= i < j < |pointNums|
          ensures pointNums[i] <= pointNums[j]
        {
          IntShiftMonotone(degrees[i], degrees[j]);
        }
      }
    }

    /** GetPointNums with the shift on a uint64_t: exactly 2^d per degree. */
    method GetPointNumsU64() returns (pointNums: seq<nat>)
      requires forall i :: 0 <= i < |degrees| ==> degrees[i] < 64
      ensures pointNums == PowersOfTwo(degrees)
      ensures Sorted(degrees) ==> Sorted(pointNums)
    {
      pointNums := [];
      for k := 0 to |degrees|
        invariant |pointNums| == k
        invariant forall i :: 0 <= i < k ==> pointNums[i] == Pow2(degrees[i])
      {
        pointNums := pointNums + [U64Shift(degrees[k])];
      }
      if Sorted(degrees) {
        SortedDegreesGiveSortedPointNums(degrees);
      }
    }
  }
}
