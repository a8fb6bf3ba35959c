/** The coarse fee band reported with analytics events (`getFeeBucket` in
    script.js): five bands of width 5 percent, each closed at its lower
    bound, plus "unknown" for a fee that is not a finite number. */
module FeeBucket {
  import opened JsValues

  datatype Bucket = Unknown | Under5 | From5To10 | From10To15 | From15To20 | From20
  {
    /** The string the script reports. */
    function Name(): string {
      match this
      case Unknown => "unknown"
      case Under5 => "0-5"
      case From5To10 => "5-10"
      case From10To15 => "10-15"
      case From15To20 => "15-20"
      case From20 => "20+"
    }

    /** Position of a band from the lowest (0) to the highest (4). */
    function Index(): int
      requires this != Unknown
    {
      match this
      case Under5 => 0
      case From5To10 => 1
      case From10To15 => 2
      case From15To20 => 3
      case From20 => 4
    }
  }

  /** `getFeeBucket`: a chain of strict upper-bound tests. */
  function BucketOf(fee: Num): (b: Bucket)
    ensures b == Unknown <==> fee.NonFinite?
  {
    match fee
    case NonFinite => Unknown
    case Finite(f) =>
      if f < 5.0 then Under5
      else if f < 10.0 then From5To10
      else if f < 15.0 then From10To15
      else if f < 20.0 then From15To20
      else From20
  }

  /** `lo` if `x` is below it, `hi` if above, `x` otherwise. */
  function Clamp(x: int, lo: int, hi: int): int
    requires lo <= hi
  {
    if x < lo then lo else if x > hi then hi else x
  }

  /** An independent description of the bands: a finite fee lands in band
      number floor(fee / 5), clamped to the five bands. In particular each
      band includes its lower bound (5 is "5-10", 20 is "20+"). */
  lemma BucketIsClampedFifth(f: real)
    ensures BucketOf(Finite(f)).Index() == Clamp((f / 5.0).Floor, 0, 4)
  {
    var k := (f / 5.0).Floor;
    assert k as real <= f / 5.0 < k as real + 1.0;
    assert 5.0 * (k as real) <= f < 5.0 * (k as real) + 5.0;
  }

  /** The bands, read back as intervals: a finite fee in band i is at
      least 5*i (except in the lowest band, which has no floor) and below
      5*(i+1) (except in the highest band, which has no ceiling). */
  lemma BucketBounds(f: real)
    ensures var i := BucketOf(Finite(f)).Index();
      && 0 <= i <= 4
      && (i > 0 ==> 5.0 * i as real <= f)
      && (i < 4 ==> f < 5.0 * (i + 1) as real)
  {
  }

  /** A larger fee never falls into a lower band. */
  lemma BucketMonotone(a: real, b: real)
    requires a <= b
    ensures BucketOf(Finite(a)).Index() <= BucketOf(Finite(b)).Index()
  {
    BucketIsClampedFifth(a);
    BucketIsClampedFifth(b);
    assert (a / 5.0).Floor <= (b / 5.0).Floor by {
      var ka, kb := (a / 5.0).Floor, (b / 5.0).Floor;
      assert ka as real <= a / 5.0 <= b / 5.0 < kb as real + 1.0;
    }
  }

  /** Distinct bands are reported under distinct names. */
  lemma NameInjective(x: Bucket, y: Bucket)
    requires x.Name() == y.Name()
    ensures x == y
  {
  }

  /** The sample values: 4 is "0-5", 9.9 is "5-10", 5 is "5-10", 20 is
      "20+" and a non-finite fee is "unknown". */
  lemma BucketSamples()
    ensures BucketOf(Finite(4.0)).Name() == "0-5"
    ensures BucketOf(Finite(9.9)).Name() == "5-10"
    ensures BucketOf(Finite(5.0)).Name() == "5-10"
    ensures BucketOf(Finite(20.0)).Name() == "20+"
    ensures BucketOf(NonFinite).Name() == "unknown"
  {
  }
}
