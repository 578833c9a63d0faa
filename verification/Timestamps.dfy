/** include/timestamp_utils.h: microseconds since the epoch as a protobuf Timestamp. */
module Timestamps {

  datatype Timestamp = Timestamp(seconds: int, nanos: int)

  const MILLION := 1_000_000

  /** C++ integer division and remainder truncate toward zero. */
  function TruncDiv(a: int, b: int): int
    requires b > 0
  {
    if a >= 0 then a / b else -((-a) / b)
  }

  function TruncMod(a: int, b: int): int
    requires b > 0
  {
    a - b * TruncDiv(a, b)
  }

  function FromUs(us: int): Timestamp {
    Timestamp(TruncDiv(us, MILLION), TruncMod(us, MILLION) * 1000)
  }

  predicate Before(a: Timestamp, b: Timestamp) {
    a.seconds < b.seconds || (a.seconds == b.seconds && a.nanos < b.nanos)
  }

  /** No microsecond is lost, and the result is a valid Timestamp exactly from the epoch on or on whole seconds. */
  lemma FromUsExact(us: int)
    ensures FromUs(us).seconds * 1_000_000_000 + FromUs(us).nanos == us * 1000
    ensures -999_999_000 <= FromUs(us).nanos <= 999_999_000
    ensures 0 <= FromUs(us).nanos <==> us >= 0 || us % MILLION == 0
  {
    var q := TruncDiv(us, MILLION);
    if us >= 0 {
      assert us == MILLION * (us / MILLION) + us % MILLION;
    } else {
      assert -us == MILLION * ((-us) / MILLION) + (-us) % MILLION;
      assert us % MILLION == 0 <==> (-us) % MILLION == 0;
    }
  }

  /** Earlier microseconds give earlier time stamps, and only those. */
  lemma FromUsKeepsOrder(a: int, b: int)
    ensures a < b <==> Before(FromUs(a), FromUs(b))
  {
    FromUsExact(a);
    FromUsExact(b);
  }
}
