/**
 * The example echo service (src/services/echo_service.rs): a call counter
 * that every `echo` advances by one before answering with the new count and
 * the echoed text.  The counter is an `AtomicU64`; calls are modelled one at a
 * time, and `fetch_add` wraps around at 2^64 as the atomic does.
 */
module Echo {
  import opened Common
  import opened Fmt

  const U64Modulus: int := 0x1_0000_0000_0000_0000
  type u64 = x: int | 0 <= x < U64Modulus

  /** `EchoResponse`: the answer text and the count it reports. */
  datatype EchoResponse = EchoResponse(data: string, count: u64)

  /** `create_response`: `format!("{}: {}", count, value)` together with the count. */
  function CreateResponse(value: string, count: u64): (r: EchoResponse)
    ensures r.count == count
    ensures ParseResponseData(r.data) == Some((count as nat, value))
  {
    ResponseRoundTrip(value, count);
    EchoResponse(Decimal(count) + ": " + value, count)
  }

  /**
   * Reads a response text back into its count and echoed value: the count is
   * the digits before the first ':', the value what follows ": ".
   */
  function ParseResponseData(data: string): Option<(nat, string)> {
    match FirstIndexOf(data, ':')
    case None => None
    case Some(i) =>
      var digits := data[..i];
      var rest := data[i + 1..];
      if |digits| >= 1 && AllDigits(digits) && |rest| >= 1 && rest[0] == ' '
      then Some((ParseDecimal(digits), rest[1..]))
      else None
  }

  /**
   * A response's text determines its count and the echoed value, whatever
   * the value contains (colons included).
   */
  lemma ResponseRoundTrip(value: string, count: nat)
    ensures ParseResponseData(Decimal(count) + ": " + value) == Some((count, value))
  {
    var digits := Decimal(count);
    DigitsExclude(digits, ':');
    var data := Decimal(count) + ": " + value;
    assert data == digits + [':'] + (" " + value);
    FirstIndexOfJoin(digits, ':', " " + value);
    assert data[..|digits|] == digits;
    assert data[|digits| + 1..] == " " + value;
    DecimalRoundTrip(count);
  }

  class EchoService {
    var callCount: u64

    /** `EchoService::new`: no calls yet. */
    constructor ()
      ensures callCount == 0
    {
      callCount := 0;
    }

    /**
     * `increment_counter`: `fetch_add(1) + 1`, the counter's value after this
     * call.  Both the stored counter and the returned sum wrap at 2^64.
     */
    method IncrementCounter() returns (count: u64)
      modifies this
      ensures callCount == (old(callCount) + 1) % U64Modulus
      ensures count == callCount
    {
      var previous := callCount;
      callCount := (callCount + 1) % U64Modulus;
      count := (previous + 1) % U64Modulus;
    }

    /**
     * `echo`: advances the counter by one and answers with the new count and
     * `"<count>: <value>"`.
     */
    method Echo(value: string) returns (r: EchoResponse)
      modifies this
      ensures callCount == (old(callCount) + 1) % U64Modulus
      ensures r.count == callCount
      ensures r.data == Decimal(callCount) + ": " + value
    {
      var count := IncrementCounter();
      r := CreateResponse(value, count);
    }
  }

  /**
   * Sequential calls on a fresh service, one per value: the i-th answer (from
   * 0) reports count i + 1 and echoes the i-th value, so the counts run
   * 1, 2, …, n while fewer than 2^64 calls are made.
   */
  method EchoInSequence(values: seq<string>) returns (responses: seq<EchoResponse>)
    requires |values| < U64Modulus
    ensures |responses| == |values|
    ensures forall i :: 0 <= i < |values| ==>
              responses[i].count == i + 1 && responses[i].data == Decimal(i + 1) + ": " + values[i]
  {
    var service := new EchoService();
    responses := [];
    for i := 0 to |values|
      invariant |responses| == i
      invariant service.callCount == i
      invariant forall j :: 0 <= j < i ==>
                  responses[j].count == j + 1 && responses[j].data == Decimal(j + 1) + ": " + values[j]
    {
      var r := service.Echo(values[i]);
      responses := responses + [r];
    }
  }
}
