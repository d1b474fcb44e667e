/** The two promises the terminal request step races against the native
    request: the timeout racer and the abort racer. Neither ever fulfils. */
module Racers {
  import opened Types
  import opened Errors
  import Native

  /** The message of the abort racer's rejection. */
  const AbortedMarker: string := "__ABORTED__"

  predicate IsDigit(c: char) {
    '0' <= c <= '9'
  }

  predicate AllDigits(s: string) {
    forall i :: 0 <= i < |s| ==> IsDigit(s[i])
  }

  /** A digit string as JavaScript prints a natural number: non-empty, and
      without a leading zero unless it is "0". */
  predicate Canonical(s: string) {
    AllDigits(s) && |s| >= 1 && (s[0] == '0' ==> |s| == 1)
  }

  function DigitChar(d: nat): (c: char)
    requires d < 10
    ensures IsDigit(c) && c as int - '0' as int == d
  {
    ('0' as int + d) as char
  }

  /** `${n}` for a natural number `n`. */
  function NatToDecimal(n: nat): (s: string)
    ensures Canonical(s)
    decreases n
  {
    if n < 10 then [DigitChar(n)] else NatToDecimal(n / 10) + [DigitChar(n % 10)]
  }

  /** The number a digit string denotes; the reference that `NatToDecimal`
      is checked against. */
  function DecimalValue(s: string): nat
    requires AllDigits(s)
  {
    if s == [] then 0
    else DecimalValue(s[..|s| - 1]) * 10 + (s[|s| - 1] as int - '0' as int)
  }

  lemma {:induction false} DecimalRoundTrip(n: nat)
    ensures DecimalValue(NatToDecimal(n)) == n
    decreases n
  {
    if n >= 10 {
      var s := NatToDecimal(n);
      DecimalRoundTrip(n / 10);
      assert s[..|s| - 1] == NatToDecimal(n / 10);
    }
  }

  lemma {:induction false} CanonicalRoundTrip(s: string)
    requires Canonical(s)
    ensures NatToDecimal(DecimalValue(s)) == s
    decreases |s|
  {
    if |s| > 1 {
      var init := s[..|s| - 1];
      assert init[0] == s[0];
      CanonicalRoundTrip(init);
      var d := s[|s| - 1] as int - '0' as int;
      var v := DecimalValue(init);
      assert v != 0;
      assert DecimalValue(s) / 10 == v && DecimalValue(s) % 10 == d;
      assert s == init + [s[|s| - 1]];
    }
  }

  /** The message of the timeout rejection. */
  function TimeoutMessage(msec: nat, timeoutMessage: Field<string>): (m: string)
    ensures TruthyText(timeoutMessage) ==> m == timeoutMessage.value
  {
    if TruthyText(timeoutMessage) then timeoutMessage.value
    else "timeout of " + NatToDecimal(msec) + "ms exceeded"
  }

  /** Without a custom message, the message is the default text around the
      delay as `${msec}` prints it, and the delay can be read back from it. */
  lemma TimeoutMessageNamesDelay(msec: nat, timeoutMessage: Field<string>)
    requires !TruthyText(timeoutMessage)
    ensures var m := TimeoutMessage(msec, timeoutMessage);
      && |m| > 22
      && m[..11] == "timeout of "
      && m[|m| - 11..] == "ms exceeded"
      && m[11..|m| - 11] == NatToDecimal(msec)
      && AllDigits(m[11..|m| - 11])
      && DecimalValue(m[11..|m| - 11]) == msec
  {
    var m := TimeoutMessage(msec, timeoutMessage);
    var d := NatToDecimal(msec);
    assert m[11..|m| - 11] == d;
    DecimalRoundTrip(msec);
  }

  /** `timeout2Throw(msec, timeoutMessage, request)`: rejects after `msec`
      milliseconds with a `RequestError` of type `'Timeout'`, never fulfils. */
  function TimeoutToThrow(msec: nat, timeoutMessage: Field<string>, request: Options): (r: Settlement<TaroResult>)
    ensures r.Settled? && r.at == msec && r.outcome.Err?
    ensures var e := r.outcome.error;
      && e.RequestError? && e.Name() == "RequestError"
      && e.kind == "Timeout" && e.request == request
      && e.message == TimeoutMessage(msec, timeoutMessage)
  {
    Settled(msec, Err(NewRequestError(TimeoutMessage(msec, timeoutMessage), request, "Timeout")))
  }

  /** Whether the request carries a signal that will fire. */
  predicate SignalFires(request: Options) {
    request.signal.Present? && request.signal.value.firesAt.Some?
  }

  /** How the abort racer settles: never without a firing signal, otherwise
      rejected with the abort marker when the signal fires. */
  function AbortRacer(request: Options): (r: Settlement<TaroResult>)
    ensures r.Pending? <==> !SignalFires(request)
    ensures r.Settled? ==> r.at == request.signal.value.firesAt.value
    ensures r.Settled? ==> r.outcome == Err(PlainError(AbortedMarker))
  {
    if SignalFires(request) then Settled(request.signal.value.firesAt.value, Err(PlainError(AbortedMarker)))
    else Pending
  }

  /** `abort2Throw(request, instance)`: when the signal fires, the listener
      aborts the native task and then rejects with the abort marker. */
  method AbortToThrow(request: Options, instance: Native.RequestTask) returns (racer: Settlement<TaroResult>)
    modifies instance
    ensures racer == AbortRacer(request)
    ensures instance.aborted == (old(instance.aborted) || SignalFires(request))
  {
    racer := Pending;
    if request.signal.Present? {
      match request.signal.value.firesAt
      case Some(t) =>
        instance.Abort();
        racer := Settled(t, Err(PlainError(AbortedMarker)));
      case None =>
    }
  }
}
