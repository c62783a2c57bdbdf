/**
  The decisions of the recovery coordinator that only compute.

  Source: src/g5/spot_recovery.cpp, lines 38-176 and 775-817.
 */
module RecoveryPolicy {
  import opened Prelude
  import opened MarketTypes
  import Digits

  datatype ErrorCode =
    | Timeout | Dns | Tcp | Tls | WebSocketHandshake | WebSocketRead | HttpWrite | HttpRead
    | HttpStatus | Protocol | RuntimeAdmission | ServerShutdown | Internal

  datatype NetworkError = NetworkError(code: ErrorCode, httpStatus: Option<nat>, retryAfter: Option<string>)

  /** A transport observation; its generation is the one its attempt was made for. */
  datatype TransportView = TransportView(
    started: bool, running: bool, stopped: bool, handshake: bool, depthFetched: bool,
    terminalError: Option<NetworkError>)

  datatype Cause =
    | CauseNeedsResync | CauseTransportFailure | CauseSnapshotFailure | CauseIngressOverflow
    | CauseBootstrapOverflow | CauseProtocol | CauseServerShutdown | CauseHttp429 | CauseHttp418
    | CauseHttp5xx | CauseTerminalHttp4xx | CauseInternal

  datatype Decision = Decision(recoverable: bool, cause: Cause, minimumDelay: Option<nat>)

  const MAX_RECOVERY_ATTEMPTS: nat := 6
  const MAX_INT64: nat := 0x7FFF_FFFF_FFFF_FFFF

  /** How std::from_chars ends on an unsigned 64-bit number: the position behind the digits, and what went wrong. */
  datatype Scanned = Scanned(value: nat, position: nat, invalid: bool, outOfRange: bool)

  /** The digits from `i` on, after `value`; an accumulator that would leave 64 bits is given up. */
  function ScanDigits(s: string, i: nat, value: nat, outOfRange: bool): Scanned
    requires i <= |s|
    decreases |s| - i
  {
    if i == |s| || !Digits.IsDigit(s[i]) then Scanned(value, i, i == 0, outOfRange)
    else
      var digit := Digits.DigitValue(s[i]);
      if outOfRange || value > MAX_UINT64 / 10 || value * 10 > MAX_UINT64 - digit
      then ScanDigits(s, i + 1, 0, true)
      else ScanDigits(s, i + 1, value * 10 + digit, false)
  }

  function FromChars(s: string): Scanned {
    ScanDigits(s, 0, 0, false)
  }

  /** Retry-After in its delay-seconds form. */
  function ParseRetryAfter(value: Option<string>): Option<nat> {
    if value.None? || value.value == "" then None
    else
      var scanned := FromChars(value.value);
      if scanned.invalid || scanned.outOfRange || scanned.position != |value.value| || scanned.value > MAX_INT64
      then None
      else Some(scanned.value)
  }

  /** The scan stops behind the first digits; it has their number, or found that it does not fit 64 bits. */
  lemma {:induction false} ScanIsNumber(s: string, i: nat, value: nat, outOfRange: bool)
    requires i <= |s| && Digits.AllDigits(s[..i])
    requires if outOfRange then MAX_UINT64 < Digits.NumberOf(s[..i])
             else value == Digits.NumberOf(s[..i]) && value <= MAX_UINT64
    ensures var r := ScanDigits(s, i, value, outOfRange);
            && i <= r.position <= |s| && Digits.AllDigits(s[..r.position])
            && (r.position < |s| ==> !Digits.IsDigit(s[r.position]))
            && (r.outOfRange <==> MAX_UINT64 < Digits.NumberOf(s[..r.position]))
            && (!r.outOfRange ==> r.value == Digits.NumberOf(s[..r.position]))
            && (r.invalid <==> r.position == 0)
    decreases |s| - i
  {
    if i < |s| && Digits.IsDigit(s[i]) {
      var digit := Digits.DigitValue(s[i]);
      assert s[..i + 1][..i] == s[..i];
      assert Digits.NumberOf(s[..i + 1]) == 10 * Digits.NumberOf(s[..i]) + digit;
      if outOfRange || value > MAX_UINT64 / 10 || value * 10 > MAX_UINT64 - digit {
        ScanIsNumber(s, i + 1, 0, true);
      } else {
        ScanIsNumber(s, i + 1, value * 10 + digit, false);
      }
    }
  }

  /**
    Retry-After is understood exactly when it is a non-empty string of digits
    whose number is in the range of std::chrono::seconds, and is that number.
   */
  lemma RetryAfterExactly(value: Option<string>)
    ensures var seconds := ParseRetryAfter(value);
            && (seconds.Some? <==>
                  && value.Some? && value.value != "" && Digits.AllDigits(value.value)
                  && Digits.NumberOf(value.value) <= MAX_INT64)
            && (seconds.Some? ==> seconds.value == Digits.NumberOf(value.value))
  {
    if value.Some? && value.value != "" {
      var s := value.value;
      ScanIsNumber(s, 0, 0, false);
      var r := FromChars(s);
      assert s[..|s|] == s;
      if r.position < |s| {
        assert !Digits.AllDigits(s);
      }
    }
  }

  const DELAYS: seq<nat> := [1, 2, 4, 8, 16, 30]

  /** None stands for the std::out_of_range the source throws. */
  function NormalBackoffDelay(attempt: nat): (delay: Option<nat>)
    ensures delay.Some? <==> 1 <= attempt <= MAX_RECOVERY_ATTEMPTS
  {
    if attempt == 0 || attempt > |DELAYS| then None else Some(DELAYS[attempt - 1])
  }

  /** None stands for the std::overflow_error the source throws. */
  function PlannedRotationDeadline(started: nat, age: nat): (deadline: Option<nat>)
    ensures deadline.Some? <==> started + age <= MAX_UINT64
    ensures deadline.Some? ==> deadline.value == started + age
  {
    if started > MAX_UINT64 - age then None else Some(started + age)
  }

  const REFUSED := Decision(false, CauseInternal, None)

  function ClassifyRuntime(runtime: RuntimeView, error: Option<NetworkError>): Decision {
    if runtime.state == NeedsResync then Decision(true, CauseNeedsResync, None)
    else if runtime.state == Faulted && runtime.fault.Some? then
      match runtime.fault.value
      case TransportFailure => Decision(true, CauseTransportFailure, None)
      case SnapshotFailure => Decision(true, CauseSnapshotFailure, None)
      case IngressOverflow => Decision(true, CauseIngressOverflow, None)
      case BootstrapBufferOverflow => Decision(true, CauseBootstrapOverflow, None)
      case _ => REFUSED
    else if error.Some? then Decision(true, CauseTransportFailure, None)
    else REFUSED
  }

  function ClassifyHttp(status: nat, error: NetworkError): Decision {
    if status == 429 || status == 418 then
      var retryAfter := ParseRetryAfter(error.retryAfter);
      if retryAfter.None? then REFUSED
      else Decision(true, if status == 429 then CauseHttp429 else CauseHttp418, retryAfter)
    else if 500 <= status <= 599 then Decision(true, CauseHttp5xx, None)
    else if 400 <= status <= 499 then Decision(false, CauseTerminalHttp4xx, None)
    else REFUSED
  }

  function ClassifyFailure(runtime: RuntimeView, transport: TransportView): Decision {
    var decision := ClassifyRuntime(runtime, transport.terminalError);
    if !decision.recoverable || transport.terminalError.None? then decision
    else
      var error := transport.terminalError.value;
      match error.code
      case Internal => REFUSED
      case Protocol => decision.(cause := CauseProtocol)
      case ServerShutdown => decision.(cause := CauseServerShutdown)
      case HttpStatus => if error.httpStatus.None? then REFUSED else ClassifyHttp(error.httpStatus.value, error)
      case _ => decision
  }

  /**
    A failure is retried exactly when the runtime's own state allows it and the
    transport's error does not forbid it; a rate-limit answer is retried only
    after the time it asks for, a client error or internal error never.
   */
  lemma RetriedExactly(runtime: RuntimeView, transport: TransportView)
    ensures
      var d := ClassifyFailure(runtime, transport);
      var blamed := runtime.state == NeedsResync
                    || (runtime.state == Faulted && runtime.fault.Some? &&
                        runtime.fault.value in {TransportFailure, SnapshotFailure, IngressOverflow, BootstrapBufferOverflow})
                    || (!(runtime.state == Faulted && runtime.fault.Some?) && transport.terminalError.Some?);
      var limited := transport.terminalError.Some? && transport.terminalError.value.code == HttpStatus
                     && transport.terminalError.value.httpStatus in {Some(429), Some(418)};
      && (d.recoverable <==>
            blamed && (transport.terminalError.Some? ==>
              var e := transport.terminalError.value;
              && e.code != Internal
              && (e.code == HttpStatus ==>
                    e.httpStatus.Some? &&
                    (500 <= e.httpStatus.value <= 599 || (limited && ParseRetryAfter(e.retryAfter).Some?)))))
      && (d.recoverable && limited ==> d.minimumDelay == ParseRetryAfter(transport.terminalError.value.retryAfter))
      && (d.recoverable && !limited ==> d.minimumDelay.None?)
  {
    var e := transport.terminalError;
    if e.Some? && e.value.code == HttpStatus && e.value.httpStatus.Some? {
      assert e.value.httpStatus in {Some(429), Some(418)} <==> e.value.httpStatus.value in {429, 418};
    }
  }

  predicate CleanPlannedCut(runtime: RuntimeView, transport: TransportView) {
    && transport.stopped && !transport.running && transport.terminalError.None?
    && runtime.state == Live && runtime.status == Synchronized && runtime.fault.None?
  }
}
