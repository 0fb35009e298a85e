/**
 * The email challenge of a login: attempts are counted and the challenge locks, while a resend under a cooldown
 * sends a new code and resets the count. Each call is atomic.
 */
module MfaChallenge {
  import opened Common

  const OTP_TTL_MS := 300000
  const OTP_MAX_ATTEMPTS: nat := 5
  const RESEND_COOLDOWN_MS := 60000

  datatype Status = PENDING | CONSUMED | LOCKED | EXPIRED

  /** A row; `code` stands for the code whose hash is stored. */
  datatype Challenge = Challenge(status: Status, code: nat, attemptCount: nat, maxAttempts: nat, expiresAt: Time,
                                 lastSentAt: Option<Time>, consumedAt: Option<Time>)

  datatype VerifyResult = Verified | VerifyFailed(reason: VerifyError)

  datatype VerifyError = NOT_FOUND | VERIFY_EXPIRED | VERIFY_LOCKED | INVALID_CODE

  datatype ResendResult =
    | Resent(expiresAt: Time)
    | Cooldown(retryAfterSeconds: nat)
    | NotPending
    | ResendExpired
    | ResendNotFound
    | NotDelivered

  function Created(code: nat, now: Time): Challenge {
    Challenge(PENDING, code, 0, OTP_MAX_ATTEMPTS, now + OTP_TTL_MS, Some(now), None)
  }

  predicate Usable(c: Challenge, now: Time) {
    c.consumedAt.None? && c.expiresAt > now && c.attemptCount < c.maxAttempts
  }

  /** A guess that does not have the form of a code is missing here. */
  function VerifyRow(c: Challenge, now: Time, guess: Option<nat>): (Challenge, VerifyResult) {
    if !Usable(c, now) || !c.status.PENDING? then
      if c.expiresAt <= now then (c.(status := EXPIRED), VerifyFailed(VERIFY_EXPIRED))
      else (c.(status := LOCKED), VerifyFailed(VERIFY_LOCKED))
    else if guess != Some(c.code) then
      var attempts := if c.attemptCount + 1 < c.maxAttempts then c.attemptCount + 1 else c.maxAttempts;
      if attempts >= c.maxAttempts then (c.(attemptCount := attempts, status := LOCKED), VerifyFailed(VERIFY_LOCKED))
      else (c.(attemptCount := attempts), VerifyFailed(INVALID_CODE))
    else (c.(status := CONSUMED, consumedAt := Some(now)), Verified)
  }

  predicate CanResend(lastSentAt: Option<Time>, now: Time) {
    lastSentAt.None? || now - lastSentAt.value >= RESEND_COOLDOWN_MS
  }

  /** Whole seconds until the cooldown is over, rounded up. */
  function RetryAfter(lastSentAt: Time, now: Time): nat
    requires !CanResend(Some(lastSentAt), now)
  {
    (RESEND_COOLDOWN_MS - (now - lastSentAt) + 999) / 1000
  }

  function ResendRow(c: Challenge, now: Time, code: nat, addressed: bool, delivered: bool): (Challenge, ResendResult) {
    if !c.status.PENDING? || c.consumedAt.Some? then (c, NotPending)
    else if c.expiresAt <= now then (c.(status := EXPIRED), ResendExpired)
    else if !CanResend(c.lastSentAt, now) then (c, Cooldown(RetryAfter(c.lastSentAt.value, now)))
    else if !addressed then (c, ResendNotFound)
    else if !delivered then (c, NotDelivered)
    else (c.(code := code, expiresAt := now + OTP_TTL_MS, lastSentAt := Some(now), attemptCount := 0,
             status := PENDING),
          Resent(now + OTP_TTL_MS))
  }

  /** The challenges by token, and the factors they verify. */
  class Challenges {
    var rows: map<string, Challenge>
    var verifiedFactors: set<string>

    constructor ()
      ensures rows == map[] && verifiedFactors == {}
    {
      rows, verifiedFactors := map[], {};
    }

    method Create(token: string, code: nat, now: Time)
      requires token != "" && token !in rows
      modifies this
      ensures rows == old(rows)[token := Created(code, now)]
      ensures verifiedFactors == old(verifiedFactors)
    {
      rows := rows[token := Challenge(PENDING, code, 0, OTP_MAX_ATTEMPTS, now + OTP_TTL_MS, Some(now), None)];
    }

    method Verify(token: string, factor: string, now: Time, guess: Option<nat>) returns (result: VerifyResult)
      modifies this
      ensures token == "" || token !in old(rows) ==> result == VerifyFailed(NOT_FOUND) && rows == old(rows)
      ensures token != "" && token in old(rows) ==>
                result == VerifyRow(old(rows)[token], now, guess).1 &&
                rows == old(rows)[token := VerifyRow(old(rows)[token], now, guess).0]
      ensures verifiedFactors == old(verifiedFactors) + if result.Verified? then {factor} else {}
    {
      if token == "" || token !in rows {
        return VerifyFailed(NOT_FOUND);
      }
      var challenge := rows[token];
      if !Usable(challenge, now) || !challenge.status.PENDING? {
        var expired := challenge.expiresAt <= now;
        rows := rows[token := challenge.(status := if expired then EXPIRED else LOCKED)];
        return VerifyFailed(if expired then VERIFY_EXPIRED else VERIFY_LOCKED);
      }
      if guess != Some(challenge.code) {
        var more := challenge.attemptCount + 1;
        var attemptCount := if more < challenge.maxAttempts then more else challenge.maxAttempts;
        var locked := attemptCount >= challenge.maxAttempts;
        rows := rows[token := challenge.(attemptCount := attemptCount, status := if locked then LOCKED else PENDING)];
        return VerifyFailed(if locked then VERIFY_LOCKED else INVALID_CODE);
      }
      rows := rows[token := challenge.(status := CONSUMED, consumedAt := Some(now))];
      verifiedFactors := verifiedFactors + {factor};
      result := Verified;
    }

    method Resend(token: string, now: Time, code: nat, addressed: bool, delivered: bool) returns (result: ResendResult)
      modifies this
      ensures token == "" || token !in old(rows) ==> result == ResendNotFound && rows == old(rows)
      ensures token != "" && token in old(rows) ==>
                result == ResendRow(old(rows)[token], now, code, addressed, delivered).1 &&
                rows == old(rows)[token := ResendRow(old(rows)[token], now, code, addressed, delivered).0]
      ensures verifiedFactors == old(verifiedFactors)
    {
      if token == "" || token !in rows {
        return ResendNotFound;
      }
      var challenge := rows[token];
      result := ResendRow(challenge, now, code, addressed, delivered).1;
      if result.ResendExpired? {
        rows := rows[token := challenge.(status := EXPIRED)];
      } else if result.Resent? {
        rows := rows[token := challenge.(code := code, expiresAt := now + OTP_TTL_MS, lastSentAt := Some(now),
                                         attemptCount := 0)];
      }
    }
  }

  /** Waiting as long as told is enough, and a whole second less is not. */
  lemma RetryAfterIsExact(lastSentAt: Time, now: Time)
    requires !CanResend(Some(lastSentAt), now)
    ensures var seconds := RetryAfter(lastSentAt, now);
            CanResend(Some(lastSentAt), now + 1000 * seconds) &&
              !CanResend(Some(lastSentAt), now + 1000 * (seconds - 1))
  {
  }

  datatype Event =
    | Verify(at: Time, guess: Option<nat>)
    | Resend(at: Time, code: nat, addressed: bool, delivered: bool)

  function Next(c: Challenge, e: Event): Challenge {
    match e
    case Verify(at, guess) => VerifyRow(c, at, guess).0
    case Resend(at, code, addressed, delivered) => ResendRow(c, at, code, addressed, delivered).0
  }

  function Run(c: Challenge, events: seq<Event>): Challenge
    decreases |events|
  {
    if events == [] then c else Run(Next(c, events[0]), events[1..])
  }

  /** A guess that was compared with the code, and differed. */
  predicate RecordsWrong(c: Challenge, e: Event) {
    e.Verify? && c.status.PENDING? && Usable(c, e.at) && e.guess != Some(c.code)
  }

  predicate Succeeds(c: Challenge, e: Event) {
    e.Verify? && VerifyRow(c, e.at, e.guess).1.Verified?
  }

  function WrongCodes(c: Challenge, events: seq<Event>): nat
    decreases |events|
  {
    if events == [] then 0
    else WrongCodes(Next(c, events[0]), events[1..]) + if RecordsWrong(c, events[0]) then 1 else 0
  }

  function Successes(c: Challenge, events: seq<Event>): nat
    decreases |events|
  {
    if events == [] then 0 else Successes(Next(c, events[0]), events[1..]) + if Succeeds(c, events[0]) then 1 else 0
  }

  /** The calls come in time order, from `start` to `end`. */
  ghost predicate Ordered(events: seq<Event>, start: Time, end: Time)
    decreases |events|
  {
    if events == [] then start <= end else start <= events[0].at && Ordered(events[1..], events[0].at, end)
  }

  lemma {:induction false} OrderedEnds(events: seq<Event>, start: Time, end: Time)
    requires Ordered(events, start, end)
    ensures start <= end
    decreases |events|
  {
    if events == [] {
    } else {
      OrderedEnds(events[1..], events[0].at, end);
    }
  }

  /** A challenge that has left PENDING never returns to it, and no guess is compared or accepted any more. */
  lemma {:induction false} LeavingPendingIsFinal(c: Challenge, events: seq<Event>)
    requires !c.status.PENDING?
    ensures !Run(c, events).status.PENDING? && WrongCodes(c, events) == 0 && Successes(c, events) == 0
    ensures Run(c, events).consumedAt == c.consumedAt
    decreases |events|
  {
    if events == [] {
    } else {
      LeavingPendingIsFinal(Next(c, events[0]), events[1..]);
    }
  }

  /** A pending challenge as created or resent at `sentAt`. */
  ghost predicate Live(c: Challenge, sentAt: Time) {
    c.status.PENDING? && c.consumedAt.None? && c.lastSentAt == Some(sentAt) && c.expiresAt == sentAt + OTP_TTL_MS &&
    c.maxAttempts == OTP_MAX_ATTEMPTS && c.attemptCount < c.maxAttempts
  }

  function Cooldowns(from: Time, to: Time): int {
    (to - from) / RESEND_COOLDOWN_MS
  }

  lemma {:induction false} WrongCodesFromLive(c: Challenge, sentAt: Time, events: seq<Event>, start: Time, end: Time)
    requires Live(c, sentAt) && sentAt <= start && Ordered(events, start, end)
    ensures WrongCodes(c, events) + c.attemptCount <= 4 * Cooldowns(sentAt, end) + 5
    decreases |events|
  {
    OrderedEnds(events, start, end);
    if events == [] {
    } else {
      var e, next := events[0], Next(c, events[0]);
      OrderedEnds(events[1..], e.at, end);
      if !next.status.PENDING? {
        LeavingPendingIsFinal(next, events[1..]);
      } else if next.lastSentAt == c.lastSentAt {
        WrongCodesFromLive(next, sentAt, events[1..], e.at, end);
      } else {
        WrongCodesFromLive(next, e.at, events[1..], e.at, end);
        assert e.at >= sentAt + RESEND_COOLDOWN_MS;
      }
    }
  }

  /**
   * Whatever the mix of guesses and resends: by `end` a challenge created at `start` has recorded at most four wrong
   * codes per completed cooldown, plus five.
   */
  lemma GuessBound(code: nat, events: seq<Event>, start: Time, end: Time)
    requires Ordered(events, start, end)
    ensures WrongCodes(Created(code, start), events) <= 4 * Cooldowns(start, end) + 5
  {
    WrongCodesFromLive(Created(code, start), start, events, start, end);
  }

  /** At most one success, and then it is over. */
  lemma {:induction false} AtMostOneSuccess(c: Challenge, events: seq<Event>)
    ensures Successes(c, events) <= 1
    ensures Successes(c, events) == 1 ==> c.status.PENDING? && !Run(c, events).status.PENDING?
    decreases |events|
  {
    if events == [] {
    } else {
      if Next(c, events[0]).status.PENDING? {
        AtMostOneSuccess(Next(c, events[0]), events[1..]);
      } else {
        LeavingPendingIsFinal(Next(c, events[0]), events[1..]);
      }
    }
  }

  predicate Delivers(c: Challenge, e: Event) {
    e.Resend? && ResendRow(c, e.at, e.code, e.addressed, e.delivered).1.Resent?
  }

  /** The time and the code of the last delivery, found in the calls and their answers. */
  function LastSent(c: Challenge, events: seq<Event>, sent: (Time, nat)): (Time, nat)
    decreases |events|
  {
    if events == [] then sent
    else
      var e := events[0];
      LastSent(Next(c, e), events[1..], if Delivers(c, e) then (e.at, e.code) else sent)
  }

  lemma {:induction false} LiveTracksTheLastCode(c: Challenge, sent: (Time, nat), events: seq<Event>)
    requires c.status.PENDING? ==> Live(c, sent.0) && c.code == sent.1
    ensures Run(c, events).status.PENDING? ==>
              Live(Run(c, events), LastSent(c, events, sent).0) && Run(c, events).code == LastSent(c, events, sent).1
    decreases |events|
  {
    if events == [] {
    } else {
      var e := events[0];
      var next := if Delivers(c, e) then (e.at, e.code) else sent;
      LiveTracksTheLastCode(Next(c, e), next, events[1..]);
    }
  }

  /** Only the code delivered last is ever accepted, and only within its five minutes. */
  lemma SuccessNeedsTheLastCode(code: nat, start: Time, events: seq<Event>, at: Time, guess: Option<nat>)
    requires Succeeds(Run(Created(code, start), events), Verify(at, guess))
    ensures var sent := LastSent(Created(code, start), events, (start, code));
            guess == Some(sent.1) && at < sent.0 + OTP_TTL_MS
  {
    LiveTracksTheLastCode(Created(code, start), (start, code), events);
  }

  /** How many codes have been tried since the last delivery. */
  function TriedSince(c: Challenge, events: seq<Event>, tried: nat): nat
    decreases |events|
  {
    if events == [] then tried
    else
      var e := events[0];
      TriedSince(Next(c, e), events[1..], if Delivers(c, e) then 0 else if e.Verify? then tried + 1 else tried)
  }

  lemma {:induction false} PendingCountsTries(c: Challenge, tried: nat, events: seq<Event>)
    requires c.status.PENDING? ==> c.attemptCount == tried
    ensures Run(c, events).status.PENDING? ==> Run(c, events).attemptCount == TriedSince(c, events, tried)
    decreases |events|
  {
    if events == [] {
    } else {
      var e := events[0];
      PendingCountsTries(Next(c, e), if Delivers(c, e) then 0 else if e.Verify? then tried + 1 else tried, events[1..]);
    }
  }

  /**
   * The answer to a guess, exactly, after whatever calls have left the challenge pending: the code delivered last is
   * accepted within its five minutes, however many wrong ones were tried before; a wrong one is counted, and the
   * fifth since the last delivery locks.
   */
  lemma VerifyAnswers(code: nat, start: Time, events: seq<Event>, at: Time, guess: Option<nat>)
    requires Run(Created(code, start), events).status.PENDING?
    ensures var c := Run(Created(code, start), events);
            var sent, tried := LastSent(Created(code, start), events, (start, code)),
                TriedSince(Created(code, start), events, 0);
            var (after, answer) := VerifyRow(c, at, guess);
            var inTime, right := at < sent.0 + 300000, guess == Some(sent.1);
            && tried <= 4
            && (answer == Verified <==> inTime && right)
            && (answer == VerifyFailed(VERIFY_EXPIRED) <==> !inTime)
            && (answer == VerifyFailed(INVALID_CODE) <==> inTime && !right && tried < 4)
            && (answer == VerifyFailed(VERIFY_LOCKED) <==> inTime && !right && tried == 4)
            && (after.status.CONSUMED? <==> inTime && right) && (after.consumedAt == Some(at) <==> inTime && right)
            && (after.status.EXPIRED? <==> !inTime)
            && (after.status.PENDING? <==> inTime && !right && tried < 4)
            && after.code == c.code && after.expiresAt == c.expiresAt && after.lastSentAt == c.lastSentAt
  {
    LiveTracksTheLastCode(Created(code, start), (start, code), events);
    PendingCountsTries(Created(code, start), 0, events);
  }

  /** In particular a guess succeeds exactly with the code delivered last, within its five minutes. */
  lemma SucceedsExactlyWhen(code: nat, start: Time, events: seq<Event>, at: Time, guess: Option<nat>)
    ensures var c, sent := Run(Created(code, start), events), LastSent(Created(code, start), events, (start, code));
            Succeeds(c, Verify(at, guess)) <==> c.status.PENDING? && guess == Some(sent.1) && at < sent.0 + 300000
  {
    LiveTracksTheLastCode(Created(code, start), (start, code), events);
  }

  /**
   * The answer to a resend, exactly: a pending challenge that has not expired gets a new code, a new life and a clean
   * count once a minute has passed since the last delivery, if the mail has an address and is delivered.
   */
  lemma ResendAnswers(code: nat, start: Time, events: seq<Event>, at: Time, renewed: nat, addressed: bool,
                      delivered: bool)
    requires Run(Created(code, start), events).status.PENDING?
    ensures var c := Run(Created(code, start), events);
            var sent := LastSent(Created(code, start), events, (start, code));
            var (after, answer) := ResendRow(c, at, renewed, addressed, delivered);
            var inTime, cool := at < sent.0 + 300000, at >= sent.0 + 60000;
            && (answer == ResendExpired <==> !inTime) && (after.status.EXPIRED? <==> !inTime)
            && (answer.Cooldown? <==> inTime && !cool)
            && (answer == ResendNotFound <==> inTime && cool && !addressed)
            && (answer == NotDelivered <==> inTime && cool && addressed && !delivered)
            && (answer.Resent? <==> inTime && cool && addressed && delivered)
            && (answer.Resent? ==> answer.expiresAt == at + 300000 && Live(after, at) && after.code == renewed &&
                                   after.attemptCount == 0)
            && (inTime && !answer.Resent? ==> after == c)
  {
    LiveTracksTheLastCode(Created(code, start), (start, code), events);
  }

  /** What a challenge answers that is no longer pending: never a success, and a resend never revives it. */
  lemma ClosedAnswers(c: Challenge, at: Time, guess: Option<nat>, renewed: nat, addressed: bool, delivered: bool)
    requires !c.status.PENDING?
    ensures VerifyRow(c, at, guess).1 == VerifyFailed(if c.expiresAt <= at then VERIFY_EXPIRED else VERIFY_LOCKED)
    ensures ResendRow(c, at, renewed, addressed, delivered) == (c, NotPending)
  {
  }

  /** Calls that reach the bound: four wrong codes before each resend, five at the end. */
  function Wrong(at: Time, n: nat): seq<Event> {
    if n == 0 then [] else [Verify(at, None)] + Wrong(at, n - 1)
  }

  function Worst(at: Time, rounds: nat): seq<Event>
    decreases rounds
  {
    if rounds == 0 then Wrong(at, 4) + [Verify(at, None)]
    else Wrong(at, 4) + ([Resend(at + RESEND_COOLDOWN_MS, 0, true, true)] + Worst(at + RESEND_COOLDOWN_MS, rounds - 1))
  }

  lemma {:induction false} WrongRun(c: Challenge, at: Time, n: nat, rest: seq<Event>)
    requires Live(c, at) && c.attemptCount + n <= 4
    ensures WrongCodes(c, Wrong(at, n) + rest) == n + WrongCodes(c.(attemptCount := c.attemptCount + n), rest)
    ensures forall end :: Ordered(rest, at, end) ==> Ordered(Wrong(at, n) + rest, at, end)
    decreases n
  {
    if n == 0 {
      assert Wrong(at, n) + rest == rest;
    } else {
      var events := Wrong(at, n) + rest;
      assert events[0] == Verify(at, None) && events[1..] == Wrong(at, n - 1) + rest;
      WrongRun(Next(c, events[0]), at, n - 1, rest);
    }
  }

  lemma LastFive(c: Challenge, at: Time)
    requires Live(c, at) && c.attemptCount == 0
    ensures WrongCodes(c, Worst(at, 0)) == 5 && Ordered(Worst(at, 0), at, at)
  {
    var last := [Verify(at, None)];
    WrongRun(c, at, 4, last);
    assert last[1..] == [] && Ordered(last, at, at);
  }

  /** The bound is attained after any number of cooldowns. */
  lemma {:induction false} GuessBoundIsTight(c: Challenge, at: Time, rounds: nat)
    requires Live(c, at) && c.attemptCount == 0
    ensures Ordered(Worst(at, rounds), at, at + RESEND_COOLDOWN_MS * rounds)
    ensures WrongCodes(c, Worst(at, rounds)) == 4 * Cooldowns(at, at + RESEND_COOLDOWN_MS * rounds) + 5
    decreases rounds
  {
    if rounds == 0 {
      LastFive(c, at);
    } else {
      var resend := Resend(at + RESEND_COOLDOWN_MS, 0, true, true);
      var rest := [resend] + Worst(at + RESEND_COOLDOWN_MS, rounds - 1);
      var tried := c.(attemptCount := 4);
      WrongRun(c, at, 4, rest);
      assert rest[0] == resend && rest[1..] == Worst(at + RESEND_COOLDOWN_MS, rounds - 1);
      GuessBoundIsTight(Next(tried, resend), at + RESEND_COOLDOWN_MS, rounds - 1);
    }
  }

  /** Calls that leave the status of a challenge alone that is no longer pending. */
  predicate OnlyResends(events: seq<Event>) {
    forall i :: 0 <= i < |events| ==> events[i].Resend?
  }

  /**
   * Whether a challenge that has left PENDING is CONSUMED: if and only if it was and nobody has verified since. The
   * next verification relabels it LOCKED or EXPIRED, whichever guess it brings.
   */
  lemma {:induction false} ConsumedExactlyWhen(c: Challenge, events: seq<Event>)
    requires !c.status.PENDING?
    ensures Run(c, events).status.CONSUMED? <==> c.status.CONSUMED? && OnlyResends(events)
    decreases |events|
  {
    if events == [] {
    } else {
      ConsumedExactlyWhen(Next(c, events[0]), events[1..]);
      assert OnlyResends(events) <==> events[0].Resend? && OnlyResends(events[1..]) by {
        assert events == [events[0]] + events[1..];
      }
    }
  }
}
