/**
 login of services/users/app/routers/auth.py over its two limiters, with any number of
 requests in progress. Each call on a limiter is one step; verifying the password touches
 no shared state, so it belongs to the step that admits it.
 */
module LoginFlow {
  import opened Common
  import opened RateLimit
  import opened RateLimitTheorems
  import opened RateBound
  import opened RetryAfter
  import R = RateLimiter

  /** lower is str.lower; both limiters have the same settings. */
  datatype Settings = Settings(limits: Limits, sweeping: Sweeping, lower: string -> string)

  datatype Response = TooManyAttempts(retryAfter: int) | Unauthorized | Token

  /** Where the handler is. */
  datatype Phase = PastIpLimiter | Verified | IpCleared | Answered(response: Response)

  datatype Request = Request(ip: string, username: string, phase: Phase)

  /** One run of verify_password: for which username, and when the username limiter admitted it. */
  datatype Verification = Verification(username: string, at: real)

  /** The calls made on each limiter so far, the requests begun and the verifications run. */
  datatype Desk = Desk(
    ipLog: seq<Event>,
    userLog: seq<Event>,
    requests: map<nat, Request>,
    verified: seq<Verification>)

  /** r numbers a request; valid says whether the user exists and the password is right. */
  datatype Step =
    | EnforceIp(r: nat, ip: string, username: string, now: real)
    | EnforceUser(r: nat, now: real, valid: bool)
    | ClearIp(r: nat)
    | ClearUser(r: nat)

  const EMPTY_DESK: Desk := Desk([], [], map[], [])

  predicate Enabled(d: Desk, a: Step) {
    match a
    case EnforceIp(r, ip, username, now) => r !in d.requests && now >= LastTime(d.ipLog)
    case EnforceUser(r, now, valid) =>
      r in d.requests && d.requests[r].phase.PastIpLimiter? && now >= LastTime(d.userLog)
    case ClearIp(r) => r in d.requests && d.requests[r].phase.Verified?
    case ClearUser(r) => r in d.requests && d.requests[r].phase.IpCleared?
  }

  function UserKey(s: Settings, d: Desk, r: nat): string
    requires r in d.requests
  {
    s.lower(d.requests[r].username)
  }

  function Apply(s: Settings, d: Desk, a: Step): Desk
    requires Enabled(d, a)
  {
    match a
    case EnforceIp(r, ip, username, now) =>
      var phase := match Answer(s.limits, s.sweeping, After(s.limits, s.sweeping, d.ipLog), ip, now)
        case Allowed => PastIpLimiter
        case Rejected(retryAfter) => Answered(TooManyAttempts(Header(retryAfter)));
      d.(ipLog := d.ipLog + [Check(ip, now)], requests := d.requests[r := Request(ip, username, phase)])
    case EnforceUser(r, now, valid) =>
      var u := UserKey(s, d, r);
      var d' := d.(userLog := d.userLog + [Check(u, now)]);
      (match Answer(s.limits, s.sweeping, After(s.limits, s.sweeping, d.userLog), u, now)
       case Rejected(retryAfter) =>
         d'.(requests := d.requests[r := d.requests[r].(phase := Answered(TooManyAttempts(Header(retryAfter))))])
       case Allowed =>
         d'.(requests := d.requests[r := d.requests[r].(phase := if valid then Verified else Answered(Unauthorized))],
             verified := d.verified + [Verification(u, now)]))
    case ClearIp(r) =>
      d.(ipLog := d.ipLog + [Reset(d.requests[r].ip)], requests := d.requests[r := d.requests[r].(phase := IpCleared)])
    case ClearUser(r) =>
      d.(userLog := d.userLog + [Reset(UserKey(s, d, r))],
         requests := d.requests[r := d.requests[r].(phase := Answered(Token))])
  }

  ghost predicate Executes(s: Settings, d: Desk, steps: seq<Step>, t: Desk)
    decreases steps
  {
    if steps == [] then d == t
    else Enabled(d, steps[0]) && Executes(s, Apply(s, d, steps[0]), steps[1..], t)
  }

  /** The verifications from position i on for username u admitted at a time in [a, b). */
  function Verifications(v: seq<Verification>, i: nat, u: string, a: real, b: real): nat {
    if |v| <= i then 0
    else
      Verifications(v[..|v| - 1], i, u, a, b)
      + if v[|v| - 1].username == u && a <= v[|v| - 1].at < b then 1 else 0
  }

  /** No successful login of u, in any spelling, completes in these steps. */
  ghost predicate NoSuccess(s: Settings, d: Desk, steps: seq<Step>, u: string)
    decreases steps
  {
    steps == [] ||
    (Enabled(d, steps[0]) &&
     (steps[0].ClearUser? ==> UserKey(s, d, steps[0].r) != u) &&
     NoSuccess(s, Apply(s, d, steps[0]), steps[1..], u))
  }

  /** What one more call on the username limiter does to both counts. */
  lemma CallMatchesAdmissions(l: Limits, sweeping: Sweeping, log: seq<Event>, v: seq<Verification>, e: Event,
                              i: nat, j: nat, u: string, from: real, to: real)
    requires InOrder(log) && NoReset(log, i, u) && i <= |log| && j <= |v|
    requires (e.Check? ==> e.now >= LastTime(log)) && e != Reset(u) && !e.ResetAll?
    requires Verifications(v, j, u, from, to) == Admitted(l, sweeping, log, i, u, from, to)
    ensures InOrder(log + [e]) && NoReset(log + [e], i, u)
    ensures Admitted(l, sweeping, log + [e], i, u, from, to)
         == Verifications(
              if e.Check? && Answer(l, sweeping, After(l, sweeping, log), e.key, e.now).Allowed?
              then v + [Verification(e.key, e.now)] else v,
              j, u, from, to)
  {
    assert (log + [e])[..|log|] == log;
    if e.Check? {
      assert (v + [Verification(e.key, e.now)])[..|v|] == v;
    }
  }

  /** The call a step makes on the username limiter, and the verification that an admission lets run. */
  lemma StepCallsUserLimiter(s: Settings, d: Desk, a: Step)
    requires Enabled(d, a)
    ensures var t := Apply(s, d, a);
            match a
            case EnforceUser(r, now, _) =>
              var u := UserKey(s, d, r);
              && t.userLog == d.userLog + [Check(u, now)]
              && t.verified
                 == if Answer(s.limits, s.sweeping, After(s.limits, s.sweeping, d.userLog), u, now).Allowed?
                    then d.verified + [Verification(u, now)] else d.verified
            case ClearUser(r) => t.userLog == d.userLog + [Reset(UserKey(s, d, r))] && t.verified == d.verified
            case _ => t.userLog == d.userLog && t.verified == d.verified
  {
  }

  /** Verifications are exactly the checks the username limiter admits. */
  lemma StepMatchesAdmissions(s: Settings, d: Desk, a: Step, i: nat, j: nat, u: string, from: real, to: real)
    requires Enabled(d, a) && InOrder(d.userLog) && NoReset(d.userLog, i, u)
    requires i <= |d.userLog| && j <= |d.verified|
    requires a.ClearUser? ==> UserKey(s, d, a.r) != u
    requires Verifications(d.verified, j, u, from, to)
          == Admitted(s.limits, s.sweeping, d.userLog, i, u, from, to)
    ensures var t := Apply(s, d, a);
            && InOrder(t.userLog) && NoReset(t.userLog, i, u)
            && i <= |t.userLog| && j <= |t.verified|
            && Verifications(t.verified, j, u, from, to)
               == Admitted(s.limits, s.sweeping, t.userLog, i, u, from, to)
  {
    StepCallsUserLimiter(s, d, a);
    if a.EnforceUser? || a.ClearUser? {
      var key := UserKey(s, d, a.r);
      CallMatchesAdmissions(s.limits, s.sweeping, d.userLog, d.verified,
                            if a.EnforceUser? then Check(key, a.now) else Reset(key), i, j, u, from, to);
    }
  }

  lemma {:induction false} RunMatchesAdmissions(s: Settings, d: Desk, steps: seq<Step>, t: Desk,
                                                i: nat, j: nat, u: string, from: real, to: real)
    requires Executes(s, d, steps, t) && NoSuccess(s, d, steps, u)
    requires InOrder(d.userLog) && NoReset(d.userLog, i, u)
    requires i <= |d.userLog| && j <= |d.verified|
    requires Verifications(d.verified, j, u, from, to)
          == Admitted(s.limits, s.sweeping, d.userLog, i, u, from, to)
    ensures InOrder(t.userLog) && NoReset(t.userLog, i, u)
    ensures Verifications(t.verified, j, u, from, to)
         == Admitted(s.limits, s.sweeping, t.userLog, i, u, from, to)
    decreases steps
  {
    if steps != [] {
      StepMatchesAdmissions(s, d, steps[0], i, j, u, from, to);
      RunMatchesAdmissions(s, Apply(s, d, steps[0]), steps[1..], t, i, j, u, from, to);
    }
  }

  lemma {:induction false} RunKeepsInOrder(s: Settings, d: Desk, steps: seq<Step>, t: Desk)
    requires Executes(s, d, steps, t) && InOrder(d.ipLog) && InOrder(d.userLog)
    ensures InOrder(t.ipLog) && InOrder(t.userLog)
    decreases steps
  {
    if steps != [] {
      var t' := Apply(s, d, steps[0]);
      if t'.ipLog != d.ipLog {
        assert t'.ipLog[..|t'.ipLog| - 1] == d.ipLog;
      }
      if t'.userLog != d.userLog {
        assert t'.userLog[..|t'.userLog| - 1] == d.userLog;
      }
      RunKeepsInOrder(s, t', steps[1..], t);
    }
  }

  /**
   After any run, and over any further run without a successful login of u, the password
   verifications for u admitted in [from, to) obey the limiter's bound, however many IPs
   and spellings the requests use and however they interleave.
   */
  lemma VerificationsAreBounded(s: Settings, past: seq<Step>, d: Desk, steps: seq<Step>, t: Desk,
                                u: string, from: real, to: real)
    requires s.limits.Sensible() && Executes(s, EMPTY_DESK, past, d)
    requires Executes(s, d, steps, t) && NoSuccess(s, d, steps, u)
    ensures Verifications(t.verified, |d.verified|, u, from, to) <= Bound(s.limits, to - from)
  {
    RunKeepsInOrder(s, EMPTY_DESK, past, d);
    var i := |d.userLog|;
    RunMatchesAdmissions(s, d, steps, t, i, |d.verified|, u, from, to);
    AdmittedIsBounded(s.limits, s.sweeping, t.userLog, i, u, from, to);
  }

  lemma {:induction false} AnsweredRequestTakesNoStep(s: Settings, d: Desk, steps: seq<Step>, t: Desk, r: nat, i: nat)
    requires Executes(s, d, steps, t) && r in d.requests && d.requests[r].phase.Answered? && i < |steps|
    ensures steps[i].r != r
    decreases steps
  {
    if i > 0 {
      AnsweredRequestTakesNoStep(s, Apply(s, d, steps[0]), steps[1..], t, r, i - 1);
    }
  }

  /** A request the IP limiter stops leaves the username limiter alone, then and ever after. */
  lemma IpRejectionCostsNoBudget(s: Settings, d: Desk, r: nat, ip: string, username: string, now: real,
                                 retryAfter: real, steps: seq<Step>, t: Desk)
    requires Enabled(d, EnforceIp(r, ip, username, now))
    requires Answer(s.limits, s.sweeping, After(s.limits, s.sweeping, d.ipLog), ip, now) == Rejected(retryAfter)
    requires Executes(s, Apply(s, d, EnforceIp(r, ip, username, now)), steps, t)
    ensures var d' := Apply(s, d, EnforceIp(r, ip, username, now));
            && d'.userLog == d.userLog && d'.verified == d.verified
            && d'.requests[r].phase == Answered(TooManyAttempts(Header(retryAfter)))
    ensures forall i :: 0 <= i < |steps| ==> steps[i].r != r
  {
    forall i | 0 <= i < |steps| ensures steps[i].r != r {
      AnsweredRequestTakesNoStep(s, Apply(s, d, EnforceIp(r, ip, username, now)), steps, t, r, i);
    }
  }

  // ----- what a request is answered -----

  /** The username limiter lets the attempt of request r at this time through. */
  predicate Admits(s: Settings, d: Desk, r: nat, now: real) {
    && r in d.requests
    && Answer(s.limits, s.sweeping, After(s.limits, s.sweeping, d.userLog), UserKey(s, d, r), now) == Allowed
  }

  /** Step i of the run verifies the password of request r, the username limiter having let it through. */
  ghost predicate VerifiesAt(s: Settings, d: Desk, steps: seq<Step>, i: nat, r: nat, valid: bool)
    decreases steps
  {
    && i < |steps| && Enabled(d, steps[0])
    && if i > 0 then VerifiesAt(s, Apply(s, d, steps[0]), steps[1..], i - 1, r, valid)
       else steps[0].EnforceUser? && steps[0].r == r && steps[0].valid == valid && Admits(s, d, r, steps[0].now)
  }

  ghost predicate Verifies(s: Settings, d: Desk, steps: seq<Step>, r: nat, valid: bool) {
    exists i: nat :: VerifiesAt(s, d, steps, i, r, valid)
  }

  /** The request has had its password accepted. */
  predicate PasswordAccepted(phase: Phase) {
    phase == Verified || phase == IpCleared || phase == Answered(Token)
  }

  lemma VerifiesUnfold(s: Settings, d: Desk, steps: seq<Step>, r: nat, valid: bool)
    requires steps != [] && Enabled(d, steps[0])
    ensures Verifies(s, d, steps, r, valid) <==>
            || VerifiesAt(s, d, steps, 0, r, valid)
            || Verifies(s, Apply(s, d, steps[0]), steps[1..], r, valid)
  {
    var d', rest := Apply(s, d, steps[0]), steps[1..];
    if Verifies(s, d, steps, r, valid) {
      var i: nat :| VerifiesAt(s, d, steps, i, r, valid);
      assert i > 0 ==> VerifiesAt(s, d', rest, i - 1, r, valid);
    }
    if Verifies(s, d', rest, r, valid) {
      var i: nat :| VerifiesAt(s, d', rest, i, r, valid);
      assert VerifiesAt(s, d, steps, i + 1, r, valid);
    }
  }

  lemma StepVerifies(s: Settings, d: Desk, a: Step, r: nat)
    requires Enabled(d, a)
    ensures var t := Apply(s, d, a);
            && (r in t.requests <==> r in d.requests || (a.EnforceIp? && a.r == r))
            && (r in t.requests ==>
                  (PasswordAccepted(t.requests[r].phase) <==>
                     || VerifiesAt(s, d, [a], 0, r, true)
                     || (r in d.requests && PasswordAccepted(d.requests[r].phase)))
                  && (t.requests[r].phase == Answered(Unauthorized) <==>
                     || VerifiesAt(s, d, [a], 0, r, false)
                     || (r in d.requests && d.requests[r].phase == Answered(Unauthorized))))
  {
  }

  /** Over a run, from any state: what has become of request r since. */
  lemma {:induction false} RunVerifies(s: Settings, d: Desk, steps: seq<Step>, t: Desk, r: nat)
    requires Executes(s, d, steps, t)
    ensures r in d.requests ==> r in t.requests
    ensures r in t.requests ==>
              (PasswordAccepted(t.requests[r].phase) <==>
                 Verifies(s, d, steps, r, true) || (r in d.requests && PasswordAccepted(d.requests[r].phase)))
              && (t.requests[r].phase == Answered(Unauthorized) <==>
                 || Verifies(s, d, steps, r, false)
                 || (r in d.requests && d.requests[r].phase == Answered(Unauthorized)))
    ensures r !in t.requests ==> !Verifies(s, d, steps, r, true) && !Verifies(s, d, steps, r, false)
    decreases steps
  {
    if steps != [] {
      StepVerifies(s, d, steps[0], r);
      assert forall valid :: VerifiesAt(s, d, steps, 0, r, valid) <==> VerifiesAt(s, d, [steps[0]], 0, r, valid);
      VerifiesUnfold(s, d, steps, r, true);
      VerifiesUnfold(s, d, steps, r, false);
      RunVerifies(s, Apply(s, d, steps[0]), steps[1..], t, r);
    }
  }

  /**
   Over every run: a request has been granted a token, or is on the way to it, exactly if
   its right password was verified after the username limiter let it through; it is answered
   401 exactly if a wrong one was.
   */
  lemma PasswordDecides(s: Settings, steps: seq<Step>, t: Desk, r: nat)
    requires Executes(s, EMPTY_DESK, steps, t) && r in t.requests
    ensures PasswordAccepted(t.requests[r].phase) <==> Verifies(s, EMPTY_DESK, steps, r, true)
    ensures t.requests[r].phase == Answered(Unauthorized) <==> Verifies(s, EMPTY_DESK, steps, r, false)
  {
    RunVerifies(s, EMPTY_DESK, steps, t, r);
  }

  /** Budgets are cleared only for requests whose right password was verified. */
  lemma OnlySuccessClears(s: Settings, steps: seq<Step>, t: Desk, a: Step)
    requires Executes(s, EMPTY_DESK, steps, t) && Enabled(t, a) && (a.ClearIp? || a.ClearUser?)
    ensures Verifies(s, EMPTY_DESK, steps, a.r, true)
  {
    PasswordDecides(s, steps, t, a.r);
  }

  /** A key just reset has its full budget again: the next check of it passes and opens a window. */
  lemma ResetRestoresBudget(l: Limits, sweeping: Sweeping, log: seq<Event>, k: string, now: real)
    requires l.Sensible() && l.maxAttempts >= 1 && InOrder(log) && now >= LastTime(log)
    ensures Answer(l, sweeping, After(l, sweeping, log + [Reset(k)]), k, now) == Allowed
    ensures OwnBucket(l, k, log + [Reset(k), Check(k, now)]) == Some(Bucket(1, now, 0.0))
  {
    var cleared, checked := log + [Reset(k)], log + [Reset(k), Check(k, now)];
    assert cleared[..|log|] == log && checked[..|checked| - 1] == cleared;
    NeverNegative(log);
    AnswerFromOwnHistory(l, sweeping, cleared, k, now);
  }

  /**
   Success forgives: in any run, once the username budget is cleared the next attempt on
   that username is let through by its limiter, whatever failed before.
   */
  lemma SuccessRestoresBudget(s: Settings, past: seq<Step>, d: Desk, r: nat, now: real)
    requires s.limits.Sensible() && s.limits.maxAttempts >= 1
    requires Executes(s, EMPTY_DESK, past, d) && Enabled(d, ClearUser(r)) && now >= LastTime(d.userLog)
    ensures var t := Apply(s, d, ClearUser(r));
            Answer(s.limits, s.sweeping, After(s.limits, s.sweeping, t.userLog), UserKey(s, d, r), now) == Allowed
    ensures Verifies(s, EMPTY_DESK, past, r, true)
  {
    OnlySuccessClears(s, past, d, ClearUser(r));
    RunKeepsInOrder(s, EMPTY_DESK, past, d);
    ResetRestoresBudget(s.limits, s.sweeping, d.userLog, UserKey(s, d, r), now);
  }

  /** The same for the IP address of a request whose password was right. */
  lemma SuccessRestoresIpBudget(s: Settings, past: seq<Step>, d: Desk, r: nat, now: real)
    requires s.limits.Sensible() && s.limits.maxAttempts >= 1
    requires Executes(s, EMPTY_DESK, past, d) && Enabled(d, ClearIp(r)) && now >= LastTime(d.ipLog)
    ensures var t := Apply(s, d, ClearIp(r));
            Answer(s.limits, s.sweeping, After(s.limits, s.sweeping, t.ipLog), d.requests[r].ip, now) == Allowed
    ensures Verifies(s, EMPTY_DESK, past, r, true)
  {
    OnlySuccessClears(s, past, d, ClearIp(r));
    RunKeepsInOrder(s, EMPTY_DESK, past, d);
    ResetRestoresBudget(s.limits, s.sweeping, d.ipLog, d.requests[r].ip, now);
  }

  /** The tables of both limiters. */
  function IpTable(s: Settings, d: Desk): Table {
    After(s.limits, s.sweeping, d.ipLog)
  }

  function UserTable(s: Settings, d: Desk): Table {
    After(s.limits, s.sweeping, d.userLog)
  }

  /** A new request that takes all its steps before any other does. */
  function Alone(s: Settings, d: Desk, r: nat, ip: string, username: string, ipTime: real, userTime: real, valid: bool)
    : Desk
    requires r !in d.requests && ipTime >= LastTime(d.ipLog) && userTime >= LastTime(d.userLog)
  {
    var d1 := Apply(s, d, EnforceIp(r, ip, username, ipTime));
    if !Enabled(d1, EnforceUser(r, userTime, valid)) then d1
    else
      var d2 := Apply(s, d1, EnforceUser(r, userTime, valid));
      if !Enabled(d2, ClearIp(r)) then d2
      else Apply(s, Apply(s, d2, ClearIp(r)), ClearUser(r))
  }

  lemma AfterOne(l: Limits, sweeping: Sweeping, log: seq<Event>, e: Event)
    ensures After(l, sweeping, log + [e]) == RateLimit.Step(l, sweeping, After(l, sweeping, log), e)
  {
    assert (log + [e])[..|log|] == log;
  }

  /** The calls on the limiters and the response, by the two verdicts. */
  lemma AloneEffect(s: Settings, d: Desk, r: nat, ip: string, username: string,
                    ipTime: real, userTime: real, valid: bool)
    requires r !in d.requests && ipTime >= LastTime(d.ipLog) && userTime >= LastTime(d.userLog)
    ensures var t := Alone(s, d, r, ip, username, ipTime, userTime, valid);
            var name := s.lower(username);
            var ipVerdict := Answer(s.limits, s.sweeping, IpTable(s, d), ip, ipTime);
            var userVerdict := Answer(s.limits, s.sweeping, UserTable(s, d), name, userTime);
            var success := ipVerdict.Allowed? && userVerdict.Allowed? && valid;
            && r in t.requests
            && t.requests[r].phase
               == Answered(if ipVerdict.Rejected? then TooManyAttempts(Header(ipVerdict.retryAfter))
                           else if userVerdict.Rejected? then TooManyAttempts(Header(userVerdict.retryAfter))
                           else if valid then Token
                           else Unauthorized)
            && t.ipLog == (d.ipLog + [Check(ip, ipTime)]) + (if success then [Reset(ip)] else [])
            && t.userLog == if ipVerdict.Rejected? then d.userLog
                            else (d.userLog + [Check(name, userTime)]) + (if success then [Reset(name)] else [])
  {
  }

  /** What a check, and a reset after it if it was a success, make of a limiter's table. */
  lemma TableAfter(l: Limits, sweeping: Sweeping, log: seq<Event>, e: Event, k: string, success: bool)
    ensures var checked := RateLimit.Step(l, sweeping, After(l, sweeping, log), e);
            After(l, sweeping, (log + [e]) + (if success then [Reset(k)] else []))
            == if success then RateLimit.Step(l, sweeping, checked, Reset(k)) else checked
  {
    AfterOne(l, sweeping, log, e);
    if success {
      AfterOne(l, sweeping, log + [e], Reset(k));
    } else {
      assert (log + [e]) + [] == log + [e];
    }
  }

  /**
   The steps of one request, taken one after the other, are what the method Login does: the
   same response and the same tables in each of the four cases of its contract.
   */
  lemma StepsMatchLogin(s: Settings, d: Desk, r: nat, ip: string, username: string,
                        ipTime: real, userTime: real, valid: bool)
    requires r !in d.requests && ipTime >= LastTime(d.ipLog) && userTime >= LastTime(d.userLog)
    ensures var t := Alone(s, d, r, ip, username, ipTime, userTime, valid);
            var name := s.lower(username);
            var ipVerdict := Answer(s.limits, s.sweeping, IpTable(s, d), ip, ipTime);
            var userVerdict := Answer(s.limits, s.sweeping, UserTable(s, d), name, userTime);
            var ips' := RateLimit.Step(s.limits, s.sweeping, IpTable(s, d), Check(ip, ipTime));
            var users' := RateLimit.Step(s.limits, s.sweeping, UserTable(s, d), Check(name, userTime));
            && r in t.requests && t.requests[r].phase.Answered?
            && var response := t.requests[r].phase.response;
               && (ipVerdict.Rejected? ==>
                     && response == TooManyAttempts(Header(ipVerdict.retryAfter))
                     && IpTable(s, t) == ips' && UserTable(s, t) == UserTable(s, d))
               && (ipVerdict.Allowed? && userVerdict.Rejected? ==>
                     && response == TooManyAttempts(Header(userVerdict.retryAfter))
                     && IpTable(s, t) == ips' && UserTable(s, t) == users')
               && (ipVerdict.Allowed? && userVerdict.Allowed? && !valid ==>
                     && response == Unauthorized && IpTable(s, t) == ips' && UserTable(s, t) == users')
               && (ipVerdict.Allowed? && userVerdict.Allowed? && valid ==>
                     && response == Token
                     && IpTable(s, t) == RateLimit.Step(s.limits, s.sweeping, ips', Reset(ip))
                     && UserTable(s, t) == RateLimit.Step(s.limits, s.sweeping, users', Reset(name)))
  {
    AloneEffect(s, d, r, ip, username, ipTime, userTime, valid);
    var name := s.lower(username);
    var success := Answer(s.limits, s.sweeping, IpTable(s, d), ip, ipTime).Allowed?
                   && Answer(s.limits, s.sweeping, UserTable(s, d), name, userTime).Allowed? && valid;
    TableAfter(s.limits, s.sweeping, d.ipLog, Check(ip, ipTime), ip, success);
    TableAfter(s.limits, s.sweeping, d.userLog, Check(name, userTime), name, success);
  }

  // ----- one request on the real limiters -----

  /** _enforce: None if the attempt is let through, the Retry-After header otherwise. */
  method Enforce(limiter: R.RateLimiter, key: string, now: real) returns (header: Option<int>)
    requires limiter.Valid()
    modifies limiter, limiter.buckets.Values
    ensures limiter.Valid() && fresh(limiter.buckets.Values - old(limiter.buckets.Values))
    ensures limiter.View()
         == RateLimit.Step(limiter.limits, Every(limiter.sampleSize), old(limiter.View()), Check(key, now))
    ensures header == match Answer(limiter.limits, Every(limiter.sampleSize), old(limiter.View()), key, now)
                      case Allowed => None
                      case Rejected(retryAfter) => Some(Header(retryAfter))
  {
    var v := limiter.Check(key, now);
    header := match v case Allowed => None case Rejected(retryAfter) => Some(Header(retryAfter));
  }

  /** The next table and the verdict of a check on a limiter whose table was t. */
  ghost function Checked(limiter: R.RateLimiter, t: Table, key: string, now: real): (Table, Verdict) {
    (RateLimit.Step(limiter.limits, Every(limiter.sampleSize), t, Check(key, now)),
     Answer(limiter.limits, Every(limiter.sampleSize), t, key, now))
  }

  ghost function Cleared(limiter: R.RateLimiter, t: Table, key: string): Table {
    RateLimit.Step(limiter.limits, Every(limiter.sampleSize), t, Reset(key))
  }

  /** Both limiters, the IP one first; None if both let the attempt through. */
  method EnforceBoth(ips: R.RateLimiter, users: R.RateLimiter, ip: string, name: string, ipTime: real, userTime: real)
    returns (header: Option<int>)
    requires ips.Valid() && users.Valid() && ips != users && ips.buckets.Values !! users.buckets.Values
    modifies ips, ips.buckets.Values, users, users.buckets.Values
    ensures ips.Valid() && users.Valid() && ips.buckets.Values !! users.buckets.Values
    ensures fresh(ips.buckets.Values - old(ips.buckets.Values))
    ensures fresh(users.buckets.Values - old(users.buckets.Values))
    ensures var (ips', ipVerdict) := Checked(ips, old(ips.View()), ip, ipTime);
            var (users', userVerdict) := Checked(users, old(users.View()), name, userTime);
            && ips.View() == ips'
            && users.View() == (if ipVerdict.Allowed? then users' else old(users.View()))
            && header == if ipVerdict.Rejected? then Some(Header(ipVerdict.retryAfter))
                         else if userVerdict.Rejected? then Some(Header(userVerdict.retryAfter))
                         else None
  {
    header := Enforce(ips, ip, ipTime);
    assert users.View() == old(users.View());
    if header.None? {
      label ipPassed:
      header := Enforce(users, name, userTime);
      assert ips.View() == old@ipPassed(ips.View());
    }
  }

  /** Both resets after a right password. */
  method ClearBoth(ips: R.RateLimiter, users: R.RateLimiter, ip: string, name: string)
    requires ips.Valid() && users.Valid() && ips != users && ips.buckets.Values !! users.buckets.Values
    modifies ips, users
    ensures ips.Valid() && users.Valid()
    ensures ips.buckets.Values <= old(ips.buckets.Values) && users.buckets.Values <= old(users.buckets.Values)
    ensures ips.View() == Cleared(ips, old(ips.View()), ip) && users.View() == Cleared(users, old(users.View()), name)
  {
    ips.Reset(ip);
    assert users.View() == old(users.View());
    label ipCleared:
    users.Reset(name);
    assert ips.View() == old@ipCleared(ips.View());
  }

  /** login without interleaving; valid says whether the user exists and the password is right. */
  method Login(ips: R.RateLimiter, users: R.RateLimiter, lower: string -> string,
               ip: string, username: string, ipTime: real, userTime: real, valid: bool) returns (response: Response)
    requires ips.Valid() && users.Valid() && ips != users && ips.buckets.Values !! users.buckets.Values
    modifies ips, ips.buckets.Values, users, users.buckets.Values
    ensures ips.Valid() && users.Valid() && ips.buckets.Values !! users.buckets.Values
    ensures var (ips', ipVerdict) := Checked(ips, old(ips.View()), ip, ipTime);
            var (users', userVerdict) := Checked(users, old(users.View()), lower(username), userTime);
            && (ipVerdict.Rejected? ==>
                  && response == TooManyAttempts(Header(ipVerdict.retryAfter))
                  && ips.View() == ips' && users.View() == old(users.View()))
            && (ipVerdict.Allowed? && userVerdict.Rejected? ==>
                  && response == TooManyAttempts(Header(userVerdict.retryAfter))
                  && ips.View() == ips' && users.View() == users')
            && (ipVerdict.Allowed? && userVerdict.Allowed? && !valid ==>
                  && response == Unauthorized && ips.View() == ips' && users.View() == users')
            && (ipVerdict.Allowed? && userVerdict.Allowed? && valid ==>
                  && response == Token && ips.View() == Cleared(ips, ips', ip)
                  && users.View() == Cleared(users, users', lower(username)))
  {
    var name := lower(username);
    var header := EnforceBoth(ips, users, ip, name, ipTime, userTime);
    if header.Some? {
      return TooManyAttempts(header.value);
    }
    if !valid {
      return Unauthorized;
    }
    ClearBoth(ips, users, ip, name);
    response := Token;
  }
}
