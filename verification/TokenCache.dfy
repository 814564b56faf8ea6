/**
 EsetAuthClient: a token cached behind a lock with double checking. The class is one
 caller among others; the state machine has any number of callers and a clock.
 Lifetimes are the expires_in of section 5.1 of RFC 6749.
 */
module TokenCache {
  import opened Wrappers

  const SKEW: real := 60.0

  datatype AccessToken = AccessToken(value: string, expiresAt: real)

  predicate IsValid(token: AccessToken, now: real) {
    now < token.expiresAt - SKEW
  }

  predicate Usable(token: Option<AccessToken>, now: real) {
    token.Some? && IsValid(token.value, now)
  }

  /** The answer of the token endpoint: a text and perhaps a lifetime, or anything that raises. */
  datatype Reply = Granted(value: string, expiresIn: Option<int>) | Refused

  /** payload.get("expires_in", 3600) */
  function Lifetime(reply: Reply): int
    requires reply.Granted?
  {
    if reply.expiresIn.Some? then reply.expiresIn.value else 3600
  }

  // ------------------------------------------------------------- one caller

  class Clock {
    var now: real

    constructor (now: real)
      ensures this.now == now
    {
      this.now := now;
    }

    method Time() returns (t: real)
      modifies this
      ensures t == now >= old(now)
    {
      var later: real := *;
      if later > now { now := later; }
      t := now;
    }
  }

  /** The answers this caller was given, one for each request it made. */
  class TokenEndpoint {
    var answers: seq<Reply>

    constructor ()
      ensures answers == []
    {
      answers := [];
    }

    method Post() returns (reply: Reply)
      modifies this
      ensures answers == old(answers) + [reply]
    {
      reply := *;
      answers := answers + [reply];
    }
  }

  datatype Error = AuthenticationError

  class EsetAuthClient {
    var token: Option<AccessToken>

    constructor (accessToken: string, expiresIn: int, clock: Clock)
      ensures token == if accessToken == "" then None else Some(AccessToken(accessToken, clock.now + expiresIn as real))
    {
      token := if accessToken == "" then None else Some(AccessToken(accessToken, clock.now + expiresIn as real));
    }

    /**
     A call makes one request or none. Without one it returns a stored token that was valid
     when it was checked; with one it succeeds exactly when the answer grants a text, returns
     that text and stores it with the lifetime granted, counted from now. A request is made
     only when the stored token is absent or not valid, and one that fails leaves it.
     */
    method GetAccessToken(clock: Clock, endpoint: TokenEndpoint)
      returns (r: Result<string, Error>, ghost used: AccessToken, ghost checkedAt: real,
               ghost request: Option<(Option<AccessToken>, real)>)
      modifies this, clock, endpoint
      ensures || endpoint.answers == old(endpoint.answers)
              || (endpoint.answers != [] && endpoint.answers[..|endpoint.answers| - 1] == old(endpoint.answers))
      ensures request.Some? <==> endpoint.answers != old(endpoint.answers)
      ensures request.None? ==> r.Success? && checkedAt < used.expiresAt - 60.0
      ensures request.Some? ==>
                var answer := endpoint.answers[|endpoint.answers| - 1];
                && (r.Success? <==> answer.Granted? && answer.value != "")
                && (r.Success? ==>
                      && r.value == answer.value
                      && used.expiresAt ==
                         checkedAt + (if answer.expiresIn == None then 3600 else answer.expiresIn.value) as real)
                && (r.Failure? ==> token == request.value.0)
                && (request.value.0 == None || request.value.0.value.expiresAt - 60.0 <= request.value.1)
                && old(clock.now) <= request.value.1 <= clock.now
      ensures r.Success? ==> r.value == used.value && token == Some(used) && old(clock.now) <= checkedAt <= clock.now
    {
      used, request := AccessToken("", 0.0), None;
      var now := clock.Time();
      checkedAt := now;
      if token.Some? && IsValid(token.value, now) {
        return Success(token.value.value), token.value, checkedAt, None;
      }
      WaitForLock(clock);
      now := clock.Time();
      checkedAt := now;
      if token.Some? && IsValid(token.value, now) {
        return Success(token.value.value), token.value, checkedAt, None;
      }
      request := Some((token, now));
      var reply := endpoint.Post();
      if reply.Refused? || reply.value == "" {
        r := Failure(AuthenticationError);
        return;
      }
      now := clock.Time();
      checkedAt := now;
      token := Some(AccessToken(reply.value, now + Lifetime(reply) as real));
      used := token.value;
      r := Success(token.value.value);
    }

    /** While this caller waits, others may do anything to the token. */
    method WaitForLock(clock: Clock)
      modifies this, clock
      ensures clock.now >= old(clock.now)
    {
      var others: Option<AccessToken> := *;
      token := others;
      var _ := clock.Time();
    }
  }

  // ----------------------------------------------------------- all callers

  datatype Caller = Outside | Waiting | Requesting

  datatype Event =
    | Requested(caller: nat, stored: Option<AccessToken>, at: real)
    | Returned(caller: nat, token: AccessToken, at: real, installed: bool)

  datatype Install = Install(token: AccessToken, at: real)

  datatype State = State(
    clock: real,
    token: Option<AccessToken>,
    lock: Option<nat>,
    callers: map<nat, Caller>,
    installs: seq<Install>,
    trace: seq<Event>)

  datatype Action =
    | Pass(seconds: nat, fraction: real)
    | Call(caller: nat)
    | Acquire(caller: nat)
    | Answer(caller: nat, reply: Reply)
    | Cancel(caller: nat)

  function At(s: State, caller: nat): Caller {
    if caller in s.callers then s.callers[caller] else Outside
  }

  function Move(s: State, caller: nat, c: Caller): State {
    s.(callers := s.callers[caller := c])
  }

  function Log(s: State, e: Event): State {
    s.(trace := s.trace + [e])
  }

  /** One atomic step of one caller between two awaits; an action out of place does nothing. */
  function Step(s: State, a: Action): State {
    match a
    case Pass(seconds, fraction) => if fraction < 0.0 then s else s.(clock := s.clock + seconds as real + fraction)
    case Call(c) =>
      if At(s, c) != Outside then s
      else if Usable(s.token, s.clock) then Log(s, Returned(c, s.token.value, s.clock, false))
      else Move(s, c, Waiting)
    case Acquire(c) =>
      if At(s, c) != Waiting || s.lock.Some? then s
      else if Usable(s.token, s.clock) then Log(Move(s, c, Outside), Returned(c, s.token.value, s.clock, false))
      else Log(Move(s, c, Requesting).(lock := Some(c)), Requested(c, s.token, s.clock))
    case Answer(c, reply) =>
      if At(s, c) != Requesting then s
      else if reply.Refused? || reply.value == "" then Move(s, c, Outside).(lock := None)
      else
        var token := AccessToken(reply.value, s.clock + Lifetime(reply) as real);
        Log(Move(s, c, Outside).(lock := None, token := Some(token),
                                 installs := s.installs + [Install(token, s.clock)]),
            Returned(c, token, s.clock, true))
    case Cancel(c) =>
      if At(s, c) == Requesting then Move(s, c, Outside).(lock := None) else Move(s, c, Outside)
  }

  function Exec(s: State, actions: seq<Action>): State
    decreases |actions|
  {
    if actions == [] then s else Exec(Step(s, actions[0]), actions[1..])
  }

  /** A new client: perhaps a configured token, nobody inside. */
  predicate Initial(s: State) {
    s.lock.None? && s.callers == map[] && s.installs == [] && s.trace == []
  }

  predicate InstallsSpaced(s: State) {
    && (forall i :: 0 <= i < |s.installs| ==> s.installs[i].at <= s.clock)
    && (forall i :: 0 <= i < |s.installs| - 1 ==>
          !IsValid(s.installs[i].token, s.installs[i + 1].at) && s.installs[i].at <= s.installs[i + 1].at)
    && (s.installs != [] ==> s.token == Some(s.installs[|s.installs| - 1].token))
  }

  predicate TraceSound(s: State) {
    forall e :: e in s.trace ==>
      match e
      case Requested(_, stored, at) => !Usable(stored, at)
      case Returned(_, token, at, installed) => if installed then Install(token, at) in s.installs
        else IsValid(token, at)
  }

  ghost predicate Inv(s: State) {
    && (forall c: nat :: At(s, c) == Requesting <==> s.lock == Some(c))
    && (s.lock.Some? ==> !Usable(s.token, s.clock))
    && InstallsSpaced(s) && TraceSound(s)
  }

  lemma AnswerKeeps(s: State, c: nat, reply: Reply)
    requires Inv(s) && At(s, c) == Requesting && reply.Granted? && reply.value != ""
    ensures Inv(Step(s, Answer(c, reply)))
  {
    var s' := Step(s, Answer(c, reply));
    assert s'.installs[|s.installs|] in s'.installs;
    assert forall i :: i in s.installs ==> i in s'.installs;
    forall i | 0 <= i < |s'.installs| - 1
      ensures !IsValid(s'.installs[i].token, s'.installs[i + 1].at) && s'.installs[i].at <= s'.installs[i + 1].at
    {
      if i + 1 < |s.installs| {
        assert s'.installs[i] == s.installs[i] && s'.installs[i + 1] == s.installs[i + 1];
      }
    }
    forall d: nat
      ensures At(s', d) == Requesting <==> s'.lock == Some(d)
    {
      assert At(s, d) == Requesting <==> s.lock == Some(d);
    }
  }

  lemma StepKeeps(s: State, a: Action)
    requires Inv(s)
    ensures Inv(Step(s, a))
  {
    var s' := Step(s, a);
    if a.Answer? && At(s, a.caller) == Requesting && a.reply.Granted? && a.reply.value != "" {
      AnswerKeeps(s, a.caller, a.reply);
    } else {
      forall d: nat
        ensures At(s', d) == Requesting <==> s'.lock == Some(d)
      {
        assert At(s, d) == Requesting <==> s.lock == Some(d);
      }
    }
  }

  lemma {:induction false} ExecKeeps(s: State, actions: seq<Action>)
    requires Inv(s)
    ensures Inv(Exec(s, actions))
    decreases |actions|
  {
    if actions != [] {
      StepKeeps(s, actions[0]);
      ExecKeeps(Step(s, actions[0]), actions[1..]);
    }
  }

  /** Over every history, at most one token request is in flight. */
  lemma SingleFlight(s: State, actions: seq<Action>, c: nat, d: nat)
    requires Initial(s)
    requires At(Exec(s, actions), c) == Requesting && At(Exec(s, actions), d) == Requesting
    ensures c == d
  {
    ExecKeeps(s, actions);
    var s' := Exec(s, actions);
    assert (At(s', c) == Requesting <==> s'.lock == Some(c)) && (At(s', d) == Requesting <==> s'.lock == Some(d));
  }

  /**
   Over every history, a request was started only when the stored token was absent or within
   60 seconds of its expiry, and every token returned was valid when it was checked or had
   just been installed by that caller.
   */
  lemma RequestsAndReturns(s: State, actions: seq<Action>, e: Event)
    requires Initial(s) && e in Exec(s, actions).trace
    ensures e.Requested? ==> e.stored.None? || e.stored.value.expiresAt - 60.0 <= e.at
    ensures e.Returned? ==>
              e.at < e.token.expiresAt - 60.0 || (e.installed && Install(e.token, e.at) in Exec(s, actions).installs)
  {
    ExecKeeps(s, actions);
  }

  // ------------------------------------------------------- what it installs

  lemma {:induction false} ExecSnoc(s: State, actions: seq<Action>, a: Action)
    ensures Exec(s, actions + [a]) == Step(Exec(s, actions), a)
    decreases |actions|
  {
    if actions == [] {
      assert [] + [a] == [a] && [a][1..] == [];
    } else {
      ConsAppend(actions, [a]);
      ExecSnoc(Step(s, actions[0]), actions[1..], a);
    }
  }

  /** Action k of the history is the answer the install comes from: its text, its lifetime, its moment. */
  ghost predicate FromAnswer(s: State, actions: seq<Action>, k: nat, install: Install)
    requires k < |actions|
  {
    && actions[k].Answer? && actions[k].reply.Granted? && actions[k].reply.value != ""
    && var reply, now := actions[k].reply, Exec(s, actions[..k]).clock;
    && install.at == now && install.token.value == reply.value
    && install.token.expiresAt == now + (if reply.expiresIn == None then 3600 else reply.expiresIn.value) as real
  }

  ghost predicate AllFromAnswers(s: State, actions: seq<Action>) {
    forall install :: install in Exec(s, actions).installs ==>
      exists k: nat :: k < |actions| && FromAnswer(s, actions, k, install)
  }

  lemma FromAnswerLater(s: State, actions: seq<Action>, a: Action, k: nat, install: Install)
    requires k < |actions| && FromAnswer(s, actions, k, install)
    ensures FromAnswer(s, actions + [a], k, install)
  {
    assert (actions + [a])[..k] == actions[..k];
  }

  /**
   Over every history, every token installed is the text of an answer of the history with the
   lifetime that answer granted, and the token stored is the last one installed.
   */
  lemma {:induction false} InstallsAreAnswers(s: State, actions: seq<Action>)
    requires Initial(s)
    ensures AllFromAnswers(s, actions)
    ensures var s' := Exec(s, actions);
            s'.token == if s'.installs == [] then s.token else Some(s'.installs[|s'.installs| - 1].token)
    decreases |actions|
  {
    if actions != [] {
      var n := |actions| - 1;
      var before, a := actions[..n], actions[n];
      var m := Exec(s, before);
      InstallsAreAnswers(s, before);
      ExecSnoc(s, before, a);
      assert before + [a] == actions;
      forall install | install in Exec(s, actions).installs
        ensures exists k: nat :: k < |actions| && FromAnswer(s, actions, k, install)
      {
        if install in m.installs {
          var k: nat :| k < |before| && FromAnswer(s, before, k, install);
          FromAnswerLater(s, before, a, k, install);
        } else {
          assert FromAnswer(s, actions, n, install);
        }
      }
    }
  }

  predicate WasStored(first: Option<AccessToken>, s: State, token: AccessToken) {
    first == Some(token) || exists install :: install in s.installs && install.token == token
  }

  ghost predicate ReturnsStored(first: Option<AccessToken>, s: State) {
    && (s.token.Some? ==> WasStored(first, s, s.token.value))
    && forall e :: e in s.trace && e.Returned? ==> WasStored(first, s, e.token)
  }

  lemma StoredStays(first: Option<AccessToken>, s: State, s': State, token: AccessToken)
    requires s.installs <= s'.installs && WasStored(first, s, token)
    ensures WasStored(first, s', token)
  {
    if first != Some(token) {
      var install :| install in s.installs && install.token == token;
      assert install in s'.installs;
    }
  }

  lemma StepReturns(first: Option<AccessToken>, s: State, a: Action)
    requires ReturnsStored(first, s)
    ensures ReturnsStored(first, Step(s, a))
  {
    var s' := Step(s, a);
    if s'.installs != s.installs {
      var install := s'.installs[|s.installs|];
      assert install in s'.installs && s'.token == Some(install.token);
    }
    forall e | e in s'.trace && e.Returned?
      ensures WasStored(first, s', e.token)
    {
      if e in s.trace {
        StoredStays(first, s, s', e.token);
      }
    }
    if s.token.Some? {
      StoredStays(first, s, s', s.token.value);
    }
  }

  lemma {:induction false} ExecReturns(first: Option<AccessToken>, s: State, actions: seq<Action>)
    requires ReturnsStored(first, s)
    ensures ReturnsStored(first, Exec(s, actions))
    decreases |actions|
  {
    if actions != [] {
      StepReturns(first, s, actions[0]);
      ExecReturns(first, Step(s, actions[0]), actions[1..]);
    }
  }

  /** Every token returned is the configured one or one that was installed. */
  lemma ReturnsWhatWasStored(s: State, actions: seq<Action>, e: Event)
    requires Initial(s) && e in Exec(s, actions).trace && e.Returned?
    ensures WasStored(s.token, Exec(s, actions), e.token)
  {
    ExecReturns(s.token, s, actions);
  }

  // ------------------------------------------------------- what callers get

  lemma ExecTwo(s: State, a: Action, b: Action)
    ensures Exec(s, [a, b]) == Step(Step(s, a), b)
  {
    assert [a, b][1..] == [b] && [b][1..] == [];
    assert Exec(Step(s, a), [b]) == Exec(Step(Step(s, a), b), []);
  }

  /** What a caller is answered: the token, when the endpoint grants a text at that moment. */
  function Granting(reply: Reply, now: real): Option<AccessToken> {
    if reply == Refused || reply.value == "" then None
    else Some(AccessToken(reply.value, now + (if reply.expiresIn == None then 3600 else reply.expiresIn.value) as real))
  }

  /**
   One caller with nobody inside, after any time has passed: a token still more than 60 seconds
   from its expiry is returned at once; otherwise the caller requests, and stores and returns
   what is granted, or leaves the old token when nothing is.
   */
  lemma CallerAlone(s: State, c: nat, seconds: nat, reply: Reply)
    requires s.lock == None && c !in s.callers
    ensures var now := s.clock + seconds as real;
            var called := Exec(s, [Pass(seconds, 0.0), Call(c)]);
            var answered := Exec(called, [Acquire(c), Answer(c, reply)]);
            && (s.token != None && now < s.token.value.expiresAt - 60.0 ==>
                  called == s.(clock := now, trace := s.trace + [Returned(c, s.token.value, now, false)]))
            && (s.token == None || s.token.value.expiresAt - 60.0 <= now ==>
                  && answered.clock == now && answered.lock == None && At(answered, c) == Outside
                  && var granted := Granting(reply, now);
                  && answered.token == (if granted == None then s.token else granted)
                  && answered.trace == s.trace + [Requested(c, s.token, now)]
                       + (if granted == None then [] else [Returned(c, granted.value, now, true)]))
  {
    var called := Step(Step(s, Pass(seconds, 0.0)), Call(c));
    ExecTwo(s, Pass(seconds, 0.0), Call(c));
    ExecTwo(called, Acquire(c), Answer(c, reply));
    var requested := s.trace + [Requested(c, s.token, called.clock)];
    assert requested + [] == requested;
  }

  /**
   A caller that finds another one requesting waits for it, and then returns the token that was
   installed meanwhile, without a request of its own, if its lifetime is more than 60 seconds.
   */
  lemma SecondCallerReuses(s: State, c: nat, d: nat, reply: Reply)
    requires s.lock == Some(c) && At(s, c) == Requesting && At(s, d) == Waiting
    requires Granting(reply, s.clock).Some? && Granting(reply, s.clock).value.expiresAt > s.clock + 60.0
    ensures Exec(s, [Acquire(d), Acquire(d)]) == s
    ensures var token := Granting(reply, s.clock).value;
            var s' := Exec(s, [Answer(c, reply), Acquire(d)]);
            && s'.token == Some(token) && s'.lock == None && At(s', c) == At(s', d) == Outside
            && s'.trace == s.trace + [Returned(c, token, s.clock, true)] + [Returned(d, token, s.clock, false)]
  {
    ExecTwo(s, Acquire(d), Acquire(d));
    ExecTwo(s, Answer(c, reply), Acquire(d));
  }

  /** A request that is cancelled lets the next caller in, and leaves the token. */
  lemma CancelLetsIn(s: State, c: nat, d: nat)
    requires s.lock == Some(c) && At(s, c) == Requesting && At(s, d) == Waiting && !Usable(s.token, s.clock)
    ensures var s' := Exec(s, [Cancel(c), Acquire(d)]);
            s'.token == s.token && s'.lock == Some(d) && At(s', c) == Outside && At(s', d) == Requesting
  {
    ExecTwo(s, Cancel(c), Acquire(d));
  }

  // ------------------------------------------------------ how often it installs

  predicate LastAtLeast(installs: seq<Install>, lifetime: real) {
    forall i :: 0 <= i < |installs| ==> installs[i].token.expiresAt >= installs[i].at + lifetime
  }

  predicate GrantsAtLeast(actions: seq<Action>, lifetime: real) {
    forall a :: a in actions && a.Answer? && a.reply.Granted? ==> Lifetime(a.reply) as real >= lifetime
  }

  lemma {:induction false} LifetimesKept(s: State, actions: seq<Action>, lifetime: real)
    requires LastAtLeast(s.installs, lifetime) && GrantsAtLeast(actions, lifetime)
    ensures LastAtLeast(Exec(s, actions).installs, lifetime)
    decreases |actions|
  {
    if actions != [] {
      assert actions[0] in actions;
      LifetimesKept(Step(s, actions[0]), actions[1..], lifetime);
    }
  }

  lemma {:induction false} Gaps(s: State, lifetime: real, i: nat, j: nat)
    requires InstallsSpaced(s) && LastAtLeast(s.installs, lifetime) && i <= j < |s.installs|
    ensures s.installs[j].at - s.installs[i].at >= (j - i) as real * (lifetime - SKEW)
    decreases j - i
  {
    if i < j {
      Gaps(s, lifetime, i, j - 1);
      assert s.installs[j].at - s.installs[j - 1].at >= lifetime - SKEW;
      assert (j - i) as real * (lifetime - SKEW) == (j - 1 - i) as real * (lifetime - SKEW) + (lifetime - SKEW);
    }
  }

  /**
   If every granted lifetime is at least L > 60, then over every history the installs i..j
   that lie within a window of W seconds are at most 1 + W / (L - 60) many.
   */
  lemma InstallsInWindow(s: State, actions: seq<Action>, lifetime: real, from: real, window: real, i: nat, j: nat)
    requires Initial(s) && lifetime > 60.0 && GrantsAtLeast(actions, lifetime)
    requires i <= j < |Exec(s, actions).installs|
    requires from <= Exec(s, actions).installs[i].at && Exec(s, actions).installs[j].at <= from + window
    ensures (j - i + 1) as real <= 1.0 + window / (lifetime - 60.0)
  {
    ExecKeeps(s, actions);
    LifetimesKept(s, actions, lifetime);
    Gaps(Exec(s, actions), lifetime, i, j);
    Divide((j - i) as real, lifetime - 60.0, window);
  }

  lemma Divide(n: real, step: real, window: real)
    requires step > 0.0 && n * step <= window
    ensures n <= window / step
  {
    var q := window / step;
    assert q * step == window;
    assert (q - n) * step == q * step - n * step;
    NonNegative(q - n, step);
  }

  lemma NonNegative(x: real, step: real)
    requires step > 0.0 && x * step >= 0.0
    ensures x >= 0.0
  {
  }
}
