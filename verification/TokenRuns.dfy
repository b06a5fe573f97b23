/** The token life cycle under any interleaving of concurrent doAuthedGet calls
    (internal/bluelink/client.go, internal/bluelink/auth.go). A run is a sequence of actions, each
    one step of one call together with the answer the server, the store or the clock gave it. */
module TokenRuns {
  import opened Wrappers
  import opened TokenModel

  /** Where one call stands. `retry` is the log position of the call's first GET once that drew a
      401. From Checking to Failing the call holds the client mutex. */
  datatype Local =
    | Idle
    | Waiting(retry: Option<nat>)
    | Checking(retry: Option<nat>)
    | Refreshing(retry: Option<nat>)
    | Registering(retry: Option<nat>)
    | LoggingIn(retry: Option<nat>, device: string)
    | Saving(retry: Option<nat>)
    | Ready(retry: Option<nat>)
    | Failing
    | Getting(retry: Option<nat>, at: nat)
    | Done(ok: bool)

  datatype Source = Refresh(response: TokenResponse, now: int) | Login(device: string, response: TokenResponse, now: int)

  datatype Entry =
    | Received(tokens: Tokens, source: Source)
    | Granted(call: nat, presented: string)
    | SaveEnded(ok: bool, reached: bool)
    | Got(call: nat, retry: Option<nat>, tokens: Tokens)

  datatype State = State(
    tokens: Tokens,
    stored: Option<Tokens>,
    saveOk: bool,
    lock: Option<nat>,
    calls: seq<Local>,
    log: seq<Entry>)

  datatype Action =
    | Start(call: nat)
    | Lock(call: nat)
    | Check(call: nat, now: int)
    | RefreshAnswer(call: nat, response: Option<TokenResponse>, now: int)
    | RegisterAnswer(call: nat, device: Option<string>)
    | LoginAnswer(call: nat, response: Option<TokenResponse>, now: int)
    | SaveAnswer(call: nat, ok: bool, written: bool)
    | Unlock(call: nat)
    | GetAnswer(call: nat, status: Option<int>)

  const UNAUTHORIZED := 401
  const OK_STATUS := 200

  // ---------------------------------------------------------------------------
  // Steps
  // ---------------------------------------------------------------------------

  function At(s: State, c: nat, l: Local): State
    requires c < |s.calls|
  {
    s.(calls := s.calls[c := l])
  }

  /** ensureTokenLocked's decision: go on, refresh, or log in from scratch. */
  function Checked(s: State, c: nat, retry: Option<nat>, now: int): State
    requires c < |s.calls|
  {
    if Valid(s.tokens, now) && s.tokens.deviceID != "" then At(s, c, Ready(retry))
    else if s.tokens.refreshToken != "" && s.tokens.deviceID != "" then
      At(s, c, Refreshing(retry)).(log := s.log + [Granted(c, s.tokens.refreshToken)])
    else At(s, c, Registering(retry))
  }

  function Receive(s: State, c: nat, retry: Option<nat>, tok: Tokens, source: Source): State
    requires c < |s.calls|
  {
    At(s, c, Saving(retry)).(tokens := tok, log := s.log + [Received(tok, source)])
  }

  function Saved(s: State, c: nat, retry: Option<nat>, ok: bool, written: bool): State
    requires c < |s.calls|
  {
    At(s, c, if ok then Ready(retry) else Failing).(
      stored := if ok || written then Some(s.tokens) else s.stored,
      saveOk := ok,
      log := s.log + [SaveEnded(ok, ok || written)])
  }

  function Answered(s: State, c: nat, retry: Option<nat>, at: nat, status: Option<int>): State
    requires c < |s.calls|
  {
    if status == Some(UNAUTHORIZED) && retry.None? then At(s, c, Waiting(Some(at)))
    else At(s, c, Done(status == Some(OK_STATUS)))
  }

  /** The step an action takes, if the call is there to take it. */
  function Apply(s: State, a: Action): Option<State> {
    if a.call >= |s.calls| then None
    else
      var c := a.call;
      match (a, s.calls[c])
      case (Start(_), Idle) => Some(At(s, c, Waiting(None)))
      case (Lock(_), Waiting(retry)) =>
        if s.lock.Some? then None
        else Some(At(s, c, Checking(retry)).(lock := Some(c), tokens := if retry.Some? then Invalidated(s.tokens) else s.tokens))
      case (Check(_, now), Checking(retry)) => Some(Checked(s, c, retry, now))
      case (RefreshAnswer(_, response, now), Refreshing(retry)) =>
        if response.None? then Some(At(s, c, Registering(retry)))
        else if !Accepted(response.value) then None
        else Some(Receive(s, c, retry, Refreshed(s.tokens, response.value, now), Refresh(response.value, now)))
      case (RegisterAnswer(_, device), Registering(retry)) =>
        if device.None? then Some(At(s, c, Failing))
        else if device.value == "" then None
        else Some(At(s, c, LoggingIn(retry, device.value)))
      case (LoginAnswer(_, response, now), LoggingIn(retry, device)) =>
        if response.None? then Some(At(s, c, Failing))
        else if !Accepted(response.value) then None
        else Some(Receive(s, c, retry, LoggedIn(device, response.value, now), Login(device, response.value, now)))
      case (SaveAnswer(_, ok, written), Saving(retry)) => Some(Saved(s, c, retry, ok, written))
      case (Unlock(_), Ready(retry)) =>
        Some(At(s, c, Getting(retry, |s.log|)).(lock := None, log := s.log + [Got(c, retry, s.tokens)]))
      case (Unlock(_), Failing) => Some(At(s, c, Done(false)).(lock := None))
      case (GetAnswer(_, status), Getting(retry, at)) => Some(Answered(s, c, retry, at, status))
      case _ => None
  }

  function Exec(s: State, actions: seq<Action>): Option<State> {
    if actions == [] then Some(s)
    else
      match Exec(s, actions[..|actions| - 1])
      case None => None
      case Some(t) => Apply(t, actions[|actions| - 1])
  }

  /** After an initial Connect: some token set is held, and stored unless its save failed; no call
      has begun. */
  ghost predicate Connected(s: State) {
    && s.lock.None? && s.log == []
    && (forall c | 0 <= c < |s.calls| :: s.calls[c] == Idle)
    && (s.saveOk ==> s.stored == Some(s.tokens))
  }

  /** The clock has reached year 1. */
  predicate PlausibleClock(a: Action) {
    match a
    case Check(_, now) => Plausible(now)
    case _ => true
  }

  /** A token response whose authorization value is not all white space. */
  predicate NotBlankResponse(a: Action) {
    match a
    case RefreshAnswer(_, Some(r), _) => NotBlank(r.tokenType) || NotBlank(r.accessToken)
    case LoginAnswer(_, Some(r), _) => NotBlank(r.tokenType) || NotBlank(r.accessToken)
    case _ => true
  }

  // ---------------------------------------------------------------------------
  // What the log must say
  // ---------------------------------------------------------------------------

  /** The newest token set received, from a log that began with `initial`. */
  function Newest(initial: Tokens, log: seq<Entry>): Tokens {
    if log == [] then initial
    else if log[|log| - 1].Received? then log[|log| - 1].tokens
    else Newest(initial, log[..|log| - 1])
  }

  /** A token response was received strictly between the two positions. */
  ghost predicate ReceivedBetween(log: seq<Entry>, p: nat, k: nat)
    requires k <= |log|
  {
    exists j :: p < j < k && log[j].Received?
  }

  /** The refresh chain and the retry discipline, at one position of the log. A refresh grant
      presents the refresh token of the newest set; a refreshed set keeps the device and, unless
      the server rotated it, the refresh token; only a login changes the device. A GET carries the
      newest set, up to an expiry zeroed by someone's 401, and a second GET of a call follows its
      first with a token response in between. */
  ghost predicate EntryOk(initial: Tokens, log: seq<Entry>, k: nat)
    requires k < |log|
  {
    var held := Newest(initial, log[..k]);
    match log[k]
    case Received(tokens, Refresh(r, now)) => tokens == Refreshed(held, r, now)
    case Received(tokens, Login(device, r, now)) => tokens == LoggedIn(device, r, now)
    case Granted(_, presented) => presented == held.refreshToken != ""
    case SaveEnded(ok, reached) => ok ==> reached
    case Got(c, retry, tokens) =>
      && SameUpToExpiry(tokens, held)
      && (retry.Some? ==> retry.value < k && FirstGet(log, retry.value, c) && ReceivedBetween(log, retry.value, k))
  }

  predicate FirstGet(log: seq<Entry>, p: nat, c: nat)
    requires p < |log|
  {
    log[p].Got? && log[p].call == c && log[p].retry.None?
  }

  predicate IsGet(log: seq<Entry>, k: nat, c: nat)
    requires k < |log|
  {
    log[k].Got? && log[k].call == c
  }

  ghost predicate ChainKept(initial: Tokens, log: seq<Entry>) {
    forall k | 0 <= k < |log| :: EntryOk(initial, log, k)
  }

  /** Any two GETs of one call are its first and the retry of that first; so there are at most two. */
  ghost predicate AtMostTwoGets(log: seq<Entry>) {
    forall i, j | 0 <= i < j < |log| && log[i].Got? && log[j].Got? && log[i].call == log[j].call ::
      log[i].retry.None? && log[j].retry == Some(i)
  }

  lemma EntryOkStable(initial: Tokens, log: seq<Entry>, e: Entry, k: nat)
    requires k < |log| && EntryOk(initial, log, k)
    ensures EntryOk(initial, log + [e], k)
  {
    assert (log + [e])[..k] == log[..k];
    if log[k].Got? && log[k].retry.Some? {
      var p := log[k].retry.value;
      var j :| p < j < k && log[j].Received?;
      assert (log + [e])[j].Received?;
    }
  }

  lemma ChainExtends(initial: Tokens, log: seq<Entry>, e: Entry)
    requires ChainKept(initial, log)
    requires EntryOk(initial, log + [e], |log|)
    ensures ChainKept(initial, log + [e])
  {
    forall k | 0 <= k < |log + [e]|
      ensures EntryOk(initial, log + [e], k)
    {
      if k < |log| {
        EntryOkStable(initial, log, e, k);
      }
    }
  }

  lemma NewestAfter(initial: Tokens, log: seq<Entry>, e: Entry)
    ensures (log + [e])[..|log|] == log
    ensures Newest(initial, log + [e]) == if e.Received? then e.tokens else Newest(initial, log)
  {
  }

  // ---------------------------------------------------------------------------
  // Invariant
  // ---------------------------------------------------------------------------

  predicate Holding(l: Local) {
    l.Checking? || l.Refreshing? || l.Registering? || l.LoggingIn? || l.Saving? || l.Ready? || l.Failing?
  }

  /** The mutex is held by exactly the call that is inside the locked section. */
  ghost predicate Exclusive(s: State) {
    && (s.lock.Some? ==> s.lock.value < |s.calls|)
    && forall c | 0 <= c < |s.calls| :: Holding(s.calls[c]) <==> s.lock == Some(c)
  }

  predicate HasRetry(l: Local) {
    !l.Idle? && !l.Failing? && !l.Done?
  }

  /** What the log says of a call's GETs, given where the call stands. */
  ghost predicate LocalOk(log: seq<Entry>, c: nat, l: Local) {
    && (l.Idle? ==> NoGets(log, c))
    && (HasRetry(l) && !l.Getting? && l.retry.None? ==> NoGets(log, c))
    && (HasRetry(l) && l.retry.Some? ==> l.retry.value < |log| && FirstGet(log, l.retry.value, c))
    && (HasRetry(l) && !l.Getting? && l.retry.Some? ==> OnlyGet(log, c, l.retry.value))
    && (l.Getting? && l.retry.None? ==> l.at < |log| && FirstGet(log, l.at, c) && OnlyGet(log, c, l.at))
    && ((l.Saving? || l.Ready?) && l.retry.Some? ==> ReceivedBetween(log, l.retry.value, |log|))
    && (l.LoggingIn? ==> l.device != "")
  }

  ghost predicate NoGets(log: seq<Entry>, c: nat) {
    forall k | 0 <= k < |log| :: !IsGet(log, k, c)
  }

  ghost predicate OnlyGet(log: seq<Entry>, c: nat, p: nat) {
    forall k | 0 <= k < |log| && IsGet(log, k, c) :: k == p
  }

  /** The held set is the newest one received, with the expiry possibly zeroed. */
  ghost predicate HeldOk(initial: Tokens, s: State) {
    SameUpToExpiry(s.tokens, Newest(initial, s.log))
  }

  /** A call that is about to check after a 401 finds the expiry zeroed. */
  ghost predicate ZeroedOk(s: State) {
    forall c | 0 <= c < |s.calls| && s.calls[c].Checking? && s.calls[c].retry.Some? :: s.tokens.validUntil == ZERO_TIME
  }

  /** Whenever no token set is on its way to the store, a store whose last save succeeded holds the
      tokens in memory, up to a zeroed expiry. */
  ghost predicate StoreOk(s: State) {
    s.saveOk && (forall c | 0 <= c < |s.calls| :: !s.calls[c].Saving?)
    ==> s.stored.Some? && SameUpToExpiry(s.tokens, s.stored.value)
  }

  ghost predicate Inv(initial: Tokens, s: State) {
    && Exclusive(s)
    && (forall c | 0 <= c < |s.calls| :: LocalOk(s.log, c, s.calls[c]))
    && HeldOk(initial, s)
    && ZeroedOk(s)
    && StoreOk(s)
    && ChainKept(initial, s.log)
    && AtMostTwoGets(s.log)
  }

  lemma InitiallyInv(s: State)
    requires Connected(s)
    ensures Inv(s.tokens, s)
  {
  }

  // ---------------------------------------------------------------------------
  // Every step keeps the invariant
  // ---------------------------------------------------------------------------

  /** What a step does to the mutex, and to the stepping call's hold on it. */
  lemma LockOfStep(s: State, a: Action)
    requires Apply(s, a).Some?
    ensures var t := Apply(s, a).value;
            && t.lock == (if a.Lock? then Some(a.call) else if a.Unlock? then None else s.lock)
            && (a.Lock? ==> s.lock.None?) && (a.Unlock? ==> Holding(s.calls[a.call]))
            && (Holding(t.calls[a.call]) <==> a.Lock? || (!a.Unlock? && Holding(s.calls[a.call])))
  {
  }

  lemma OthersStay(s: State, a: Action)
    requires Apply(s, a).Some?
    ensures var t := Apply(s, a).value;
            && a.call < |s.calls| == |t.calls|
            && forall d | 0 <= d < |s.calls| && d != a.call :: t.calls[d] == s.calls[d]
  {
  }

  lemma ExclusiveAfter(s: State, a: Action, t: State)
    requires Exclusive(s) && a.call < |s.calls| == |t.calls|
    requires forall d | 0 <= d < |s.calls| && d != a.call :: t.calls[d] == s.calls[d]
    requires t.lock == (if a.Lock? then Some(a.call) else if a.Unlock? then None else s.lock)
    requires (a.Lock? ==> s.lock.None?) && (a.Unlock? ==> Holding(s.calls[a.call]))
    requires Holding(t.calls[a.call]) <==> a.Lock? || (!a.Unlock? && Holding(s.calls[a.call]))
    ensures Exclusive(t)
  {
  }

  lemma ExclusiveKept(s: State, a: Action)
    requires Exclusive(s) && Apply(s, a).Some?
    ensures Exclusive(Apply(s, a).value)
  {
    LockOfStep(s, a);
    OthersStay(s, a);
    ExclusiveAfter(s, a, Apply(s, a).value);
  }

  lemma GetsExtend(log: seq<Entry>, e: Entry, c: nat)
    ensures forall k | 0 <= k < |log| :: IsGet(log + [e], k, c) == IsGet(log, k, c)
    ensures NoGets(log, c) && !(e.Got? && e.call == c) ==> NoGets(log + [e], c)
    ensures forall p | OnlyGet(log, c, p) && !(e.Got? && e.call == c) :: OnlyGet(log + [e], c, p)
    ensures NoGets(log, c) ==> OnlyGet(log + [e], c, |log|)
  {
    forall k | 0 <= k < |log|
      ensures IsGet(log + [e], k, c) == IsGet(log, k, c)
    {
    }
    forall p | OnlyGet(log, c, p) && !(e.Got? && e.call == c)
      ensures OnlyGet(log + [e], c, p)
    {
      forall k | 0 <= k < |log + [e]| && IsGet(log + [e], k, c)
        ensures k == p
      {
        assert k < |log| && IsGet(log, k, c);
      }
    }
  }

  lemma LocalOkExtends(log: seq<Entry>, e: Entry, c: nat, l: Local)
    requires LocalOk(log, c, l)
    requires !(e.Got? && e.call == c)
    ensures LocalOk(log + [e], c, l)
  {
    GetsExtend(log, e, c);
    if (l.Saving? || l.Ready?) && l.retry.Some? {
      var j :| l.retry.value < j < |log| && log[j].Received?;
      assert (log + [e])[j].Received?;
    }
  }

  /** The entry a step adds to the log, if any. */
  function Added(s: State, a: Action): Option<Entry>
    requires Apply(s, a).Some?
  {
    var log := Apply(s, a).value.log;
    if |log| > |s.log| then Some(log[|s.log|]) else None
  }

  lemma LogGrows(s: State, a: Action)
    requires Apply(s, a).Some?
    ensures var t := Apply(s, a).value; var e := Added(s, a);
            && |t.calls| == |s.calls| && a.call < |s.calls|
            && t.log == (if e.None? then s.log else s.log + [e.value])
            && (e.Some? && e.value.Got? ==> e.value.call == a.call)
            && (forall d | 0 <= d < |s.calls| && d != a.call :: t.calls[d] == s.calls[d])
  {
  }

  ghost predicate OwnStep(s: State, a: Action) {
    && Apply(s, a).Some?
    && a.call < |s.calls| == |Apply(s, a).value.calls|
    && LocalOk(s.log, a.call, s.calls[a.call])
  }

  ghost predicate OwnStepKept(s: State, a: Action)
    requires OwnStep(s, a)
  {
    LocalOk(Apply(s, a).value.log, a.call, Apply(s, a).value.calls[a.call])
  }

  lemma OwnUnlockKept(s: State, a: Action)
    requires OwnStep(s, a) && a.Unlock?
    ensures OwnStepKept(s, a)
  {
    if s.calls[a.call].Ready? {
      GetsExtend(s.log, Got(a.call, s.calls[a.call].retry, s.tokens), a.call);
    }
  }

  lemma OwnReceiveKept(s: State, a: Action)
    requires OwnStep(s, a) && (a.RefreshAnswer? || a.LoginAnswer?)
    ensures OwnStepKept(s, a)
  {
    LogGrows(s, a);
    if Added(s, a).Some? {
      LocalOkExtends(s.log, Added(s, a).value, a.call, s.calls[a.call]);
      assert Apply(s, a).value.log[|s.log|].Received?;
    }
  }

  lemma OwnCheckKept(s: State, a: Action)
    requires OwnStep(s, a) && a.Check? && PlausibleClock(a)
    requires s.calls[a.call].Checking? && s.calls[a.call].retry.Some? ==> s.tokens.validUntil == ZERO_TIME
    ensures OwnStepKept(s, a)
  {
    LogGrows(s, a);
    if Added(s, a).Some? {
      LocalOkExtends(s.log, Added(s, a).value, a.call, s.calls[a.call]);
    }
  }

  lemma OwnSaveKept(s: State, a: Action)
    requires OwnStep(s, a) && a.SaveAnswer?
    ensures OwnStepKept(s, a)
  {
    LogGrows(s, a);
    LocalOkExtends(s.log, Added(s, a).value, a.call, s.calls[a.call]);
  }

  lemma OwnSilentKept(s: State, a: Action)
    requires OwnStep(s, a) && (a.Start? || a.Lock? || a.RegisterAnswer? || a.GetAnswer?)
    ensures OwnStepKept(s, a)
  {
  }

  /** The stepping call's own position stays consistent with the log. */
  lemma OwnLocalKept(initial: Tokens, s: State, a: Action)
    requires Inv(initial, s) && PlausibleClock(a) && Apply(s, a).Some?
    ensures OwnStep(s, a) && OwnStepKept(s, a)
  {
    LogGrows(s, a);
    match a
    case Unlock(_) => OwnUnlockKept(s, a);
    case RefreshAnswer(_, _, _) => OwnReceiveKept(s, a);
    case LoginAnswer(_, _, _) => OwnReceiveKept(s, a);
    case Check(_, _) => OwnCheckKept(s, a);
    case SaveAnswer(_, _, _) => OwnSaveKept(s, a);
    case _ => OwnSilentKept(s, a);
  }

  lemma LocalsKept(initial: Tokens, s: State, a: Action)
    requires Inv(initial, s) && PlausibleClock(a) && Apply(s, a).Some?
    ensures var t := Apply(s, a).value;
            forall c | 0 <= c < |t.calls| :: LocalOk(t.log, c, t.calls[c])
  {
    var t := Apply(s, a).value;
    LogGrows(s, a);
    OwnLocalKept(initial, s, a);
    forall c | 0 <= c < |t.calls|
      ensures LocalOk(t.log, c, t.calls[c])
    {
      if c != a.call && Added(s, a).Some? {
        LocalOkExtends(s.log, Added(s, a).value, c, s.calls[c]);
      }
    }
  }

  lemma HeldKept(initial: Tokens, s: State, a: Action)
    requires HeldOk(initial, s) && Apply(s, a).Some?
    ensures HeldOk(initial, Apply(s, a).value)
  {
    LogGrows(s, a);
    if Added(s, a).Some? {
      NewestAfter(initial, s.log, Added(s, a).value);
    }
  }

  lemma ZeroedKept(s: State, a: Action)
    requires Exclusive(s) && ZeroedOk(s) && Apply(s, a).Some?
    ensures ZeroedOk(Apply(s, a).value)
  {
    var t := Apply(s, a).value;
    ExclusiveKept(s, a);
    LogGrows(s, a);
    forall c | 0 <= c < |t.calls| && t.calls[c].Checking? && t.calls[c].retry.Some?
      ensures t.tokens.validUntil == ZERO_TIME
    {
      if c != a.call {
        assert Holding(s.calls[c]) && s.lock == Some(c);
        assert !Holding(s.calls[a.call]);
      }
    }
  }

  lemma StoreKept(s: State, a: Action)
    requires StoreOk(s) && Apply(s, a).Some?
    ensures StoreOk(Apply(s, a).value)
  {
    var t := Apply(s, a).value;
    LogGrows(s, a);
    if forall c | 0 <= c < |t.calls| :: !t.calls[c].Saving? {
      assert !t.calls[a.call].Saving?;
      forall c | 0 <= c < |s.calls| && c != a.call
        ensures !s.calls[c].Saving?
      {
        assert t.calls[c] == s.calls[c];
      }
    }
  }

  lemma ChainStep(initial: Tokens, s: State, a: Action)
    requires Inv(initial, s) && Apply(s, a).Some?
    ensures ChainKept(initial, Apply(s, a).value.log)
  {
    LogGrows(s, a);
    if Added(s, a).Some? {
      var e := Added(s, a).value;
      NewestAfter(initial, s.log, e);
      assert LocalOk(s.log, a.call, s.calls[a.call]);
      if e.Got? && e.retry.Some? {
        var j :| e.retry.value < j < |s.log| && s.log[j].Received?;
        assert (s.log + [e])[j].Received?;
      }
      ChainExtends(initial, s.log, e);
    }
  }

  lemma GetsKept(initial: Tokens, s: State, a: Action)
    requires Inv(initial, s) && Apply(s, a).Some?
    ensures AtMostTwoGets(Apply(s, a).value.log)
  {
    LogGrows(s, a);
    assert LocalOk(s.log, a.call, s.calls[a.call]);
    if Added(s, a).Some? && Added(s, a).value.Got? {
      var e := Added(s, a).value;
      forall i | 0 <= i < |s.log| && s.log[i].Got? && s.log[i].call == a.call
        ensures s.log[i].retry.None? && e.retry == Some(i)
      {
        assert IsGet(s.log, i, a.call);
      }
    }
  }

  lemma {:induction false} StepKeepsInv(initial: Tokens, s: State, a: Action)
    requires Inv(initial, s) && PlausibleClock(a) && Apply(s, a).Some?
    ensures Inv(initial, Apply(s, a).value)
  {
    ExclusiveKept(s, a);
    LocalsKept(initial, s, a);
    HeldKept(initial, s, a);
    ZeroedKept(s, a);
    StoreKept(s, a);
    ChainStep(initial, s, a);
    GetsKept(initial, s, a);
  }

  lemma {:induction false} ExecKeepsInv(initial: Tokens, s: State, actions: seq<Action>)
    requires Inv(initial, s) && Exec(s, actions).Some?
    requires forall i | 0 <= i < |actions| :: PlausibleClock(actions[i])
    ensures Inv(initial, Exec(s, actions).value)
  {
    if actions != [] {
      var n := |actions| - 1;
      ExecKeepsInv(initial, s, actions[..n]);
      StepKeepsInv(initial, Exec(s, actions[..n]).value, actions[n]);
    }
  }

  /** Every run keeps it. */
  lemma {:induction false} RunKeepsInv(s: State, actions: seq<Action>)
    requires Connected(s) && Exec(s, actions).Some?
    requires forall i | 0 <= i < |actions| :: PlausibleClock(actions[i])
    ensures Inv(s.tokens, Exec(s, actions).value)
  {
    InitiallyInv(s);
    ExecKeepsInv(s.tokens, s, actions);
  }

  // ---------------------------------------------------------------------------
  // The refresh chain
  // ---------------------------------------------------------------------------

  ghost predicate Run(s: State, actions: seq<Action>, t: State) {
    && Connected(s) && Exec(s, actions) == Some(t)
    && forall i | 0 <= i < |actions| :: PlausibleClock(actions[i])
  }

  /** Between two log positions the newest set is the last one received there, if any. */
  lemma {:induction false} NewestBetween(initial: Tokens, log: seq<Entry>, i: nat, k: nat)
    requires i <= k <= |log|
    ensures (forall j | i <= j < k :: !log[j].Received?) ==> Newest(initial, log[..k]) == Newest(initial, log[..i])
    ensures (exists j :: i <= j < k && log[j].Received?) ==>
              exists j :: i <= j < k && log[j].Received? && Newest(initial, log[..k]) == log[j].tokens
  {
    if i < k {
      NewestBetween(initial, log, i, k - 1);
      NewestAfter(initial, log[..k - 1], log[k - 1]);
      assert log[..k] == log[..k - 1] + [log[k - 1]];
    }
  }

  /** Every refresh grant presents the refresh token of the newest set received; so once a set with
      another refresh token has arrived, and unless the server issues the old one again, the old
      one is never presented. */
  lemma RotatedOutNeverPresented(s: State, actions: seq<Action>, t: State, j: nat, k: nat, rotatedOut: string)
    requires Run(s, actions, t)
    requires j < k < |t.log| && t.log[k].Granted?
    requires t.log[j].Received?
    requires forall m | j <= m < k && t.log[m].Received? :: t.log[m].tokens.refreshToken != rotatedOut
    ensures t.log[k].presented == Newest(s.tokens, t.log[..k]).refreshToken
    ensures t.log[k].presented != rotatedOut
  {
    RunKeepsInv(s, actions);
    assert EntryOk(s.tokens, t.log, k);
    NewestBetween(s.tokens, t.log, j, k);
  }

  lemma {:induction false} LogCarriesForward(initial: Tokens, log: seq<Entry>, i: nat, k: nat)
    requires ChainKept(initial, log)
    requires i <= k <= |log|
    requires forall m | i <= m < k && log[m].Received? :: log[m].source.Refresh?
    ensures Newest(initial, log[..k]).deviceID == Newest(initial, log[..i]).deviceID
    ensures (forall m | i <= m < k && log[m].Received? :: log[m].source.response.refreshToken == "")
            ==> Newest(initial, log[..k]).refreshToken == Newest(initial, log[..i]).refreshToken
  {
    if i < k {
      LogCarriesForward(initial, log, i, k - 1);
      NewestAfter(initial, log[..k - 1], log[k - 1]);
      assert log[..k] == log[..k - 1] + [log[k - 1]];
      assert EntryOk(initial, log, k - 1);
    }
  }

  /** A stretch of the log without a full login keeps the device; one in which the server rotates
      nothing keeps the refresh token too. */
  lemma ChainCarriesForward(s: State, actions: seq<Action>, t: State, i: nat, k: nat)
    requires Run(s, actions, t)
    requires i <= k <= |t.log|
    requires forall m | i <= m < k && t.log[m].Received? :: t.log[m].source.Refresh?
    ensures Newest(s.tokens, t.log[..k]).deviceID == Newest(s.tokens, t.log[..i]).deviceID
    ensures (forall m | i <= m < k && t.log[m].Received? :: t.log[m].source.response.refreshToken == "")
            ==> Newest(s.tokens, t.log[..k]).refreshToken == Newest(s.tokens, t.log[..i]).refreshToken
  {
    RunKeepsInv(s, actions);
    LogCarriesForward(s.tokens, t.log, i, k);
  }

  // ---------------------------------------------------------------------------
  // GETs
  // ---------------------------------------------------------------------------

  lemma NoThirdGet(log: seq<Entry>, i: nat, k: nat, m: nat)
    requires AtMostTwoGets(log)
    requires i < k < |log| && m < |log|
    requires log[i].Got? && log[k].Got? && log[m].Got? && log[i].call == log[k].call == log[m].call
    ensures m == i || m == k
  {
  }

  lemma RetryIsNewer(initial: Tokens, log: seq<Entry>, i: nat, k: nat)
    requires i < k < |log| && log[k].Got? && log[k].retry == Some(i) && EntryOk(initial, log, k)
    ensures exists j :: i < j < k && log[j].Received? && SameUpToExpiry(log[k].tokens, log[j].tokens)
  {
    NewestBetween(initial, log, i + 1, k);
    var n :| i < n < k && log[n].Received?;
    var j :| i + 1 <= j < k && log[j].Received? && Newest(initial, log[..k]) == log[j].tokens;
  }

  /** At most two GETs per call, whoever else is active, and the second one only after a token
      response that came in after the first GET was issued, and carrying the newest set of all. */
  lemma RetryUsesNewerTokens(s: State, actions: seq<Action>, t: State, i: nat, k: nat)
    requires Run(s, actions, t)
    requires i < k < |t.log| && t.log[i].Got? && t.log[k].Got? && t.log[i].call == t.log[k].call
    ensures t.log[i].retry.None? && t.log[k].retry == Some(i)
    ensures forall m | 0 <= m < |t.log| && t.log[m].Got? && t.log[m].call == t.log[i].call :: m == i || m == k
    ensures exists j :: i < j < k && t.log[j].Received? && SameUpToExpiry(t.log[k].tokens, t.log[j].tokens)
    ensures SameUpToExpiry(t.log[k].tokens, Newest(s.tokens, t.log[..k]))
  {
    RunKeepsInv(s, actions);
    assert EntryOk(s.tokens, t.log, k);
    RetryIsNewer(s.tokens, t.log, i, k);
    forall m | 0 <= m < |t.log| && t.log[m].Got? && t.log[m].call == t.log[i].call
      ensures m == i || m == k
    {
      NoThirdGet(t.log, i, k, m);
    }
  }

  /** How many GETs a call has issued. */
  function GetCount(log: seq<Entry>, c: nat): nat {
    if log == [] then 0
    else GetCount(log[..|log| - 1], c) + if IsGet(log, |log| - 1, c) then 1 else 0
  }

  lemma {:induction false} FewGets(log: seq<Entry>, c: nat, p: nat)
    requires OnlyGet(log, c, p)
    ensures GetCount(log, c) <= 1
    ensures NoGets(log, c) ==> GetCount(log, c) == 0
  {
    if log != [] {
      var before := log[..|log| - 1];
      assert forall k | 0 <= k < |before| :: IsGet(before, k, c) == IsGet(log, k, c);
      FewGets(before, c, p);
    }
  }

  lemma {:induction false} TwoGetsCounted(log: seq<Entry>, c: nat)
    requires AtMostTwoGets(log)
    ensures GetCount(log, c) <= 2
  {
    if log != [] {
      var n := |log| - 1;
      var before := log[..n];
      assert forall k | 0 <= k < n :: IsGet(before, k, c) == IsGet(log, k, c);
      if IsGet(log, n, c) {
        FewGets(before, c, if log[n].retry.Some? then log[n].retry.value else 0);
      } else {
        TwoGetsCounted(before, c);
      }
    }
  }

  /** No call of any run issues more than two GETs. */
  lemma AtMostTwoGetsPerCall(s: State, actions: seq<Action>, t: State, c: nat)
    requires Run(s, actions, t)
    ensures GetCount(t.log, c) <= 2
  {
    RunKeepsInv(s, actions);
    TwoGetsCounted(t.log, c);
  }

  predicate Usable(tokens: Tokens) {
    tokens.accessToken != "" && tokens.deviceID != ""
  }

  /** Where a call may stand only with usable tokens in hand. */
  ghost predicate UsableOk(s: State) {
    && (forall c | 0 <= c < |s.calls| && (s.calls[c].Saving? || s.calls[c].Ready?) :: Usable(s.tokens))
    && (forall c | 0 <= c < |s.calls| && s.calls[c].Refreshing? :: s.tokens.deviceID != "")
    && (forall k | 0 <= k < |s.log| && s.log[k].Got? :: Usable(s.log[k].tokens))
  }

  lemma UsableReceived(s: State, a: Action)
    requires Apply(s, a).Some? && NotBlankResponse(a)
    requires s.calls[a.call].Refreshing? ==> s.tokens.deviceID != ""
    requires s.calls[a.call].LoggingIn? ==> s.calls[a.call].device != ""
    ensures Apply(s, a).value.calls[a.call].Saving? ==> Usable(Apply(s, a).value.tokens)
  {
    match a
    case RefreshAnswer(_, Some(r), now) => AccessTokenPresentIff(r, now);
    case LoginAnswer(_, Some(r), now) => AccessTokenPresentIff(r, now);
    case _ =>
  }

  /** Another call inside the locked section means this step touches no tokens. */
  lemma TokensStayWhileHeld(s: State, a: Action, c: nat)
    requires Exclusive(s) && Apply(s, a).Some? && c < |s.calls| && c != a.call
    requires Holding(s.calls[c])
    ensures Apply(s, a).value.tokens == s.tokens
  {
    assert s.lock == Some(c) && !Holding(s.calls[a.call]);
  }

  lemma OwnUsable(s: State, a: Action)
    requires UsableOk(s) && Apply(s, a).Some? && NotBlankResponse(a)
    requires s.calls[a.call].LoggingIn? ==> s.calls[a.call].device != ""
    ensures var t := Apply(s, a).value; var l := t.calls[a.call];
            && (l.Saving? || l.Ready? ==> Usable(t.tokens))
            && (l.Refreshing? ==> t.tokens.deviceID != "")
            && (Added(s, a).Some? && Added(s, a).value.Got? ==> Usable(Added(s, a).value.tokens))
  {
    UsableReceived(s, a);
  }

  lemma UsableKept(initial: Tokens, s: State, a: Action)
    requires Inv(initial, s) && UsableOk(s) && Apply(s, a).Some? && NotBlankResponse(a)
    ensures UsableOk(Apply(s, a).value)
  {
    var t := Apply(s, a).value;
    LogGrows(s, a);
    assert LocalOk(s.log, a.call, s.calls[a.call]);
    OwnUsable(s, a);
    forall c | 0 <= c < |t.calls| && c != a.call && Holding(t.calls[c])
      ensures t.tokens == s.tokens
    {
      TokensStayWhileHeld(s, a, c);
    }
  }

  /** When every token response carries an authorization value that is not blank, every GET of every
      run carries an access token and a device id. */
  lemma {:induction false} GetsCarryCredentials(s: State, actions: seq<Action>)
    requires Connected(s) && Exec(s, actions).Some?
    requires forall i | 0 <= i < |actions| :: PlausibleClock(actions[i]) && NotBlankResponse(actions[i])
    ensures UsableOk(Exec(s, actions).value)
  {
    if actions != [] {
      var n := |actions| - 1;
      GetsCarryCredentials(s, actions[..n]);
      RunKeepsInv(s, actions[..n]);
      UsableKept(s.tokens, Exec(s, actions[..n]).value, actions[n]);
    }
  }

  // ---------------------------------------------------------------------------
  // The store
  // ---------------------------------------------------------------------------

  /** Whenever the mutex is free and the most recent save did not fail, the stored tokens are the
      held ones up to an expiry zeroed in memory. */
  lemma StoreAgreesWithMemory(s: State, actions: seq<Action>, t: State)
    requires Run(s, actions, t) && t.lock.None? && t.saveOk
    ensures t.stored.Some? && SameUpToExpiry(t.tokens, t.stored.value)
  {
    RunKeepsInv(s, actions);
    forall c | 0 <= c < |t.calls|
      ensures !t.calls[c].Saving?
    {
      assert !Holding(t.calls[c]);
    }
  }

  /** What a restarted process holds after Connect has loaded the store. */
  function Restarted(stored: Option<Tokens>): Tokens {
    if stored.Some? then stored.value else NO_TOKENS
  }

  predicate ResumesChain(restarted: Tokens, held: Tokens) {
    restarted.refreshToken == held.refreshToken && restarted.deviceID == held.deviceID
  }

  /** A restart in such a state goes on with the same refresh chain and device: its next grant
      presents the newest refresh token. */
  lemma RestartResumes(s: State, actions: seq<Action>, t: State)
    requires Run(s, actions, t) && t.lock.None? && t.saveOk
    ensures ResumesChain(Restarted(t.stored), Newest(s.tokens, t.log))
    ensures Restarted(t.stored).accessToken == Newest(s.tokens, t.log).accessToken
  {
    StoreAgreesWithMemory(s, actions, t);
    RunKeepsInv(s, actions);
  }

  /** The set on its way to the store is the newest one received, expiry included. */
  ghost predicate SavingOk(initial: Tokens, s: State) {
    forall c | 0 <= c < |s.calls| && s.calls[c].Saving? :: s.tokens == Newest(initial, s.log)
  }

  lemma SavingIsReceived(s: State, a: Action)
    requires Apply(s, a).Some? && Apply(s, a).value.calls[a.call].Saving?
    ensures var t := Apply(s, a).value; var e := Added(s, a);
            e.Some? && e.value.Received? && e.value.tokens == t.tokens && t.log == s.log + [e.value]
  {
  }

  /** Another call inside the locked section means this step logs nothing. */
  lemma LogStaysWhileHeld(s: State, a: Action, c: nat)
    requires Exclusive(s) && Apply(s, a).Some? && c < |s.calls| && c != a.call
    requires Holding(s.calls[c])
    ensures Apply(s, a).value.log == s.log
  {
    assert s.lock == Some(c) && !Holding(s.calls[a.call]);
  }

  lemma SavingKept(initial: Tokens, s: State, a: Action)
    requires Exclusive(s) && SavingOk(initial, s) && Apply(s, a).Some?
    ensures SavingOk(initial, Apply(s, a).value)
  {
    var t := Apply(s, a).value;
    LogGrows(s, a);
    forall c | 0 <= c < |t.calls| && t.calls[c].Saving?
      ensures t.tokens == Newest(initial, t.log)
    {
      if c == a.call {
        SavingIsReceived(s, a);
        NewestAfter(initial, s.log, Added(s, a).value);
      } else {
        TokensStayWhileHeld(s, a, c);
        LogStaysWhileHeld(s, a, c);
      }
    }
  }

  predicate Reaches(e: Entry) {
    e.SaveEnded? && e.reached
  }

  /** What the saves that reached the store have left in it. */
  function Kept(first: Option<Tokens>, initial: Tokens, log: seq<Entry>): Option<Tokens> {
    if log == [] then first
    else
      var before := log[..|log| - 1];
      if Reaches(log[|log| - 1]) then Some(Newest(initial, before)) else Kept(first, initial, before)
  }

  lemma KeptAfter(first: Option<Tokens>, initial: Tokens, log: seq<Entry>, e: Entry)
    ensures Kept(first, initial, log + [e]) == if Reaches(e) then Some(Newest(initial, log)) else Kept(first, initial, log)
  {
    assert (log + [e])[..|log|] == log;
  }

  /** Only a save that reaches the store changes it, to the set being saved. */
  lemma StoredOfStep(s: State, a: Action)
    requires Apply(s, a).Some?
    ensures var e := Added(s, a); var reached := e.Some? && Reaches(e.value);
            && Apply(s, a).value.stored == (if reached then Some(s.tokens) else s.stored)
            && (reached ==> s.calls[a.call].Saving?)
  {
  }

  lemma KeptStep(first: Option<Tokens>, initial: Tokens, s: State, a: Action, t: State)
    requires Apply(s, a) == Some(t) && a.call < |s.calls|
    requires t.log == (if Added(s, a).None? then s.log else s.log + [Added(s, a).value])
    requires SavingOk(initial, s) && s.stored == Kept(first, initial, s.log)
    ensures t.stored == Kept(first, initial, t.log)
  {
    var e := Added(s, a);
    StoredOfStep(s, a);
    if e.Some? {
      KeptAfter(first, initial, s.log, e.value);
    }
  }

  lemma {:induction false} StoreIsKept(s: State, actions: seq<Action>, t: State)
    requires Run(s, actions, t)
    ensures SavingOk(s.tokens, t) && t.stored == Kept(s.stored, s.tokens, t.log)
  {
    if actions != [] {
      var n := |actions| - 1;
      var before := Exec(s, actions[..n]).value;
      StoreIsKept(s, actions[..n], before);
      RunKeepsInv(s, actions[..n]);
      SavingKept(s.tokens, before, actions[n]);
      LogGrows(before, actions[n]);
      KeptStep(s.stored, s.tokens, before, actions[n], t);
    }
  }

  /** The last save that reached the store; -1 if there was none. */
  ghost predicate LastReached(log: seq<Entry>, p: int) {
    && -1 <= p < |log|
    && (p >= 0 ==> Reaches(log[p]))
    && forall k | p < k < |log| :: !Reaches(log[k])
  }

  /** The set that save stored; what the store held at the start, if there was none. */
  function KeptAt(s: State, log: seq<Entry>, p: int): Tokens
    requires p < |log|
  {
    if p < 0 then Restarted(s.stored) else Newest(s.tokens, log[..p])
  }

  lemma {:induction false} KeptIsLastReached(s: State, log: seq<Entry>, p: int)
    requires LastReached(log, p)
    ensures Restarted(Kept(s.stored, s.tokens, log)) == KeptAt(s, log, p)
  {
    if log != [] && p < |log| - 1 {
      var before := log[..|log| - 1];
      KeptIsLastReached(s, before, p);
      assert p >= 0 ==> before[..p] == log[..p];
    }
  }

  ghost predicate LastReceived(log: seq<Entry>, j: int) {
    0 <= j < |log| && log[j].Received? && forall k | j < k < |log| :: !log[k].Received?
  }

  /** The last set received since that save, if any, has the stored refresh token and device. With
      no save and no set at all, the set held at the start has them. */
  ghost predicate NothingLost(s: State, log: seq<Entry>, p: int)
    requires p < |log|
  {
    && (forall j | p < j < |log| && LastReceived(log, j) :: ResumesChain(KeptAt(s, log, p), log[j].tokens))
    && (p < 0 && (forall k | 0 <= k < |log| :: !log[k].Received?) ==> ResumesChain(KeptAt(s, log, p), s.tokens))
  }

  lemma {:induction false} NewestIsLastReceived(initial: Tokens, log: seq<Entry>, j: nat)
    requires LastReceived(log, j)
    ensures Newest(initial, log) == log[j].tokens
  {
    if j < |log| - 1 {
      NewestIsLastReceived(initial, log[..|log| - 1], j);
    }
  }

  lemma {:induction false} SomeLastReceived(log: seq<Entry>, k: nat) returns (j: nat)
    requires k < |log| && log[k].Received?
    ensures k <= j && LastReceived(log, j)
  {
    j := |log| - 1;
    while !log[j].Received?
      invariant k <= j < |log|
      invariant forall m | j < m < |log| :: !log[m].Received?
      decreases j
    {
      j := j - 1;
    }
  }

  lemma LostIffLastSet(s: State, log: seq<Entry>, p: int, last: nat)
    requires -1 <= p < last && LastReceived(log, last)
    ensures ResumesChain(KeptAt(s, log, p), Newest(s.tokens, log)) <==> NothingLost(s, log, p)
  {
    NewestIsLastReceived(s.tokens, log, last);
    assert log[last].Received?;
    assert forall j | p < j < |log| && LastReceived(log, j) :: j == last;
  }

  lemma NothingReceivedNothingLost(s: State, log: seq<Entry>, p: int)
    requires LastReached(log, p) && forall k | 0 <= k < |log| && p < k :: !log[k].Received?
    ensures ResumesChain(KeptAt(s, log, p), Newest(s.tokens, log)) <==> NothingLost(s, log, p)
  {
    assert log[..|log|] == log;
    NewestBetween(s.tokens, log, if p < 0 then 0 else p, |log|);
  }

  lemma LostIffNewest(s: State, log: seq<Entry>, p: int)
    requires LastReached(log, p)
    ensures ResumesChain(KeptAt(s, log, p), Newest(s.tokens, log)) <==> NothingLost(s, log, p)
  {
    if j :| 0 <= j < |log| && p < j && log[j].Received? {
      var last := SomeLastReceived(log, j);
      LostIffLastSet(s, log, p, last);
    } else {
      NothingReceivedNothingLost(s, log, p);
    }
  }

  /** In every state of every run: a restart resumes the newest refresh chain if and only if the
      last set received since the last save that reached the store, if any, belongs to the chain
      that save stored. */
  lemma RestartResumesIff(s: State, actions: seq<Action>, t: State, p: int)
    requires Run(s, actions, t) && LastReached(t.log, p)
    ensures ResumesChain(Restarted(t.stored), Newest(s.tokens, t.log)) <==> NothingLost(s, t.log, p)
  {
    StoreIsKept(s, actions, t);
    KeptIsLastReached(s, t.log, p);
    LostIffNewest(s, t.log, p);
  }

  /** The server never takes up a refresh token and device again once another followed them. */
  ghost predicate NeverReturns(initial: Tokens, log: seq<Entry>) {
    forall i, j, k | 0 <= i <= j <= k <= |log| && ResumesChain(Newest(initial, log[..i]), Newest(initial, log[..k])) ::
      ResumesChain(Newest(initial, log[..i]), Newest(initial, log[..j]))
  }

  lemma SetBetween(initial: Tokens, log: seq<Entry>, p: nat, j: nat)
    requires NeverReturns(initial, log) && p <= j < |log| && log[j].Received?
    requires ResumesChain(Newest(initial, log[..p]), Newest(initial, log))
    ensures ResumesChain(Newest(initial, log[..p]), log[j].tokens)
  {
    assert log[..|log|] == log;
    NewestAfter(initial, log[..j], log[j]);
    assert log[..j + 1] == log[..j] + [log[j]];
    assert ResumesChain(Newest(initial, log[..p]), Newest(initial, log[..j + 1]));
  }

  /** When no chain is taken up again, a restart resumes if and only if no set of another chain has
      been received at all since the last save that reached the store, or since the start if none
      has and the store held the chain then. */
  lemma RestartResumesIffUnrotated(s: State, actions: seq<Action>, t: State, p: int)
    requires Run(s, actions, t) && LastReached(t.log, p)
    requires p < 0 ==> ResumesChain(Restarted(s.stored), s.tokens)
    requires NeverReturns(s.tokens, t.log)
    ensures ResumesChain(Restarted(t.stored), Newest(s.tokens, t.log))
            <==> forall j | 0 <= j < |t.log| && p < j && t.log[j].Received? ::
                ResumesChain(KeptAt(s, t.log, p), t.log[j].tokens)
  {
    StoreIsKept(s, actions, t);
    KeptIsLastReached(s, t.log, p);
    RestartResumesIff(s, actions, t, p);
    var from := if p < 0 then 0 else p;
    assert ResumesChain(KeptAt(s, t.log, p), Newest(s.tokens, t.log[..from]));
    forall j | 0 <= j < |t.log| && p < j && t.log[j].Received? &&
        ResumesChain(KeptAt(s, t.log, p), Newest(s.tokens, t.log))
      ensures ResumesChain(KeptAt(s, t.log, p), t.log[j].tokens)
    {
      SetBetween(s.tokens, t.log, from, j);
    }
  }

  lemma ExecStep(s: State, actions: seq<Action>, a: Action)
    requires Exec(s, actions).Some?
    ensures Exec(s, actions + [a]) == Apply(Exec(s, actions).value, a)
  {
    assert (actions + [a])[..|actions|] == actions;
  }

  /** A call with an expired token and a refresh token to use has asked for a refresh. */
  lemma RefreshRequested(s: State, now: int) returns (actions: seq<Action>)
    requires Connected(s) && |s.calls| > 0
    requires !Valid(s.tokens, now) && s.tokens.refreshToken != "" && s.tokens.deviceID != ""
    ensures Exec(s, actions) == Some(At(s, 0, Refreshing(None)).(lock := Some(0), log := [Granted(0, s.tokens.refreshToken)]))
    ensures Plausible(now) ==> forall i | 0 <= i < |actions| :: PlausibleClock(actions[i])
    ensures forall i | 0 <= i < |actions| :: !actions[i].RefreshAnswer? && !actions[i].LoginAnswer?
  {
    actions := [];
    assert s.calls[0] == Idle;
    ExecStep(s, actions, Start(0));
    actions := actions + [Start(0)];
    ExecStep(s, actions, Lock(0));
    actions := actions + [Lock(0)];
    ExecStep(s, actions, Check(0, now));
    actions := actions + [Check(0, now)];
    assert s.calls[0 := Waiting(None)][0 := Checking(None)][0 := Refreshing(None)] == s.calls[0 := Refreshing(None)];
    assert s.log + [Granted(0, s.tokens.refreshToken)] == [Granted(0, s.tokens.refreshToken)];
  }

  function Then(s: Option<State>, a: Action): Option<State> {
    if s.None? then None else Apply(s.value, a)
  }

  /** A refresh answered with a blank access token, and saved, ends in a GET without credentials. */
  lemma BlankAnswerIsSent(s: State, now: int, blank: TokenResponse)
    requires |s.calls| > 0 && s.calls[0] == Refreshing(None)
    requires Accepted(blank) && Refreshed(s.tokens, blank, now).accessToken == ""
    ensures var end := Then(Then(Apply(s, RefreshAnswer(0, Some(blank), now)), SaveAnswer(0, true, true)), Unlock(0));
            && end.Some? && |end.value.log| > 0 && IsGet(end.value.log, |end.value.log| - 1, 0)
            && end.value.log[|end.value.log| - 1].tokens.accessToken == ""
  {
  }

  /** If the token endpoint answers at all, this is its answer. */
  predicate Answers(a: Action, r: TokenResponse) {
    match a
    case RefreshAnswer(_, Some(response), _) => response == r
    case LoginAnswer(_, Some(response), _) => response == r
    case _ => true
  }

  ghost predicate AllGetsUsable(log: seq<Entry>) {
    forall k | 0 <= k < |log| && log[k].Got? :: Usable(log[k].tokens)
  }

  /** The hypothesis on responses is exact: every response that postToken accepts although it is
      blank can be stored, and sent as an empty Authorization header. */
  lemma BlankTokenIsSent(s: State, now: int, blank: TokenResponse) returns (actions: seq<Action>)
    requires Connected(s) && |s.calls| > 0
    requires !Valid(s.tokens, now) && s.tokens.refreshToken != "" && s.tokens.deviceID != ""
    requires Accepted(blank) && !NotBlank(blank.tokenType) && !NotBlank(blank.accessToken)
    ensures Exec(s, actions).Some? && (Plausible(now) ==> Run(s, actions, Exec(s, actions).value))
    ensures forall i | 0 <= i < |actions| :: Answers(actions[i], blank)
    ensures exists k :: 0 <= k < |Exec(s, actions).value.log| && IsGet(Exec(s, actions).value.log, k, 0)
                        && Exec(s, actions).value.log[k].tokens.accessToken == ""
  {
    AccessTokenPresentIff(blank, now);
    actions := RefreshRequested(s, now);
    BlankAnswerIsSent(Exec(s, actions).value, now, blank);
    ExecStep(s, actions, RefreshAnswer(0, Some(blank), now));
    actions := actions + [RefreshAnswer(0, Some(blank), now)];
    ExecStep(s, actions, SaveAnswer(0, true, true));
    actions := actions + [SaveAnswer(0, true, true)];
    ExecStep(s, actions, Unlock(0));
    actions := actions + [Unlock(0)];
  }

  ghost predicate RunAnsweredBy(s: State, actions: seq<Action>, t: State, r: TokenResponse) {
    Run(s, actions, t) && forall i | 0 <= i < |actions| :: Answers(actions[i], r)
  }

  /** Over runs: with an expired token to refresh, a server that answers with `r` leaves every GET
      of every run with an access token and a device id if and only if `r` is not blank. */
  lemma CredentialsIff(s: State, now: int, r: TokenResponse)
    requires Connected(s) && |s.calls| > 0 && Plausible(now)
    requires !Valid(s.tokens, now) && s.tokens.refreshToken != "" && s.tokens.deviceID != ""
    requires Accepted(r)
    ensures (forall actions, t | RunAnsweredBy(s, actions, t, r) :: AllGetsUsable(t.log))
            <==> NotBlank(r.tokenType) || NotBlank(r.accessToken)
  {
    if NotBlank(r.tokenType) || NotBlank(r.accessToken) {
      forall actions, t | RunAnsweredBy(s, actions, t, r)
        ensures AllGetsUsable(t.log)
      {
        forall i | 0 <= i < |actions|
          ensures NotBlankResponse(actions[i])
        {
          assert Answers(actions[i], r);
        }
        GetsCarryCredentials(s, actions);
      }
    } else {
      var actions := BlankTokenIsSent(s, now, r);
      assert RunAnsweredBy(s, actions, Exec(s, actions).value, r);
    }
  }

  // ---------------------------------------------------------------------------
  // A rotation whose save is lost
  // ---------------------------------------------------------------------------

  /** The first call of a process that has just loaded the store, inside Connect. */
  function Connecting(tokens: Tokens, stored: Option<Tokens>): State {
    State(tokens, stored, stored == Some(tokens), Some(0), [Checking(None)], [])
  }

  /** A refresh that rotates the refresh token, whose save does not reach the store. */
  lemma LostSave(s: State, now: int, rotated: TokenResponse)
    requires |s.calls| > 0 && s.calls[0] == Refreshing(None) && Accepted(rotated)
    ensures var end := Then(Then(Apply(s, RefreshAnswer(0, Some(rotated), now)), SaveAnswer(0, false, false)), Unlock(0));
            var tok := Refreshed(s.tokens, rotated, now);
            && end.Some? && end.value.lock.None? && end.value.stored == s.stored
            && end.value.log == s.log + [Received(tok, Refresh(rotated, now)), SaveEnded(false, false)]
  {
  }

  /** From every connected state with an expired token, and for every rotating answer, there is a
      run that hands in the refresh token, receives its replacement and loses the save, after which
      a restarted process presents the rotated-out token again. */
  lemma LostRotationIsPresentedAgain(s: State, now: int, rotated: TokenResponse, later: int)
      returns (actions: seq<Action>, t: State)
    requires Connected(s) && |s.calls| > 0 && s.saveOk
    requires !Valid(s.tokens, now) && s.tokens.refreshToken != "" && s.tokens.deviceID != ""
    requires Accepted(rotated) && rotated.refreshToken != "" && rotated.refreshToken != s.tokens.refreshToken
    requires Plausible(now) && now <= later
    ensures Run(s, actions, t) && t.lock.None?
    ensures t.log == [Granted(0, s.tokens.refreshToken),
                      Received(Refreshed(s.tokens, rotated, now), Refresh(rotated, now)),
                      SaveEnded(false, false)]
    ensures Newest(s.tokens, t.log).refreshToken == rotated.refreshToken
    ensures var restarted := Apply(Connecting(Restarted(t.stored), t.stored), Check(0, later));
            restarted.Some? && restarted.value.log == [Granted(0, s.tokens.refreshToken)]
  {
    actions := RefreshRequested(s, now);
    LostSave(Exec(s, actions).value, now, rotated);
    ExecStep(s, actions, RefreshAnswer(0, Some(rotated), now));
    actions := actions + [RefreshAnswer(0, Some(rotated), now)];
    ExecStep(s, actions, SaveAnswer(0, false, false));
    actions := actions + [SaveAnswer(0, false, false)];
    ExecStep(s, actions, Unlock(0));
    actions := actions + [Unlock(0)];
    t := Exec(s, actions).value;
    NewestIsLastReceived(s.tokens, t.log, 1);
    RestartPresents(s.tokens, later);
  }

  /** A restarted process that loads an expired set hands in its refresh token. */
  lemma RestartPresents(stored: Tokens, now: int)
    requires !Valid(stored, now) && stored.refreshToken != "" && stored.deviceID != ""
    ensures var restarted := Apply(Connecting(stored, Some(stored)), Check(0, now));
            restarted.Some? && restarted.value.log == [Granted(0, stored.refreshToken)]
  {
  }

  // ---------------------------------------------------------------------------
  // A call that issues two GETs
  // ---------------------------------------------------------------------------

  ghost predicate Leads(s: State, actions: seq<Action>, t: State) {
    Exec(s, actions) == Some(t) && forall i | 0 <= i < |actions| :: PlausibleClock(actions[i])
  }

  predicate SameButFor(calls: seq<Local>, later: seq<Local>, c: nat) {
    |later| == |calls| && forall d | 0 <= d < |calls| && d != c :: later[d] == calls[d]
  }

  lemma OneMore(s: State, actions: seq<Action>, t: State, a: Action) returns (longer: seq<Action>, u: State)
    requires Leads(s, actions, t) && Apply(t, a).Some? && PlausibleClock(a)
    ensures Leads(s, longer, u) && Some(u) == Apply(t, a)
    ensures SameButFor(t.calls, u.calls, a.call)
    ensures GetCount(u.log, a.call) == GetCount(t.log, a.call) + if a.Unlock? && t.calls[a.call].Ready? then 1 else 0
  {
    ExecStep(s, actions, a);
    longer, u := actions + [a], Apply(t, a).value;
    OthersStay(t, a);
    GetOfStep(t, a);
    LogGrows(t, a);
    if Added(t, a).Some? {
      CountStep(t.log, Added(t, a).value, a.call);
    }
  }

  /** Only unlocking with a token in hand issues a GET. */
  lemma GetOfStep(s: State, a: Action)
    requires Apply(s, a).Some?
    ensures Added(s, a).Some? && Added(s, a).value.Got? <==> a.Unlock? && s.calls[a.call].Ready?
  {
  }

  lemma CountStep(log: seq<Entry>, e: Entry, c: nat)
    ensures GetCount(log + [e], c) == GetCount(log, c) + if e.Got? && e.call == c then 1 else 0
  {
    assert (log + [e])[..|log|] == log;
  }

  /** Tokens that are good for a GET, and for a refresh once they are not. */
  predicate Armed(t: Tokens, now: int) {
    Valid(t, now) && t.deviceID != "" && t.refreshToken != ""
  }

  /** A response that leaves such tokens. */
  predicate Renews(r: TokenResponse) {
    Accepted(r) && (NotBlank(r.tokenType) || NotBlank(r.accessToken)) && (r.expiresIn == 0 || r.expiresIn > 120)
  }

  lemma RenewedIsArmed(held: Tokens, r: TokenResponse, now: int)
    requires Renews(r) && held.deviceID != "" && held.refreshToken != ""
    ensures Armed(Refreshed(held, r, now), now)
  {
    AccessTokenPresentIff(r, now);
  }

  /** A call with a valid token, on its way to the first GET. */
  lemma Asks(s: State, first: seq<Action>, t: State, c: nat, now: int) returns (actions: seq<Action>, u: State)
    requires Leads(s, first, t) && c < |t.calls| && t.calls[c] == Idle && t.lock.None?
    requires Armed(t.tokens, now) && Plausible(now)
    ensures Leads(s, actions, u) && SameButFor(t.calls, u.calls, c) && u.calls[c] == Ready(None)
    ensures u.tokens == t.tokens && GetCount(u.log, c) == GetCount(t.log, c)
  {
    actions, u := OneMore(s, first, t, Start(c));
    actions, u := OneMore(s, actions, u, Lock(c));
    actions, u := OneMore(s, actions, u, Check(c, now));
  }

  /** A GET and its answer. */
  lemma Gets(s: State, first: seq<Action>, t: State, c: nat, retry: Option<nat>, status: int)
      returns (actions: seq<Action>, u: State)
    requires Leads(s, first, t) && c < |t.calls| && t.calls[c] == Ready(retry)
    ensures Leads(s, actions, u) && SameButFor(t.calls, u.calls, c) && u.lock.None? && u.tokens == t.tokens
    ensures u.calls[c] == if status == UNAUTHORIZED && retry.None? then Waiting(Some(|t.log|)) else Done(status == OK_STATUS)
    ensures GetCount(u.log, c) == GetCount(t.log, c) + 1
  {
    actions, u := OneMore(s, first, t, Unlock(c));
    actions, u := OneMore(s, actions, u, GetAnswer(c, Some(status)));
  }

  /** The retry invalidates the tokens and asks for new ones. */
  lemma RetryAsks(s: State, first: seq<Action>, t: State, c: nat, at: nat, now: int)
      returns (actions: seq<Action>, u: State)
    requires Leads(s, first, t) && c < |t.calls| && t.calls[c] == Waiting(Some(at)) && t.lock.None? && Plausible(now)
    requires t.tokens.refreshToken != "" && t.tokens.deviceID != ""
    ensures Leads(s, actions, u) && SameButFor(t.calls, u.calls, c) && u.calls[c] == Refreshing(Some(at))
    ensures u.tokens == Invalidated(t.tokens) && GetCount(u.log, c) == GetCount(t.log, c)
  {
    actions, u := OneMore(s, first, t, Lock(c));
    actions, u := OneMore(s, actions, u, Check(c, now));
  }

  /** It gets them and saves them. */
  lemma RetrySaves(s: State, first: seq<Action>, t: State, c: nat, at: nat, now: int, r: TokenResponse)
      returns (actions: seq<Action>, u: State)
    requires Leads(s, first, t) && c < |t.calls| && t.calls[c] == Refreshing(Some(at)) && Accepted(r)
    ensures Leads(s, actions, u) && SameButFor(t.calls, u.calls, c) && u.calls[c] == Ready(Some(at))
    ensures u.tokens == Refreshed(t.tokens, r, now) && GetCount(u.log, c) == GetCount(t.log, c)
  {
    actions, u := OneMore(s, first, t, RefreshAnswer(c, Some(r), now));
    actions, u := OneMore(s, actions, u, SaveAnswer(c, true, true));
  }

  /** The bound of two GETs is reached, by any call, whenever the mutex is free and the tokens are
      good: refused once, and answered after a refresh. The tokens are good again afterwards. */
  lemma TwoGetsHappen(s: State, c: nat, now: int, r: TokenResponse, status: int)
      returns (actions: seq<Action>, t: State)
    requires c < |s.calls| && s.calls[c] == Idle && s.lock.None?
    requires Armed(s.tokens, now) && Plausible(now) && Renews(r)
    ensures Leads(s, actions, t) && SameButFor(s.calls, t.calls, c) && t.calls[c] == Done(status == OK_STATUS)
    ensures t.lock.None? && Armed(t.tokens, now)
    ensures GetCount(t.log, c) == GetCount(s.log, c) + 2
  {
    actions, t := Asks(s, [], s, c, now);
    var at := |t.log|;
    actions, t := Gets(s, actions, t, c, None, UNAUTHORIZED);
    actions, t := RetryAsks(s, actions, t, c, at, now);
    RenewedIsArmed(t.tokens, r, now);
    actions, t := RetrySaves(s, actions, t, c, at, now, r);
    actions, t := Gets(s, actions, t, c, Some(at), status);
  }

  /** A call that has not begun has no GETs. */
  lemma IdleHasNoGets(initial: Tokens, s: State, c: nat)
    requires Inv(initial, s) && c < |s.calls| && s.calls[c] == Idle
    ensures GetCount(s.log, c) == 0
  {
    assert LocalOk(s.log, c, s.calls[c]);
    FewGets(s.log, c, 0);
  }
}
