/** The Bluelink client's token handling as it is written (internal/bluelink/client.go,
    internal/bluelink/auth.go): a class whose methods update the held tokens and the store in
    place. Every method is shown to take only steps of the token machine, so that everything proved
    of its runs holds of the class, other calls running between its locked sections included. */
module Client {
  import opened Wrappers
  import opened Durations
  import opened TokenModel
  import opened TokenRuns

  datatype SaveResult = SaveResult(ok: bool, written: bool)

  /** Whatever the client cannot determine: the clock, the servers and the store, each by the number
      of answers so far. */
  datatype World = World(
    clock: nat -> int,
    token: nat -> Option<TokenResponse>,
    register: nat -> Option<string>,
    get: nat -> Option<int>,
    save: nat -> SaveResult,
    loadFails: bool)

  /** The machine can go from one state to the other. */
  ghost predicate Reachable(from: State, to: State) {
    exists actions :: Exec(from, actions) == Some(to) && PlausibleClocks(actions)
  }

  predicate PlausibleClocks(actions: seq<Action>) {
    forall i | 0 <= i < |actions| :: PlausibleClock(actions[i])
  }

  lemma ReachNone(s: State)
    ensures Reachable(s, s)
  {
    assert Exec(s, []) == Some(s) && PlausibleClocks([]);
  }

  lemma ReachStep(from: State, to: State, a: Action)
    requires Reachable(from, to) && Apply(to, a).Some? && PlausibleClock(a)
    ensures Reachable(from, Apply(to, a).value)
  {
    var actions :| Exec(from, actions) == Some(to) && PlausibleClocks(actions);
    ExecStep(from, actions, a);
    assert PlausibleClocks(actions + [a]);
  }

  /** An access token with more than two minutes left, on a device. */
  predicate Lasting(t: Tokens, now: int) {
    t.accessToken != "" && t.deviceID != "" && t.validUntil - now > 120 * SECOND
  }

  function Adopted(stored: Option<Tokens>, held: Tokens): Tokens {
    if stored.Some? then stored.value else held
  }

  class Client {
    var tokens: Tokens
    var stored: Option<Tokens>
    var answers: nat
    const world: World

    ghost var start: State
    ghost var machine: State

    /** The fields are the machine's, and the machine has come from `start` by its own steps. */
    ghost predicate InStep()
      reads this
    {
      && machine.tokens == tokens && machine.stored == stored
      && Reachable(start, machine)
      && forall n :: Plausible(world.clock(n))
    }

    ghost predicate Stands(c: nat, l: Local)
      reads this
    {
      c < |machine.calls| && machine.calls[c] == l
    }

    constructor (stored: Option<Tokens>, world: World)
      ensures tokens == NO_TOKENS && this.stored == stored && this.world == world
    {
      tokens := NO_TOKENS;
      this.stored := stored;
      answers := 0;
      this.world := world;
    }

    ghost method Step(a: Action)
      requires Reachable(start, machine) && Apply(machine, a).Some? && PlausibleClock(a)
      modifies `machine
      ensures Some(machine) == Apply(old(machine), a)
      ensures Reachable(start, machine)
    {
      ReachStep(start, machine, a);
      machine := Apply(machine, a).value;
    }

    // The steps one by one, each with the state it leads to.

    ghost method StepStart(c: nat)
      requires Reachable(start, machine) && Stands(c, Idle)
      modifies `machine
      ensures machine == At(old(machine), c, Waiting(None)) && Reachable(start, machine)
    {
      Step(Start(c));
    }

    ghost method StepLock(c: nat, retry: Option<nat>)
      requires Reachable(start, machine) && Stands(c, Waiting(retry)) && machine.lock.None?
      modifies `machine
      ensures machine == At(old(machine), c, Checking(retry)).(
                lock := Some(c), tokens := if retry.Some? then Invalidated(old(machine).tokens) else old(machine).tokens)
      ensures Reachable(start, machine)
    {
      Step(Lock(c));
    }

    ghost method StepCheck(c: nat, retry: Option<nat>, now: int)
      requires Reachable(start, machine) && Stands(c, Checking(retry)) && Plausible(now)
      modifies `machine
      ensures machine == Checked(old(machine), c, retry, now) && Reachable(start, machine)
    {
      Step(Check(c, now));
    }

    ghost method StepRefresh(c: nat, retry: Option<nat>, response: Option<TokenResponse>, now: int)
      requires Reachable(start, machine) && Stands(c, Refreshing(retry)) &&
              (response.Some? ==> Accepted(response.value))
      modifies `machine
      ensures response.None? ==> machine == At(old(machine), c, Registering(retry))
      ensures response.Some? ==> machine == Receive(old(machine), c, retry,
                Refreshed(old(machine).tokens, response.value, now), Refresh(response.value, now))
      ensures Reachable(start, machine)
    {
      Step(RefreshAnswer(c, response, now));
    }

    ghost method StepRegister(c: nat, retry: Option<nat>, device: Option<string>)
      requires Reachable(start, machine) && Stands(c, Registering(retry)) && device != Some("")
      modifies `machine
      ensures machine == At(old(machine), c, if device.Some? then LoggingIn(retry, device.value) else Failing)
      ensures Reachable(start, machine)
    {
      Step(RegisterAnswer(c, device));
    }

    ghost method StepLogin(c: nat, retry: Option<nat>, device: string, response: Option<TokenResponse>, now: int)
      requires Reachable(start, machine) && Stands(c, LoggingIn(retry, device)) &&
              (response.Some? ==> Accepted(response.value))
      modifies `machine
      ensures response.None? ==> machine == At(old(machine), c, Failing)
      ensures response.Some? ==> machine == Receive(old(machine), c, retry,
                LoggedIn(device, response.value, now), Login(device, response.value, now))
      ensures Reachable(start, machine)
    {
      Step(LoginAnswer(c, response, now));
    }

    ghost method StepUnlock(c: nat, ok: bool, retry: Option<nat>)
      requires Reachable(start, machine) && Stands(c, if ok then Ready(retry) else Failing)
      modifies `machine
      ensures !ok ==> machine == At(old(machine), c, Done(false)).(lock := None)
      ensures ok ==> machine == At(old(machine), c, Getting(retry, |old(machine).log|)).(
                lock := None, log := old(machine).log + [Got(c, retry, old(machine).tokens)])
      ensures Reachable(start, machine)
    {
      Step(Unlock(c));
    }

    ghost method StepAnswer(c: nat, retry: Option<nat>, at: nat, status: Option<int>)
      requires Reachable(start, machine) && Stands(c, Getting(retry, at))
      modifies `machine
      ensures machine == Answered(old(machine), c, retry, at, status) && Reachable(start, machine)
    {
      Step(GetAnswer(c, status));
    }

    /** What the token endpoint's n-th answer comes to. */
    function Answer(n: nat): Option<TokenResponse> {
      var answer := world.token(n);
      if answer.Some? && answer.value.accessToken != "" then answer else None
    }

    /** The set was received and saved, as far as the save went. */
    ghost predicate SavedAt(n: nat, ok: bool, before: Option<Tokens>)
      reads this
    {
      && ok == world.save(n).ok
      && stored == if world.save(n).ok || world.save(n).written then Some(tokens) else before
    }

    /** A login at the n-th answer: a new device, then new tokens for it, saved; or nothing changed. */
    ghost predicate LoggedInAt(n: nat, ok: bool, held: Tokens, before: Option<Tokens>)
      reads this
    {
      var device := world.register(n);
      if device.Some? && device.value != "" && Answer(n + 1).Some? then
        && tokens == LoggedIn(device.value, Answer(n + 1).value, world.clock(n + 2)) && tokens.deviceID == device.value
        && SavedAt(n + 2, ok, before)
      else !ok && tokens == held && stored == before
    }

    /** A refresh at the n-th answer: the device stays, and so does the refresh token unless the answer
        has another. */
    ghost predicate RefreshedAt(n: nat, ok: bool, held: Tokens, before: Option<Tokens>)
      reads this
    {
      && Answer(n).Some?
      && tokens == Refreshed(held, Answer(n).value, world.clock(n + 1)) && tokens.deviceID == held.deviceID
      && tokens.refreshToken == (if Answer(n).value.refreshToken == "" then held.refreshToken else Answer(n).value.refreshToken)
      && SavedAt(n + 1, ok, before)
    }

    /** postToken: the next answer of the token endpoint, refused if it has no access token. */
    method PostToken() returns (r: Option<TokenResponse>)
      modifies `answers
      ensures answers == old(answers) + 1
      ensures var answer := world.token(old(answers));
              r == if answer.Some? && answer.value.accessToken != "" then answer else None
    {
      r := world.token(answers);
      answers := answers + 1;
      if r.Some? && r.value.accessToken == "" {
        r := None;
      }
    }

    method Save(ghost c: nat, ghost retry: Option<nat>) returns (ok: bool)
      requires InStep() && Stands(c, Saving(retry))
      modifies this
      ensures InStep() && start == old(start)
      ensures tokens == old(tokens) && answers == old(answers) + 1
      ensures var result := world.save(old(answers));
              && ok == result.ok
              && stored == if result.ok || result.written then Some(tokens) else old(stored)
      ensures machine.lock == old(machine).lock &&
              machine.calls == old(machine).calls[c := if ok then Ready(retry) else Failing]
    {
      var result := world.save(answers);
      answers := answers + 1;
      Step(SaveAnswer(c, result.ok, result.written));
      if result.ok || result.written {
        stored := Some(tokens);
      }
      ok := result.ok;
    }

    /** refreshTokens: the new set, the old refresh token carried forward if none came back. */
    method RefreshTokens(refresh: string)
        returns (tok: Option<Tokens>, ghost response: Option<TokenResponse>, ghost now: int)
      modifies `answers
      ensures response.Some? ==> Accepted(response.value)
      ensures tok.Some? <==> response.Some?
      ensures answers == old(answers) + 1 && response == Answer(old(answers)) && now == world.clock(old(answers) + 1)
      ensures tok.Some? ==> tok.value == TokensFrom(response.value, now).(
                refreshToken := if response.value.refreshToken == "" then refresh else response.value.refreshToken)
    {
      var r := PostToken();
      response, now := r, world.clock(answers);
      if r.None? {
        return None, response, now;
      }
      var t := TokensFrom(r.value, world.clock(answers));
      if t.refreshToken == "" {
        t := t.(refreshToken := refresh);
      }
      tok := Some(t);
    }

    method FullLoginLocked(ghost c: nat, ghost retry: Option<nat>) returns (ok: bool)
      requires InStep() && Stands(c, Registering(retry))
      modifies this
      ensures InStep() && start == old(start)
      ensures machine.lock == old(machine).lock &&
              machine.calls == old(machine).calls[c := if ok then Ready(retry) else Failing]
      ensures ok ==> stored == Some(tokens) && tokens.deviceID != ""
      ensures LoggedInAt(old(answers), ok, old(tokens), old(stored))
    {
      var device := world.register(answers);
      answers := answers + 1;
      if device == Some("") {
        device := None;
      }
      StepRegister(c, retry, device);
      if device.None? {
        return false;
      }
      ok := LoginLocked(c, retry, device.value);
    }

    /** fullLoginLocked from the login on, with the device that was just registered. */
    method LoginLocked(ghost c: nat, ghost retry: Option<nat>, device: string) returns (ok: bool)
      requires InStep() && Stands(c, LoggingIn(retry, device)) && device != ""
      modifies this
      ensures InStep() && start == old(start)
      ensures machine.lock == old(machine).lock &&
              machine.calls == old(machine).calls[c := if ok then Ready(retry) else Failing]
      ensures ok ==> stored == Some(tokens) && tokens.deviceID == device
      ensures var n := old(answers);
              if Answer(n).Some? then
                tokens == LoggedIn(device, Answer(n).value, world.clock(n + 1)) && SavedAt(n + 1, ok, old(stored))
              else !ok && tokens == old(tokens) && stored == old(stored)
    {
      var r := PostToken();
      var now := world.clock(answers);
      StepLogin(c, retry, device, r, now);
      if r.None? {
        return false;
      }
      tokens := TokensFrom(r.value, now).(deviceID := device);
      ok := Save(c, retry);
    }

    /** The refresh branch of ensureTokenLocked; a refusal leaves the call to log in from scratch. */
    method RefreshLocked(ghost c: nat, ghost retry: Option<nat>) returns (refreshed: bool, ok: bool)
      requires InStep() && Stands(c, Refreshing(retry))
      modifies this
      ensures InStep() && start == old(start) && machine.lock == old(machine).lock
      ensures machine.calls == old(machine).calls[
                c := if !refreshed then Registering(retry) else if ok then Ready(retry) else Failing]
      ensures tokens.deviceID == old(tokens).deviceID && (refreshed && ok ==> stored == Some(tokens))
      ensures refreshed <==> Answer(old(answers)).Some?
      ensures refreshed ==> RefreshedAt(old(answers), ok, old(tokens), old(stored))
      ensures !refreshed ==> answers == old(answers) + 1 && tokens == old(tokens) && stored == old(stored)
    {
      ghost var response, at;
      var tok;
      tok, response, at := RefreshTokens(tokens.refreshToken);
      StepRefresh(c, retry, response, at);
      if tok.None? {
        return false, false;
      }
      tokens := tok.value.(deviceID := tokens.deviceID);
      ok := Save(c, retry);
      refreshed := true;
    }

    /** ensureTokenLocked: with a usable token nothing is asked and nothing changes; else a refresh if
        there is a refresh token and a device, else, or if that is refused, a login. */
    ghost predicate EnsuredAt(n: nat, ok: bool, held: Tokens, before: Option<Tokens>)
      reads this
    {
      if Lasting(held, world.clock(n)) then ok && tokens == held && stored == before && answers == n
      else RenewedAt(n, ok, held, before)
    }

    ghost predicate RenewedAt(n: nat, ok: bool, held: Tokens, before: Option<Tokens>)
      reads this
    {
      if !(held.refreshToken != "" && held.deviceID != "") then LoggedInAt(n, ok, held, before)
      else if Answer(n).Some? then RefreshedAt(n, ok, held, before)
      else LoggedInAt(n + 1, ok, held, before)
    }

    method EnsureTokenLocked(ghost c: nat, ghost retry: Option<nat>) returns (ok: bool)
      requires InStep() && Stands(c, Checking(retry))
      modifies this
      ensures InStep() && start == old(start)
      ensures machine.lock == old(machine).lock &&
              machine.calls == old(machine).calls[c := if ok then Ready(retry) else Failing]
      ensures ok ==> tokens.deviceID != ""
      ensures ok ==> stored == Some(tokens) || (tokens == old(tokens) && stored == old(stored) && tokens.accessToken != "")
      ensures EnsuredAt(old(answers), ok, old(tokens), old(stored))
    {
      var now := world.clock(answers);
      StepCheck(c, retry, now);
      if Valid(tokens, now) && tokens.deviceID != "" {
        return true;
      }
      ok := RenewLocked(c, retry);
    }

    /** ensureTokenLocked without a usable token. */
    method RenewLocked(ghost c: nat, ghost retry: Option<nat>) returns (ok: bool)
      requires InStep()
      requires Stands(c, if tokens.refreshToken != "" && tokens.deviceID != "" then Refreshing(retry) else Registering(retry))
      modifies this
      ensures InStep() && start == old(start)
      ensures machine.lock == old(machine).lock &&
              machine.calls == old(machine).calls[c := if ok then Ready(retry) else Failing]
      ensures ok ==> stored == Some(tokens) && tokens.deviceID != ""
      ensures RenewedAt(old(answers), ok, old(tokens), old(stored))
    {
      if tokens.refreshToken != "" && tokens.deviceID != "" {
        var refreshed;
        refreshed, ok := RefreshLocked(c, retry);
        if refreshed {
          return;
        }
      }
      ok := FullLoginLocked(c, retry);
    }

    /** Load, adopt what was stored, make sure of a usable token. On success this is where the runs
        of `calls` concurrent calls begin. The machine goes from `asked`, where the check is made with
        what a restarted process holds, to `reached`. */
    method Connect(ghost calls: nat) returns (ok: bool, ghost asked: State, ghost reached: State)
      requires forall n :: Plausible(world.clock(n))
      ensures ok ==> InStep() && Connected(machine) && start == machine && |machine.calls| == calls
      ensures ok ==> (machine.saveOk <==> stored == Some(tokens))
      modifies this
      ensures ok && tokens != old(tokens) ==> stored == Some(tokens)
      ensures world.loadFails ==> !ok && tokens == old(tokens) && stored == old(stored)
      ensures !world.loadFails ==> EnsuredAt(old(answers), ok, Adopted(old(stored), old(tokens)), old(stored))
      ensures !world.loadFails ==> asked == Connecting(Adopted(old(stored), old(tokens)), old(stored))
      ensures !world.loadFails && old(tokens) == NO_TOKENS ==> asked == Connecting(Restarted(old(stored)), old(stored))
      ensures !world.loadFails ==> Reachable(asked, reached) && reached.tokens == tokens && reached.stored == stored
    {
      if world.loadFails {
        return false, Connecting(tokens, stored), Connecting(tokens, stored);
      }
      if stored.Some? {
        tokens := stored.value;
      }
      start := Connecting(tokens, stored);
      machine := start;
      asked := start;
      ReachNone(start);
      ok := EnsureTokenLocked(0, None);
      reached := machine;
      if ok {
        machine := TokenRuns.State(tokens, stored, stored == Some(tokens), None, seq(calls, i => Idle), []);
        start := machine;
        ReachNone(start);
      }
    }

    /** What a call may rely on while it does not hold the mutex: the others move the machine by its
        own steps, leave this call where it stands, and the mutex is free when it asks again. Doing
        nothing is one such interference; a caller knows no more than this contract. */
    method OthersRun(ghost c: nat, ghost l: Local)
      requires InStep() && machine.lock.None? && Stands(c, l)
      modifies `tokens, `stored, `answers, `machine
      ensures InStep() && machine.lock.None? && Stands(c, l)
      ensures Reachable(old(machine), machine)
    {
      ReachNone(machine);
    }

    /** The locked section of doAuthedGet: invalidate after a 401, ensure a token, take a snapshot. */
    method Snapshot(ghost c: nat, ghost retry: Option<nat>, invalidate: bool) returns (ok: bool, tok: Tokens)
      requires InStep() && machine.lock.None? && Stands(c, Waiting(retry)) && (invalidate <==> retry.Some?)
      modifies this
      ensures InStep() && start == old(start) && machine.lock.None?
      ensures !ok ==> Stands(c, Done(false))
      ensures ok ==> && |machine.log| > 0 && machine.log[|machine.log| - 1] == Got(c, retry, tok)
                     && Stands(c, Getting(retry, |machine.log| - 1))
    {
      StepLock(c, retry);
      if invalidate {
        tokens := tokens.(validUntil := ZERO_TIME);
      }
      ok := EnsureTokenLocked(c, retry);
      tok := tokens;
      StepUnlock(c, ok, retry);
    }

    /** rawGet: the request is out, the others run, the answer comes in. */
    method RawGet(ghost c: nat, ghost retry: Option<nat>, ghost at: nat) returns (status: Option<int>)
      requires InStep() && machine.lock.None? && Stands(c, Getting(retry, at))
      modifies this
      ensures InStep() && start == old(start) && machine.lock.None?
      ensures Stands(c, if status == Some(UNAUTHORIZED) && retry.None? then Waiting(Some(at)) else Done(status == Some(OK_STATUS)))
    {
      OthersRun(c, Getting(retry, at));
      status := world.get(answers);
      answers := answers + 1;
      StepAnswer(c, retry, at, status);
    }

    /** One locked section and the GET it allows, with every other call free to run before each. */
    method Attempt(ghost c: nat, ghost retry: Option<nat>, invalidate: bool)
        returns (ok: bool, status: Option<int>, ghost at: nat)
      requires InStep() && machine.lock.None? && Stands(c, Waiting(retry)) && (invalidate <==> retry.Some?)
      modifies this
      ensures InStep() && start == old(start) && machine.lock.None?
      ensures !ok ==> Stands(c, Done(false))
      ensures ok ==> Stands(c, if status == Some(UNAUTHORIZED) && retry.None? then Waiting(Some(at))
                               else Done(status == Some(OK_STATUS)))
    {
      OthersRun(c, Waiting(retry));
      var tok;
      ok, tok := Snapshot(c, retry, invalidate);
      if !ok {
        return false, None, 0;
      }
      at := |machine.log| - 1;
      status := RawGet(c, retry, at);
    }

    /** doAuthedGet: a second attempt, with the tokens invalidated, after a first 401 only. */
    method DoAuthedGet(ghost c: nat) returns (ok: bool)
      requires InStep() && machine.lock.None? && Stands(c, Idle)
      modifies this
      ensures InStep() && start == old(start) && machine.lock.None?
      ensures Stands(c, Done(ok))
    {
      StepStart(c);
      var got, status; ghost var first;
      got, status, first := Attempt(c, None, false);
      if got && status == Some(UNAUTHORIZED) {
        ghost var second;
        got, status, second := Attempt(c, Some(first), true);
      }
      ok := got && status == Some(OK_STATUS);
    }
  }

  /** Whatever state a client reaches after Connect, through its own methods and any interference
      they allow, has every property of the token machine's runs. */
  lemma ReachableStatesKeepInv(start: State, machine: State)
    requires Connected(start) && Reachable(start, machine)
    ensures Inv(start.tokens, machine)
    ensures exists actions :: Run(start, actions, machine)
  {
    var actions :| Exec(start, actions) == Some(machine) && PlausibleClocks(actions);
    RunKeepsInv(start, actions);
    assert Run(start, actions, machine);
  }
}
