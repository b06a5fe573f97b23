/** The token store in a Kubernetes Secret (internal/bluelink/tokenstore_kube.go) against an API
    server that other writers share, and the in-memory store it stands in for
    (internal/bluelink/tokenstore.go). */
module SecretStore {
  import opened Wrappers
  import opened TokenModel

  const KEY := "tokens.json"

  /** The Secret's data map (absent and empty are the same here) and its resourceVersion. */
  datatype Secret = Secret(data: map<string, string>, version: nat)

  type Edit = map<string, string> -> map<string, string>

  datatype Fault = Fine | Lost | AnswerLost

  /** The adversary: what others write just before our n-th request, and what becomes of that
      request; Lost means it never arrives, AnswerLost that it is carried out but reported failed. */
  datatype Environment = Environment(foreign: nat -> seq<Edit>, fault: nat -> Fault)

  /** Encoding and decoding of the token JSON. */
  datatype Codec = Codec(encode: Tokens -> string, decode: string -> Result<Tokens, string>)

  ghost predicate RoundTrips(codec: Codec) {
    forall t: Tokens :: codec.encode(t) != "" && codec.decode(codec.encode(t)) == Ok(t)
  }

  datatype Failure = GetFailed | UpdateFailed | Conflict | Exhausted | Undecodable

  function Interfere(s: Secret, edits: seq<Edit>): (r: Secret)
    ensures r.version == s.version + |edits|
  {
    if edits == [] then s
    else
      var before := Interfere(s, edits[..|edits| - 1]);
      Secret(edits[|edits| - 1](before.data), before.version + 1)
  }

  // ---------------------------------------------------------------------------
  // The API server
  // ---------------------------------------------------------------------------

  class ApiServer {
    var secret: Secret
    var requests: nat
    const env: Environment

    constructor (secret: Secret, env: Environment)
      ensures this.secret == secret && requests == 0 && this.env == env
    {
      this.secret := secret;
      this.requests := 0;
      this.env := env;
    }

    method Get() returns (r: Result<Secret, Failure>)
      modifies this
      ensures requests == old(requests) + 1
      ensures secret == Interfere(old(secret), env.foreign(old(requests)))
      ensures r == if env.fault(old(requests)) == Fine then Ok(secret) else Err(GetFailed)
    {
      secret := Interfere(secret, env.foreign(requests));
      r := if env.fault(requests) == Fine then Ok(secret) else Err(GetFailed);
      requests := requests + 1;
    }

    /** Optimistic concurrency: carried out only if nobody wrote since the version it carries. */
    method Update(sec: Secret) returns (r: Result<(), Failure>)
      modifies this
      ensures requests == old(requests) + 1
      ensures var now := Interfere(old(secret), env.foreign(old(requests)));
              var fault := env.fault(old(requests));
              && secret == (if fault != Lost && now.version == sec.version then Secret(sec.data, now.version + 1) else now)
              && r == (if fault != Fine then Err(UpdateFailed) else if now.version == sec.version then Ok(()) else Err(Conflict))
    {
      var fault := env.fault(requests);
      secret := Interfere(secret, env.foreign(requests));
      requests := requests + 1;
      var current := secret.version == sec.version;
      if fault != Lost && current {
        secret := Secret(sec.data, secret.version + 1);
      }
      r := if fault != Fine then Err(UpdateFailed) else if current then Ok(()) else Err(Conflict);
    }
  }

  // ---------------------------------------------------------------------------
  // Save and Load
  // ---------------------------------------------------------------------------

  datatype Outcome<T> = Outcome(secret: Secret, requests: nat, result: Result<T, Failure>)

  /** The whole effect of Save from the given attempt on. */
  function SaveOutcome(secret: Secret, env: Environment, n: nat, raw: string, attempt: nat): Outcome<()>
    decreases 2 - attempt
  {
    if attempt >= 2 then Outcome(secret, n, Err(Exhausted))
    else
      var seen := Interfere(secret, env.foreign(n));
      if env.fault(n) != Fine then Outcome(seen, n + 1, Err(GetFailed))
      else
        var now := Interfere(seen, env.foreign(n + 1));
        var written := Secret(seen.data[KEY := raw], now.version + 1);
        if env.fault(n + 1) != Fine then
          Outcome(if env.fault(n + 1) == AnswerLost && now.version == seen.version then written else now, n + 2, Err(UpdateFailed))
        else if now.version == seen.version then Outcome(written, n + 2, Ok(()))
        else if attempt == 0 then SaveOutcome(now, env, n + 2, raw, attempt + 1)
        else Outcome(now, n + 2, Err(Conflict))
  }

  method Save(api: ApiServer, codec: Codec, t: Tokens) returns (r: Result<(), Failure>)
    modifies api
    ensures Outcome(api.secret, api.requests, r) ==
            SaveOutcome(old(api.secret), api.env, old(api.requests), codec.encode(t), 0)
  {
    var raw := codec.encode(t);
    for attempt := 0 to 2
      invariant SaveOutcome(old(api.secret), api.env, old(api.requests), raw, 0) ==
              SaveOutcome(api.secret, api.env, api.requests, raw, attempt)
    {
      var got := api.Get();
      if got.Err? {
        return Err(got.error);
      }
      var sec := got.value;
      sec := sec.(data := sec.data[KEY := raw]);
      var updated := api.Update(sec);
      if updated.Ok? {
        return Ok(());
      }
      if updated.error == Conflict && attempt == 0 {
        continue;
      }
      return Err(updated.error);
    }
    return Err(Exhausted);
  }

  /** What the Secret's data says is stored. */
  function Stored(data: map<string, string>, codec: Codec): Result<Option<Tokens>, Failure> {
    if KEY !in data || data[KEY] == "" then Ok(None)
    else
      match codec.decode(data[KEY])
      case Ok(t) => Ok(Some(t))
      case Err(_) => Err(Undecodable)
  }

  function LoadOutcome(secret: Secret, env: Environment, n: nat, codec: Codec): Outcome<Option<Tokens>> {
    var seen := Interfere(secret, env.foreign(n));
    Outcome(seen, n + 1, if env.fault(n) != Fine then Err(GetFailed) else Stored(seen.data, codec))
  }

  method Load(api: ApiServer, codec: Codec) returns (r: Result<Option<Tokens>, Failure>)
    modifies api
    ensures Outcome(api.secret, api.requests, r) == LoadOutcome(old(api.secret), api.env, old(api.requests), codec)
    ensures var seen := Interfere(old(api.secret), api.env.foreign(old(api.requests))).data;
            if api.env.fault(old(api.requests)) != Fine then r == Err(GetFailed)
            else if "tokens.json" !in seen || seen["tokens.json"] == "" then r == Ok(None)
            else if codec.decode(seen["tokens.json"]).Ok? then r == Ok(Some(codec.decode(seen["tokens.json"]).value))
            else r == Err(Undecodable)
  {
    var got := api.Get();
    if got.Err? {
      return Err(got.error);
    }
    var data := got.value.data;
    if KEY !in data || data[KEY] == "" {
      return Ok(None);
    }
    var t := codec.decode(data[KEY]);
    return match t case Ok(tokens) => Ok(Some(tokens)) case Err(_) => Err(Undecodable);
  }

  // ---------------------------------------------------------------------------
  // What every Save keeps
  // ---------------------------------------------------------------------------

  lemma {:induction false} InterfereConcat(s: Secret, edits: seq<Edit>, more: seq<Edit>)
    ensures Interfere(Interfere(s, edits), more) == Interfere(s, edits + more)
  {
    if more == [] {
      assert edits + more == edits;
    } else {
      var front := more[..|more| - 1];
      InterfereConcat(s, edits, front);
      assert (edits + more)[..|edits + more| - 1] == edits + front;
    }
  }

  /** Everything others wrote before and during a Save that starts at request n and ends before
      request m. */
  function ForeignEdits(env: Environment, n: nat, m: nat): seq<Edit>
    decreases m - n
  {
    if n >= m then [] else env.foreign(n) + ForeignEdits(env, n + 1, m)
  }

  lemma TwoRequests(env: Environment, n: nat)
    ensures ForeignEdits(env, n, n + 2) == env.foreign(n) + env.foreign(n + 1)
  {
    assert ForeignEdits(env, n + 1, n + 2) == env.foreign(n + 1) + [];
  }

  lemma FourRequests(env: Environment, n: nat)
    ensures ForeignEdits(env, n, n + 4) == ForeignEdits(env, n, n + 2) + ForeignEdits(env, n + 2, n + 4)
  {
    TwoRequests(env, n);
    assert ForeignEdits(env, n + 1, n + 4) == env.foreign(n + 1) + ForeignEdits(env, n + 2, n + 4);
  }

  lemma SaveFromLosesNothing(secret: Secret, env: Environment, n: nat, raw: string, attempt: nat)
    requires attempt < 2
    ensures var o := SaveOutcome(secret, env, n, raw, attempt);
            o.result.Ok? ==>
              && (o.requests == n + 2 || (attempt == 0 && o.requests == n + 4))
              && var others := Interfere(secret, ForeignEdits(env, n, o.requests));
                 o.secret == Secret(others.data["tokens.json" := raw], others.version + 1)
    decreases 2 - attempt
  {
    TwoRequests(env, n);
    InterfereConcat(secret, env.foreign(n), env.foreign(n + 1));
    if attempt == 0 {
      FourRequests(env, n);
      InterfereConcat(secret, ForeignEdits(env, n, n + 2), ForeignEdits(env, n + 2, n + 4));
      SaveFromLosesNothing(Interfere(secret, ForeignEdits(env, n, n + 2)), env, n + 2, raw, 1);
    }
  }

  /** A Save that reports success leaves every other key exactly as the others left it: its result
      is all foreign writes up to its last request, and then its own key and one more version. */
  lemma SuccessfulSaveLosesNothing(secret: Secret, env: Environment, n: nat, raw: string)
    requires SaveOutcome(secret, env, n, raw, 0).result.Ok?
    ensures var o := SaveOutcome(secret, env, n, raw, 0);
            var others := Interfere(secret, ForeignEdits(env, n, o.requests));
            o.secret == Secret(others.data["tokens.json" := raw], others.version + 1)
  {
    SaveFromLosesNothing(secret, env, n, raw, 0);
  }

  /** The loop's fall-through error is unreachable. */
  lemma {:induction false} NeverExhausted(secret: Secret, env: Environment, n: nat, raw: string)
    ensures SaveOutcome(secret, env, n, raw, 0).result != Err(Exhausted)
  {
    var now := Interfere(Interfere(secret, env.foreign(n)), env.foreign(n + 1));
    assert SaveOutcome(now, env, n + 2, raw, 1).result != Err(Exhausted);
  }

  /** Save fails by conflict exactly when no request fails and somebody writes in both of its
      windows between a Get and its Update. */
  lemma {:induction false} ConflictIff(secret: Secret, env: Environment, n: nat, raw: string)
    ensures SaveOutcome(secret, env, n, raw, 0).result == Err(Conflict)
            <==> && (forall k | n <= k < n + 4 :: env.fault(k) == Fine)
                 && env.foreign(n + 1) != [] && env.foreign(n + 3) != []
  {
    var now := Interfere(Interfere(secret, env.foreign(n)), env.foreign(n + 1));
    assert SaveOutcome(now, env, n + 2, raw, 1).result == Err(Conflict)
      <==> env.fault(n + 2) == Fine && env.fault(n + 3) == Fine && env.foreign(n + 3) != [];
  }

  /** A Load nobody interferes with returns what a successful Save wrote. */
  lemma {:induction false} LoadAfterSave(secret: Secret, env: Environment, n: nat, codec: Codec, t: Tokens)
    requires RoundTrips(codec)
    requires SaveOutcome(secret, env, n, codec.encode(t), 0).result.Ok?
    requires var m := SaveOutcome(secret, env, n, codec.encode(t), 0).requests;
             env.foreign(m) == [] && env.fault(m) == Fine
    ensures var saved := SaveOutcome(secret, env, n, codec.encode(t), 0);
            LoadOutcome(saved.secret, env, saved.requests, codec).result == Ok(Some(t))
  {
    SuccessfulSaveLosesNothing(secret, env, n, codec.encode(t));
  }

  // ---------------------------------------------------------------------------
  // Standing in for the in-memory store
  // ---------------------------------------------------------------------------

  /** memoryStore: the last tokens saved, if any. */
  class MemoryStore {
    var tokens: Tokens
    var isSet: bool

    function Contents(): Option<Tokens>
      reads this
    {
      if isSet then Some(tokens) else None
    }

    constructor ()
      ensures Contents() == None
    {
      tokens, isSet := NO_TOKENS, false;
    }

    method Save(t: Tokens)
      modifies this
      ensures Contents() == Some(t)
    {
      tokens := t;
      isSet := true;
    }

    method Load() returns (t: Tokens, ok: bool)
      ensures Contents() == if ok then Some(t) else None
    {
      t, ok := tokens, isSet;
    }
  }

  /** Other writers keep to their own keys. */
  ghost predicate OthersKeepKey(env: Environment) {
    forall n, i, data | 0 <= i < |env.foreign(n)| :: Keeps(env.foreign(n)[i], data)
  }

  ghost predicate Keeps(edit: Edit, data: map<string, string>) {
    SameEntry(edit(data), data)
  }

  predicate SameEntry(data: map<string, string>, other: map<string, string>) {
    && (KEY in data <==> KEY in other)
    && (KEY in data ==> data[KEY] == other[KEY])
  }

  lemma {:induction false} InterferenceKeepsEntry(s: Secret, env: Environment, n: nat, count: nat)
    requires OthersKeepKey(env) && count <= |env.foreign(n)|
    ensures SameEntry(Interfere(s, env.foreign(n)[..count]).data, s.data)
  {
    var edits := env.foreign(n)[..count];
    if count > 0 {
      assert edits[..count - 1] == env.foreign(n)[..count - 1];
      InterferenceKeepsEntry(s, env, n, count - 1);
      assert Keeps(env.foreign(n)[count - 1], Interfere(s, edits[..count - 1]).data);
    }
  }

  lemma WindowKeepsEntry(s: Secret, env: Environment, n: nat)
    requires OthersKeepKey(env)
    ensures SameEntry(Interfere(s, env.foreign(n)).data, s.data)
  {
    InterferenceKeepsEntry(s, env, n, |env.foreign(n)|);
    assert env.foreign(n)[..|env.foreign(n)|] == env.foreign(n);
  }

  lemma SaveFromEntry(secret: Secret, env: Environment, n: nat, raw: string, attempt: nat)
    requires OthersKeepKey(env)
    ensures var o := SaveOutcome(secret, env, n, raw, attempt);
            && (o.result.Ok? ==> KEY in o.secret.data && o.secret.data[KEY] == raw)
            && (o.result.Err? ==> SameEntry(o.secret.data, secret.data)
                                  || (o.result.error == UpdateFailed && KEY in o.secret.data && o.secret.data[KEY] == raw))
    decreases 2 - attempt
  {
    if attempt < 2 {
      var seen := Interfere(secret, env.foreign(n));
      WindowKeepsEntry(secret, env, n);
      var now := Interfere(seen, env.foreign(n + 1));
      WindowKeepsEntry(seen, env, n + 1);
      if attempt == 0 {
        SaveFromEntry(now, env, n + 2, raw, attempt + 1);
      }
    }
  }

  datatype Operation = DoSave(tokens: Tokens) | DoLoad

  datatype Event =
    | SavedOk(tokens: Tokens)
    | SaveFailed(tokens: Tokens, error: Failure)
    | Loaded(result: Result<Option<Tokens>, Failure>)

  /** One process's sequence of store operations on the shared Secret. */
  function Run(secret: Secret, env: Environment, n: nat, codec: Codec, ops: seq<Operation>): (Secret, seq<Event>)
    decreases |ops|
  {
    if ops == [] then (secret, [])
    else
      match ops[0]
      case DoSave(t) =>
        var o := SaveOutcome(secret, env, n, codec.encode(t), 0);
        var (final, events) := Run(o.secret, env, o.requests, codec, ops[1..]);
        (final, [if o.result.Ok? then SavedOk(t) else SaveFailed(t, o.result.error)] + events)
      case DoLoad =>
        var o := LoadOutcome(secret, env, n, codec);
        var (final, events) := Run(o.secret, env, o.requests, codec, ops[1..]);
        (final, [Loaded(o.result)] + events)
  }

  /** Every successful load in the events returned what the in-memory store would have held, up to
      the first save whose outcome is unknown. */
  predicate AgreesWithMemory(initial: Option<Tokens>, events: seq<Event>)
    decreases |events|
  {
    if events == [] then true
    else
      match events[0]
      case SavedOk(t) => AgreesWithMemory(Some(t), events[1..])
      case SaveFailed(_, error) => error == UpdateFailed || AgreesWithMemory(initial, events[1..])
      case Loaded(result) => (result.Err? || result == Ok(initial)) && AgreesWithMemory(initial, events[1..])
  }

  /** While other writers keep to their own keys, the Secret store behaves like the in-memory one
      over any sequence of saves and loads, conflicts and failed reads included, until an update
      fails without a definite answer. */
  lemma {:induction false} BehavesLikeMemory(secret: Secret, env: Environment, n: nat, codec: Codec,
                                             ops: seq<Operation>, initial: Option<Tokens>)
    requires RoundTrips(codec) && OthersKeepKey(env)
    requires Stored(secret.data, codec) == Ok(initial)
    ensures AgreesWithMemory(initial, Run(secret, env, n, codec, ops).1)
    decreases |ops|
  {
    if ops != [] {
      match ops[0]
      case DoSave(t) =>
        var o := SaveOutcome(secret, env, n, codec.encode(t), 0);
        SaveFromEntry(secret, env, n, codec.encode(t), 0);
        var events := Run(o.secret, env, o.requests, codec, ops[1..]).1;
        assert Run(secret, env, n, codec, ops).1[1..] == events;
        if o.result.Ok? {
          BehavesLikeMemory(o.secret, env, o.requests, codec, ops[1..], Some(t));
        } else if o.result.error != UpdateFailed {
          BehavesLikeMemory(o.secret, env, o.requests, codec, ops[1..], initial);
        }
      case DoLoad =>
        var o := LoadOutcome(secret, env, n, codec);
        WindowKeepsEntry(secret, env, n);
        var events := Run(o.secret, env, o.requests, codec, ops[1..]).1;
        assert Run(secret, env, n, codec, ops).1[1..] == events;
        BehavesLikeMemory(o.secret, env, o.requests, codec, ops[1..], initial);
    }
  }
}
