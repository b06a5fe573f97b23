/** The Secret store as the store of the token machine (internal/bluelink/tokenstore_kube.go,
    internal/bluelink/client.go): while other writers keep to their own keys, whatever happens to its
    requests, saving to the Secret is a step of the machine and loading it is what a restart reads. */
module StoreSteps {
  import opened Wrappers
  import opened TokenModel
  import TokenRuns
  import opened SecretStore

  /** The Secret holds what the machine says is stored. */
  ghost predicate Backs(secret: Secret, codec: Codec, s: TokenRuns.State) {
    Stored(secret.data, codec) == Ok(s.stored)
  }

  /** Every Save is the machine's SaveAnswer with the same verdict, reaching the store or not, and the
      Secret holds what the machine then says. */
  lemma SaveIsMachineStep(secret: Secret, env: Environment, n: nat, codec: Codec, s: TokenRuns.State, c: nat)
    requires RoundTrips(codec) && OthersKeepKey(env)
    requires c < |s.calls| && s.calls[c].Saving? && Backs(secret, codec, s)
    ensures var o := SaveOutcome(secret, env, n, codec.encode(s.tokens), 0);
            exists reached :: var t := TokenRuns.Apply(s, TokenRuns.SaveAnswer(c, o.result.Ok?, reached));
                              t.Some? && Backs(o.secret, codec, t.value)
  {
    var o := SaveOutcome(secret, env, n, codec.encode(s.tokens), 0);
    SaveFromEntry(secret, env, n, codec.encode(s.tokens), 0);
    var reached := KEY in o.secret.data && o.secret.data[KEY] == codec.encode(s.tokens);
    var t := TokenRuns.Apply(s, TokenRuns.SaveAnswer(c, o.result.Ok?, reached));
    assert t.Some? && Backs(o.secret, codec, t.value);
  }

  /** Other writers in between change nothing of it. */
  lemma ForeignWritesKeepBacking(secret: Secret, env: Environment, n: nat, codec: Codec, s: TokenRuns.State)
    requires OthersKeepKey(env) && Backs(secret, codec, s)
    ensures Backs(Interfere(secret, env.foreign(n)), codec, s)
  {
    WindowKeepsEntry(secret, env, n);
  }

  /** A Load that is answered gives a restarting process exactly the machine's stored tokens. */
  lemma LoadIsRestart(secret: Secret, env: Environment, n: nat, codec: Codec, s: TokenRuns.State)
    requires OthersKeepKey(env) && Backs(secret, codec, s)
    ensures LoadOutcome(secret, env, n, codec).result == if env.fault(n) == Fine then Ok(s.stored) else Err(GetFailed)
  {
    ForeignWritesKeepBacking(secret, env, n, codec, s);
  }
}
