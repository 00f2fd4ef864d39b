/**
 * main.go's `GithubStateUpdate`: the batch of entries and the session they are
 * pushed through. `Execute` is proved to do exactly what
 * `StateUpdateSpec.Run` describes.
 */
module StateUpdate {
  import opened Remote
  import opened ActionSpec
  import opened Action
  import opened StateUpdateSpec

  /** `GithubStateUpdate` (main.go:28-31), with `os.ReadFile` as `readFile`. */
  class GithubStateUpdate {
    const client: UpdateGithubEnv
    const states: seq<State>
    const readFile: Bytes -> Result<Bytes>

    /** NewGithubStateUpdate (main.go:33-39), given the session already built. */
    constructor (client: UpdateGithubEnv, states: seq<State>, readFile: Bytes -> Result<Bytes>)
      ensures this.client == client && this.states == states && this.readFile == readFile
    {
      this.client := client;
      this.states := states;
      this.readFile := readFile;
    }

    ghost function Env(): Env {
      StateUpdateSpec.Env(client.client.server, client.crypto, readFile)
    }

    /** Execute (main.go:41-67). */
    method Execute() returns (err: Outcome)
      modifies client, client.client
      ensures Done(client.State(), err) == Run(Env(), old(client.State()), states)
    {
      ghost var start := client.State();
      for i := 0 to |states|
        invariant Run(Env(), start, states[..i]) == Done(client.State(), Pass)
      {
        ghost var before := client.State();
        var state := states[i];
        var value: Bytes := [];
        if state.value.Some? {
          value := state.value.value;
        } else if state.file.Some? {
          var out := readFile(state.file.value);
          if out.Err? {
            RunStopsAtFirstFailure(Env(), start, states, i);
            return Fail(out.error);
          }
          value := out.value;
        }
        assert ResolveValue(readFile, state) == Ok(value);
        if state.secret {
          err := client.UpdateSecret(state.key, value);
        } else {
          err := client.UpdateVariable(state.key, value);
        }
        assert Done(client.State(), err) == ApplyEntry(Env(), before, state);
        if err.Fail? {
          RunStopsAtFirstFailure(Env(), start, states, i);
          return;
        }
        RunStep(Env(), start, states, i);
      }
      assert states[..|states|] == states;
      err := Pass;
    }
  }
}
