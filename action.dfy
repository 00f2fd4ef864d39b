/**
 * action.go: the class whose methods the rest of the program calls. Each
 * method is proved to leave the session exactly as the matching function of
 * `ActionSpec` says.
 */
module Action {
  import opened Remote
  import opened ActionSpec

  /**
   * `UpdateGithubEnv` (action.go:15-20): one client session. The HTTP client
   * (with its token) is `client`; `repoPk` is the lazily fetched key.
   */
  class UpdateGithubEnv {
    const client: ActionsService
    const crypto: Crypto
    const owner: string
    const repo: string
    var repoPk: Option<PublicKey>

    ghost function State(): Session
      reads this, client
    {
      Session(owner, repo, repoPk, client.log)
    }

    /** NewUpdateGithubEnv (action.go:22-29): no key cached yet. */
    constructor (client: ActionsService, crypto: Crypto, owner: string, repo: string)
      ensures this.client == client && this.crypto == crypto
      ensures State() == Session(owner, repo, None, client.log)
    {
      this.client := client;
      this.crypto := crypto;
      this.owner := owner;
      this.repo := repo;
      repoPk := None;
    }

    method GetRepoPk() returns (err: Outcome)
      modifies this, client
      ensures Done(State(), err) == ActionSpec.GetRepoPk(client.server, old(State()))
    {
      var pk := client.GetRepoPublicKey(owner, repo);
      if pk.Ok? {
        repoPk := Some(pk.value);
        err := Pass;
      } else {
        err := Fail(pk.error);
      }
    }

    method EncryptUsingRepoPk(value: Bytes) returns (encrypted: string, err: Outcome)
      modifies this, client
      ensures Encrypted(State(), encrypted, err) == ActionSpec.EncryptUsingRepoPk(client.server, crypto, old(State()), value)
    {
      encrypted := "";
      if repoPk.None? {
        err := GetRepoPk();
        if err.Fail? {
          return;
        }
      }
      var decoded := crypto.decodeBase64(repoPk.value.key);
      if decoded.Err? {
        return "", Fail(DecodeFailure + decoded.error);
      }
      var boxKey := CopyKey(decoded.value);
      var sealed := crypto.sealAnonymous(value, boxKey);
      if sealed.Err? {
        return "", Fail(SealFailure + sealed.error);
      }
      encrypted := crypto.encodeBase64(sealed.value);
      err := Pass;
    }

    method UpdateSecret(key: string, value: Bytes) returns (err: Outcome)
      modifies this, client
      ensures Done(State(), err) == ActionSpec.UpdateSecret(client.server, crypto, old(State()), key, value)
    {
      var encrypted;
      encrypted, err := EncryptUsingRepoPk(value);
      if err.Fail? {
        return;
      }
      var v := EncryptedSecret(key, repoPk.value.keyId, encrypted);
      err := client.CreateOrUpdateRepoSecret(owner, repo, v);
    }

    method HasVariable(key: string) returns (found: bool, err: Outcome)
      modifies client
      ensures Lookup(State(), found, err) == ActionSpec.HasVariable(client.server, old(State()), key)
    {
      var result := client.ListRepoVariables(owner, repo);
      if result.Err? {
        return false, Fail(result.error);
      }
      found := ContainsName(result.value, key);
      err := Pass;
    }

    method UpdateVariable(key: string, value: Bytes) returns (err: Outcome)
      modifies client
      ensures Done(State(), err) == ActionSpec.UpdateVariable(client.server, old(State()), key, value)
    {
      var found;
      found, err := HasVariable(key);
      if err.Fail? {
        return;
      }
      if found {
        err := client.UpdateRepoVariable(owner, repo, Variable(key, value));
        return;
      }
      err := client.CreateRepoVariable(owner, repo, Variable(key, value));
    }
  }
}
