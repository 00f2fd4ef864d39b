/**
 * The repository-hosting service's REST API, as the secret/variable updater
 * sees it: five operations on the "Actions" part of the API. The service is
 * not modelled; every call is appended to a log, and its reply is whatever the
 * environment (`Server`) chooses to answer given all the calls made before it.
 * Because the reply may depend on the whole history, a property proved for
 * every `Server` holds for every possible behaviour of the real service
 * (success, transport error, authentication error, ...).
 */
module Remote {

  newtype byte = x: int | 0 <= x < 256

  /** Go's `[]byte`, and also Go's `string` wherever the program treats text as raw bytes. */
  type Bytes = seq<byte>

  /** A Go `error` value; only its message matters to this program. */
  type Error = string

  datatype Option<T> = None | Some(value: T)

  datatype Result<T> = Ok(value: T) | Err(error: Error)

  /** The `error` result of a Go function: `nil` (Pass) or an error. */
  datatype Outcome = Pass | Fail(error: Error)

  /** `github.PublicKey`: the repository's sealing key and its identifier. */
  datatype PublicKey = PublicKey(keyId: string, key: string)

  /** `github.EncryptedSecret`, the body of a secret upload. */
  datatype EncryptedSecret = EncryptedSecret(name: string, keyId: string, encryptedValue: string)

  /** `github.ActionsVariable`. */
  datatype Variable = Variable(name: string, value: Bytes)

  /**
   * One request to the API, named after the client method that sends it:
   * GetRepoPublicKey, CreateOrUpdateRepoSecret, ListRepoVariables,
   * CreateRepoVariable and UpdateRepoVariable.
   */
  datatype Op =
    | GetPk
    | UploadSecret(secret: EncryptedSecret)
    | List
    | Create(variable: Variable)
    | Update(variable: Variable)

  datatype Call = Call(owner: string, repo: string, op: Op)

  /**
   * The environment: the reply to each request as a function of the calls
   * already made (and, for the three writes, of the request itself).
   */
  datatype Server = Server(
    publicKey: seq<Call> -> Result<PublicKey>,
    variables: seq<Call> -> Result<seq<Variable>>,
    write: (seq<Call>, Call) -> Outcome)

  /** The API client (`client.Actions`): every method logs its request and returns the server's reply. */
  class ActionsService {
    const server: Server
    var log: seq<Call>

    constructor (server: Server)
      ensures this.server == server && log == []
    {
      this.server := server;
      log := [];
    }

    method GetRepoPublicKey(owner: string, repo: string) returns (r: Result<PublicKey>)
      modifies this
      ensures log == old(log) + [Call(owner, repo, GetPk)]
      ensures r == server.publicKey(old(log))
    {
      r := server.publicKey(log);
      log := log + [Call(owner, repo, GetPk)];
    }

    method CreateOrUpdateRepoSecret(owner: string, repo: string, secret: EncryptedSecret) returns (err: Outcome)
      modifies this
      ensures log == old(log) + [Call(owner, repo, UploadSecret(secret))]
      ensures err == server.write(old(log), Call(owner, repo, UploadSecret(secret)))
    {
      var call := Call(owner, repo, UploadSecret(secret));
      err := server.write(log, call);
      log := log + [call];
    }

    method ListRepoVariables(owner: string, repo: string) returns (r: Result<seq<Variable>>)
      modifies this
      ensures log == old(log) + [Call(owner, repo, List)]
      ensures r == server.variables(old(log))
    {
      r := server.variables(log);
      log := log + [Call(owner, repo, List)];
    }

    method CreateRepoVariable(owner: string, repo: string, variable: Variable) returns (err: Outcome)
      modifies this
      ensures log == old(log) + [Call(owner, repo, Create(variable))]
      ensures err == server.write(old(log), Call(owner, repo, Create(variable)))
    {
      var call := Call(owner, repo, Create(variable));
      err := server.write(log, call);
      log := log + [call];
    }

    method UpdateRepoVariable(owner: string, repo: string, variable: Variable) returns (err: Outcome)
      modifies this
      ensures log == old(log) + [Call(owner, repo, Update(variable))]
      ensures err == server.write(old(log), Call(owner, repo, Update(variable)))
    {
      var call := Call(owner, repo, Update(variable));
      err := server.write(log, call);
      log := log + [call];
    }
  }
}
