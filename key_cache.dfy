/**
 * The invariant behind the lazily cached public key `repoPk`: a session's
 * log holds at most one successful key request, `repoPk` is exactly the key
 * that request returned (or nil if there was none), and every secret upload
 * in the log came after that request and carries its key identifier. Every
 * operation of `ActionSpec` that can be reached from the program keeps it.
 */
module KeyCache {
  import opened Remote
  import opened ActionSpec

  /** The key returned to `c`, when `c` is a key request that succeeded after `prior`. */
  function FetchedBy(server: Server, prior: seq<Call>, c: Call): seq<PublicKey> {
    if c.op.GetPk? && server.publicKey(prior).Ok? then [server.publicKey(prior).value] else []
  }

  /** The keys returned by the successful key requests of `log`, oldest first. */
  function FetchedKeys(server: Server, log: seq<Call>): seq<PublicKey>
    decreases |log|
  {
    if log == [] then []
    else
      var prior := log[..|log| - 1];
      FetchedKeys(server, prior) + FetchedBy(server, prior, log[|log| - 1])
  }

  lemma FetchedKeysSnoc(server: Server, log: seq<Call>, c: Call)
    ensures FetchedKeys(server, log + [c]) == FetchedKeys(server, log) + FetchedBy(server, log, c)
  {
  }

  /** Every secret upload in `log` follows a successful key request and names that key's identifier. */
  ghost predicate UploadsUseFetchedKey(server: Server, log: seq<Call>) {
    forall i :: 0 <= i < |log| && log[i].op.UploadSecret? ==>
      FetchedKeys(server, log[..i]) != [] && log[i].op.secret.keyId == FetchedKeys(server, log[..i])[0].keyId
  }

  lemma UploadsSnoc(server: Server, log: seq<Call>, c: Call)
    requires UploadsUseFetchedKey(server, log)
    requires c.op.UploadSecret? ==>
      FetchedKeys(server, log) != [] && c.op.secret.keyId == FetchedKeys(server, log)[0].keyId
    ensures UploadsUseFetchedKey(server, log + [c])
  {
    var log' := log + [c];
    forall i | 0 <= i < |log'| && log'[i].op.UploadSecret?
      ensures FetchedKeys(server, log'[..i]) != [] && log'[i].op.secret.keyId == FetchedKeys(server, log'[..i])[0].keyId
    {
      if i < |log| {
        assert log'[..i] == log[..i];
      } else {
        assert log'[..i] == log;
      }
    }
  }

  /** The cache invariant of a session. */
  ghost predicate Coherent(server: Server, s: Session) {
    var keys := FetchedKeys(server, s.log);
    |keys| <= 1 &&
    s.repoPk == (if keys == [] then None else Some(keys[0])) &&
    UploadsUseFetchedKey(server, s.log)
  }

  /** A new session (nothing cached, nothing called) is coherent. */
  lemma FreshSessionCoherent(server: Server, owner: string, repo: string)
    ensures Coherent(server, Session(owner, repo, None, []))
  {
  }

  /**
   * A key request made while nothing is cached (the only way
   * EncryptUsingRepoPk issues one) keeps the invariant; on success the cache
   * holds the one key ever fetched.
   */
  lemma {:induction false} GetRepoPkKeepsCoherent(server: Server, s: Session)
    requires Coherent(server, s) && s.repoPk.None?
    ensures Coherent(server, GetRepoPk(server, s).session)
  {
    FetchedKeysSnoc(server, s.log, s.Request(GetPk));
    UploadsSnoc(server, s.log, s.Request(GetPk));
  }

  lemma {:induction false} EncryptKeepsCoherent(server: Server, crypto: Crypto, s: Session, value: Bytes)
    requires Coherent(server, s)
    ensures Coherent(server, EncryptUsingRepoPk(server, crypto, s, value).session)
  {
    if s.repoPk.None? {
      GetRepoPkKeepsCoherent(server, s);
    }
  }

  /** A secret upload keeps the invariant: it is labelled with the cached key's identifier. */
  lemma {:induction false} UpdateSecretKeepsCoherent(server: Server, crypto: Crypto, s: Session, key: string, value: Bytes)
    requires Coherent(server, s)
    ensures Coherent(server, UpdateSecret(server, crypto, s, key, value).session)
  {
    var e := EncryptUsingRepoPk(server, crypto, s, value);
    EncryptKeepsCoherent(server, crypto, s, value);
    if e.err.Pass? {
      var up := e.session.Request(UploadSecret(EncryptedSecret(key, e.session.repoPk.value.keyId, e.encrypted)));
      FetchedKeysSnoc(server, e.session.log, up);
      UploadsSnoc(server, e.session.log, up);
    }
  }

  /** The variable path neither requests the key nor uploads a secret. */
  lemma {:induction false} UpdateVariableKeepsCoherent(server: Server, s: Session, key: string, value: Bytes)
    requires Coherent(server, s)
    ensures Coherent(server, UpdateVariable(server, s, key, value).session)
  {
    var h := HasVariable(server, s, key);
    FetchedKeysSnoc(server, s.log, s.Request(List));
    UploadsSnoc(server, s.log, s.Request(List));
    if h.err.Pass? {
      var w := h.session.Request(if h.found then Update(Variable(key, value)) else Create(Variable(key, value)));
      FetchedKeysSnoc(server, h.session.log, w);
      UploadsSnoc(server, h.session.log, w);
    }
  }

  /** No key request was made between `s` and its extension `t`. */
  ghost predicate NoKeyRequest(s: Session, t: Session) {
    forall i :: |s.log| <= i < |t.log| ==> !t.log[i].op.GetPk?
  }

  /** With a key cached, the secret path makes no key request and the cache stays as it was. */
  lemma CachedUpdateSecretNeverFetches(server: Server, crypto: Crypto, s: Session, key: string, value: Bytes)
    requires s.repoPk.Some?
    ensures UpdateSecret(server, crypto, s, key, value).session.repoPk == s.repoPk
    ensures NoKeyRequest(s, UpdateSecret(server, crypto, s, key, value).session)
  {
  }

  /** The variable path never requests the key and never touches the cache. */
  lemma UpdateVariableNeverFetches(server: Server, s: Session, key: string, value: Bytes)
    ensures UpdateVariable(server, s, key, value).session.repoPk == s.repoPk
    ensures NoKeyRequest(s, UpdateVariable(server, s, key, value).session)
  {
  }
}
