/**
 * The specification of action.go: the client session `UpdateGithubEnv`
 * caches the repository's public key in `repoPk`, seals secret values with
 * it, and creates or updates plain variables.
 *
 * Each operation is a function on a `Session` (the session's observable
 * state: its repository, the cached key and the API call log); the class
 * `Action.UpdateGithubEnv` implements each one by a method proved equal to it.
 */
module ActionSpec {
  import opened Remote

  /** The fixed 32-byte buffer `boxKey` handed to the sealing primitive. */
  type BoxKey = k: Bytes | |k| == 32 witness seq(32, _ => 0)

  /**
   * The library code the session calls into: base64 decoding and encoding
   * and NaCl's anonymous sealed box, all left uninterpreted.
   */
  datatype Crypto = Crypto(
    decodeBase64: string -> Result<Bytes>,
    sealAnonymous: (Bytes, BoxKey) -> Result<Bytes>,
    encodeBase64: Bytes -> string)

  const DecodeFailure: string := "base64.StdEncoding.DecodeString was unable to decode public key: "
  const SealFailure: string := "box.SealAnonymous failed with error "

  /**
   * `copy(boxKey[:], decoded)` into a zeroed `[32]byte`: Go's `copy` moves
   * min(32, |decoded|) bytes, so a short key is zero-padded and a long one
   * truncated. It never fails.
   */
  function CopyKey(decoded: Bytes): (k: BoxKey)
    ensures forall i :: 0 <= i < 32 ==> k[i] == if i < |decoded| then decoded[i] else 0
  {
    if |decoded| >= 32 then decoded[..32] else decoded + seq(32 - |decoded|, _ => 0)
  }

  /** Bytes past the 32nd do not reach the sealing key. */
  lemma CopyKeyIgnoresExcess(decoded: Bytes, extra: Bytes)
    requires |decoded| >= 32
    ensures CopyKey(decoded + extra) == CopyKey(decoded)
  {
  }

  /** A short key cannot be told apart from the same key followed by zero bytes. */
  lemma CopyKeyPadsWithZeros(decoded: Bytes, zeros: nat)
    requires |decoded| + zeros <= 32
    ensures CopyKey(decoded + seq(zeros, _ => 0)) == CopyKey(decoded)
  {
  }

  /** The observable state of an `UpdateGithubEnv`: its repository, `repoPk`, and the API call log. */
  datatype Session = Session(owner: string, repo: string, repoPk: Option<PublicKey>, log: seq<Call>)
  {
    /** This session's request for `op`. */
    function Request(op: Op): Call {
      Call(owner, repo, op)
    }
  }

  /** `t` is `s` after zero or more calls: same repository, and the log only grew. */
  ghost predicate Extends(s: Session, t: Session) {
    t.owner == s.owner && t.repo == s.repo && s.log <= t.log
  }

  /** A state after an operation that returns only an `error`. */
  datatype Done = Done(session: Session, err: Outcome)

  /** The state after `EncryptUsingRepoPk`, with its `(string, error)` result. */
  datatype Encrypted = Encrypted(session: Session, encrypted: string, err: Outcome)

  /** The state after `HasVariable`, with its `(bool, error)` result. */
  datatype Lookup = Lookup(session: Session, found: bool, err: Outcome)

  /**
   * GetRepoPk (action.go:46-53): exactly one key request; the cache is
   * written with the reply only when the request succeeds, and otherwise the
   * request's error comes back unchanged.
   */
  function GetRepoPk(server: Server, s: Session): (d: Done)
    ensures d.session.log == s.log + [s.Request(GetPk)]
    ensures d.session.owner == s.owner && d.session.repo == s.repo
    ensures d.err.Pass? <==> server.publicKey(s.log).Ok?
    ensures d.err.Pass? ==> d.session.repoPk == Some(server.publicKey(s.log).value)
    ensures d.err.Fail? ==> d.session.repoPk == s.repoPk && d.err.error == server.publicKey(s.log).error
  {
    var sent := s.log + [s.Request(GetPk)];
    match server.publicKey(s.log)
    case Ok(pk) => Done(s.(repoPk := Some(pk), log := sent), Pass)
    case Err(e) => Done(s.(log := sent), Fail(e))
  }

  /**
   * The stateless tail of EncryptUsingRepoPk (action.go:64-77): decode the
   * key material, copy it into the 32-byte box key, seal, encode. A decode
   * failure stops before sealing.
   */
  function Seal(crypto: Crypto, pk: PublicKey, value: Bytes): (r: Result<string>)
    ensures crypto.decodeBase64(pk.key).Err? ==> r == Err(DecodeFailure + crypto.decodeBase64(pk.key).error)
    ensures crypto.decodeBase64(pk.key).Ok? ==>
      var sealed := crypto.sealAnonymous(value, CopyKey(crypto.decodeBase64(pk.key).value));
      r == if sealed.Ok? then Ok(crypto.encodeBase64(sealed.value)) else Err(SealFailure + sealed.error)
  {
    match crypto.decodeBase64(pk.key)
    case Err(e) => Err(DecodeFailure + e)
    case Ok(decoded) =>
      match crypto.sealAnonymous(value, CopyKey(decoded))
      case Err(e) => Err(SealFailure + e)
      case Ok(sealed) => Ok(crypto.encodeBase64(sealed))
  }

  /**
   * EncryptUsingRepoPk (action.go:55-78). A cached key is used without any
   * call; otherwise exactly one key request is made, and if it fails its
   * error is returned before anything is sealed.
   */
  function EncryptUsingRepoPk(server: Server, crypto: Crypto, s: Session, value: Bytes): (r: Encrypted)
    ensures s.repoPk.Some? ==> r.session == s
    ensures s.repoPk.None? ==> r.session == GetRepoPk(server, s).session
    ensures r.session.repoPk.None? ==> r.err.Fail? && r.err == GetRepoPk(server, s).err
    ensures r.session.repoPk.Some? ==>
      var sealed := Seal(crypto, r.session.repoPk.value, value);
      (r.err.Pass? <==> sealed.Ok?) &&
      (r.err.Pass? ==> r.encrypted == sealed.value) &&
      (r.err.Fail? ==> r.err.error == sealed.error)
    ensures r.err.Fail? ==> r.encrypted == ""
  {
    if s.repoPk.None? && GetRepoPk(server, s).err.Fail? then
      Encrypted(GetRepoPk(server, s).session, "", GetRepoPk(server, s).err)
    else
      var t := if s.repoPk.None? then GetRepoPk(server, s).session else s;
      match Seal(crypto, t.repoPk.value, value)
      case Ok(c) => Encrypted(t, c, Pass)
      case Err(e) => Encrypted(t, "", Fail(e))
  }

  /**
   * UpdateSecret (action.go:31-44). If encryption fails its error is
   * returned and nothing is uploaded; otherwise exactly one upload is made,
   * named `key` and labelled with the cached key's identifier, and its reply
   * is returned.
   */
  function UpdateSecret(server: Server, crypto: Crypto, s: Session, key: string, value: Bytes): (d: Done)
    ensures d.session.repoPk == EncryptUsingRepoPk(server, crypto, s, value).session.repoPk
    ensures EncryptUsingRepoPk(server, crypto, s, value).err.Fail? ==>
      d == Done(EncryptUsingRepoPk(server, crypto, s, value).session, EncryptUsingRepoPk(server, crypto, s, value).err)
    ensures
      var e := EncryptUsingRepoPk(server, crypto, s, value);
      var n := |e.session.log|;
      e.err.Pass? ==>
        e.session.repoPk.Some? &&
        |d.session.log| == n + 1 && d.session.log[..n] == e.session.log &&
        d.session.log[n].owner == s.owner && d.session.log[n].repo == s.repo &&
        d.session.log[n].op.UploadSecret? &&
        d.session.log[n].op.secret.name == key &&
        d.session.log[n].op.secret.keyId == d.session.repoPk.value.keyId &&
        d.session.log[n].op.secret.encryptedValue == e.encrypted &&
        d.err == server.write(e.session.log, d.session.log[n])
  {
    var e := EncryptUsingRepoPk(server, crypto, s, value);
    if e.err.Fail? then Done(e.session, e.err)
    else
      var up := e.session.Request(UploadSecret(EncryptedSecret(key, e.session.repoPk.value.keyId, e.encrypted)));
      Done(e.session.(log := e.session.log + [up]), server.write(e.session.log, up))
  }

  /** `slices.ContainsFunc(vars, func(a) bool { return a.Name == key })`. */
  function ContainsName(vars: seq<Variable>, key: string): (b: bool)
    ensures b <==> exists i :: 0 <= i < |vars| && vars[i].name == key
  {
    if vars == [] then false
    else if vars[0].name == key then true
    else
      var b := ContainsName(vars[1..], key);
      assert forall i :: 1 <= i < |vars| ==> vars[i] == vars[1..][i - 1];
      b
  }

  /**
   * HasVariable (action.go:106-119): one listing request; if it fails the
   * answer is `false` with the error, otherwise the answer is whether some
   * listed variable is named `key`.
   */
  function HasVariable(server: Server, s: Session, key: string): (l: Lookup)
    ensures l.session == s.(log := s.log + [s.Request(List)])
    ensures server.variables(s.log).Err? ==> !l.found && l.err == Fail(server.variables(s.log).error)
    ensures server.variables(s.log).Ok? ==>
      var vars := server.variables(s.log).value;
      l.err == Pass && (l.found <==> exists i :: 0 <= i < |vars| && vars[i].name == key)
  {
    var sent := s.log + [s.Request(List)];
    match server.variables(s.log)
    case Err(e) => Lookup(s.(log := sent), false, Fail(e))
    case Ok(vars) => Lookup(s.(log := sent), ContainsName(vars, key), Pass)
  }

  /**
   * UpdateVariable (action.go:80-98): after the existence check, exactly one
   * update call if the variable exists, exactly one create call if it does
   * not, and neither if the check failed. The cache is untouched.
   */
  function UpdateVariable(server: Server, s: Session, key: string, value: Bytes): (d: Done)
    ensures d.session.repoPk == s.repoPk && d.session.owner == s.owner && d.session.repo == s.repo
    ensures server.variables(s.log).Err? ==>
      d.session.log == s.log + [s.Request(List)] && d.err == Fail(server.variables(s.log).error)
    ensures server.variables(s.log).Ok? ==>
      var vars := server.variables(s.log).value;
      var w := s.Request(
        if exists i :: 0 <= i < |vars| && vars[i].name == key
        then Update(Variable(key, value))
        else Create(Variable(key, value)));
      d.session.log == s.log + [s.Request(List), w] && d.err == server.write(s.log + [s.Request(List)], w)
  {
    var h := HasVariable(server, s, key);
    if h.err.Fail? then Done(h.session, h.err)
    else
      var w := h.session.Request(if h.found then Update(Variable(key, value)) else Create(Variable(key, value)));
      Done(h.session.(log := h.session.log + [w]), server.write(h.session.log, w))
  }
}
