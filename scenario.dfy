/**
 * A worked batch: one secret and one variable pushed to a service that hands
 * out key "kid1" and lists no variables.
 */
module Scenario {
  import opened Remote
  import opened ActionSpec
  import opened StateUpdateSpec

  /** The bytes of a text whose characters are all below 256. */
  function Latin1(s: string): (b: Bytes)
    requires forall i :: 0 <= i < |s| ==> s[i] as int < 256
    ensures |b| == |s| && forall i :: 0 <= i < |s| ==> b[i] as int == s[i] as int
  {
    seq(|s|, i requires 0 <= i < |s| => s[i] as int as byte)
  }

  /**
   * Entries API_TOKEN (secret, "abc123") and REGION (variable, "us-east-1"):
   * one key request, one upload of API_TOKEN under "kid1", one listing, one
   * create of REGION with its value, and no error.
   */
  lemma SecretThenVariable(crypto: Crypto, readFile: Bytes -> Result<Bytes>, zeroKey: string)
    requires crypto.decodeBase64(zeroKey) == Ok(seq(32, _ => 0))
    requires crypto.sealAnonymous(Latin1("abc123"), seq(32, _ => 0)).Ok?
    ensures
      var pk := PublicKey("kid1", zeroKey);
      var server := Server(_ => Ok(pk), _ => Ok([]), (_, _) => Pass);
      var sealed := crypto.encodeBase64(crypto.sealAnonymous(Latin1("abc123"), seq(32, _ => 0)).value);
      var d := Run(Env(server, crypto, readFile), Session("octo", "app", None, []),
                   [State("API_TOKEN", Some(Latin1("abc123")), None, true),
                    State("REGION", Some(Latin1("us-east-1")), None, false)]);
      d.err == Pass && d.session.repoPk == Some(pk) &&
      d.session.log == [Call("octo", "app", GetPk),
                        Call("octo", "app", UploadSecret(EncryptedSecret("API_TOKEN", "kid1", sealed))),
                        Call("octo", "app", List),
                        Call("octo", "app", Create(Variable("REGION", Latin1("us-east-1"))))]
  {
    var pk := PublicKey("kid1", zeroKey);
    var server := Server(_ => Ok(pk), _ => Ok([]), (_, _) => Pass);
    var env := Env(server, crypto, readFile);
    var states := [State("API_TOKEN", Some(Latin1("abc123")), None, true),
                   State("REGION", Some(Latin1("us-east-1")), None, false)];
    var s0 := Session("octo", "app", None, []);
    assert CopyKey(seq(32, _ => 0)) == seq(32, _ => 0);
    var e1 := ApplyEntry(env, s0, states[0]);
    var e2 := ApplyEntry(env, e1.session, states[1]);
    assert e1.err == Pass && e1.session.repoPk == Some(pk);
    assert states[1..][1..] == [];
  }
}
