/**
 * Properties of a whole `Execute` run: the key cache invariant holds
 * throughout, so a run uploads every secret under the one key it fetched; a
 * run from a new session makes at most one key request, failed or not; a
 * cached key is never fetched again; and each entry touches only its own path
 * of the API.
 */
module Guarantees {
  import opened Remote
  import opened ActionSpec
  import opened KeyCache
  import opened StateUpdateSpec

  lemma ApplyEntryKeepsCoherent(env: Env, s: Session, st: State)
    requires Coherent(env.server, s)
    ensures Coherent(env.server, ApplyEntry(env, s, st).session)
  {
    var v := ResolveValue(env.readFile, st);
    if v.Ok? {
      if st.secret {
        UpdateSecretKeepsCoherent(env.server, env.crypto, s, st.key, v.value);
      } else {
        UpdateVariableKeepsCoherent(env.server, s, st.key, v.value);
      }
    }
  }

  lemma {:induction false} RunKeepsCoherent(env: Env, s: Session, states: seq<State>)
    requires Coherent(env.server, s)
    ensures Coherent(env.server, Run(env, s, states).session)
    decreases |states|
  {
    if states != [] {
      var e := ApplyEntry(env, s, states[0]);
      ApplyEntryKeepsCoherent(env, s, states[0]);
      if e.err.Pass? {
        RunKeepsCoherent(env, e.session, states[1..]);
      }
    }
  }

  /**
   * A run of a new session, successful or not: at most one key request was
   * made at all, `repoPk` ends as the key it returned (nil if it failed or
   * none was made), and no secret was uploaded without that key or under
   * another key identifier.
   */
  lemma SecretsOnlyUnderTheFetchedKey(env: Env, owner: string, repo: string, states: seq<State>)
    ensures
      var t := Run(env, Session(owner, repo, None, []), states).session;
      var keys := FetchedKeys(env.server, t.log);
      KeyRequestedAtMostOnce(t.log) &&
      |keys| <= 1 &&
      t.repoPk == (if keys == [] then None else Some(keys[0])) &&
      UploadsUseFetchedKey(env.server, t.log)
  {
    FreshSessionCoherent(env.server, owner, repo);
    RunKeepsCoherent(env, Session(owner, repo, None, []), states);
    RunRequestsKeyAtMostOnce(env, Session(owner, repo, None, []), states);
  }

  lemma ApplyEntryCachedNeverFetches(env: Env, s: Session, st: State)
    requires s.repoPk.Some?
    ensures ApplyEntry(env, s, st).session.repoPk == s.repoPk
    ensures NoKeyRequest(s, ApplyEntry(env, s, st).session)
  {
  }

  /** Once the key is cached, the rest of the run makes no key request and keeps the same key. */
  lemma {:induction false} CachedRunNeverFetches(env: Env, s: Session, states: seq<State>)
    requires s.repoPk.Some?
    ensures Run(env, s, states).session.repoPk == s.repoPk
    ensures NoKeyRequest(s, Run(env, s, states).session)
    decreases |states|
  {
    if states != [] {
      var e := ApplyEntry(env, s, states[0]);
      ApplyEntryCachedNeverFetches(env, s, states[0]);
      if e.err.Pass? {
        var t := Run(env, e.session, states[1..]).session;
        CachedRunNeverFetches(env, e.session, states[1..]);
        forall i | |s.log| <= i < |t.log|
          ensures !t.log[i].op.GetPk?
        {
          if i < |e.session.log| {
            assert t.log[i] == e.session.log[i];
          }
        }
      }
    }
  }

  /** `log` holds no key request. */
  ghost predicate NoKeyRequestIn(log: seq<Call>) {
    forall i :: 0 <= i < |log| ==> !log[i].op.GetPk?
  }

  /** `log` holds at most one key request, failed or not. */
  ghost predicate KeyRequestedAtMostOnce(log: seq<Call>) {
    forall i, j :: 0 <= i < j < |log| && log[i].op.GetPk? ==> !log[j].op.GetPk?
  }

  /** Calls that are not key requests do not add a second one. */
  lemma AtMostOnceExtends(s: Session, t: Session)
    requires Extends(s, t) && NoKeyRequest(s, t)
    requires KeyRequestedAtMostOnce(s.log)
    ensures KeyRequestedAtMostOnce(t.log)
  {
    forall i, j | 0 <= i < j < |t.log| && t.log[i].op.GetPk?
      ensures !t.log[j].op.GetPk?
    {
      if j < |s.log| {
        assert t.log[i] == s.log[i] && t.log[j] == s.log[j];
      }
    }
  }

  /**
   * One entry from a session that has neither a cached key nor a key request
   * in its log makes at most one key request; if the entry succeeds and still
   * has no cached key, it made none.
   */
  lemma {:induction false} ApplyEntryRequestsKeyAtMostOnce(env: Env, s: Session, st: State)
    requires s.repoPk.None? && NoKeyRequestIn(s.log)
    ensures KeyRequestedAtMostOnce(ApplyEntry(env, s, st).session.log)
    ensures ApplyEntry(env, s, st).err.Pass? && ApplyEntry(env, s, st).session.repoPk.None? ==>
      NoKeyRequestIn(ApplyEntry(env, s, st).session.log)
  {
    var v := ResolveValue(env.readFile, st);
    var t := ApplyEntry(env, s, st).session;
    if v.Ok? && st.secret {
      var e := EncryptUsingRepoPk(env.server, env.crypto, s, v.value);
      assert e.session == GetRepoPk(env.server, s).session;
      forall k | |s.log| < k < |t.log|
        ensures !t.log[k].op.GetPk?
      {
        assert k == |e.session.log| && t.log[k].op.UploadSecret?;
      }
      forall i, j | 0 <= i < j < |t.log| && t.log[i].op.GetPk?
        ensures !t.log[j].op.GetPk?
      {
        assert forall k :: 0 <= k < |s.log| ==> t.log[k] == s.log[k];
      }
    } else if v.Ok? {
      UpdateVariableNeverFetches(env.server, s, st.key, v.value);
      forall i | 0 <= i < |t.log|
        ensures !t.log[i].op.GetPk?
      {
        if i < |s.log| {
          assert t.log[i] == s.log[i];
        }
      }
    }
  }

  /**
   * A run from a session with nothing cached and no key request made makes at
   * most one key request in total, failed or not: a failed request ends the
   * run (its error is returned by EncryptUsingRepoPk, UpdateSecret and
   * Execute in turn), and a successful one is cached for the rest of it.
   */
  lemma {:induction false} RunRequestsKeyAtMostOnce(env: Env, s: Session, states: seq<State>)
    requires s.repoPk.None? && NoKeyRequestIn(s.log)
    ensures KeyRequestedAtMostOnce(Run(env, s, states).session.log)
    decreases |states|
  {
    if states != [] {
      var e := ApplyEntry(env, s, states[0]);
      ApplyEntryRequestsKeyAtMostOnce(env, s, states[0]);
      if e.err.Pass? {
        if e.session.repoPk.None? {
          RunRequestsKeyAtMostOnce(env, e.session, states[1..]);
        } else {
          CachedRunNeverFetches(env, e.session, states[1..]);
          AtMostOnceExtends(e.session, Run(env, e.session, states[1..]).session);
        }
      }
    }
  }

  /** The calls of the secret path (key request, upload) and of the variable path (list, create, update). */
  predicate OnPath(op: Op, secret: bool) {
    if secret then op.GetPk? || op.UploadSecret? else op.List? || op.Create? || op.Update?
  }

  /** Every call made between `s` and its extension `t` is on the chosen path. */
  ghost predicate CallsOnPath(s: Session, t: Session, secret: bool) {
    forall i :: |s.log| <= i < |t.log| ==> OnPath(t.log[i].op, secret)
  }

  /**
   * Each entry goes to the secret path or to the variable path, never both
   * (main.go:54-64); a file-read error makes no call at all (main.go:46-50).
   */
  lemma EntryTakesOnePath(env: Env, s: Session, st: State)
    ensures CallsOnPath(s, ApplyEntry(env, s, st).session, st.secret)
    ensures ResolveValue(env.readFile, st).Err? ==> ApplyEntry(env, s, st).session == s
  {
  }
}
