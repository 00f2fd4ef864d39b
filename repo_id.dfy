/**
 * The `OWNER/REPO` rule of main.go's `parse` (main.go:113-120): the
 * identifier is split on "/" and accepted only when that yields exactly two
 * parts, the owner and the repository.
 */
module RepoId {
  import opened Remote

  datatype RepoRef = RepoRef(owner: string, repo: string)

  const SplitError: string := "provide OWNER/REPO"

  /** How many times `c` occurs in `s`. */
  function Occurrences(s: string, c: char): nat {
    if s == [] then 0 else (if s[0] == c then 1 else 0) + Occurrences(s[1..], c)
  }

  lemma {:induction false} OccurrencesAppend(a: string, b: string, c: char)
    ensures Occurrences(a + b, c) == Occurrences(a, c) + Occurrences(b, c)
  {
    if a != [] {
      assert (a + b)[1..] == a[1..] + b;
      OccurrencesAppend(a[1..], b, c);
    } else {
      assert a + b == b;
    }
  }

  lemma {:induction false} OccurrencesAbsent(s: string, c: char)
    requires c !in s
    ensures Occurrences(s, c) == 0
  {
    if s != [] {
      OccurrencesAbsent(s[1..], c);
    }
  }

  /** `parts` glued back together with `sep` between neighbours. */
  function Join(parts: seq<string>, sep: char): string
    requires |parts| >= 1
  {
    if |parts| == 1 then parts[0] else parts[0] + [sep] + Join(parts[1..], sep)
  }

  /**
   * `strings.Split(s, sep)` for a one-character separator: the pieces
   * between separators, so one more piece than there are separators (the
   * empty string gives one empty piece); joining them again gives `s`.
   */
  function Split(s: string, sep: char): (parts: seq<string>)
    ensures |parts| == Occurrences(s, sep) + 1
    ensures Join(parts, sep) == s
    ensures forall i :: 0 <= i < |parts| ==> sep !in parts[i]
  {
    if s == [] then [[]]
    else
      var rest := Split(s[1..], sep);
      if s[0] == sep then
        assert ([[]] + rest)[1..] == rest;
        [[]] + rest
      else
        assert ([[s[0]] + rest[0]] + rest[1..])[1..] == rest[1..];
        assert |rest| > 1 ==> Join(rest, sep) == rest[0] + [sep] + Join(rest[1..], sep);
        [[s[0]] + rest[0]] + rest[1..]
  }

  /**
   * The repository identifier check: accepted exactly when it holds one
   * "/", giving the text before it as owner and the text after it as
   * repository; otherwise the error "provide OWNER/REPO".
   */
  function ParseRepoId(id: string): (r: Result<RepoRef>)
    ensures r.Ok? <==> Occurrences(id, '/') == 1
    ensures r.Ok? ==> r.value.owner + "/" + r.value.repo == id && '/' !in r.value.owner && '/' !in r.value.repo
    ensures r.Err? ==> r.error == SplitError
  {
    var ids := Split(id, '/');
    if |ids| != 2 then Err(SplitError)
    else
      assert Join(ids[1..], '/') == ids[1];
      Ok(RepoRef(ids[0], ids[1]))
  }

  /** Cutting at the only separator on each side gives the same two pieces. */
  lemma CutIsUnique(a: string, b: string, x: string, y: string, c: char)
    requires c !in a && c !in x
    requires a + [c] + b == x + [c] + y
    ensures a == x && b == y
  {
    var s := a + [c] + b;
    assert s[|a|] == c && s[|x|] == c;
    assert forall k :: 0 <= k < |a| ==> s[k] == a[k];
    assert forall k :: 0 <= k < |x| ==> s[k] == x[k];
    assert a == s[..|a|] && x == s[..|x|];
    assert b == s[|a| + 1..] && y == s[|x| + 1..];
  }

  /** Any owner and repository without "/" survive the round trip through `OWNER/REPO`. */
  lemma ParseRepoIdRoundTrip(owner: string, repo: string)
    requires '/' !in owner && '/' !in repo
    ensures ParseRepoId(owner + "/" + repo) == Ok(RepoRef(owner, repo))
  {
    var id := owner + "/" + repo;
    OccurrencesAppend(owner, "/" + repo, '/');
    OccurrencesAppend("/", repo, '/');
    assert owner + "/" + repo == owner + ("/" + repo);
    OccurrencesAbsent(owner, '/');
    OccurrencesAbsent(repo, '/');
    var r := ParseRepoId(id).value;
    CutIsUnique(r.owner, r.repo, owner, repo, '/');
  }
}
