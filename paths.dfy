/**
 * Entity-path composition of the chronicle `Logger`.
 *
 * An entity path is a `/`-separated string naming where a record is attached
 * in the visualisation backend's namespace. The logger composes the path of
 * every record from its current prefix and the caller's relative path, and
 * a `context` scope extends the prefix. Both rules are plain string
 * concatenation; the only normalisation anywhere is Python's `str.strip("/")`,
 * which removes leading and trailing slashes and nothing in between.
 */
module Paths {

  /** Every position of `s` from `lo` up to (not including) `hi` holds a slash. */
  predicate SlashesBetween(s: string, lo: int, hi: int) {
    forall m :: lo <= m < hi ==> 0 <= m < |s| && s[m] == '/'
  }

  /** Every character of `s` is a slash (vacuously true of ""). */
  predicate AllSlashes(s: string) {
    SlashesBetween(s, 0, |s|)
  }

  /** `s` neither starts nor ends with a slash. */
  predicate NoEdgeSlash(s: string) {
    s == [] || (s[0] != '/' && s[|s| - 1] != '/')
  }

  /**
   * `r` is `s` with a run of slashes cut from its front and a run of slashes
   * cut from its back.
   */
  ghost predicate Trims(s: string, r: string) {
    exists i, j :: 0 <= i <= j <= |s| && SlashesBetween(s, 0, i) && SlashesBetween(s, j, |s|) && r == s[i..j]
  }

  /** Where the run of slashes that starts at `from` ends: the first non-slash at or after `from`, or `|s|`. */
  function SkipSlashes(s: string, from: nat): (n: nat)
    requires from <= |s|
    ensures from <= n <= |s|
    ensures SlashesBetween(s, from, n)
    ensures n < |s| ==> s[n] != '/'
    decreases |s| - from
  {
    if from < |s| && s[from] == '/' then SkipSlashes(s, from + 1) else from
  }

  /** Where the run of slashes that ends at `to` starts: one past the last non-slash before `to`, or 0. */
  function SkipSlashesBack(s: string, to: nat): (n: nat)
    requires to <= |s|
    ensures n <= to
    ensures SlashesBetween(s, n, to)
    ensures 0 < n ==> s[n - 1] != '/'
  {
    if 0 < to && s[to - 1] == '/' then SkipSlashesBack(s, to - 1) else to
  }

  /**
   * Python's `s.strip("/")`: the result has no slash at either end and is
   * what remains of `s` once the slash runs at its two ends are cut off.
   * StripCharacterised shows that these two ensures determine the result.
   */
  function Strip(s: string): (r: string)
    ensures NoEdgeSlash(r)
    ensures Trims(s, r)
  {
    var i := SkipSlashes(s, 0);
    if i == |s| then
      assert s[|s|..|s|] == [];
      ""
    else
      s[i..SkipSlashesBack(s, |s|)]
  }

  /** Cutting slash runs from both ends until no edge slash is left gives Strip. */
  lemma StripOf(s: string, i: nat, j: nat)
    requires i <= j <= |s| && SlashesBetween(s, 0, i) && SlashesBetween(s, j, |s|)
    requires NoEdgeSlash(s[i..j])
    ensures Strip(s) == s[i..j]
  {
    if i < j {
      assert s[i] == s[i..j][0] && s[j - 1] == s[i..j][j - i - 1];
      assert SkipSlashes(s, 0) == i;
      assert SkipSlashesBack(s, |s|) == j;
    } else {
      assert SkipSlashes(s, 0) == |s|;
    }
  }

  /** Strip is the one function that cuts edge slash runs and leaves no edge slash. */
  lemma StripCharacterised(s: string, r: string)
    ensures r == Strip(s) <==> Trims(s, r) && NoEdgeSlash(r)
  {
    if Trims(s, r) && NoEdgeSlash(r) {
      var i, j :| 0 <= i <= j <= |s| && SlashesBetween(s, 0, i) && SlashesBetween(s, j, |s|) && r == s[i..j];
      StripOf(s, i, j);
    }
  }

  /**
   * `Logger._get_path`: with an empty prefix the relative path is returned
   * untouched; otherwise the prefix, a slash and the path are joined and the
   * edge slashes of the whole are stripped.
   */
  function GetPath(prefix: string, path: string): (r: string)
    ensures prefix == "" ==> r == path
    ensures prefix != "" ==> NoEdgeSlash(r) && Trims(prefix + "/" + path, r)
  {
    if prefix != "" then Strip(prefix + "/" + path) else path
  }

  /**
   * The new prefix set on entering `Logger.context(segment)`: the old prefix,
   * a slash and the segment, or the segment alone when the old prefix is
   * empty. No stripping is applied.
   */
  function ScopedPrefix(old_prefix: string, segment: string): (r: string)
    ensures old_prefix == "" ==> r == segment
    ensures old_prefix != "" ==> |r| == |old_prefix| + 1 + |segment| && r[|old_prefix|] == '/'
    ensures old_prefix != "" ==> r[..|old_prefix|] == old_prefix && r[|old_prefix| + 1..] == segment
  {
    if old_prefix != "" then old_prefix + "/" + segment else segment
  }

  /**
   * When the prefix does not start with a slash and the path does not end
   * with one, the result is exactly `prefix/path`: every slash in between is
   * kept, including duplicates and a trailing slash of the prefix.
   */
  lemma GetPathJoinsExactly(prefix: string, path: string)
    requires prefix != "" && path != ""
    requires prefix[0] != '/' && path[|path| - 1] != '/'
    ensures GetPath(prefix, path) == prefix + "/" + path
  {
    StripJoin(prefix, path, 0, |path|);
    assert prefix[0..] == prefix && path[..|path|] == path;
  }

  /**
   * When prefix and path each hold a character other than a slash, only the
   * prefix's leading slashes and the path's trailing slashes are removed:
   * every slash in between, the joining one included, is kept exactly.
   */
  lemma GetPathKeepsInterior(prefix: string, path: string)
    requires !AllSlashes(prefix) && !AllSlashes(path)
    ensures GetPath(prefix, path) == prefix[SkipSlashes(prefix, 0)..] + "/" + path[..SkipSlashesBack(path, |path|)]
  {
    var i := SkipSlashes(prefix, 0);
    var e := SkipSlashesBack(path, |path|);
    StripJoin(prefix, path, i, e);
  }

  /** Strip of `prefix/path` when the slash runs to cut lie inside the prefix and the path respectively. */
  lemma StripJoin(prefix: string, path: string, i: nat, e: nat)
    requires i < |prefix| && SlashesBetween(prefix, 0, i) && prefix[i] != '/'
    requires 0 < e <= |path| && SlashesBetween(path, e, |path|) && path[e - 1] != '/'
    ensures Strip(prefix + "/" + path) == prefix[i..] + "/" + path[..e]
  {
    var s := prefix + "/" + path;
    var j := |prefix| + 1 + e;
    assert SlashesBetween(s, 0, i) by {
      forall m | 0 <= m < i ensures s[m] == '/' {
        assert s[m] == prefix[m];
      }
    }
    assert SlashesBetween(s, j, |s|) by {
      forall m | j <= m < |s| ensures s[m] == '/' {
        assert s[m] == path[m - |prefix| - 1];
      }
    }
    assert s[i..j] == prefix[i..] + "/" + path[..e];
    StripOf(s, i, j);
  }

  /**
   * Entering a scope is the same as prepending the scope's segment to every
   * relative path, as long as the enclosing prefix is not empty.
   */
  lemma ScopeActsAsPathPrefix(old_prefix: string, segment: string, path: string)
    requires old_prefix != ""
    ensures GetPath(ScopedPrefix(old_prefix, segment), path) == GetPath(old_prefix, segment + "/" + path)
  {
    JoinAssociates(old_prefix, segment, path);
  }

  lemma JoinAssociates(a: string, b: string, c: string)
    ensures (a + "/" + b) + "/" + c == a + "/" + (b + "/" + c)
  {
  }

  /**
   * Nested scopes compose by concatenation: entering `a` then `b` gives the
   * same prefix as entering `a/b` once, unless both the old prefix and `a`
   * are empty. Segments are never deduplicated.
   */
  lemma ScopesCompose(old_prefix: string, a: string, b: string)
    requires old_prefix != "" || a != ""
    ensures ScopedPrefix(ScopedPrefix(old_prefix, a), b) == ScopedPrefix(old_prefix, a + "/" + b)
  {
    if old_prefix != "" {
      JoinAssociates(old_prefix, a, b);
    }
  }

  /** Interior duplicate slashes survive: prefix "a/b/" and path "/c" give "a/b///c". */
  lemma PathInteriorExample()
    ensures GetPath("a/b/", "/c") == "a/b///c"
    ensures GetPath("a/b", "c") == "a/b/c"
  {
    GetPathJoinsExactly("a/b/", "/c");
    assert "a/b/" + "/" + "/c" == "a/b///c";
    GetPathJoinsExactly("a/b", "c");
    assert "a/b" + "/" + "c" == "a/b/c";
  }

  /**
   * The `context` docstring: prefix "original_prefix", scope
   * "training/epoch_5", metric "loss".
   */
  lemma DocstringContextPath()
    ensures GetPath(ScopedPrefix("original_prefix", "training/epoch_5"), "loss")
         == "original_prefix/training/epoch_5/loss"
  {
    var scoped := "original_prefix/training/epoch_5";
    assert ScopedPrefix("original_prefix", "training/epoch_5") == scoped by {
      assert "original_prefix" + "/" + "training/epoch_5" == scoped;
    }
    assert GetPath(scoped, "loss") == "original_prefix/training/epoch_5/loss" by {
      GetPathJoinsExactly(scoped, "loss");
      assert scoped + "/" + "loss" == "original_prefix/training/epoch_5/loss";
    }
  }

  /**
   * The example script's scope "validation_phase", entered with no prefix:
   * the stepped accuracy scalar inside it lands at
   * "validation_phase/metrics/accuracy".
   */
  lemma ValidationAccuracyPath()
    ensures GetPath(ScopedPrefix("", "validation_phase"), "metrics/accuracy") == "validation_phase/metrics/accuracy"
  {
    GetPathJoinsExactly("validation_phase", "metrics/accuracy");
    assert "validation_phase" + "/" + "metrics/accuracy" == "validation_phase/metrics/accuracy";
  }

  /** The info line logged inside the same scope lands at "validation_phase/logs/info". */
  lemma ValidationInfoPath()
    ensures GetPath(ScopedPrefix("", "validation_phase"), "logs/info") == "validation_phase/logs/info"
  {
    GetPathJoinsExactly("validation_phase", "logs/info");
    assert "validation_phase" + "/" + "logs/info" == "validation_phase/logs/info";
  }
}
