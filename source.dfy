/** The default-export normalisation applied to game source text before it
    is sent to the sandbox: the regular expression `/export\s+default\s+/m`
    and the appended `export default game;` statement. */
module Source {
  import opened Text

  /** What is appended to a text that has no default export. */
  const Appended: string := "\nexport default game;"

  /** The regular expression matches `s[i..j + 8]`: "export", a run of
      spaces `s[i + 6..j]` of length at least one, "default", and one
      more space (the `\s+` at the end needs only its first character). */
  ghost predicate MatchAt(s: string, i: nat, j: nat) {
    i + 6 < j && j + 8 <= |s|
    && s[i..i + 6] == "export"
    && (forall k :: i + 6 <= k < j ==> IsJsSpace(s[k]))
    && s[j..j + 7] == "default"
    && IsJsSpace(s[j + 7])
  }

  /** The (unanchored) regular expression matches somewhere in `s`. */
  ghost predicate HasExportDefault(s: string) {
    exists i: nat, j: nat :: MatchAt(s, i, j)
  }

  /** A match starts at `i`. Since "default" starts with a non-space,
      the greedy space run is the only one that can be followed by it. */
  predicate MatchesAt(s: string, i: nat) {
    i + 6 <= |s| && s[i..i + 6] == "export"
    && var j := SkipSpace(s, i + 6);
       i + 6 < j && j + 8 <= |s| && s[j..j + 7] == "default" && IsJsSpace(s[j + 7])
  }

  /** A match starts at `i` or later. */
  predicate MatchesFrom(s: string, i: nat)
    decreases |s| - i
  {
    i < |s| && (MatchesAt(s, i) || MatchesFrom(s, i + 1))
  }

  /** `/export\s+default\s+/m.test(s)` */
  predicate TestExportDefault(s: string) {
    MatchesFrom(s, 0)
  }

  lemma MatchesAtSound(s: string, i: nat)
    ensures MatchesAt(s, i) <==> exists j: nat :: MatchAt(s, i, j)
  {
    if MatchesAt(s, i) {
      assert MatchAt(s, i, SkipSpace(s, i + 6));
    }
    if exists j: nat :: MatchAt(s, i, j) {
      var j: nat :| MatchAt(s, i, j);
      assert s[j] == 'd' by { assert s[j..j + 7][0] == s[j]; }
      var g := SkipSpace(s, i + 6);
      assert g == j;
    }
  }

  lemma {:induction false} MatchesFromSound(s: string, i: nat)
    ensures MatchesFrom(s, i) <==> exists k: nat, j: nat :: i <= k && MatchAt(s, k, j)
    decreases |s| - i
  {
    if i < |s| {
      MatchesAtSound(s, i);
      MatchesFromSound(s, i + 1);
      if exists k: nat, j: nat :: i <= k && MatchAt(s, k, j) {
        var k: nat, j: nat :| i <= k && MatchAt(s, k, j);
        if k > i {
          assert i + 1 <= k && MatchAt(s, k, j);
        }
      }
    }
  }

  /** The executable test agrees with the match predicate. */
  lemma TestSound(s: string)
    ensures TestExportDefault(s) <==> HasExportDefault(s)
  {
    MatchesFromSound(s, 0);
  }

  /** The appended statement itself is a match. */
  lemma AppendedMatches(s: string)
    ensures HasExportDefault(s + Appended)
  {
    var t := s + Appended;
    var i := |s| + 1;
    assert t[i..i + 6] == "export";
    assert t[i + 7..i + 14] == "default";
    assert MatchAt(t, i, i + 7);
  }

  /** `needsExport ? text + "\nexport default game;" : text` */
  function Normalize(s: string): (r: string)
    ensures HasExportDefault(s) ==> r == s
    ensures !HasExportDefault(s) ==> r == s + Appended
    ensures HasExportDefault(r)
  {
    TestSound(s);
    if TestExportDefault(s) then s
    else
      AppendedMatches(s);
      s + Appended
  }

  /** Normalising twice is normalising once. */
  lemma NormalizeIdempotent(s: string)
    ensures Normalize(Normalize(s)) == Normalize(s)
  {
  }

  /** A default export not followed by a space, as in `export default{`,
      is not recognised: the text gets a second default export. */
  lemma UnspacedExportGetsSecondExport()
    ensures Normalize("export default{}") == "export default{}" + Appended
  {
    var s := "export default{}";
    assert !MatchesAt(s, 0) by {
      assert SkipSpace(s, 6) == 7;
      assert s[14] == '{';
    }
    assert !MatchesFrom(s, 1) by {
      forall k | 1 <= k < |s| ensures !MatchesAt(s, k) {
        if k + 6 <= |s| {
          assert s[k..k + 6][0] == s[k] && s[k..k + 6][1] == s[k + 1];
          assert s[k] != 'e' || s[k + 1] != 'x';
        }
      }
      MatchesFromNone(s, 1);
    }
    TestSound(s);
  }

  lemma {:induction false} MatchesFromNone(s: string, i: nat)
    requires forall k :: i <= k < |s| ==> !MatchesAt(s, k)
    ensures !MatchesFrom(s, i)
    decreases |s| - i
  {
    if i < |s| {
      MatchesFromNone(s, i + 1);
    }
  }
}
