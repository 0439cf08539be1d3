/** General facts about the matcher and the two ways of splicing matches in:
    where no marker opens nothing is found, a template without matches is
    left alone, and a stage with at most one match splices it in correctly. */
module TemplateFacts {
  import opened Particles
  import opened Template

  /** No two opening braces start anywhere in `[a, b)`. */
  predicate Quiet(s: string, a: nat, b: nat) {
    forall t :: a <= t < b ==> !Opens(s, t)
  }

  /** A stretch without `{{` holds no match. */
  lemma {:induction false} QuietSkip(s: string, key: string, a: nat, b: nat)
    requires a <= b && Quiet(s, a, b)
    ensures MatchesFrom(s, key, a) == MatchesFrom(s, key, b)
    decreases b - a
  {
    if a < b {
      if Anchored(s, key, a) {
        MarkerOpens(s, key, a);
        assert false;
      }
      QuietSkip(s, key, a + 1, b);
    }
  }

  /** A string without `{{` holds no match of any key. */
  lemma QuietFindsNothing(s: string, key: string)
    requires Quiet(s, 0, |s|)
    ensures FindAll(s, key) == []
  {
    QuietSkip(s, key, 0, |s|);
  }

  /** The characters of a marker found at `j`. */
  lemma MarkerChars(s: string, k: string, j: nat)
    requires MarkerAt(s, k, j)
    ensures forall i :: 0 <= i < |k| ==> s[j + 2 + i] == k[i]
    ensures s[j + 2 + |k|] == '}'
  {
    var m := Marker(k);
    assert s[j + 2 + |k|] == s[j..j + |k| + 4][2 + |k|];
    forall i | 0 <= i < |k|
      ensures s[j + 2 + i] == k[i]
    {
      assert s[j + 2 + i] == s[j..j + |k| + 4][2 + i] == m[2..|m| - 2][i];
    }
  }

  /** At most one brace-free key has its marker at a given place. */
  lemma MarkerKeyUnique(s: string, k: string, u: string, j: nat)
    requires BraceFree(k) && BraceFree(u) && MarkerAt(s, k, j) && MarkerAt(s, u, j)
    ensures k == u
  {
    MarkerChars(s, k, j);
    MarkerChars(s, u, j);
    // The first `}` after the opening braces ends both keys.
    assert forall p :: j + 2 <= p < j + 2 + |u| ==> s[p] != '}';
    assert forall p :: j + 2 <= p < j + 2 + |k| ==> s[p] != '}';
    assert |k| == |u|;
    assert forall i :: 0 <= i < |k| ==> k[i] == u[i];
  }

  /** `Format` leaves a template alone exactly when no spelling of the list
      matches in it: every stage that matches makes the string shorter or
      panics. */
  lemma {:induction false} FormatFixedPoint(s: string, ts: seq<string>)
    ensures FormatWith(s, ts) == Rendered(s) <==> forall k :: k in ts ==> FindAll(s, k) == []
    decreases |ts|
  {
    if ts != [] {
      var k, rest := ts[0], ts[1..];
      assert ts == [k] + rest;
      var st := Stage(s, k);
      if FindAll(s, k) == [] {
        assert st == Rendered(s);
        assert FormatWith(s, ts) == FormatWith(s, rest);
        FormatFixedPoint(s, rest);
      } else if st.Rendered? {
        assert |st.text| < |s|;
        assert FormatWith(s, ts) == FormatWith(st.text, rest);
      }
    }
  }

  /** A template in which `{{` never occurs comes out unchanged. */
  lemma QuietUnchanged(s: string, ts: seq<string>)
    requires Quiet(s, 0, |s|)
    ensures FormatWith(s, ts) == Rendered(s)
  {
    forall k | k in ts
      ensures FindAll(s, k) == []
    {
      QuietFindsNothing(s, k);
    }
    FormatFixedPoint(s, ts);
  }

  /** Rebuilding from an earlier place adds the text in between. */
  lemma RebuildFrom(s: string, join: string -> string, ms: seq<Match>, a: nat, b: nat)
    requires a <= b <= |s| && Ascending(ms, b, |s|)
    ensures Ascending(ms, a, |s|)
    ensures Rebuild(s, join, ms, a) == s[a..b] + Rebuild(s, join, ms, b)
  {
    AscendingFrom(ms, a, b, |s|);
    if ms == [] {
      assert s[a..] == s[a..b] + s[b..];
    } else {
      RebuildFromFirst(s, join, ms, a, b);
    }
  }

  lemma RebuildFromFirst(s: string, join: string -> string, ms: seq<Match>, a: nat, b: nat)
    requires a <= b <= |s| && Ascending(ms, b, |s|) && Ascending(ms, a, |s|) && ms != []
    ensures Rebuild(s, join, ms, a) == s[a..b] + Rebuild(s, join, ms, b)
  {
    var m := ms[0];
    var c := join(s[m.start..m.wordEnd]);
    var r := Rebuild(s, join, ms[1..], m.end);
    SliceSplit(s, a, b, m.start);
    AppendAssoc(s[a..b], s[b..m.start], c);
    AppendAssoc(s[a..b], s[b..m.start] + c, r);
  }

  lemma SliceSplit(s: string, a: nat, b: nat, c: nat)
    requires a <= b <= c <= |s|
    ensures s[a..c] == s[a..b] + s[b..c]
  {
  }

  lemma AppendAssoc(x: string, y: string, z: string)
    ensures (x + y) + z == x + (y + z)
  {
  }

  /** Matches that keep to `[b, n)` keep to any wider `[a, n)`. */
  lemma AscendingFrom(ms: seq<Match>, a: nat, b: nat, n: nat)
    requires a <= b && Ascending(ms, b, n)
    ensures Ascending(ms, a, n)
  {
  }

  /** With at most one match the stale offsets do no harm: `Format`'s stage
      agrees with the rebuilt one. */
  lemma StageAgrees(s: string, key: string)
    requires PlainKey(key) && |FindAll(s, key)| <= 1
    ensures Stage(s, key) == Rendered(RebuiltStage(s, key))
  {
    var ms := FindAll(s, key);
    FindAllAscending(s, key);
    FindAllSpec(s, key);
    if ms != [] {
      var m := ms[0];
      assert ms[1..] == [];
      assert Fits(m, key) && m.end <= |s|;
      var c := Concat(s[m.start..m.wordEnd], key);
      var t := s[..m.start] + c + s[m.end..];
      assert Splice(s, key, m) == Rendered(t);
      assert SpliceAll(s, key, ms) == SpliceAll(t, key, []);
      assert s[0..m.start] == s[..m.start];
      assert Rebuild(s, ConcatWith(key), ms, 0) == s[0..m.start] + c + Rebuild(s, ConcatWith(key), [], m.end);
    }
  }
}
