/** `Format` (josa.go:120-137) and the list of spellings it looks for,
    `evaluateJosaList` (josa.go:23-42).

    For every spelling `josa` of the table, `Format` builds the pattern
    `([가-힣ㄱ-ㅣ]+)\{\{josa\}\}`, collects all its matches in the current
    string, and then splices `Concat(word, josa)` in place of each match, one
    after the other, with the offsets computed before the first splice. */
module Template {
  import opened GoText
  import opened Hangul
  import opened Particles

  /** The character class `[가-힣ㄱ-ㅣ]`: the precomposed syllables and the
      compatibility jamo from ㄱ to ㅣ. */
  predicate IsHangul(c: char) {
    ('\U{AC00}' <= c <= '\U{D7A3}') || ('\U{3131}' <= c <= '\U{3163}')
  }

  /** A letter of the class is neither white space nor a brace, so a word
      never reaches into a marker. The class holds every syllable; the
      compatibility jamo it also holds lie below the syllable block, so a
      word ending in one of them counts as having no final consonant. */
  lemma HangulClass(word: string, c: char)
    requires IsHangul(c)
    ensures !IsSpace(c) && c != '{' && c != '}'
    ensures IsSyllable(c) || c as int < SBase
    ensures c as int < SBase ==> !HasJongseong(word + [c])
  {
    assert (word + [c])[|word + [c]| - 1] == c;
  }

  /** The text `{{key}}` that a template writes in place of a particle. */
  function Marker(key: string): (m: string)
    ensures |m| == |key| + 4
    ensures m[0] == '{' && m[1] == '{' && m[|m| - 2] == '}' && m[|m| - 1] == '}'
    ensures m[2..|m| - 2] == key
  {
    "{{" + key + "}}"
  }

  /** `Marker(key)` occurs in `s` at `j`. */
  predicate MarkerAt(s: string, key: string, j: nat) {
    j + |key| + 4 <= |s| && s[j..j + |key| + 4] == Marker(key)
  }

  /** The pattern of `key` matches with its marker at `j`: the marker is
      there and a Hangul letter stands right before it. */
  predicate Anchored(s: string, key: string, j: nat) {
    0 < j && MarkerAt(s, key, j) && IsHangul(s[j - 1])
  }

  /** Where the run of Hangul letters that ends just before `j` starts: the
      greedy `[가-힣ㄱ-ㅣ]+` of the leftmost match reaches back this far. */
  function RunStart(s: string, j: nat): (i: nat)
    requires j <= |s|
    ensures i <= j
    ensures forall t :: i <= t < j ==> IsHangul(s[t])
    ensures i == 0 || !IsHangul(s[i - 1])
  {
    if j > 0 && IsHangul(s[j - 1]) then RunStart(s, j - 1) else j
  }

  /** The submatch indices of one match: the whole match is
      `s[start..end]` (`match[0]`, `match[1]`) and the captured word is
      `s[start..wordEnd]` (`match[2]`, `match[3]`). */
  datatype Match = Match(start: nat, wordEnd: nat, end: nat)

  /** The match whose marker is at `j`. */
  function MatchAt(s: string, key: string, j: nat): (m: Match)
    requires j <= |s|
    ensures m.start == RunStart(s, j) && m.start <= m.wordEnd == j && m.end == j + |key| + 4
  {
    Match(RunStart(s, j), j, j + |key| + 4)
  }

  /** The matches of the pattern of `key` whose marker is at `j` or later,
      in order. */
  function MatchesFrom(s: string, key: string, j: nat): seq<Match>
    decreases |s| - j
  {
    if j >= |s| then []
    else if Anchored(s, key, j) then [MatchAt(s, key, j)] + MatchesFrom(s, key, j + 1)
    else MatchesFrom(s, key, j + 1)
  }

  /** Every match `MatchesFrom` reports is of an anchored marker at `j` or
      later. */
  lemma {:induction false} MatchesFromSound(s: string, key: string, j: nat)
    ensures forall t :: 0 <= t < |MatchesFrom(s, key, j)| ==>
      var m := MatchesFrom(s, key, j)[t];
      j <= m.wordEnd && Anchored(s, key, m.wordEnd) && m == MatchAt(s, key, m.wordEnd)
    decreases |s| - j
  {
    if j < |s| {
      MatchesFromSound(s, key, j + 1);
      var rest := MatchesFrom(s, key, j + 1);
      var ms := MatchesFrom(s, key, j);
      if Anchored(s, key, j) {
        assert ms == [MatchAt(s, key, j)] + rest;
        forall t | 0 <= t < |ms|
          ensures j <= ms[t].wordEnd && Anchored(s, key, ms[t].wordEnd) && ms[t] == MatchAt(s, key, ms[t].wordEnd)
        {
          if t > 0 {
            assert ms[t] == rest[t - 1];
          }
        }
      } else {
        assert ms == rest;
      }
    }
  }

  /** Every anchored marker at `j` or later is reported. */
  lemma {:induction false} MatchesFromComplete(s: string, key: string, j: nat)
    ensures forall p :: j <= p && Anchored(s, key, p) ==> MatchAt(s, key, p) in MatchesFrom(s, key, j)
    decreases |s| - j
  {
    if j < |s| {
      MatchesFromComplete(s, key, j + 1);
    }
  }

  /** Every match `MatchesFrom` reports has its marker at `j` or later. */
  lemma {:induction false} MatchesFromAfter(s: string, key: string, j: nat)
    ensures forall t :: 0 <= t < |MatchesFrom(s, key, j)| ==> j <= MatchesFrom(s, key, j)[t].wordEnd
    decreases |s| - j
  {
    if j < |s| {
      MatchesFromAfter(s, key, j + 1);
      var rest := MatchesFrom(s, key, j + 1);
      if Anchored(s, key, j) {
        var ms := [MatchAt(s, key, j)] + rest;
        assert MatchesFrom(s, key, j) == ms;
        forall t | 0 < t < |ms|
          ensures j < ms[t].wordEnd
        {
          assert ms[t] == rest[t - 1];
        }
      }
    }
  }

  /** The matches come in the order of their markers. */
  lemma {:induction false} MatchesFromOrdered(s: string, key: string, j: nat)
    ensures forall t, u :: 0 <= t < u < |MatchesFrom(s, key, j)| ==>
      MatchesFrom(s, key, j)[t].wordEnd < MatchesFrom(s, key, j)[u].wordEnd
    decreases |s| - j
  {
    if j < |s| {
      MatchesFromOrdered(s, key, j + 1);
      var rest := MatchesFrom(s, key, j + 1);
      if Anchored(s, key, j) {
        MatchesFromAfter(s, key, j + 1);
        var ms := [MatchAt(s, key, j)] + rest;
        assert MatchesFrom(s, key, j) == ms;
        forall t, u | 0 <= t < u < |ms|
          ensures ms[t].wordEnd < ms[u].wordEnd
        {
          assert ms[u] == rest[u - 1];
          if t > 0 {
            assert ms[t] == rest[t - 1];
          }
        }
      }
    }
  }

  /** `r.FindAllStringSubmatchIndex(format, -1)`: every match, in order. */
  function FindAll(s: string, key: string): seq<Match> {
    MatchesFrom(s, key, 0)
  }

  /** `FindAll` reports every anchored marker and nothing else, in order. */
  lemma FindAllSpec(s: string, key: string)
    ensures forall t :: 0 <= t < |FindAll(s, key)| ==>
      var m := FindAll(s, key)[t];
      Anchored(s, key, m.wordEnd) && m == MatchAt(s, key, m.wordEnd)
    ensures forall p :: Anchored(s, key, p) ==> MatchAt(s, key, p) in FindAll(s, key)
    ensures forall t, u :: 0 <= t < u < |FindAll(s, key)| ==>
      FindAll(s, key)[t].wordEnd < FindAll(s, key)[u].wordEnd
  {
    MatchesFromSound(s, key, 0);
    MatchesFromComplete(s, key, 0);
    MatchesFromOrdered(s, key, 0);
  }

  /** Two opening braces start at `j`. */
  predicate Opens(s: string, j: nat) {
    j + 1 < |s| && s[j] == '{' && s[j + 1] == '{'
  }

  lemma MarkerOpens(s: string, key: string, j: nat)
    requires MarkerAt(s, key, j)
    ensures Opens(s, j)
  {
    assert s[j] == s[j..j + |key| + 4][0];
    assert s[j + 1] == s[j..j + |key| + 4][1];
  }

  /** Inside a marker of a brace-free key no second marker opens. */
  lemma MarkerInterior(s: string, key: string, p: nat, q: nat)
    requires BraceFree(key) && MarkerAt(s, key, p) && p < q < p + |key| + 4
    ensures !Opens(s, q)
  {
    var m := Marker(key);
    assert s[q] == m[q - p];
    if q == p + 1 {
      assert s[q + 1] == m[2];
    } else if q < p + |key| + 2 {
      assert m[q - p] == m[2..|m| - 2][q - p - 2] == key[q - p - 2];
    }
  }

  /** Two markers of a brace-free key cannot overlap, and the word of the
      later match starts after the earlier match ends (its `}` is no Hangul
      letter). So the matches found here are the non-overlapping ones that
      a leftmost-first search reports. */
  lemma AnchoredApart(s: string, key: string, p: nat, q: nat)
    requires PlainKey(key)
    requires Anchored(s, key, p) && Anchored(s, key, q) && p < q
    ensures p + |key| + 4 <= RunStart(s, q)
  {
    MarkerOpens(s, key, q);
    if q < p + |key| + 4 {
      MarkerInterior(s, key, p, q);
      assert false;
    }
    assert s[p + |key| + 3] == s[p..p + |key| + 4][|key| + 3];
  }

  /** Matches that follow each other without overlapping, inside `[from, n)`. */
  predicate Ascending(ms: seq<Match>, from: nat, n: nat)
    decreases |ms|
  {
    ms == [] ||
    (from <= ms[0].start <= ms[0].wordEnd <= ms[0].end <= n && Ascending(ms[1..], ms[0].end, n))
  }

  lemma {:induction false} MatchesFromAscending(s: string, key: string, j: nat, from: nat)
    requires PlainKey(key) && from <= |s|
    requires forall p :: j <= p && Anchored(s, key, p) ==> from <= RunStart(s, p)
    ensures Ascending(MatchesFrom(s, key, j), from, |s|)
    decreases |s| - j
  {
    if j < |s| {
      if Anchored(s, key, j) {
        var m := MatchAt(s, key, j);
        forall p | j + 1 <= p && Anchored(s, key, p)
          ensures m.end <= RunStart(s, p)
        {
          AnchoredApart(s, key, j, p);
        }
        MatchesFromAscending(s, key, j + 1, m.end);
      } else {
        MatchesFromAscending(s, key, j + 1, from);
      }
    }
  }

  /** The matches of a brace-free key never overlap. */
  lemma FindAllAscending(s: string, key: string)
    requires PlainKey(key)
    ensures Ascending(FindAll(s, key), 0, |s|)
  {
    MatchesFromAscending(s, key, 0, 0);
  }

  /** What a call of `Format` ends in: a string, or a run-time panic from a
      slice bound past the end of the string. */
  datatype Rendering = Rendered(text: string) | Panicked

  /** The shape of every match of the pattern of `key`. */
  predicate Fits(m: Match, key: string) {
    m.start <= m.wordEnd && m.end == m.wordEnd + |key| + 4
  }

  /** The particle spliced in is shorter than the marker it replaces. */
  lemma ConcatShorterThanMarker(word: string, key: string)
    ensures |Concat(word, key)| < |word| + |key| + 4
  {
    var c := Concat(word, key);
    if TrimSpace(key) in FunctionMap {
      var form := FunctionMap[TrimSpace(key)].Resolve(word);
      assert |form| <= 2;
      assert |c| == |c[..|word|]| + |c[|word|..]|;
    }
  }

  /** One turn of the inner loop (josa.go:127-133): the word and the marker
      of match `m` in `cur` are replaced by `Concat(word, key)`. Go panics
      when a bound is past the end of `cur`; otherwise the text before the
      match is kept and the string gets shorter. */
  function Splice(cur: string, key: string, m: Match): (r: Rendering)
    requires Fits(m, key)
    ensures r.Rendered? <==> m.end <= |cur|
    ensures r.Rendered? ==> m.start <= |r.text| < |cur| && r.text[..m.start] == cur[..m.start]
  {
    if m.end <= |cur| then
      var word := cur[m.start..m.wordEnd];
      var c := Concat(word, key);
      ConcatShorterThanMarker(word, key);
      SplicedShape(cur, m, c);
      Rendered(cur[..m.start] + c + cur[m.end..])
    else Panicked
  }

  /** Text `c` shorter than the stretch of match `m` put in its place. */
  lemma SplicedShape(cur: string, m: Match, c: string)
    requires m.start <= m.wordEnd <= m.end <= |cur| && |c| < m.end - m.start
    ensures var t := cur[..m.start] + c + cur[m.end..];
      m.start <= |t| < |cur| && t[..m.start] == cur[..m.start]
  {
    var t := cur[..m.start] + c + cur[m.end..];
    assert t[..m.start] == cur[..m.start];
  }

  /** The inner loop: the matches spliced in turn into the string, each at
      the offsets found before the first splice. */
  function SpliceAll(cur: string, key: string, ms: seq<Match>): (r: Rendering)
    requires forall t :: 0 <= t < |ms| ==> Fits(ms[t], key)
    ensures r.Rendered? ==> |r.text| <= |cur|
    ensures r.Rendered? && ms != [] ==> |r.text| < |cur|
    decreases |ms|
  {
    if ms == [] then Rendered(cur)
    else
      match Splice(cur, key, ms[0])
      case Panicked => Panicked
      case Rendered(t) => SpliceAll(t, key, ms[1..])
  }

  /** One turn of the outer loop: every match of the pattern of `key` in
      `s`. It leaves `s` alone exactly when the pattern does not match. */
  function Stage(s: string, key: string): (r: Rendering)
    ensures r.Rendered? ==> |r.text| <= |s|
    ensures r.Rendered? && FindAll(s, key) != [] ==> |r.text| < |s|
    ensures r == Rendered(s) <==> FindAll(s, key) == []
  {
    var ms := FindAll(s, key);
    FindAllSpec(s, key);
    SpliceAll(s, key, ms)
  }

  /** What `Format` computes when it takes the spellings in the order of
      `tokens`. */
  function FormatWith(s: string, tokens: seq<string>): (r: Rendering)
    ensures r.Rendered? ==> |r.text| <= |s|
    decreases |tokens|
  {
    if tokens == [] then Rendered(s)
    else
      match Stage(s, tokens[0])
      case Panicked => Panicked
      case Rendered(t) => FormatWith(t, tokens[1..])
  }

  /** A list in which every key of `functionMap` appears exactly once: what
      ranging over the map yields, in an order Go leaves unspecified. */
  predicate IsKeyEnumeration(ts: seq<string>) {
    && (forall a, b :: 0 <= a < b < |ts| ==> ts[a] != ts[b])
    && (forall t :: t in ts ==> t in FunctionMap)
    && (forall k :: k in FunctionMap ==> k in ts)
  }

  /** The package state of josa.go:23-24: the spelling list, filled on the
      first call of `Format` and kept for every later call. */
  class Formatter {
    var josaList: seq<string>
    var evaluated: bool

    /** The state of a freshly loaded package: no list yet. */
    constructor ()
      ensures !evaluated
    {
      josaList := [];
      evaluated := false;
    }

    /** The list, once computed, enumerates the keys. */
    ghost predicate Valid()
      reads this
    {
      evaluated ==> IsKeyEnumeration(josaList)
    }

    /** `evaluateJosaList`: the first call copies the keys of the map into a
        list, in whatever order the map is ranged over; later calls keep
        it. */
    method EvaluateJosaList()
      requires Valid()
      modifies this
      ensures Valid() && evaluated
      ensures old(evaluated) ==> josaList == old(josaList)
      ensures |josaList| == |FunctionMap|
    {
      if evaluated {
        EnumerationSize(josaList);
        return;
      }
      var keys := FunctionMap.Keys;
      var list := new string[|FunctionMap|];
      var remaining := keys;
      var i := 0;
      while remaining != {}
        invariant remaining <= keys
        invariant i + |remaining| == list.Length
        invariant forall a :: 0 <= a < i ==> list[a] in keys && list[a] !in remaining
        invariant forall a, b :: 0 <= a < b < i ==> list[a] != list[b]
        invariant forall k :: k in keys && k !in remaining ==> k in list[..i]
        decreases |remaining|
      {
        var key :| key in remaining;
        list[i] := key;
        assert list[..i + 1] == list[..i] + [key];
        remaining := remaining - {key};
        i := i + 1;
      }
      assert list[..] == list[..i];
      josaList := list[..];
      evaluated := true;
    }

    /** `Format`: the first call fixes the order of the spellings; the
        result is `FormatWith` in that order. */
    method Format(format: string) returns (r: Rendering)
      requires Valid()
      modifies this
      ensures Valid() && evaluated
      ensures old(evaluated) ==> josaList == old(josaList)
      ensures r == FormatWith(format, josaList)
    {
      EvaluateJosaList();
      r := FormatIn(format, josaList);
    }
  }

  /** An enumeration of the keys is as long as the map. */
  lemma EnumerationSize(ts: seq<string>)
    requires IsKeyEnumeration(ts)
    ensures |ts| == |FunctionMap|
  {
    var keys := set t | t in ts;
    assert keys == FunctionMap.Keys;
    DistinctSize(ts);
  }

  lemma {:induction false} DistinctSize(ts: seq<string>)
    requires forall a, b :: 0 <= a < b < |ts| ==> ts[a] != ts[b]
    ensures |set t | t in ts| == |ts|
  {
    if ts != [] {
      var rest := ts[1..];
      DistinctSize(rest);
      assert (set t | t in ts) == {ts[0]} + (set t | t in rest);
      assert ts[0] !in (set t | t in rest);
    }
  }

  /** The outer loop of `Format` (josa.go:123-134) over a given list: for
      each spelling, the matches of its pattern, spliced in. */
  method FormatIn(format: string, josaList: seq<string>) returns (r: Rendering)
    ensures r == FormatWith(format, josaList)
  {
    var s := format;
    for i := 0 to |josaList|
      invariant FormatWith(format, josaList) == FormatWith(s, josaList[i..])
    {
      var josa := josaList[i];
      var matches := FindAll(s, josa);
      FindAllSpec(s, josa);
      var stage := SpliceEach(s, josa, matches);
      assert josaList[i..][0] == josa && josaList[i..][1..] == josaList[i + 1..];
      if stage.Panicked? {
        return Panicked;
      }
      s := stage.text;
    }
    r := Rendered(s);
  }

  /** The inner loop of `Format` (josa.go:127-133): each match in turn,
      at the offsets found in the string before the first splice. */
  method SpliceEach(format: string, josa: string, matches: seq<Match>) returns (r: Rendering)
    requires forall t :: 0 <= t < |matches| ==> Fits(matches[t], josa)
    ensures r == SpliceAll(format, josa, matches)
  {
    var cur := format;
    for t := 0 to |matches|
      invariant SpliceAll(format, josa, matches) == SpliceAll(cur, josa, matches[t..])
    {
      var m := matches[t];
      assert matches[t..][0] == m && matches[t..][1..] == matches[t + 1..];
      if m.end > |cur| {
        return Panicked;
      }
      var word := cur[m.start..m.wordEnd];
      var concatenated := Concat(word, josa);
      cur := cur[..m.start] + concatenated + cur[m.end..];
    }
    r := Rendered(cur);
  }

  /** What a match of `key` is replaced by: its word with the particle. */
  function ConcatWith(key: string): string -> string {
    (word: string) => Concat(word, key)
  }

  /** The matches spliced into `s` by building the result from the pieces
      of `s` itself, so that no offset goes stale: the text between matches
      is copied and each match becomes `join` of its word. */
  function Rebuild(s: string, join: string -> string, ms: seq<Match>, from: nat): (r: string)
    requires from <= |s| && Ascending(ms, from, |s|)
    decreases |ms|
  {
    if ms == [] then s[from..]
    else
      s[from..ms[0].start] + join(s[ms[0].start..ms[0].wordEnd])
      + Rebuild(s, join, ms[1..], ms[0].end)
  }

  /** A stage that replaces every match of `key` in `s`. */
  function RebuiltStage(s: string, key: string): string
    requires PlainKey(key)
  {
    FindAllAscending(s, key);
    Rebuild(s, ConcatWith(key), FindAll(s, key), 0)
  }

  /** `FormatWith` with every stage rebuilt. */
  function FormatRebuilt(s: string, tokens: seq<string>): string
    requires forall t :: t in tokens ==> PlainKey(t)
    decreases |tokens|
  {
    if tokens == [] then s else FormatRebuilt(RebuiltStage(s, tokens[0]), tokens[1..])
  }
}
