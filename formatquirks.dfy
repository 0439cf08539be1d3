/** Two behaviours of `Format` (josa.go:120-137) that its doc comment does
    not mention: the order in which ranging over `functionMap` hands out
    the spellings decides the result when two markers are glued together,
    and a spelling written twice makes the second splice use offsets that
    the first one made stale (josa.go:126-133). */
module FormatQuirks {
  import opened Hangul
  import opened Particles
  import opened Template
  import opened TemplateFacts
  import opened Slots
  import opened FormatResults

  /** What the rest of the loop makes of the outcome of its first part. */
  function Continue(r: Rendering, ts: seq<string>): Rendering {
    match r
    case Panicked => Panicked
    case Rendered(t) => FormatWith(t, ts)
  }

  /** One turn of the outer loop, then the rest. */
  lemma FormatWithStep(s: string, ts: seq<string>)
    requires ts != []
    ensures FormatWith(s, ts) == Continue(Stage(s, ts[0]), ts[1..])
  {
  }

  lemma AppendParts<T>(a: seq<T>, b: seq<T>)
    ensures a == [] ==> a + b == b
    ensures a != [] ==> a + b != [] && (a + b)[0] == a[0] && (a + b)[1..] == a[1..] + b
  {
    if a != [] {
      assert (a + b)[1..] == a[1..] + b;
    }
  }

  /** The outer loop over `a + b` is the loop over `a`, then over `b`; a
      panic ends it. */
  lemma {:induction false} FormatWithAppend(s: string, a: seq<string>, b: seq<string>)
    ensures FormatWith(s, a + b) == Continue(FormatWith(s, a), b)
    decreases |a|
  {
    AppendParts(a, b);
    if a != [] {
      FormatWithStep(s, a + b);
      FormatWithStep(s, a);
      var st := Stage(s, a[0]);
      if st.Rendered? {
        FormatWithAppend(st.text, a[1..], b);
      }
    }
  }

  /** `k1` comes before `k2` in the list. */
  predicate Before(ts: seq<string>, k1: string, k2: string) {
    exists i, j :: 0 <= i < j < |ts| && ts[i] == k1 && ts[j] == k2
  }

  /** Spellings of the list other than `k1` and `k2` are keys distinct from
      both. */
  predicate Others(ts: seq<string>, k1: string, k2: string) {
    forall t :: t in ts ==> t in FunctionMap && t != k1 && t != k2
  }

  /** A stretch of the list whose spellings all miss `s` leaves it alone. */
  lemma SkipOthers(s: string, part: seq<string>, k1: string, k2: string)
    requires Others(part, k1, k2)
    requires forall k :: PlainKey(k) && k != k1 && k != k2 ==> FindAll(s, k) == []
    ensures FormatWith(s, part) == Rendered(s)
  {
    forall k | k in part
      ensures FindAll(s, k) == []
    {
      KeyOnItsLine(k);
    }
    FormatFixedPoint(s, part);
  }

  /** A stretch of an enumeration that leaves out the positions `p` and
      `q` holds neither spelling found there. */
  lemma OthersOfStretch(ts: seq<string>, lo: nat, hi: nat, p: nat, q: nat)
    requires IsKeyEnumeration(ts) && lo <= hi <= |ts| && p < |ts| && q < |ts|
    requires !(lo <= p < hi) && !(lo <= q < hi)
    ensures Others(ts[lo..hi], ts[p], ts[q])
  {
    forall t | t in ts[lo..hi]
      ensures t in FunctionMap && t != ts[p] && t != ts[q]
    {
      var i :| 0 <= i < hi - lo && ts[lo..hi][i] == t;
      assert ts[lo + i] == t;
    }
  }

  lemma CutFive<T>(ts: seq<T>, p: nat, q: nat)
    requires p < q < |ts|
    ensures ts == ts[..p] + [ts[p]] + ts[p + 1..q] + [ts[q]] + ts[q + 1..]
  {
  }

  /** An enumeration of the keys with `k1` at `p` and `k2` at `q`, cut into
      the stretches around them. */
  lemma CutAround(ts: seq<string>, p: nat, q: nat)
    requires IsKeyEnumeration(ts) && p < q < |ts|
    ensures ts == ts[..p] + [ts[p]] + ts[p + 1..q] + [ts[q]] + ts[q + 1..]
    ensures Others(ts[..p], ts[p], ts[q]) && Others(ts[p + 1..q], ts[p], ts[q]) && Others(ts[q + 1..], ts[p], ts[q])
  {
    CutFive(ts, p, q);
    OthersOfStretch(ts, 0, p, p, q);
    assert ts[..p] == ts[0..p];
    OthersOfStretch(ts, p + 1, q, p, q);
    OthersOfStretch(ts, q + 1, |ts|, p, q);
    assert ts[q + 1..] == ts[q + 1..|ts|];
  }

  /** The whole loop when only the stages of `k1` and then `k2` change
      anything: `s` becomes `mid`, then `out`. */
  lemma TwoStages(s: string, mid: string, out: string, k1: string, k2: string, ts: seq<string>)
    requires IsKeyEnumeration(ts) && Before(ts, k1, k2)
    requires forall k :: PlainKey(k) && k != k1 && k != k2 ==> FindAll(s, k) == []
    requires Stage(s, k1) == Rendered(mid)
    requires forall k :: PlainKey(k) && k != k1 && k != k2 ==> FindAll(mid, k) == []
    requires Stage(mid, k2) == Rendered(out)
    requires forall k :: PlainKey(k) && k != k1 && k != k2 ==> FindAll(out, k) == []
    ensures FormatWith(s, ts) == Rendered(out)
  {
    var p, q :| 0 <= p < q < |ts| && ts[p] == k1 && ts[q] == k2;
    CutAround(ts, p, q);
    var a, b, c := ts[..p], ts[p + 1..q], ts[q + 1..];
    SkipOthers(s, a, k1, k2);
    SkipOthers(mid, b, k1, k2);
    SkipOthers(out, c, k1, k2);
    FormatWithAppend(s, a + [k1] + b + [k2], c);
    FormatWithAppend(s, a + [k1] + b, [k2]);
    FormatWithAppend(s, a + [k1], b);
    FormatWithAppend(s, a, [k1]);
    assert FormatWith(s, [k1]) == Rendered(mid) by {
      assert [k1][1..] == [];
    }
    assert FormatWith(mid, [k2]) == Rendered(out) by {
      assert [k2][1..] == [];
    }
  }

  /** In an enumeration, where the spellings stand decides their order. */
  lemma BeforeAt(ts: seq<string>, k1: string, k2: string, i: nat, j: nat)
    requires IsKeyEnumeration(ts) && i < |ts| && j < |ts| && ts[i] == k1 && ts[j] == k2
    ensures Before(ts, k1, k2) <==> i < j
  {
    if Before(ts, k1, k2) {
      var a, b :| 0 <= a < b < |ts| && ts[a] == k1 && ts[b] == k2;
      assert a == i && b == j;
    }
  }

  /** Any two spellings of an enumeration come in one order or the other. */
  lemma BeforeOrAfter(ts: seq<string>, k1: string, k2: string)
    requires IsKeyEnumeration(ts) && k1 in FunctionMap && k2 in FunctionMap && k1 != k2
    ensures Before(ts, k1, k2) != Before(ts, k2, k1)
  {
    var i :| 0 <= i < |ts| && ts[i] == k1;
    var j :| 0 <= j < |ts| && ts[j] == k2;
    BeforeAt(ts, k1, k2, i, j);
    BeforeAt(ts, k2, k1, j, i);
  }

  // Two markers glued together: a Hangul word `w`, then `{{k1}}{{k2}}`.

  /** Where the word and the two markers of `w{{k1}}{{k2}}` lie. */
  lemma GluedLayout(s: string, w: string, k1: string, k2: string)
    requires s == w + Marker(k1) + Marker(k2) && HangulWord(w) && BraceFree(k1)
    ensures ScanLayout(s, k1, 0, |w|, |w| + |k1| + 4)
    ensures var e := |w| + |k1| + 4;
      e + |k2| + 4 == |s| && s[e - 1] == '}' && MarkerAt(s, k2, e)
  {
    var e := |w| + |k1| + 4;
    var x := w + Marker(k1);
    var sl := Marked(w, k1, []);
    assert Piece(sl) == x + [] == x;
    assert s == x + Marker(k2);
    forall i | 0 <= i < |x|
      ensures s[i] == x[i]
    {
    }
    assert Lies(s, 0, Piece(sl));
    MarkedLayout(s, 0, sl);
    assert s[e - 1] == x[e - 1] == Marker(k1)[|k1| + 3];
    assert s[e..e + |k2| + 4] == Marker(k2);
  }

  /** Past the first marker nothing matches: the second marker has a `}`
      before it. */
  lemma GluedScanTail(s: string, e: nat, k2: string, key: string)
    requires e + |k2| + 4 == |s| && 0 < e && s[e - 1] == '}' && MarkerAt(s, k2, e) && BraceFree(k2)
    ensures MatchesFrom(s, key, e) == []
  {
    assert !Anchored(s, key, e);
    assert MatchesFrom(s, key, e) == MatchesFrom(s, key, e + 1);
    forall t | e + 1 <= t < |s|
      ensures !Opens(s, t)
    {
      MarkerInterior(s, k2, e, t);
    }
    QuietSkip(s, key, e + 1, |s|);
  }

  /** In `w{{k1}}{{k2}}` the pattern of `k1` matches around the word and
      the first marker; no pattern matches the second marker, which has a
      `}` before it. */
  lemma GluedScan(s: string, w: string, k1: string, k2: string, key: string)
    requires s == w + Marker(k1) + Marker(k2) && HangulWord(w)
    requires BraceFree(k1) && BraceFree(k2) && BraceFree(key)
    ensures FindAll(s, key) == if key == k1 then [Match(0, |w|, |w| + |k1| + 4)] else []
  {
    var e := |w| + |k1| + 4;
    GluedLayout(s, w, k1, k2);
    MarkerScan(s, key, k1, 0, |w|, e);
    GluedScanTail(s, e, k2, key);
    if key != k1 {
      assert [] + MatchesFrom(s, key, e) == [];
    }
  }

  /** A stage whose pattern matches once splices that match. */
  lemma StageOfOne(s: string, key: string, m: Match, word: string, before: string, after: string)
    requires FindAll(s, key) == [m] && Fits(m, key) && m.end <= |s|
    requires word == s[m.start..m.wordEnd] && before == s[..m.start] && after == s[m.end..]
    ensures Stage(s, key) == Rendered(before + Concat(word, key) + after)
  {
    var ms := FindAll(s, key);
    var t := before + Concat(word, key) + after;
    assert ms[0] == m && ms[1..] == [];
    assert Splice(s, key, m) == Rendered(t);
    assert SpliceAll(s, key, ms) == SpliceAll(t, key, []);
  }

  /** The stage of `k1` resolves the first marker against `w`. */
  lemma GluedFirstStage(s: string, w: string, k1: string, k2: string)
    requires s == w + Marker(k1) + Marker(k2) && HangulWord(w)
    requires PlainKey(k1) && BraceFree(k2)
    ensures Stage(s, k1) == Rendered(Concat(w, k1) + Marker(k2))
  {
    GluedScan(s, w, k1, k2, k1);
    GluedPieces(s, w, k1, k2);
    StageOfOne(s, k1, Match(0, |w|, |w| + |k1| + 4), w, [], Marker(k2));
    assert [] + Concat(w, k1) == Concat(w, k1);
  }

  lemma GluedPieces(s: string, w: string, k1: string, k2: string)
    requires s == w + Marker(k1) + Marker(k2)
    ensures s[0..|w|] == w && s[|w| + |k1| + 4..] == Marker(k2) && s[..0] == []
  {
    var x := w + Marker(k1);
    assert s == x + Marker(k2);
    assert s[|x|..] == Marker(k2);
    assert s[0..|w|] == x[0..|w|] == w;
  }

  // Helper of the LoneMarker lemmas: a template of one slot spelled out.
  lemma TextOfOne(head: string, sl: Slot)
    ensures Text(head, [sl]) == head + Piece(sl)
  {
    assert [sl][1..] == [];
    assert Pieces([sl]) == Piece(sl) + [];
  }

  lemma LoneMarkerText(s: string, w: string, k: string)
    requires s == w + Marker(k) && HangulWord(w) && BraceFree(k)
    ensures var slots := [Marked(w, k, [])];
      WellFormed([], slots) && DistinctKeys(slots) && Text([], slots) == s
  {
    var slots := [Marked(w, k, [])];
    assert slots[1..] == [];
    TextOfOne([], slots[0]);
    assert Piece(slots[0]) == w + Marker(k) + [];
  }

  lemma LoneMarkerReplace(w: string, k: string, key: string, join: string -> string)
    ensures Text([], Replace([Marked(w, k, [])], key, join)) ==
      if key == k then join(w) else w + Marker(k)
  {
    var slots := [Marked(w, k, [])];
    var r := Replace(slots, key, join);
    ReplaceEach(slots, key, join);
    assert r == [r[0]];
    TextOfOne([], r[0]);
    assert Piece(r[0]) == if key == k then join(w) + [] else w + Marker(k) + [];
  }

  /** A word followed by one marker is a template of one slot: only the
      pattern of its own key matches, and its stage resolves the marker. */
  lemma LoneMarkerStage(s: string, w: string, k: string, key: string)
    requires s == w + Marker(k) && HangulWord(w) && BraceFree(k) && PlainKey(key)
    ensures FindAll(s, key) == [] <==> key != k
    ensures Stage(s, key) == Rendered(if key == k then Concat(w, k) else s)
  {
    var slots := [Marked(w, k, [])];
    LoneMarkerText(s, w, k);
    FindAllText([], slots, key);
    StageText([], slots, key);
    LoneMarkerReplace(w, k, key, ConcatWith(key));
    assert ConcatWith(key)(w) == Concat(w, key);
  }

  /** Text without an opening brace holds no match. */
  lemma NoOpening(s: string, key: string)
    requires NoBrace(s)
    ensures FindAll(s, key) == []
  {
    NoBraceQuiet(s, 0, |s|);
    QuietFindsNothing(s, key);
  }

  /** The result of `Format` on `w{{k1}}{{k2}}` depends on the order in
      which ranging over `functionMap` yields the two spellings. When `k1`
      comes first, its stage leaves `w` and its particle glued to the
      second marker, whose particle is then chosen by the last letter of
      the first particle, not of `w`. When `k2` comes first, its pattern
      does not match yet, and the second marker is left in the result. */
  lemma GluedOrderMatters(s: string, w: string, k1: string, f1: Family, k2: string, f2: Family, ts: seq<string>)
    requires IsKeyEnumeration(ts) && k1 in f1.Aliases() && k2 in f2.Aliases() && k1 != k2
    requires s == w + Marker(k1) + Marker(k2) && HangulWord(w) && HangulWord(f1.Resolve(w))
    ensures Before(ts, k1, k2) ==>
      FormatWith(s, ts) == Rendered(w + f1.Resolve(w) + f2.Resolve(w + f1.Resolve(w)))
    ensures Before(ts, k2, k1) ==> FormatWith(s, ts) == Rendered(w + f1.Resolve(w) + Marker(k2))
    ensures Before(ts, k1, k2) != Before(ts, k2, k1)
  {
    var w1 := w + f1.Resolve(w);
    var mid := w1 + Marker(k2);
    var out := w1 + f2.Resolve(w1);
    AliasFamily(f1, k1);
    AliasFamily(f2, k2);
    ConcatOnSpelling(w, f1, k1);
    ConcatOnSpelling(w1, f2, k2);
    GluedStages(s, w, k1, k2, ts);
  }

  /** `GluedOrderMatters` in terms of `Concat`. */
  lemma GluedStages(s: string, w: string, k1: string, k2: string, ts: seq<string>)
    requires IsKeyEnumeration(ts) && k1 in FunctionMap && k2 in FunctionMap && k1 != k2
    requires s == w + Marker(k1) + Marker(k2) && HangulWord(w) && HangulWord(Concat(w, k1))
    ensures Before(ts, k1, k2) ==> FormatWith(s, ts) == Rendered(Concat(Concat(w, k1), k2))
    ensures Before(ts, k2, k1) ==> FormatWith(s, ts) == Rendered(Concat(w, k1) + Marker(k2))
    ensures Before(ts, k1, k2) != Before(ts, k2, k1)
  {
    var w1 := Concat(w, k1);
    var mid := w1 + Marker(k2);
    var out := Concat(w1, k2);
    KeyOnItsLine(k1);
    KeyOnItsLine(k2);
    BeforeOrAfter(ts, k1, k2);
    forall k | PlainKey(k) && k != k1 && k != k2
      ensures FindAll(s, k) == [] && FindAll(mid, k) == [] && FindAll(out, k) == []
    {
      GluedScan(s, w, k1, k2, k);
      LoneMarkerStage(mid, w1, k2, k);
      NoBraceWord(w1);
      ConcatNoBrace(w1, k2);
      NoOpening(out, k);
    }
    GluedFirstStage(s, w, k1, k2);
    LoneMarkerStage(mid, w1, k2, k2);
    if Before(ts, k1, k2) {
      TwoStages(s, mid, out, k1, k2, ts);
    } else {
      GluedScan(s, w, k1, k2, k2);
      LoneMarkerStage(mid, w1, k2, k1);
      TwoStages(s, s, mid, k2, k1, ts);
    }
  }

  lemma NaSpelled()
    ensures "나" + Marker("은") + Marker("이") == "나{{은}}{{이}}"
  {
  }

  lemma NaResolved()
    ensures Topic.Resolve("나") == "는" && Subject.Resolve("나는") == "이"
    ensures HangulWord("나") && HangulWord("는")
  {
    assert !HasJongseong("나") && HasJongseong("나는");
  }

  lemma NaRendered()
    ensures "나" + "는" + "이" == "나는이" && "나" + "는" + Marker("이") == "나는{{이}}"
  {
  }

  /** "나{{은}}{{이}}" renders as "나는이" when 은 comes before 이 in the
      enumeration, and as "나는{{이}}" otherwise. */
  lemma GluedExample(ts: seq<string>)
    requires IsKeyEnumeration(ts)
    ensures Before(ts, "은", "이") ==> FormatWith("나{{은}}{{이}}", ts) == Rendered("나는이")
    ensures !Before(ts, "은", "이") ==> FormatWith("나{{은}}{{이}}", ts) == Rendered("나는{{이}}")
  {
    assert "은" in Topic.Aliases() && "이" in Subject.Aliases();
    NaSpelled();
    NaResolved();
    NaRendered();
    GluedOrderMatters("나{{은}}{{이}}", "나", "은", Topic, "이", Subject, ts);
  }

  // One spelling written in two slots.

  /** Two matches, the second ending at the end of the string. */
  predicate SecondAtEnd(s: string, key: string, ms: seq<Match>) {
    |ms| == 2 && Fits(ms[0], key) && Fits(ms[1], key) && ms[0].end <= |s| && ms[1].end == |s|
  }

  /** A stage with two matches, the second ending at the end of the string:
      the first splice shortens the string, so the second one's bound is
      past its end. */
  lemma StagePanicsOnSecond(s: string, key: string)
    requires SecondAtEnd(s, key, FindAll(s, key))
    ensures Stage(s, key) == Panicked
  {
    var ms := FindAll(s, key);
    var m1, m2 := ms[0], ms[1];
    assert ms[1..] == [m2] && [m2][1..] == [];
    var first := Splice(s, key, m1);
    assert first.Rendered? && |first.text| < |s|;
    assert SpliceAll(s, key, ms) == SpliceAll(first.text, key, [m2]);
    assert Splice(first.text, key, m2) == Panicked;
  }

  /** The matches of the template of two slots. */
  lemma TwoSlotsMatches(w1: string, t1: string, w2: string, t2: string, k: string, key: string)
    ensures Expected(0, [Marked(w1, k, t1), Marked(w2, k, t2)], key) ==
      if key == k then
        var o := |w1| + |k| + 4 + |t1|;
        [Match(0, |w1|, |w1| + |k| + 4), Match(o, o + |w2|, o + |w2| + |k| + 4)]
      else []
  {
    var slots := [Marked(w1, k, t1), Marked(w2, k, t2)];
    assert slots[1..] == [Marked(w2, k, t2)] && slots[1..][1..] == [];
    ExpectedStep(0, slots, key);
    var o := |Piece(slots[0])|;
    ExpectedStep(o, slots[1..], key);
    assert |Piece(slots[0])| == |w1| + |k| + 4 + |t1|;
    if key != k {
      assert Own(0, slots[0], key) == [];
    }
  }

  // Helper of TwoSlotsFound: the length of a template of two slots.
  lemma TwoSlotsLength(s: string, w1: string, t1: string, w2: string, k: string)
    requires s == Text([], [Marked(w1, k, t1), Marked(w2, k, [])])
    ensures |s| == |w1| + |k| + 4 + |t1| + |w2| + |k| + 4
  {
    TextOfTwo([], Marked(w1, k, t1), Marked(w2, k, []));
  }

  /** The spellings other than `k` leave the template of two slots of `k`
      alone. */
  lemma TwoSlotsOthers(s: string, w1: string, t1: string, w2: string, t2: string, k: string, part: seq<string>)
    requires s == Text([], [Marked(w1, k, t1), Marked(w2, k, t2)])
    requires WellFormed([], [Marked(w1, k, t1), Marked(w2, k, t2)])
    requires forall t :: t in part ==> t in FunctionMap && t != k
    ensures FormatWith(s, part) == Rendered(s)
  {
    var slots := [Marked(w1, k, t1), Marked(w2, k, t2)];
    forall t | t in part
      ensures FindAll(s, t) == []
    {
      KeyOnItsLine(t);
      FindAllText([], slots, t);
      TwoSlotsMatches(w1, t1, w2, t2, k, t);
    }
    FormatFixedPoint(s, part);
  }

  /** Both slots of the template of two slots of `k` hold a match of `k`,
      the second ending at the end of the template. */
  lemma TwoSlotsFound(s: string, w1: string, t1: string, w2: string, k: string)
    requires s == Text([], [Marked(w1, k, t1), Marked(w2, k, [])])
    requires WellFormed([], [Marked(w1, k, t1), Marked(w2, k, [])])
    requires PlainKey(k)
    ensures SecondAtEnd(s, k, FindAll(s, k))
  {
    FindAllText([], [Marked(w1, k, t1), Marked(w2, k, [])], k);
    TwoSlotsMatches(w1, t1, w2, [], k, k);
    TwoSlotsLength(s, w1, t1, w2, k);
  }

  /** The stage of `k` on the template of two slots of `k` panics. */
  lemma TwoSlotsStage(s: string, w1: string, t1: string, w2: string, k: string)
    requires s == Text([], [Marked(w1, k, t1), Marked(w2, k, [])])
    requires WellFormed([], [Marked(w1, k, t1), Marked(w2, k, [])])
    requires PlainKey(k)
    ensures Stage(s, k) == Panicked
  {
    TwoSlotsFound(s, w1, t1, w2, k);
    StagePanicsOnSecond(s, k);
  }

  lemma CutThree<T>(ts: seq<T>, q: nat)
    requires q < |ts|
    ensures ts == ts[..q] + [ts[q]] + ts[q + 1..]
  {
  }

  /** The loop over `ts` as the spellings before position `q`, the one at
      `q`, and the rest. */
  lemma FormatWithCut(s: string, ts: seq<string>, q: nat)
    requires q < |ts|
    ensures FormatWith(s, ts) == Continue(Continue(FormatWith(s, ts[..q]), [ts[q]]), ts[q + 1..])
  {
    CutThree(ts, q);
    FormatWithAppend(s, ts[..q] + [ts[q]], ts[q + 1..]);
    FormatWithAppend(s, ts[..q], [ts[q]]);
  }

  /** When the spellings before position `q` leave `s` alone, the loop
      goes on from the stage of the one at `q`. */
  lemma StageAt(s: string, ts: seq<string>, q: nat, st: Rendering)
    requires q < |ts| && FormatWith(s, ts[..q]) == Rendered(s) && Stage(s, ts[q]) == st
    ensures FormatWith(s, ts) == Continue(st, ts[q + 1..])
  {
    FormatWithCut(s, ts, q);
    FormatWithOne(s, ts[q]);
  }

  /** The loop over one spelling is its stage. */
  lemma FormatWithOne(s: string, key: string)
    ensures FormatWith(s, [key]) == Stage(s, key)
  {
    assert [key][1..] == [];
  }

  /** The spellings an enumeration lists before the one at `q` are keys
      other than it. */
  lemma EarlierOthers(ts: seq<string>, q: nat)
    requires IsKeyEnumeration(ts) && q < |ts|
    ensures forall t :: t in ts[..q] ==> t in FunctionMap && t != ts[q]
  {
    forall t | t in ts[..q]
      ensures t in FunctionMap && t != ts[q]
    {
      var i :| 0 <= i < q && ts[..q][i] == t;
      assert ts[i] == t;
    }
  }

  /** A spelling written in two slots, the second at the end of the
      template, makes `Format` panic, whatever the order of the spellings:
      the stage of that spelling splices the second match at offsets the
      first splice made stale (josa.go:126-133). */
  lemma RepeatedSpellingPanics(s: string, w1: string, t1: string, w2: string, k: string, f: Family, ts: seq<string>)
    requires s == Text([], [Marked(w1, k, t1), Marked(w2, k, [])])
    requires WellFormed([], [Marked(w1, k, t1), Marked(w2, k, [])])
    requires k in f.Aliases() && IsKeyEnumeration(ts)
    ensures FormatWith(s, ts) == Panicked
  {
    AliasFamily(f, k);
    var q :| 0 <= q < |ts| && ts[q] == k;
    EarlierOthers(ts, q);
    TwoSlotsOthers(s, w1, t1, w2, [], k, ts[..q]);
    TwoSlotsStage(s, w1, t1, w2, k);
    FormatWithCut(s, ts, q);
    assert [k][1..] == [];
  }

  /** One splice on a string laid out as the text before match `m`, its
      word, its marker and the text after it. */
  lemma SpliceAt(cur: string, key: string, m: Match, p: string, w: string, x: string, r: string)
    requires cur == p + w + x + r && |x| == |key| + 4
    requires m == Match(|p|, |p| + |w|, |p| + |w| + |x|)
    ensures Splice(cur, key, m) == Rendered(p + Concat(w, key) + r)
  {
    var word := cur[m.start..m.wordEnd];
    assert cur[..m.start] == p;
    assert word == w;
    assert cur[m.end..] == r;
    assert m.end <= |cur|;
  }

  /** A stage whose pattern matches twice splices the second match into
      the string the first splice left, at the offsets found before it. */
  lemma StageOfTwo(s: string, key: string, m1: Match, m2: Match, mid: string)
    requires FindAll(s, key) == [m1, m2] && Fits(m1, key) && Fits(m2, key)
    requires Splice(s, key, m1) == Rendered(mid)
    ensures Stage(s, key) == Splice(mid, key, m2)
  {
    SpliceFirst(s, key, m1, m2, mid);
    SpliceLast(mid, key, m2);
  }

  /** The inner loop over two matches goes on from the first splice. */
  lemma SpliceFirst(s: string, key: string, m1: Match, m2: Match, mid: string)
    requires Fits(m1, key) && Fits(m2, key) && Splice(s, key, m1) == Rendered(mid)
    ensures SpliceAll(s, key, [m1, m2]) == SpliceAll(mid, key, [m2])
  {
    assert [m1, m2][1..] == [m2];
  }

  /** The inner loop over one match is its splice. */
  lemma SpliceLast(cur: string, key: string, m: Match)
    requires Fits(m, key)
    ensures SpliceAll(cur, key, [m]) == Splice(cur, key, m)
  {
    assert [m][1..] == [];
  }

  /** The same, when the first match is a word at the start of the string. */
  lemma StageOfTwoFromStart(s: string, w: string, key: string, rest: string, m2: Match)
    requires FindAll(s, key) == [Match(0, |w|, |w| + |key| + 4), m2] && Fits(m2, key)
    requires s == w + Marker(key) + rest
    ensures Stage(s, key) == Splice(Concat(w, key) + rest, key, m2)
  {
    FirstSplice(s, w, key, rest);
    StageOfTwo(s, key, Match(0, |w|, |w| + |key| + 4), m2, Concat(w, key) + rest);
  }

  /** Where the two matches of `k` lie in the template of two slots of `k`. */
  lemma TwoSlotsAt(s: string, w1: string, t1: string, w2: string, t2: string, k: string, o: nat)
    requires s == Text([], [Marked(w1, k, t1), Marked(w2, k, t2)])
    requires WellFormed([], [Marked(w1, k, t1), Marked(w2, k, t2)])
    requires PlainKey(k) && o == |w1| + |k| + 4 + |t1|
    ensures FindAll(s, k) == [Match(0, |w1|, |w1| + |k| + 4), Match(o, o + |w2|, o + |w2| + |k| + 4)]
  {
    FindAllText([], [Marked(w1, k, t1), Marked(w2, k, t2)], k);
    TwoSlotsMatches(w1, t1, w2, t2, k, k);
  }

  /** The first splice of the stage of `k` resolves the word at the start
      of the string. */
  lemma FirstSplice(s: string, w: string, k: string, rest: string)
    requires s == w + Marker(k) + rest
    ensures Splice(s, k, Match(0, |w|, |w| + |k| + 4)) == Rendered(Concat(w, k) + rest)
  {
    assert s[0..|w|] == w;
    assert s[|w| + |k| + 4..] == rest;
    assert s[..0] + Concat(w, k) + rest == Concat(w, k) + rest;
  }

  /** The template of two slots, as the first word and marker and the rest. */
  lemma TwoSlotsLaidOut(s: string, w1: string, t1: string, w2: string, t2: string, k: string)
    requires s == Text([], [Marked(w1, k, t1), Marked(w2, k, t2)])
    ensures s == w1 + Marker(k) + (t1 + w2 + Marker(k) + t2)
  {
    TextOfTwo([], Marked(w1, k, t1), Marked(w2, k, t2));
  }

  /** The stage of `k` on the template of two slots of `k`: the first slot
      is resolved, and the second match is spliced at its place in the
      template, which the first splice has moved; `o` is where the second
      slot starts. */
  lemma TwoSlotsStale(s: string, w1: string, t1: string, w2: string, t2: string, k: string, o: nat)
    requires s == Text([], [Marked(w1, k, t1), Marked(w2, k, t2)])
    requires WellFormed([], [Marked(w1, k, t1), Marked(w2, k, t2)])
    requires PlainKey(k) && o == |w1| + |k| + 4 + |t1|
    ensures Stage(s, k) == Splice(Concat(w1, k) + (t1 + w2 + Marker(k) + t2), k, Match(o, o + |w2|, o + |w2| + |k| + 4))
  {
    var rest := t1 + w2 + Marker(k) + t2;
    TwoSlotsAt(s, w1, t1, w2, t2, k, o);
    TwoSlotsLaidOut(s, w1, t1, w2, t2, k);
    StageOfTwoFromStart(s, w1, k, rest, Match(o, o + |w2|, o + |w2| + |k| + 4));
  }

  /** A spelling written in two slots makes `Format`, whatever the order of
      the spellings, splice the second match at offsets the first splice
      made stale (josa.go:126-133): a panic when they are past the end of
      the string, a garbled string otherwise. `q` is where the enumeration
      lists `k`, and `o` is where the second slot starts. */
  lemma RepeatedSpellingStale(s: string, w1: string, t1: string, w2: string, t2: string, k: string, ts: seq<string>, q: nat, o: nat)
    requires s == Text([], [Marked(w1, k, t1), Marked(w2, k, t2)])
    requires WellFormed([], [Marked(w1, k, t1), Marked(w2, k, t2)])
    requires IsKeyEnumeration(ts) && q < |ts| && ts[q] == k && o == |w1| + |k| + 4 + |t1|
    ensures FormatWith(s, ts) ==
        Continue(Splice(Concat(w1, k) + (t1 + w2 + Marker(k) + t2), k, Match(o, o + |w2|, o + |w2| + |k| + 4)), ts[q + 1..])
  {
    KeyOnItsLine(k);
    EarlierOthers(ts, q);
    TwoSlotsOthers(s, w1, t1, w2, t2, k, ts[..q]);
    TwoSlotsStale(s, w1, t1, w2, t2, k, o);
    StageAt(s, ts, q, Splice(Concat(w1, k) + (t1 + w2 + Marker(k) + t2), k, Match(o, o + |w2|, o + |w2| + |k| + 4)));
  }

  lemma Regroup<T>(a: seq<T>, b: seq<T>, c: seq<T>, d: seq<T>, e: seq<T>, g: seq<T>)
    ensures (a + b) + c + (d + e) + g == a + b + c + d + e + g
  {
  }

  // Helper of TwoSlotsResolvedText: two resolved slots spelled out.
  lemma TextOfTwoResolved(a: string, t1: string, b: string, t2: string)
    ensures Text([], [Resolved(a, t1), Resolved(b, t2)]) == a + t1 + b + t2
  {
    TextOfTwo([], Resolved(a, t1), Resolved(b, t2));
  }

  lemma TwoSlotsResolvedText(w1: string, t1: string, w2: string, t2: string, k: string, f: Family)
    requires k in f.Aliases()
    ensures Text([], Resolution([Marked(w1, k, t1), Marked(w2, k, t2)])) ==
      w1 + f.Resolve(w1) + t1 + w2 + f.Resolve(w2) + t2
  {
    var r1, r2 := f.Resolve(w1), f.Resolve(w2);
    TwoSlotsResolve(Marked(w1, k, t1), f, Marked(w2, k, t2), f);
    TextOfTwoResolved(w1 + r1, t1, w2 + r2, t2);
    Regroup(w1, r1, t1, w2, r2, t2);
  }

  /** Rebuilt from the pieces of the original, the same template renders
      each slot with the particle its word calls for. */
  lemma RepeatedSpellingRebuilt(s: string, w1: string, t1: string, w2: string, t2: string, k: string, f: Family, ts: seq<string>)
    requires s == Text([], [Marked(w1, k, t1), Marked(w2, k, t2)])
    requires WellFormed([], [Marked(w1, k, t1), Marked(w2, k, t2)])
    requires k in f.Aliases() && IsKeyEnumeration(ts)
    ensures forall t :: t in ts ==> PlainKey(t)
    ensures FormatRebuilt(s, ts) == w1 + f.Resolve(w1) + t1 + w2 + f.Resolve(w2) + t2
  {
    FormatRebuiltResolves([], [Marked(w1, k, t1), Marked(w2, k, t2)], ts);
    TwoSlotsResolvedText(w1, t1, w2, t2, k, f);
  }

  lemma TwiceSpelled()
    ensures Text([], [Marked("가", "이", " "), Marked("나", "이", [])]) == "가{{이}} 나{{이}}"
  {
    TextOfTwo([], Marked("가", "이", " "), Marked("나", "이", []));
  }

  lemma TwiceShape()
    ensures WellFormed([], [Marked("가", "이", " "), Marked("나", "이", [])])
    ensures "이" in Subject.Aliases()
  {
    var slots := [Marked("가", "이", " "), Marked("나", "이", [])];
    assert slots[1..] == [slots[1]] && slots[1..][1..] == [];
  }

  lemma TwiceRendered()
    ensures "가" + Subject.Resolve("가") + " " + "나" + Subject.Resolve("나") + [] == "가가 나가"
  {
    assert !HasJongseong("가") && !HasJongseong("나");
  }

  /** "가{{이}} 나{{이}}" makes `Format` panic in every order of the
      spellings; rebuilt from its pieces it renders as "가가 나가". */
  lemma TwiceExample(ts: seq<string>)
    requires IsKeyEnumeration(ts)
    ensures FormatWith("가{{이}} 나{{이}}", ts) == Panicked
    ensures forall t :: t in ts ==> PlainKey(t)
    ensures FormatRebuilt("가{{이}} 나{{이}}", ts) == "가가 나가"
  {
    TwiceSpelled();
    TwiceShape();
    TwiceRendered();
    RepeatedSpellingPanics("가{{이}} 나{{이}}", "가", " ", "나", "이", Subject, ts);
    RepeatedSpellingRebuilt("가{{이}} 나{{이}}", "가", " ", "나", [], "이", Subject, ts);
  }

  /** A string with a single `}` holds no match: a marker closes with two. */
  lemma OneClosingFindsNothing(s: string, key: string, a: string, b: string)
    requires s == a + "}" + b && '}' !in a && '}' !in b
    ensures FindAll(s, key) == []
  {
    FindAllSpec(s, key);
    if FindAll(s, key) != [] {
      var j := FindAll(s, key)[0].wordEnd;
      MarkerChars(s, key, j);
      assert false;
    }
  }

  lemma GarbledSpelled()
    ensures Text([], [Marked("가", "이", " "), Marked("나", "이", " 다라마바")]) == "가{{이}} 나{{이}} 다라마바"
  {
    TextOfTwo([], Marked("가", "이", " "), Marked("나", "이", " 다라마바"));
  }

  lemma GarbledShape()
    ensures WellFormed([], [Marked("가", "이", " "), Marked("나", "이", " 다라마바")])
  {
    var slots := [Marked("가", "이", " "), Marked("나", "이", " 다라마바")];
    assert slots[1..] == [slots[1]] && slots[1..][1..] == [];
  }

  lemma GarbledMiddle(mid: string)
    requires mid == "가가" + (" " + "나" + "{{이}}" + " 다라마바")
    ensures mid == "가가 나{{이" + "}" + "} 다라마" + "바"
  {
  }

  lemma GarbledFirstConcat()
    ensures Concat("가", "이") == "가가"
  {
    TwiceShape();
    ConcatOnSpelling("가", Subject, "이");
    assert !HasJongseong("가");
  }

  lemma GarbledConcat()
    ensures Concat("}", "이") == "}가"
  {
    TwiceShape();
    ConcatOnSpelling("}", Subject, "이");
    assert !HasJongseong("}");
  }

  /** The second splice takes the `}` left at the stale word offset for the
      word and the five characters after it for the marker. */
  lemma GarbledSecondSplice(mid: string)
    requires mid == Concat("가", "이") + (" " + "나" + Marker("이") + " 다라마바")
    ensures Splice(mid, "이", Match(7, 8, 13)) == Rendered("가가 나{{이" + "}가" + "바")
  {
    GarbledFirstConcat();
    assert Marker("이") == "{{이}}";
    GarbledMiddle(mid);
    GarbledConcat();
    SpliceAt(mid, "이", Match(7, 8, 13), "가가 나{{이", "}", "} 다라마", "바");
  }

  /** The stage of 이 leaves "가가 나{{이}가바", whatever the spellings before
      it. */
  lemma GarbledStage(s: string, ts: seq<string>, q: nat)
    requires s == "가{{이}} 나{{이}} 다라마바"
    requires IsKeyEnumeration(ts) && q < |ts| && ts[q] == "이"
    ensures FormatWith(s, ts) == Continue(Rendered("가가 나{{이" + "}가" + "바"), ts[q + 1..])
  {
    GarbledSpelled();
    GarbledShape();
    RepeatedSpellingStale(s, "가", " ", "나", " 다라마바", "이", ts, q, 7);
    GarbledSecondSplice(Concat("가", "이") + (" " + "나" + Marker("이") + " 다라마바"));
  }

  /** No spelling matches in "가가 나{{이}가바". */
  lemma GarbledTail(out: string, rest: seq<string>)
    requires out == "가가 나{{이" + "}가" + "바"
    ensures FormatWith(out, rest) == Rendered(out)
  {
    forall t | t in rest
      ensures FindAll(out, t) == []
    {
      OneClosingFindsNothing(out, t, "가가 나{{이", "가바");
    }
    FormatFixedPoint(out, rest);
  }

  /** "가{{이}} 나{{이}} 다라마바" comes out of `Format` as "가가 나{{이}가바"
      in every order of the spellings; rebuilt from its pieces it renders
      as "가가 나가 다라마바". */
  lemma GarbledExample(ts: seq<string>)
    requires IsKeyEnumeration(ts)
    ensures FormatWith("가{{이}} 나{{이}} 다라마바", ts) == Rendered("가가 나{{이}가바")
    ensures forall t :: t in ts ==> PlainKey(t)
    ensures FormatRebuilt("가{{이}} 나{{이}} 다라마바", ts) == "가가 나가 다라마바"
  {
    var s, out := "가{{이}} 나{{이}} 다라마바", "가가 나{{이" + "}가" + "바";
    TwiceShape();
    AliasFamily(Subject, "이");
    var q :| 0 <= q < |ts| && ts[q] == "이";
    GarbledStage(s, ts, q);
    GarbledTail(out, ts[q + 1..]);
    GarbledOut(out);
    GarbledSpelled();
    GarbledRebuilt(s, ts);
  }

  lemma GarbledOut(out: string)
    requires out == "가가 나{{이" + "}가" + "바"
    ensures out == "가가 나{{이}가바"
  {
  }

  lemma GarbledRebuilt(s: string, ts: seq<string>)
    requires s == Text([], [Marked("가", "이", " "), Marked("나", "이", " 다라마바")]) && IsKeyEnumeration(ts)
    ensures forall t :: t in ts ==> PlainKey(t)
    ensures FormatRebuilt(s, ts) == "가가 나가 다라마바"
  {
    GarbledShape();
    TwiceShape();
    RepeatedSpellingRebuilt(s, "가", " ", "나", " 다라마바", "이", Subject, ts);
    GarbledResolved();
  }

  lemma GarbledResolved()
    ensures "가" + Subject.Resolve("가") + " " + "나" + Subject.Resolve("나") + " 다라마바" == "가가 나가 다라마바"
  {
    assert !HasJongseong("가") && !HasJongseong("나");
  }
}
