/** What `Format` (josa.go:120-137) makes of a template, for every order in
    which ranging over `functionMap` may hand it the spellings: the
    documented rendering when no spelling is repeated, the examples of the
    doc comment and of josa_test.go, the dependence on the order when two
    markers are glued together, and the run-time panic a repeated spelling
    causes. */
module FormatResults {
  import opened GoText
  import opened Hangul
  import opened Particles
  import opened Template
  import opened TemplateFacts
  import opened Slots

  /** After the stages of `ts`, a marked slot of a listed spelling holds its
      word joined by `Concat`; every other slot is as it was. */
  lemma {:induction false} ReplaceAllAt(slots: seq<Slot>, ts: seq<string>, i: nat)
    requires i < |slots|
    ensures |ReplaceAll(slots, ts)| == |slots|
    ensures ReplaceAll(slots, ts)[i] ==
      if slots[i].Marked? && slots[i].key in ts
      then Resolved(Concat(slots[i].word, slots[i].key), slots[i].tail)
      else slots[i]
    decreases |ts|
  {
    if ts != [] {
      var k := ts[0];
      var r := Replace(slots, k, ConcatWith(k));
      ReplaceEach(slots, k, ConcatWith(k));
      ReplaceAllAt(r, ts[1..], i);
      assert ts == [k] + ts[1..];
    }
  }

  /** The reference result slot by slot. */
  lemma {:induction false} ResolutionAt(slots: seq<Slot>, i: nat)
    requires i < |slots|
    ensures Resolution(slots)[i] ==
      if slots[i].Marked? && slots[i].key in FunctionMap
      then Resolved(slots[i].word + FunctionMap[slots[i].key].Resolve(slots[i].word), slots[i].tail)
      else slots[i]
    decreases |slots|
  {
    if i > 0 {
      ResolutionAt(slots[1..], i - 1);
    }
  }

  /** One slot: a spelling is listed exactly when it is a key, and then
      `Concat` appends the particle of its family. */
  lemma SlotResolves(sl: Slot, ts: seq<string>)
    requires IsKeyEnumeration(ts)
    ensures (if sl.Marked? && sl.key in ts then Resolved(Concat(sl.word, sl.key), sl.tail) else sl)
         == (if sl.Marked? && sl.key in FunctionMap
             then Resolved(sl.word + FunctionMap[sl.key].Resolve(sl.word), sl.tail) else sl)
  {
    if sl.Marked? && sl.key in FunctionMap {
      KeyOnItsLine(sl.key);
      ConcatOnSpelling(sl.word, FunctionMap[sl.key], sl.key);
    }
  }

  /** The stages of every key of `functionMap`, in any order, give the
      reference result. */
  lemma ReplaceAllResolves(slots: seq<Slot>, ts: seq<string>)
    requires IsKeyEnumeration(ts)
    ensures ReplaceAll(slots, ts) == Resolution(slots)
  {
    if slots != [] { ReplaceAllAt(slots, ts, 0); } else { EmptyReplaceAll(ts); }
    forall i | 0 <= i < |slots|
      ensures ReplaceAll(slots, ts)[i] == Resolution(slots)[i]
    {
      ReplaceAllAt(slots, ts, i);
      ResolutionAt(slots, i);
      SlotResolves(slots[i], ts);
    }
  }

  lemma {:induction false} EmptyReplaceAll(ts: seq<string>)
    ensures ReplaceAll([], ts) == []
    decreases |ts|
  {
    if ts != [] {
      EmptyReplaceAll(ts[1..]);
    }
  }

  /** Every key of `functionMap` is a plain, brace-free spelling. */
  lemma EnumeratedPlain(ts: seq<string>)
    requires IsKeyEnumeration(ts)
    ensures forall t :: t in ts ==> PlainKey(t)
  {
    forall t | t in ts
      ensures PlainKey(t)
    {
      KeyOnItsLine(t);
    }
  }

  /** The documented behaviour of `Format`: in a template whose words are
      runs of Hangul letters and in which no spelling is written twice, every
      `word{{key}}` with a key of the table becomes the word with its
      particle and everything else stays as written, whatever order the map
      is ranged over in. */
  lemma FormatResolves(head: string, slots: seq<Slot>, ts: seq<string>)
    requires WellFormed(head, slots) && DistinctKeys(slots) && IsKeyEnumeration(ts)
    ensures FormatWith(Text(head, slots), ts) == Rendered(Text(head, Resolution(slots)))
  {
    EnumeratedPlain(ts);
    FormatText(head, slots, ts);
    ReplaceAllResolves(slots, ts);
  }

  /** The corrected `Format` renders the same result with repeated
      spellings too. */
  lemma FormatRebuiltResolves(head: string, slots: seq<Slot>, ts: seq<string>)
    requires WellFormed(head, slots) && IsKeyEnumeration(ts)
    ensures forall t :: t in ts ==> PlainKey(t)
    ensures FormatRebuilt(Text(head, slots), ts) == Text(head, Resolution(slots))
  {
    EnumeratedPlain(ts);
    FormatRebuiltText(head, slots, ts);
    ReplaceAllResolves(slots, ts);
  }

  /** Every marker of the template names a key of the table. */
  predicate AllKnown(slots: seq<Slot>) {
    forall i :: 0 <= i < |slots| && slots[i].Marked? ==> slots[i].key in FunctionMap
  }

  lemma {:induction false} FittingAt(slots: seq<Slot>, i: nat)
    requires Fitting(slots) && i < |slots|
    ensures SlotShape(slots[i])
    decreases |slots|
  {
    if i > 0 {
      FittingAt(slots[1..], i - 1);
    }
  }

  lemma NoBraceAppend(x: string, y: string)
    requires NoBrace(x) && NoBrace(y)
    ensures NoBrace(x + y)
  {
    forall i | 0 <= i < |x + y|
      ensures (x + y)[i] != '{'
    {
      if i >= |x| {
        assert (x + y)[i] == y[i - |x|];
      }
    }
  }

  /** Resolved slots of brace-free text spell out brace-free text. */
  lemma {:induction false} PiecesNoBrace(slots: seq<Slot>)
    requires forall i :: 0 <= i < |slots| ==> slots[i].Resolved? && SlotShape(slots[i])
    ensures NoBrace(Pieces(slots))
    decreases |slots|
  {
    if slots != [] {
      PiecesNoBrace(slots[1..]);
      var sl := slots[0];
      assert sl.Resolved? && SlotShape(sl);
      NoBraceAppend(sl.text, sl.tail);
      NoBraceAppend(Piece(sl), Pieces(slots[1..]));
    }
  }

  /** With every marker naming a key of the table, the result holds no
      opening brace: every marker was replaced. */
  lemma {:induction false} ResolvedNoBrace(head: string, slots: seq<Slot>)
    requires WellFormed(head, slots) && AllKnown(slots)
    ensures NoBrace(Text(head, Resolution(slots)))
  {
    var r := Resolution(slots);
    forall i | 0 <= i < |r|
      ensures r[i].Resolved? && SlotShape(r[i])
    {
      ResolutionAt(slots, i);
      FittingAt(slots, i);
      var sl := slots[i];
      if sl.Marked? {
        KeyOnItsLine(sl.key);
        ConcatOnSpelling(sl.word, FunctionMap[sl.key], sl.key);
        NoBraceWord(sl.word);
        ConcatNoBrace(sl.word, sl.key);
      }
    }
    PiecesNoBrace(r);
    NoBraceAppend(head, Pieces(r));
  }

  /** Hence a template whose markers all name keys comes out without a
      single `{`. */
  lemma FormatLeavesNoBrace(head: string, slots: seq<Slot>, ts: seq<string>)
    requires WellFormed(head, slots) && DistinctKeys(slots) && AllKnown(slots) && IsKeyEnumeration(ts)
    ensures FormatWith(Text(head, slots), ts).Rendered?
    ensures NoBrace(FormatWith(Text(head, slots), ts).text)
  {
    FormatResolves(head, slots, ts);
    ResolvedNoBrace(head, slots);
  }

  /** A marked slot of a spelling of `f` resolves through `f`. */
  lemma MarkedResolves(slots: seq<Slot>, i: nat, f: Family)
    requires i < |slots| && slots[i].Marked? && slots[i].key in f.Aliases()
    ensures Resolution(slots)[i] == Resolved(slots[i].word + f.Resolve(slots[i].word), slots[i].tail)
  {
    ResolutionAt(slots, i);
    AliasFamily(f, slots[i].key);
  }

  // Helper of FormatTwo: regrouping the concatenation of two slots.
  lemma SpellTwo(head: string, x1: string, t1: string, x2: string, t2: string)
    ensures head + (x1 + t1) + (x2 + t2) == head + x1 + t1 + x2 + t2
  {
  }

  /** `Format` on a template `s` of two slots with different spellings:
      its rendering `o` has each word followed by its particle. */
  lemma FormatTwo(s: string, o: string, head: string, w1: string, k1: string, t1: string, f1: Family,
                  w2: string, k2: string, t2: string, f2: Family, ts: seq<string>)
    requires IsKeyEnumeration(ts)
    requires NoBrace(head) && Breaks(head)
    requires HangulWord(w1) && k1 in f1.Aliases() && NoBrace(t1) && t1 != [] && Breaks(t1)
    requires HangulWord(w2) && k2 in f2.Aliases() && NoBrace(t2) && k1 != k2
    requires s == head + (w1 + Marker(k1)) + t1 + (w2 + Marker(k2)) + t2
    requires o == head + (w1 + f1.Resolve(w1)) + t1 + (w2 + f2.Resolve(w2)) + t2
    ensures FormatWith(s, ts) == Rendered(o)
  {
    var a, b := Marked(w1, k1, t1), Marked(w2, k2, t2);
    var slots := [a, b];
    AliasFamily(f1, k1);
    AliasFamily(f2, k2);
    TwoSlotsWellFormed(head, a, b);
    TwoSlotsResolve(a, f1, b, f2);
    FormatResolves(head, slots, ts);
    var r := Resolution(slots);
    TextOfTwo(head, a, b);
    TextOfTwo(head, r[0], r[1]);
    SpellTwo(head, w1 + Marker(k1), t1, w2 + Marker(k2), t2);
    SpellTwo(head, w1 + f1.Resolve(w1), t1, w2 + f2.Resolve(w2), t2);
  }

  lemma TwoSlotsWellFormed(head: string, a: Slot, b: Slot)
    requires NoBrace(head) && Breaks(head)
    requires a.Marked? && HangulWord(a.word) && PlainKey(a.key) && NoBrace(a.tail) && a.tail != [] && Breaks(a.tail)
    requires b.Marked? && HangulWord(b.word) && PlainKey(b.key) && NoBrace(b.tail) && a.key != b.key
    ensures WellFormed(head, [a, b]) && DistinctKeys([a, b])
  {
    var slots := [a, b];
    assert slots[1..] == [b] && slots[1..][1..] == [];
  }

  lemma TwoSlotsResolve(a: Slot, f1: Family, b: Slot, f2: Family)
    requires a.Marked? && a.key in f1.Aliases() && b.Marked? && b.key in f2.Aliases()
    ensures Resolution([a, b]) ==
      [Resolved(a.word + f1.Resolve(a.word), a.tail), Resolved(b.word + f2.Resolve(b.word), b.tail)]
  {
    var slots := [a, b];
    MarkedResolves(slots, 0, f1);
    MarkedResolves(slots, 1, f2);
  }

  /** `Format` on a template of four slots with different spellings. */
  lemma FourSlotsFormat(s1: Slot, f1: Family, s2: Slot, f2: Family, s3: Slot, f3: Family, s4: Slot, f4: Family,
                        ts: seq<string>)
    requires IsKeyEnumeration(ts)
    requires FourSlots(s1, f1, s2, f2, s3, f3, s4, f4)
    ensures FormatWith(Text([], [s1, s2, s3, s4]), ts) == Rendered(Text([],
      [Resolved(s1.word + f1.Resolve(s1.word), s1.tail), Resolved(s2.word + f2.Resolve(s2.word), s2.tail),
       Resolved(s3.word + f3.Resolve(s3.word), s3.tail), Resolved(s4.word + f4.Resolve(s4.word), s4.tail)]))
  {
    FourSlotsWellFormed(s1, f1, s2, f2, s3, f3, s4, f4);
    FourSlotsResolve(s1, f1, s2, f2, s3, f3, s4, f4);
    FormatResolves([], [s1, s2, s3, s4], ts);
  }

  /** Four marked slots of a well-formed template, each with a spelling of
      its family and no spelling twice. */
  predicate FourSlots(s1: Slot, f1: Family, s2: Slot, f2: Family, s3: Slot, f3: Family, s4: Slot, f4: Family) {
    && s1.Marked? && s2.Marked? && s3.Marked? && s4.Marked?
    && s1.key in f1.Aliases() && s2.key in f2.Aliases() && s3.key in f3.Aliases() && s4.key in f4.Aliases()
    && PlainKey(s1.key) && PlainKey(s2.key) && PlainKey(s3.key) && PlainKey(s4.key)
    && HangulWord(s1.word) && HangulWord(s2.word) && HangulWord(s3.word) && HangulWord(s4.word)
    && NoBrace(s1.tail) && NoBrace(s2.tail) && NoBrace(s3.tail) && NoBrace(s4.tail)
    && s1.tail != [] && s2.tail != [] && s3.tail != []
    && Breaks(s1.tail) && Breaks(s2.tail) && Breaks(s3.tail)
    && s1.key != s2.key && s1.key != s3.key && s1.key != s4.key
    && s2.key != s3.key && s2.key != s4.key && s3.key != s4.key
  }

  lemma FourSlotsWellFormed(s1: Slot, f1: Family, s2: Slot, f2: Family, s3: Slot, f3: Family, s4: Slot, f4: Family)
    requires FourSlots(s1, f1, s2, f2, s3, f3, s4, f4)
    ensures WellFormed([], [s1, s2, s3, s4]) && DistinctKeys([s1, s2, s3, s4])
  {
    FourFitting(s1, s2, s3, s4);
    FourDistinct(s1, s2, s3, s4);
  }

  lemma FourFitting(s1: Slot, s2: Slot, s3: Slot, s4: Slot)
    requires SlotShape(s1) && SlotShape(s2) && SlotShape(s3) && SlotShape(s4)
    requires s1.tail != [] && s2.tail != [] && s3.tail != []
    requires Breaks(s1.tail) && Breaks(s2.tail) && Breaks(s3.tail)
    ensures Fitting([s1, s2, s3, s4])
  {
    FittingCons(s4, []);
    assert [s4] == [s4] + [];
    FittingCons(s3, [s4]);
    assert [s3, s4] == [s3] + [s4];
    FittingCons(s2, [s3, s4]);
    assert [s2, s3, s4] == [s2] + [s3, s4];
    FittingCons(s1, [s2, s3, s4]);
    assert [s1, s2, s3, s4] == [s1] + [s2, s3, s4];
  }

  lemma FourDistinct(s1: Slot, s2: Slot, s3: Slot, s4: Slot)
    requires s1.Marked? && s2.Marked? && s3.Marked? && s4.Marked?
    requires s1.key != s2.key && s1.key != s3.key && s1.key != s4.key
    requires s2.key != s3.key && s2.key != s4.key && s3.key != s4.key
    ensures DistinctKeys([s1, s2, s3, s4])
  {
  }

  lemma FittingCons(sl: Slot, rest: seq<Slot>)
    requires SlotShape(sl) && Fitting(rest)
    requires rest != [] ==> sl.tail != [] && Breaks(sl.tail)
    ensures Fitting([sl] + rest)
  {
    assert ([sl] + rest)[1..] == rest;
  }

  lemma FourSlotsResolve(s1: Slot, f1: Family, s2: Slot, f2: Family, s3: Slot, f3: Family, s4: Slot, f4: Family)
    requires FourSlots(s1, f1, s2, f2, s3, f3, s4, f4)
    ensures Resolution([s1, s2, s3, s4]) ==
      [Resolved(s1.word + f1.Resolve(s1.word), s1.tail), Resolved(s2.word + f2.Resolve(s2.word), s2.tail),
       Resolved(s3.word + f3.Resolve(s3.word), s3.tail), Resolved(s4.word + f4.Resolve(s4.word), s4.tail)]
  {
    var slots := [s1, s2, s3, s4];
    MarkedResolves(slots, 0, f1);
    MarkedResolves(slots, 1, f2);
    MarkedResolves(slots, 2, f3);
    MarkedResolves(slots, 3, f4);
  }

  lemma TextOfTwo(head: string, a: Slot, b: Slot)
    ensures Text(head, [a, b]) == head + Piece(a) + Piece(b)
  {
    var slots := [a, b];
    assert slots[1..] == [b] && slots[1..][1..] == [];
    assert Pieces([b]) == Piece(b) + [];
    assert Piece(b) + [] == Piece(b);
  }

  lemma PiecesCons(sl: Slot, rest: seq<Slot>)
    ensures Pieces([sl] + rest) == Piece(sl) + Pieces(rest)
  {
    assert ([sl] + rest)[1..] == rest;
  }

  lemma TextOfFour(head: string, a: Slot, b: Slot, c: Slot, d: Slot)
    ensures Text(head, [a, b, c, d]) == head + Piece(a) + Piece(b) + Piece(c) + Piece(d)
  {
    assert [c, d] == [c] + [d] && [d] == [d] + [];
    PiecesCons(d, []);
    PiecesCons(c, [d]);
    assert [b, c, d] == [b] + [c, d];
    PiecesCons(b, [c, d]);
    assert [a, b, c, d] == [a] + [b, c, d];
    PiecesCons(a, [b, c, d]);
    SpellFour(head, Piece(a), Piece(b), Piece(c), Piece(d));
  }

  lemma SpellFour(head: string, x: string, y: string, z: string, u: string)
    ensures head + (x + (y + (z + (u + [])))) == head + x + y + z + u
  {
  }

  // The documented templates. Each is first taken apart into the pieces the
  // general lemmas above expect, then rendered in every order of the keys.

  lemma EarlyBirdShape()
    ensures NoBrace("일찍 일어나는 ") && Breaks("일찍 일어나는 ")
    ensures HangulWord("새") && "이/가" in Subject.Aliases() && NoBrace(" ") && Breaks(" ")
    ensures HangulWord("벌레") && "을/를" in Object.Aliases() && NoBrace(" 잡는다.") && "이/가" != "을/를"
  {
  }

  lemma EarlyBirdSpelled()
    ensures "일찍 일어나는 새{{이/가}} 벌레{{을/를}} 잡는다."
         == "일찍 일어나는 " + ("새" + Marker("이/가")) + " " + ("벌레" + Marker("을/를")) + " 잡는다."
  {
  }

  lemma EarlyBirdRendered()
    ensures "일찍 일어나는 새가 벌레를 잡는다."
         == "일찍 일어나는 " + ("새" + Subject.Resolve("새")) + " " + ("벌레" + Object.Resolve("벌레")) + " 잡는다."
  {
    assert Subject.Resolve("새") == "가" by { assert !HasJongseong("새"); }
    assert Object.Resolve("벌레") == "를" by { assert !HasJongseong("벌레"); }
  }

  /** The first example of the doc comment of `Format` (josa.go:115-116),
      in every order. */
  lemma DocumentedEarlyBird(ts: seq<string>)
    requires IsKeyEnumeration(ts)
    ensures FormatWith("일찍 일어나는 새{{이/가}} 벌레{{을/를}} 잡는다.", ts)
         == Rendered("일찍 일어나는 새가 벌레를 잡는다.")
  {
    EarlyBirdShape();
    EarlyBirdSpelled();
    EarlyBirdRendered();
    FormatTwo("일찍 일어나는 새{{이/가}} 벌레{{을/를}} 잡는다.", "일찍 일어나는 새가 벌레를 잡는다.",
      "일찍 일어나는 ", "새", "이/가", " ", Subject, "벌레", "을/를", " 잡는다.", Object, ts);
  }

  lemma IThinkShape()
    ensures NoBrace("") && Breaks("")
    ensures HangulWord("나") && "은" in Topic.Aliases() && NoBrace(" 생각한다. 고로 ") && Breaks(" 생각한다. 고로 ")
    ensures "은(는)" in Topic.Aliases() && NoBrace(" 존재한다.") && "은" != "은(는)"
  {
  }

  lemma IThinkSpelled()
    ensures "나{{은}} 생각한다. 고로 나{{은(는)}} 존재한다."
         == "" + ("나" + Marker("은")) + " 생각한다. 고로 " + ("나" + Marker("은(는)")) + " 존재한다."
  {
  }

  lemma IThinkRendered()
    ensures "나는 생각한다. 고로 나는 존재한다."
         == "" + ("나" + Topic.Resolve("나")) + " 생각한다. 고로 " + ("나" + Topic.Resolve("나")) + " 존재한다."
  {
    assert Topic.Resolve("나") == "는" by { assert !HasJongseong("나"); }
  }

  /** The second example of the doc comment (josa.go:118-119), in every
      order. */
  lemma DocumentedIThink(ts: seq<string>)
    requires IsKeyEnumeration(ts)
    ensures FormatWith("나{{은}} 생각한다. 고로 나{{은(는)}} 존재한다.", ts)
         == Rendered("나는 생각한다. 고로 나는 존재한다.")
  {
    IThinkShape();
    IThinkSpelled();
    IThinkRendered();
    FormatTwo("나{{은}} 생각한다. 고로 나{{은(는)}} 존재한다.", "나는 생각한다. 고로 나는 존재한다.",
      "", "나", "은", " 생각한다. 고로 ", Topic, "나", "은(는)", " 존재한다.", Topic, ts);
  }

  // The slots of the template of josa_test.go:67.
  const Cloud: Slot := Marked("구름", "와과", " ")
  const Cat: Slot := Marked("고양이", "와(과)", " ")
  const Puppy: Slot := Marked("멍멍이", "는은", " ")
  const Mars: Slot := Marked("화성", "(으)로", " 기나긴 여행을 떠난다")

  // Helpers of TestedJourney: the test's template, spelled and rendered
  // piece by piece so that each string equation stays small.
  lemma JourneyShape()
    ensures FourSlots(Cloud, Conjunctive, Cat, Conjunctive, Puppy, Topic, Mars, Directional)
  {
  }

  lemma JourneySpelled()
    ensures Text([], [Cloud, Cat, Puppy, Mars])
         == "구름{{와과}} 고양이{{와(과)}} 멍멍이{{는은}} 화성{{(으)로}} 기나긴 여행을 떠난다"
  {
    TextOfFour([], Cloud, Cat, Puppy, Mars);
    JourneyPieces();
    JourneyTemplateText();
  }

  lemma JourneyPieces()
    ensures Piece(Cloud) == "구름{{와과}} " && Piece(Cat) == "고양이{{와(과)}} "
    ensures Piece(Puppy) == "멍멍이{{는은}} " && Piece(Mars) == "화성{{(으)로}} 기나긴 여행을 떠난다"
  {
    FirstJourneyPieces();
    LastJourneyPieces();
  }

  lemma FirstJourneyPieces()
    ensures Piece(Cloud) == "구름{{와과}} " && Piece(Cat) == "고양이{{와(과)}} "
  {
  }

  lemma LastJourneyPieces()
    ensures Piece(Puppy) == "멍멍이{{는은}} " && Piece(Mars) == "화성{{(으)로}} 기나긴 여행을 떠난다"
  {
  }

  lemma JourneyTemplateText()
    ensures [] + "구름{{와과}} " + "고양이{{와(과)}} " + "멍멍이{{는은}} " + "화성{{(으)로}} 기나긴 여행을 떠난다"
         == "구름{{와과}} 고양이{{와(과)}} 멍멍이{{는은}} 화성{{(으)로}} 기나긴 여행을 떠난다"
  {
    JourneyTemplateHalves();
    JourneyTemplateWhole();
    Pairing("구름{{와과}} ", "고양이{{와(과)}} ", "멍멍이{{는은}} ", "화성{{(으)로}} 기나긴 여행을 떠난다");
  }

  lemma JourneyTemplateHalves()
    ensures "구름{{와과}} " + "고양이{{와(과)}} " == "구름{{와과}} 고양이{{와(과)}} "
    ensures "멍멍이{{는은}} " + "화성{{(으)로}} 기나긴 여행을 떠난다" == "멍멍이{{는은}} 화성{{(으)로}} 기나긴 여행을 떠난다"
  {
  }

  lemma JourneyTemplateWhole()
    ensures "구름{{와과}} 고양이{{와(과)}} " + "멍멍이{{는은}} 화성{{(으)로}} 기나긴 여행을 떠난다"
         == "구름{{와과}} 고양이{{와(과)}} 멍멍이{{는은}} 화성{{(으)로}} 기나긴 여행을 떠난다"
  {
  }

  // Helper of the Journey lemmas: regrouping four pieces.
  lemma Pairing(x: string, y: string, z: string, u: string)
    ensures [] + x + y + z + u == (x + y) + (z + u)
  {
  }

  lemma JourneyRendered()
    ensures Text([], [Resolved(Cloud.word + Conjunctive.Resolve(Cloud.word), Cloud.tail),
                      Resolved(Cat.word + Conjunctive.Resolve(Cat.word), Cat.tail),
                      Resolved(Puppy.word + Topic.Resolve(Puppy.word), Puppy.tail),
                      Resolved(Mars.word + Directional.Resolve(Mars.word), Mars.tail)])
         == "구름과 고양이와 멍멍이는 화성으로 기나긴 여행을 떠난다"
  {
    JourneyParticles();
    var a, b, c, d := Resolved("구름과", " "), Resolved("고양이와", " "),
                      Resolved("멍멍이는", " "), Resolved("화성으로", " 기나긴 여행을 떠난다");
    TextOfFour([], a, b, c, d);
    JourneyRenderedText();
  }

  lemma JourneyParticles()
    ensures Cloud.word + Conjunctive.Resolve(Cloud.word) == "구름과"
    ensures Cat.word + Conjunctive.Resolve(Cat.word) == "고양이와"
    ensures Puppy.word + Topic.Resolve(Puppy.word) == "멍멍이는"
    ensures Mars.word + Directional.Resolve(Mars.word) == "화성으로"
    ensures Cloud.tail == " " && Cat.tail == " " && Puppy.tail == " " && Mars.tail == " 기나긴 여행을 떠난다"
  {
    assert Conjunctive.Resolve("구름") == "과" by { assert HasJongseong("구름"); }
    assert Conjunctive.Resolve("고양이") == "와" by { assert !HasJongseong("고양이"); }
    assert Topic.Resolve("멍멍이") == "는" by { assert !HasJongseong("멍멍이"); }
    assert Directional.Resolve("화성") == "으로" by { assert HasJongseong("화성"); }
  }

  lemma JourneyRenderedText()
    ensures [] + ("구름과" + " ") + ("고양이와" + " ") + ("멍멍이는" + " ") + ("화성으로" + " 기나긴 여행을 떠난다")
         == "구름과 고양이와 멍멍이는 화성으로 기나긴 여행을 떠난다"
  {
    JourneyRenderedPieces();
    JourneyRenderedWhole();
    Pairing("구름과 ", "고양이와 ", "멍멍이는 ", "화성으로 기나긴 여행을 떠난다");
  }

  lemma JourneyRenderedPieces()
    ensures "구름과" + " " == "구름과 " && "고양이와" + " " == "고양이와 " && "멍멍이는" + " " == "멍멍이는 "
    ensures "화성으로" + " 기나긴 여행을 떠난다" == "화성으로 기나긴 여행을 떠난다"
    ensures "구름과 " + "고양이와 " == "구름과 고양이와 "
    ensures "멍멍이는 " + "화성으로 기나긴 여행을 떠난다" == "멍멍이는 화성으로 기나긴 여행을 떠난다"
  {
  }

  lemma JourneyRenderedWhole()
    ensures "구름과 고양이와 " + "멍멍이는 화성으로 기나긴 여행을 떠난다" == "구름과 고양이와 멍멍이는 화성으로 기나긴 여행을 떠난다"
  {
  }

  /** The template of the test of `Format` (josa_test.go:66-73), in every
      order. */
  lemma TestedJourney(ts: seq<string>)
    requires IsKeyEnumeration(ts)
    ensures FormatWith("구름{{와과}} 고양이{{와(과)}} 멍멍이{{는은}} 화성{{(으)로}} 기나긴 여행을 떠난다", ts)
         == Rendered("구름과 고양이와 멍멍이는 화성으로 기나긴 여행을 떠난다")
  {
    JourneyShape();
    JourneySpelled();
    JourneyRendered();
    FourSlotsFormat(Cloud, Conjunctive, Cat, Conjunctive, Puppy, Topic, Mars, Directional, ts);
  }

  /** A spelling that is no key may be written twice: no stage looks for
      it, so only the marker of the key is resolved. */
  lemma UnknownSpellingRepeated(ts: seq<string>)
    requires IsKeyEnumeration(ts)
    ensures FormatWith("가{{ab}} 나{{ab}} 다{{이}}", ts) == Rendered("가{{ab}} 나{{ab}} 다가")
  {
    var a, b, c := Marked("가", "ab", " "), Marked("나", "ab", " "), Marked("다", "이", []);
    UnknownShape(a, b, c);
    UnknownSpelled(a, b, c);
    UnknownResolution(a, b, c);
    FormatResolves([], [a, b, c], ts);
  }

  lemma UnknownShape(a: Slot, b: Slot, c: Slot)
    requires a == Marked("가", "ab", " ") && b == Marked("나", "ab", " ") && c == Marked("다", "이", [])
    ensures WellFormed([], [a, b, c]) && DistinctKeys([a, b, c])
  {
    assert HangulWord("가") && HangulWord("나") && HangulWord("다");
    FittingCons(c, []);
    assert [c] == [c] + [];
    FittingCons(b, [c]);
    assert [b, c] == [b] + [c];
    FittingCons(a, [b, c]);
    assert [a, b, c] == [a] + [b, c];
    NoKeyAb();
  }

  /** "ab" is no key: its letters are of no row. */
  lemma NoKeyAb()
    ensures "ab" !in FunctionMap
  {
    if "ab" in FunctionMap {
      KeyOnItsLine("ab");
      NoFamilyAb(FunctionMap["ab"]);
      assert false;
    }
  }

  lemma NoFamilyAb(f: Family)
    ensures "ab" !in f.Aliases()
  {
    match f
    case Topic =>
    case Object =>
    case Subject =>
    case Conjunctive =>
    case Directional =>
    case VocativeA =>
    case VocativeI =>
    case Accompanying =>
  }

  // Helpers of UnknownSpellingRepeated: the template and its rendering,
  // spelled piece by piece.
  lemma TextOfThree(head: string, a: Slot, b: Slot, c: Slot)
    ensures Text(head, [a, b, c]) == head + Piece(a) + Piece(b) + Piece(c)
  {
    assert [b, c] == [b] + [c] && [c] == [c] + [];
    PiecesCons(c, []);
    PiecesCons(b, [c]);
    assert [a, b, c] == [a] + [b, c];
    PiecesCons(a, [b, c]);
    SpellThree(head, Piece(a), Piece(b), Piece(c));
  }

  lemma SpellThree(head: string, x: string, y: string, z: string)
    ensures head + (x + (y + (z + []))) == head + x + y + z
  {
  }

  lemma UnknownSpelled(a: Slot, b: Slot, c: Slot)
    requires a == Marked("가", "ab", " ") && b == Marked("나", "ab", " ") && c == Marked("다", "이", [])
    ensures Text([], [a, b, c]) == "가{{ab}} 나{{ab}} 다{{이}}"
  {
    TextOfThree([], a, b, c);
    UnknownPieces(a, b, c);
    UnknownTemplateText();
  }

  lemma UnknownPieces(a: Slot, b: Slot, c: Slot)
    requires a == Marked("가", "ab", " ") && b == Marked("나", "ab", " ") && c == Marked("다", "이", [])
    ensures Piece(a) == "가{{ab}} " && Piece(b) == "나{{ab}} " && Piece(c) == "다{{이}}"
  {
  }

  lemma UnknownTemplateText()
    ensures [] + "가{{ab}} " + "나{{ab}} " + "다{{이}}" == "가{{ab}} 나{{ab}} 다{{이}}"
  {
  }

  lemma UnknownResolution(a: Slot, b: Slot, c: Slot)
    requires a == Marked("가", "ab", " ") && b == Marked("나", "ab", " ") && c == Marked("다", "이", [])
    ensures Text([], Resolution([a, b, c])) == "가{{ab}} 나{{ab}} 다가"
  {
    var d := Resolved("다가", []);
    UnknownResolved(a, b, c);
    TextOfThree([], a, b, d);
    UnknownPieces(a, b, c);
    UnknownRenderedText();
  }

  lemma UnknownResolved(a: Slot, b: Slot, c: Slot)
    requires a == Marked("가", "ab", " ") && b == Marked("나", "ab", " ") && c == Marked("다", "이", [])
    ensures Resolution([a, b, c]) == [a, b, Resolved("다가", [])]
  {
    var r := Resolution([a, b, c]);
    NoKeyAb();
    ResolutionAt([a, b, c], 0);
    ResolutionAt([a, b, c], 1);
    SubjectOfDa(c);
    MarkedResolves([a, b, c], 2, Subject);
    assert r[0] == a && r[1] == b && r[2] == Resolved("다가", []);
  }

  lemma SubjectOfDa(c: Slot)
    requires c == Marked("다", "이", [])
    ensures c.key in Subject.Aliases() && c.word + Subject.Resolve(c.word) == "다가"
  {
    assert !HasJongseong("다");
  }

  lemma UnknownRenderedText()
    ensures [] + "가{{ab}} " + "나{{ab}} " + Piece(Resolved("다가", [])) == "가{{ab}} 나{{ab}} 다가"
  {
  }
}
