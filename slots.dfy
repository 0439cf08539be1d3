/** What `Format` does to a template written as the documentation shows it:
    a head of plain text, then slots, each a Hangul word with the marker of
    a spelling right after it, followed by plain text up to the next slot. */
module Slots {
  import opened GoText
  import opened Particles
  import opened Template
  import opened TemplateFacts

  /** One slot of a template: `word{{key}}` still to be replaced, or the
      text that replaced it; `tail` is the plain text after it. */
  datatype Slot =
    | Marked(word: string, key: string, tail: string)
    | Resolved(text: string, tail: string)

  function Piece(sl: Slot): string {
    match sl
    case Marked(w, k, t) => w + Marker(k) + t
    case Resolved(x, t) => x + t
  }

  function Pieces(slots: seq<Slot>): string
    decreases |slots|
  {
    if slots == [] then [] else Piece(slots[0]) + Pieces(slots[1..])
  }

  /** The template a head and its slots spell out. */
  function Text(head: string, slots: seq<Slot>): string {
    head + Pieces(slots)
  }

  predicate NoBrace(x: string) {
    forall i :: 0 <= i < |x| ==> x[i] != '{'
  }

  predicate HangulWord(w: string) {
    w != [] && forall i :: 0 <= i < |w| ==> IsHangul(w[i])
  }

  /** `x` does not end inside a run of Hangul letters. */
  predicate Breaks(x: string) {
    x == [] || !IsHangul(x[|x| - 1])
  }

  predicate SlotShape(sl: Slot) {
    match sl
    case Marked(w, k, t) => HangulWord(w) && BraceFree(k) && NoBrace(t)
    case Resolved(x, t) => NoBrace(x) && NoBrace(t)
  }

  /** Each word is a run of Hangul letters that is not glued to the letters
      before it, each marker is of a brace-free key, and no other text
      opens a brace. */
  predicate Fitting(slots: seq<Slot>)
    decreases |slots|
  {
    slots == [] ||
    (&& SlotShape(slots[0])
     && (|slots| > 1 ==> slots[0].tail != [] && Breaks(slots[0].tail))
     && Fitting(slots[1..]))
  }

  predicate WellFormed(head: string, slots: seq<Slot>) {
    NoBrace(head) && (slots != [] ==> Breaks(head)) && Fitting(slots)
  }

  /** No key of the table is written in two slots. A spelling that is no
      key may repeat: no stage looks for it. */
  predicate DistinctKeys(slots: seq<Slot>) {
    forall i, j :: 0 <= i < j < |slots| && slots[i].Marked? && slots[j].Marked? && slots[i].key in FunctionMap ==>
      slots[i].key != slots[j].key
  }

  /** `key` is written in one slot at most. */
  predicate Once(slots: seq<Slot>, key: string) {
    forall i, j :: 0 <= i < j < |slots| && slots[i].Marked? && slots[j].Marked? && slots[i].key == key ==>
      slots[j].key != key
  }

  /** The matches of `key` that the pieces hold, the first piece at `o`: one
      per marked slot of that key, around its word and marker. */
  function Expected(o: nat, slots: seq<Slot>, key: string): seq<Match>
    decreases |slots|
  {
    if slots == [] then []
    else
      var sl, next := slots[0], o + |Piece(slots[0])|;
      if sl.Marked? && sl.key == key
      then [Match(o, o + |sl.word|, o + |sl.word| + |key| + 4)] + Expected(next, slots[1..], key)
      else Expected(next, slots[1..], key)
  }

  /** The match a slot at `o` holds for `key`: one around its word and
      marker if it is a marked slot of `key`, none otherwise. */
  function Own(o: nat, sl: Slot, key: string): seq<Match> {
    if sl.Marked? && sl.key == key then [Match(o, o + |sl.word|, o + |sl.word| + |key| + 4)] else []
  }

  /** Every marked slot of `key` resolved to `join` of its word; a stage of
      `Format` joins with `ConcatWith(key)`. */
  function Replace(slots: seq<Slot>, key: string, join: string -> string): (r: seq<Slot>)
    ensures |r| == |slots|
    decreases |slots|
  {
    if slots == [] then []
    else [ReplaceOne(slots[0], key, join)] + Replace(slots[1..], key, join)
  }

  function ReplaceOne(sl: Slot, key: string, join: string -> string): Slot {
    if sl.Marked? && sl.key == key then Resolved(join(sl.word), sl.tail) else sl
  }

  /** The stages of a list of spellings, one after the other. */
  function ReplaceAll(slots: seq<Slot>, ts: seq<string>): seq<Slot>
    decreases |ts|
  {
    if ts == [] then slots else ReplaceAll(Replace(slots, ts[0], ConcatWith(ts[0])), ts[1..])
  }

  /** The reference result: every marked slot of a listed spelling shows the
      word and its particle, every other slot stays as it is. */
  function Resolution(slots: seq<Slot>): (r: seq<Slot>)
    ensures |r| == |slots|
    decreases |slots|
  {
    if slots == [] then []
    else
      var sl := slots[0];
      var first :=
        if sl.Marked? && sl.key in FunctionMap
        then Resolved(sl.word + FunctionMap[sl.key].Resolve(sl.word), sl.tail)
        else sl;
      [first] + Resolution(slots[1..])
  }

  /** Neither a particle nor an unlisted key brings in a brace. */
  lemma ConcatNoBrace(w: string, k: string)
    requires NoBrace(w) && BraceFree(k)
    ensures NoBrace(Concat(w, k))
  {
    var c := Concat(w, k);
    if TrimSpace(k) in FunctionMap {
      var f := FunctionMap[TrimSpace(k)];
      FormsAreAliases(f);
      AliasFamily(f, f.CodaForm());
      AliasFamily(f, f.PlainForm());
      var form := f.Resolve(w);
      assert BraceFree(form);
      forall i | 0 <= i < |c|
        ensures c[i] != '{'
      {
        if i >= |w| {
          assert c[i] == c[|w|..][i - |w|] == form[i - |w|];
        } else {
          assert c[i] == c[..|w|][i];
        }
      }
    }
  }

  /** The greedy word of a match starts where the Hangul run does. */
  lemma {:induction false} RunStartAt(s: string, o: nat, q: nat)
    requires o <= q <= |s|
    requires forall t :: o <= t < q ==> IsHangul(s[t])
    requires o == 0 || !IsHangul(s[o - 1])
    ensures RunStart(s, q) == o
    decreases q - o
  {
    if o < q {
      RunStartAt(s, o, q - 1);
    }
  }

  /** A stretch without `{` is quiet. */
  lemma NoBraceQuiet(s: string, a: nat, b: nat)
    requires a <= b <= |s|
    requires forall t :: a <= t < b ==> s[t] != '{'
    ensures Quiet(s, a, b)
  {
  }

  /** `x` occurs in `T` at `o`. */
  predicate Lies(T: string, o: nat, x: string) {
    o + |x| <= |T| && forall i :: 0 <= i < |x| ==> T[o + i] == x[i]
  }

  /** No Hangul letter stands right before `o`. */
  predicate StartsRun(T: string, o: nat) {
    o == 0 || (o <= |T| && !IsHangul(T[o - 1]))
  }

  lemma LiesSplit(T: string, o: nat, x: string, y: string)
    requires Lies(T, o, x + y)
    ensures Lies(T, o, x) && Lies(T, o + |x|, y)
  {
    forall i | 0 <= i < |x|
      ensures T[o + i] == x[i]
    {
      assert (x + y)[i] == x[i];
    }
    forall i | 0 <= i < |y|
      ensures T[o + |x| + i] == y[i]
    {
      assert (x + y)[|x| + i] == y[i];
    }
  }

  /** A resolved slot holds no match. */
  lemma PieceScanResolved(T: string, o: nat, sl: Slot, key: string)
    requires Lies(T, o, Piece(sl)) && sl.Resolved? && SlotShape(sl)
    ensures MatchesFrom(T, key, o) == MatchesFrom(T, key, o + |Piece(sl)|)
  {
    var P := Piece(sl);
    assert P == sl.text + sl.tail;
    forall t | o <= t < o + |P|
      ensures T[t] != '{'
    {
      assert T[t] == P[t - o];
      if t - o < |sl.text| {
        assert P[t - o] == sl.text[t - o];
      } else {
        assert P[t - o] == sl.tail[t - o - |sl.text|];
      }
    }
    NoBraceQuiet(T, o, o + |P|);
    QuietSkip(T, key, o, o + |P|);
  }

  /** A slot holds its own match of `key` and no other. */
  lemma PieceScan(T: string, o: nat, sl: Slot, key: string)
    requires Lies(T, o, Piece(sl)) && SlotShape(sl) && StartsRun(T, o) && BraceFree(key)
    ensures MatchesFrom(T, key, o) == Own(o, sl, key) + MatchesFrom(T, key, o + |Piece(sl)|)
  {
    var e := o + |Piece(sl)|;
    if sl.Resolved? {
      PieceScanResolved(T, o, sl, key);
      var rest := MatchesFrom(T, key, e);
      assert Own(o, sl, key) + rest == rest;
    } else {
      MarkedLayout(T, o, sl);
      MarkedScan(T, key, sl, o, o + |sl.word|, e);
    }
  }

  /** A marked slot holds one match of its own key, and none of any other
      key. */
  lemma MarkedScan(T: string, key: string, sl: Slot, o: nat, q: nat, e: nat)
    requires sl.Marked? && q == o + |sl.word| && ScanLayout(T, sl.key, o, q, e) && BraceFree(key)
    ensures MatchesFrom(T, key, o) == Own(o, sl, key) + MatchesFrom(T, key, e)
  {
    MarkerScan(T, key, sl.key, o, q, e);
    var rest := MatchesFrom(T, key, e);
    if sl.key == key {
      assert Own(o, sl, key) == [Match(o, q, q + |key| + 4)];
    } else {
      assert Own(o, sl, key) + rest == rest;
    }
  }

  /** A quiet stretch from `o` to `q` holding a run of Hangul letters that
      ends at `q`, where a marker of the brace-free `k` stands, then another
      quiet stretch up to `end`. */
  predicate ScanLayout(T: string, k: string, o: nat, q: nat, end: nat) {
    && o < q && q + |k| + 4 <= end <= |T|
    && Quiet(T, o, q) && Quiet(T, q + 1, end) && MarkerAt(T, k, q)
    && IsHangul(T[q - 1]) && RunStart(T, q) == o && BraceFree(k)
  }

  /** Where the word, the marker and the tail of a marked slot lie. */
  lemma MarkedLayout(T: string, o: nat, sl: Slot)
    requires Lies(T, o, Piece(sl)) && sl.Marked? && SlotShape(sl) && StartsRun(T, o)
    ensures ScanLayout(T, sl.key, o, o + |sl.word|, o + |Piece(sl)|)
  {
    var w, k := sl.word, sl.key;
    var P := Piece(sl);
    var q := o + |w|;
    var mk := Marker(k);
    var e := q + |mk|;
    assert P == w + mk + sl.tail;
    forall t | o <= t < q
      ensures IsHangul(T[t]) && T[t] != '{'
    {
      assert T[t] == P[t - o] == w[t - o];
    }
    NoBraceQuiet(T, o, q);
    assert T[q..e] == mk by {
      forall i | 0 <= i < |mk|
        ensures T[q..e][i] == mk[i]
      {
        assert T[q + i] == P[|w| + i] == mk[i];
      }
    }
    forall t | e <= t < o + |P|
      ensures T[t] != '{'
    {
      assert T[t] == P[t - o] == sl.tail[t - e];
    }
    forall t | q + 1 <= t < o + |P|
      ensures !Opens(T, t)
    {
      if t < e {
        MarkerInterior(T, k, q, t);
      }
    }
    RunStartAt(T, o, q);
  }

  /** Past a quiet stretch, a marker of `k` after a Hangul letter, and
      another quiet stretch, the pattern of `key` has matched once if `k` is
      `key` and not at all otherwise. */
  lemma MarkerScan(T: string, key: string, k: string, o: nat, q: nat, end: nat)
    requires ScanLayout(T, k, o, q, end) && BraceFree(key)
    ensures MatchesFrom(T, key, o) ==
      (if k == key then [Match(o, q, q + |key| + 4)] else []) + MatchesFrom(T, key, end)
  {
    QuietSkip(T, key, o, q);
    QuietSkip(T, key, q + 1, end);
    var later := MatchesFrom(T, key, q + 1);
    if k == key {
      assert Anchored(T, key, q);
      assert MatchesFrom(T, key, q) == [MatchAt(T, key, q)] + later;
    } else {
      if Anchored(T, key, q) {
        MarkerKeyUnique(T, k, key, q);
        assert false;
      }
      assert MatchesFrom(T, key, q) == later;
      assert [] + later == later;
    }
  }

  /** The slots lie one after the other from `o` to the end of `T`, each of
      its shape and none glued to Hangul letters before it. */
  predicate LaidOut(T: string, o: nat, slots: seq<Slot>)
    decreases |slots|
  {
    if slots == [] then o == |T|
    else
      && Lies(T, o, Piece(slots[0])) && SlotShape(slots[0]) && StartsRun(T, o)
      && LaidOut(T, o + |Piece(slots[0])|, slots[1..])
  }

  lemma LaidOutRest(T: string, o: nat, slots: seq<Slot>)
    requires LaidOut(T, o, slots) && slots != []
    ensures Lies(T, o, Piece(slots[0])) && SlotShape(slots[0]) && StartsRun(T, o)
    ensures LaidOut(T, o + |Piece(slots[0])|, slots[1..])
  {
  }

  lemma LaidOutCons(T: string, o: nat, slots: seq<Slot>)
    requires slots != [] && Lies(T, o, Piece(slots[0])) && SlotShape(slots[0]) && StartsRun(T, o)
    requires LaidOut(T, o + |Piece(slots[0])|, slots[1..])
    ensures LaidOut(T, o, slots)
  {
  }

  /** Fitting pieces that fill `T` from `o` are laid out there. */
  lemma {:induction false} PiecesLaidOut(T: string, o: nat, slots: seq<Slot>)
    requires Lies(T, o, Pieces(slots)) && o + |Pieces(slots)| == |T|
    requires slots != [] ==> StartsRun(T, o)
    requires Fitting(slots)
    ensures LaidOut(T, o, slots)
    decreases |slots|
  {
    if slots != [] {
      var sl, rest := slots[0], slots[1..];
      var P := Piece(sl);
      LiesSplit(T, o, P, Pieces(rest));
      if rest != [] {
        assert P == (if sl.Resolved? then sl.text else sl.word + Marker(sl.key)) + sl.tail;
        assert T[o + |P| - 1] == P[|P| - 1] == sl.tail[|sl.tail| - 1];
      }
      PiecesLaidOut(T, o + |P|, rest);
      LaidOutCons(T, o, slots);
    }
  }

  /** Scanning the pieces finds exactly the expected matches. */
  lemma {:induction false} ScanPieces(T: string, o: nat, slots: seq<Slot>, key: string)
    requires LaidOut(T, o, slots) && BraceFree(key)
    ensures MatchesFrom(T, key, o) == Expected(o, slots, key)
    decreases |slots|
  {
    if slots != [] {
      var next := o + |Piece(slots[0])|;
      ScanStep(T, o, slots, key);
      ScanPieces(T, next, slots[1..], key);
      ExpectedStep(o, slots, key);
    }
  }

  lemma ScanStep(T: string, o: nat, slots: seq<Slot>, key: string)
    requires LaidOut(T, o, slots) && BraceFree(key) && slots != []
    ensures LaidOut(T, o + |Piece(slots[0])|, slots[1..])
    ensures MatchesFrom(T, key, o) == Own(o, slots[0], key) + MatchesFrom(T, key, o + |Piece(slots[0])|)
  {
    LaidOutRest(T, o, slots);
    PieceScan(T, o, slots[0], key);
  }

  lemma ExpectedStep(o: nat, slots: seq<Slot>, key: string)
    requires slots != []
    ensures Expected(o, slots, key) == Own(o, slots[0], key) + Expected(o + |Piece(slots[0])|, slots[1..], key)
  {
  }

  /** A template laid out as its head and its pieces. */
  lemma TextLayout(head: string, slots: seq<Slot>)
    requires slots != [] ==> Breaks(head)
    ensures var T := Text(head, slots);
      Lies(T, |head|, Pieces(slots)) && (slots != [] ==> StartsRun(T, |head|))
      && T[..|head|] == head && T[0..|head|] == head
  {
    var T := Text(head, slots);
    if head != [] {
      assert T[|head| - 1] == head[|head| - 1];
    }
  }

  /** In a well-formed template the matches of `key` are the expected ones. */
  lemma FindAllText(head: string, slots: seq<Slot>, key: string)
    requires WellFormed(head, slots) && BraceFree(key)
    ensures FindAll(Text(head, slots), key) == Expected(|head|, slots, key)
  {
    var T := Text(head, slots);
    TextLayout(head, slots);
    forall t | 0 <= t < |head|
      ensures T[t] != '{'
    {
      assert T[t] == head[t];
    }
    NoBraceQuiet(T, 0, |head|);
    QuietSkip(T, key, 0, |head|);
    PiecesLaidOut(T, |head|, slots);
    ScanPieces(T, |head|, slots, key);
  }

  /** The expected matches follow each other without overlapping. */
  lemma {:induction false} ExpectedAscending(o: nat, slots: seq<Slot>, key: string, n: nat)
    requires o + |Pieces(slots)| <= n
    ensures Ascending(Expected(o, slots, key), o, n)
    decreases |slots|
  {
    if slots != [] {
      var sl, rest := slots[0], slots[1..];
      var next := o + |Piece(sl)|;
      ExpectedAscending(next, rest, key, n);
      var tailMs := Expected(next, rest, key);
      if sl.Marked? && sl.key == key {
        var m := Match(o, o + |sl.word|, o + |sl.word| + |key| + 4);
        assert |Piece(sl)| == |sl.word| + |key| + 4 + |sl.tail|;
        AscendingFrom(tailMs, m.end, next, n);
        assert ([m] + tailMs)[1..] == tailMs;
      } else {
        assert Expected(o, slots, key) == tailMs;
        AscendingFrom(tailMs, o, next, n);
      }
    }
  }

  /** A key no marked slot carries has no match. */
  lemma {:induction false} ExpectedAbsent(o: nat, slots: seq<Slot>, key: string)
    requires forall i :: 0 <= i < |slots| && slots[i].Marked? ==> slots[i].key != key
    ensures Expected(o, slots, key) == []
    decreases |slots|
  {
    if slots != [] {
      ExpectedAbsent(o + |Piece(slots[0])|, slots[1..], key);
    }
  }

  /** Without a repeated spelling a key matches at most once. */
  lemma {:induction false} ExpectedAtMostOne(o: nat, slots: seq<Slot>, key: string)
    requires Once(slots, key)
    ensures |Expected(o, slots, key)| <= 1
    decreases |slots|
  {
    if slots != [] {
      var next := o + |Piece(slots[0])|;
      var rest := slots[1..];
      if slots[0].Marked? && slots[0].key == key {
        ExpectedAbsent(next, rest, key);
      } else {
        assert Once(rest, key) by {
          forall i, j | 0 <= i < j < |rest| && rest[i].Marked? && rest[j].Marked? && rest[i].key == key
            ensures rest[j].key != key
          {
            assert rest[i] == slots[i + 1] && rest[j] == slots[j + 1];
          }
        }
        ExpectedAtMostOne(next, rest, key);
      }
    }
  }

  /** Rebuilding the expected matches replaces the marked slots of `key`. */
  lemma {:induction false} RebuildPieces(T: string, o: nat, slots: seq<Slot>, key: string, join: string -> string)
    requires o <= |T| && T[o..] == Pieces(slots)
    ensures Ascending(Expected(o, slots, key), o, |T|)
    ensures Rebuild(T, join, Expected(o, slots, key), o) == Pieces(Replace(slots, key, join))
    decreases |slots|
  {
    if slots != [] {
      var next := o + |Piece(slots[0])|;
      SuffixSplit(T, o, Piece(slots[0]), Pieces(slots[1..]));
      RebuildPieces(T, next, slots[1..], key, join);
      RebuildStep(T, o, slots, key, join, next);
    }
  }

  /** One slot more in front of the rebuilt ones. */
  lemma RebuildStep(T: string, o: nat, slots: seq<Slot>, key: string, join: string -> string, next: nat)
    requires slots != [] && next == o + |Piece(slots[0])| <= |T| && T[o..next] == Piece(slots[0])
    requires Ascending(Expected(next, slots[1..], key), next, |T|)
    requires Rebuild(T, join, Expected(next, slots[1..], key), next) == Pieces(Replace(slots[1..], key, join))
    ensures Ascending(Expected(o, slots, key), o, |T|)
    ensures Rebuild(T, join, Expected(o, slots, key), o) == Pieces(Replace(slots, key, join))
  {
    if slots[0].Marked? && slots[0].key == key {
      MarkedStep(T, o, slots, key, join, next);
    } else {
      KeptStep(T, o, slots, key, join, next);
    }
  }

  lemma MarkedStep(T: string, o: nat, slots: seq<Slot>, key: string, join: string -> string, next: nat)
    requires slots != [] && next == o + |Piece(slots[0])| <= |T| && T[o..next] == Piece(slots[0])
    requires slots[0].Marked? && slots[0].key == key
    requires Ascending(Expected(next, slots[1..], key), next, |T|)
    requires Rebuild(T, join, Expected(next, slots[1..], key), next) == Pieces(Replace(slots[1..], key, join))
    ensures Ascending(Expected(o, slots, key), o, |T|)
    ensures Rebuild(T, join, Expected(o, slots, key), o) == Pieces(Replace(slots, key, join))
  {
    MarkedExpectedRebuilt(T, o, slots, key, join, next);
    MarkedPiecesSplit(slots, key, join);
  }

  lemma MarkedExpectedRebuilt(T: string, o: nat, slots: seq<Slot>, key: string, join: string -> string, next: nat)
    requires slots != [] && next == o + |Piece(slots[0])| <= |T| && T[o..next] == Piece(slots[0])
    requires slots[0].Marked? && slots[0].key == key
    requires Ascending(Expected(next, slots[1..], key), next, |T|)
    ensures Ascending(Expected(o, slots, key), o, |T|)
    ensures Rebuild(T, join, Expected(o, slots, key), o) ==
      join(slots[0].word) + slots[0].tail + Rebuild(T, join, Expected(next, slots[1..], key), next)
  {
    ExpectedMarked(o, slots, key);
    MarkedRebuilt(T, o, slots[0], join, Expected(o, slots, key), Expected(o + |Piece(slots[0])|, slots[1..], key), next);
  }

  lemma MarkedPiecesSplit(slots: seq<Slot>, key: string, join: string -> string)
    requires slots != [] && slots[0].Marked? && slots[0].key == key
    ensures Pieces(Replace(slots, key, join)) ==
      (join(slots[0].word) + slots[0].tail) + Pieces(Replace(slots[1..], key, join))
  {
    ReplaceStep(slots, key, join);
    ReplacedPiece(slots[0], key, join);
  }

  lemma KeptStep(T: string, o: nat, slots: seq<Slot>, key: string, join: string -> string, next: nat)
    requires slots != [] && next == o + |Piece(slots[0])| <= |T| && T[o..next] == Piece(slots[0])
    requires !(slots[0].Marked? && slots[0].key == key)
    requires Ascending(Expected(next, slots[1..], key), next, |T|)
    requires Rebuild(T, join, Expected(next, slots[1..], key), next) == Pieces(Replace(slots[1..], key, join))
    ensures Ascending(Expected(o, slots, key), o, |T|)
    ensures Rebuild(T, join, Expected(o, slots, key), o) == Pieces(Replace(slots, key, join))
  {
    var sl := slots[0];
    var tailMs := Expected(next, slots[1..], key);
    ReplaceStep(slots, key, join);
    assert ReplaceOne(sl, key, join) == sl;
    ExpectedKept(o, slots, key);
    KeptRebuilt(T, o, next, Piece(sl), join, tailMs);
    RebuiltAs(T, o, slots, key, join, tailMs, Piece(sl), Pieces(Replace(slots[1..], key, join)));
  }

  /** The replacement of a marked slot of `key`. */
  lemma ReplacedPiece(sl: Slot, key: string, join: string -> string)
    requires sl.Marked? && sl.key == key
    ensures Piece(ReplaceOne(sl, key, join)) == join(sl.word) + sl.tail
  {
  }

  lemma ExpectedMarked(o: nat, slots: seq<Slot>, key: string)
    requires slots != [] && slots[0].Marked? && slots[0].key == key
    ensures Expected(o, slots, key) ==
      [Match(o, o + |slots[0].word|, o + |slots[0].word| + |slots[0].key| + 4)] + Expected(o + |Piece(slots[0])|, slots[1..], key)
  {
  }

  lemma ExpectedKept(o: nat, slots: seq<Slot>, key: string)
    requires slots != [] && !(slots[0].Marked? && slots[0].key == key)
    ensures Expected(o, slots, key) == Expected(o + |Piece(slots[0])|, slots[1..], key)
  {
  }

  /** Both sides of the rebuilt stretch agree once they are spelled out. */
  lemma RebuiltAs(T: string, o: nat, slots: seq<Slot>, key: string, join: string -> string,
                  ms: seq<Match>, front: string, after: string)
    requires o <= |T| && Expected(o, slots, key) == ms
    requires Pieces(Replace(slots, key, join)) == front + after
    requires Ascending(ms, o, |T|) && Rebuild(T, join, ms, o) == front + after
    ensures Ascending(Expected(o, slots, key), o, |T|)
    ensures Rebuild(T, join, Expected(o, slots, key), o) == Pieces(Replace(slots, key, join))
  {
  }

  lemma ReplaceStep(slots: seq<Slot>, key: string, join: string -> string)
    requires slots != []
    ensures Pieces(Replace(slots, key, join)) ==
      Piece(ReplaceOne(slots[0], key, join)) + Pieces(Replace(slots[1..], key, join))
  {
    assert Replace(slots, key, join) == [ReplaceOne(slots[0], key, join)] + Replace(slots[1..], key, join);
    assert Replace(slots, key, join)[1..] == Replace(slots[1..], key, join);
  }

  /** Text that lies at the start of the rebuilt stretch is copied. */
  lemma KeptRebuilt(T: string, o: nat, next: nat, x: string, join: string -> string, tailMs: seq<Match>)
    requires next == o + |x| <= |T| && T[o..next] == x && Ascending(tailMs, next, |T|)
    ensures Ascending(tailMs, o, |T|)
    ensures Rebuild(T, join, tailMs, o) == x + Rebuild(T, join, tailMs, next)
  {
    RebuildFrom(T, join, tailMs, o, next);
  }

  /** A marked slot is rebuilt as `join` of its word. */
  lemma MarkedRebuilt(T: string, o: nat, sl: Slot, join: string -> string, ms: seq<Match>, tailMs: seq<Match>, next: nat)
    requires sl.Marked? && next == o + |Piece(sl)| <= |T|
    requires T[o..next] == Piece(sl) && Ascending(tailMs, next, |T|)
    requires ms == [Match(o, o + |sl.word|, o + |sl.word| + |sl.key| + 4)] + tailMs
    ensures Ascending(ms, o, |T|)
    ensures Rebuild(T, join, ms, o) == join(sl.word) + sl.tail + Rebuild(T, join, tailMs, next)
  {
    MarkedParts(T, o, sl, next);
    RebuiltFirst(T, join, Match(o, o + |sl.word|, o + |sl.word| + |sl.key| + 4), tailMs, sl.word, sl.tail, next);
  }

  /** Where the word and the tail of a marked slot lie. */
  lemma MarkedParts(T: string, o: nat, sl: Slot, next: nat)
    requires sl.Marked? && next == o + |Piece(sl)| <= |T| && T[o..next] == Piece(sl)
    ensures o + |sl.word| + |sl.key| + 4 <= next
    ensures T[o..o + |sl.word|] == sl.word && T[o + |sl.word| + |sl.key| + 4..next] == sl.tail
  {
    var wm := sl.word + Marker(sl.key);
    InfixSplit(T, o, next, wm, sl.tail);
    InfixSplit(T, o, o + |wm|, sl.word, Marker(sl.key));
  }

  /** A suffix of `T` made of two parts has the first just after `o`. */
  lemma SuffixSplit(T: string, o: nat, x: string, y: string)
    requires o <= |T| && T[o..] == x + y
    ensures o + |x| <= |T| && T[o..o + |x|] == x && T[o + |x|..] == y
  {
    assert T[o..o + |x|] == T[o..][..|x|];
    assert T[o + |x|..] == T[o..][|x|..];
  }

  /** An infix of `T` made of two parts. */
  lemma InfixSplit(T: string, a: nat, b: nat, x: string, y: string)
    requires a <= b <= |T| && T[a..b] == x + y
    ensures a + |x| <= b && T[a..a + |x|] == x && T[a + |x|..b] == y
  {
    assert T[a..a + |x|] == T[a..b][..|x|];
    assert T[a + |x|..b] == T[a..b][|x|..];
  }

  /** Unfolding `Rebuild` at a first match that starts where rebuilding
      does. */
  lemma RebuiltFirst(T: string, join: string -> string, m: Match, tailMs: seq<Match>, w: string, tail: string, next: nat)
    requires m.start <= m.wordEnd <= m.end <= next <= |T| && Ascending(tailMs, next, |T|)
    requires T[m.start..m.wordEnd] == w && T[m.end..next] == tail
    ensures Ascending([m] + tailMs, m.start, |T|)
    ensures Rebuild(T, join, [m] + tailMs, m.start) == join(w) + tail + Rebuild(T, join, tailMs, next)
  {
    var ms := [m] + tailMs;
    assert ms[0] == m && ms[1..] == tailMs;
    AscendingFrom(tailMs, m.end, next, |T|);
    var c := join(w);
    var after := Rebuild(T, join, tailMs, next);
    RebuildFrom(T, join, tailMs, m.end, next);
    assert Rebuild(T, join, ms, m.start) == T[m.start..m.start] + c + Rebuild(T, join, tailMs, m.end);
    assert T[m.start..m.start] + c == c;
    AppendAssoc(c, tail, after);
  }

  /** Replacing keeps the shape of a template. */
  lemma {:induction false} ReplaceFitting(slots: seq<Slot>, key: string)
    requires Fitting(slots)
    ensures Fitting(Replace(slots, key, ConcatWith(key)))
    decreases |slots|
  {
    if slots != [] {
      var sl := slots[0];
      var r := Replace(slots, key, ConcatWith(key));
      ReplaceFitting(slots[1..], key);
      assert r[1..] == Replace(slots[1..], key, ConcatWith(key));
      if sl.Marked? && sl.key == key {
        NoBraceWord(sl.word);
        ConcatNoBrace(sl.word, key);
      }
    }
  }

  lemma NoBraceWord(w: string)
    requires HangulWord(w)
    ensures NoBrace(w)
  {
  }

  /** Replacing only resolves slots, so no spelling comes to be repeated. */
  lemma ReplaceDistinct(slots: seq<Slot>, key: string, join: string -> string)
    requires DistinctKeys(slots)
    ensures DistinctKeys(Replace(slots, key, join))
  {
    ReplaceEach(slots, key, join);
  }

  lemma {:induction false} ReplaceEach(slots: seq<Slot>, key: string, join: string -> string)
    ensures forall i :: 0 <= i < |slots| ==> Replace(slots, key, join)[i] == ReplaceOne(slots[i], key, join)
    decreases |slots|
  {
    if slots != [] {
      ReplaceEach(slots[1..], key, join);
    }
  }

  /** The corrected stage replaces every marked slot of `key`. */
  lemma RebuiltStageText(head: string, slots: seq<Slot>, key: string)
    requires WellFormed(head, slots) && PlainKey(key)
    ensures RebuiltStage(Text(head, slots), key) == Text(head, Replace(slots, key, ConcatWith(key)))
  {
    var T := Text(head, slots);
    FindAllText(head, slots, key);
    var ms := Expected(|head|, slots, key);
    assert T[|head|..] == Pieces(slots);
    RebuildPieces(T, |head|, slots, key, ConcatWith(key));
    RebuildFrom(T, ConcatWith(key), ms, 0, |head|);
  }

  /** `Format`'s stage does the same when its spelling is not repeated. */
  lemma StageText(head: string, slots: seq<Slot>, key: string)
    requires WellFormed(head, slots) && Once(slots, key) && PlainKey(key)
    ensures Stage(Text(head, slots), key) == Rendered(Text(head, Replace(slots, key, ConcatWith(key))))
  {
    FindAllText(head, slots, key);
    ExpectedAtMostOne(|head|, slots, key);
    StageAgrees(Text(head, slots), key);
    RebuiltStageText(head, slots, key);
  }

  /** `Format` over a list of spellings performs their stages in turn,
      provided none of the keys is written in two slots. */
  lemma {:induction false} FormatText(head: string, slots: seq<Slot>, ts: seq<string>)
    requires WellFormed(head, slots) && DistinctKeys(slots)
    requires forall t :: t in ts ==> PlainKey(t) && t in FunctionMap
    ensures FormatWith(Text(head, slots), ts) == Rendered(Text(head, ReplaceAll(slots, ts)))
    decreases |ts|
  {
    if ts != [] {
      var k := ts[0];
      StageText(head, slots, k);
      ReplaceFitting(slots, k);
      ReplaceDistinct(slots, k, ConcatWith(k));
      assert Replace(slots, k, ConcatWith(k)) != [] <==> slots != [];
      FormatText(head, Replace(slots, k, ConcatWith(k)), ts[1..]);
    }
  }

  /** The corrected `Format` does so for repeated spellings too. */
  lemma {:induction false} FormatRebuiltText(head: string, slots: seq<Slot>, ts: seq<string>)
    requires WellFormed(head, slots)
    requires forall t :: t in ts ==> PlainKey(t)
    ensures FormatRebuilt(Text(head, slots), ts) == Text(head, ReplaceAll(slots, ts))
    decreases |ts|
  {
    if ts != [] {
      var k := ts[0];
      RebuiltStageText(head, slots, k);
      ReplaceFitting(slots, k);
      assert Replace(slots, k, ConcatWith(k)) != [] <==> slots != [];
      FormatRebuiltText(head, Replace(slots, k, ConcatWith(k)), ts[1..]);
    }
  }
}
