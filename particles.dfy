/** The particle families of josa.go: the eight resolvers (josa.go:139-209),
    the alias table `functionMap` (josa.go:12-21), `Josa` (josa.go:77-87)
    and `Concat` (josa.go:99-107). */
module Particles {
  import opened GoText
  import opened Hangul

  // The eight resolvers. Each answers its first form after a word whose last
  // syllable has a final consonant, and its second form otherwise.

  /** Topic particle 은/는. */
  function EunNeun(word: string): (r: string)
    ensures r == "은" <==> HasJongseong(word)
    ensures r == "는" <==> !HasJongseong(word)
  {
    if HasJongseong(word) then "은" else "는"
  }

  /** Object particle 을/를. */
  function EulReul(word: string): (r: string)
    ensures r == "을" <==> HasJongseong(word)
    ensures r == "를" <==> !HasJongseong(word)
  {
    if HasJongseong(word) then "을" else "를"
  }

  /** Subject particle 이/가. */
  function IGa(word: string): (r: string)
    ensures r == "이" <==> HasJongseong(word)
    ensures r == "가" <==> !HasJongseong(word)
  {
    if HasJongseong(word) then "이" else "가"
  }

  /** Conjunctive particle 과/와. */
  function GwaWa(word: string): (r: string)
    ensures r == "과" <==> HasJongseong(word)
    ensures r == "와" <==> !HasJongseong(word)
  {
    if HasJongseong(word) then "과" else "와"
  }

  /** Directional particle 으로/로. */
  function EuroRo(word: string): (r: string)
    ensures r == "으로" <==> HasJongseong(word)
    ensures r == "로" <==> !HasJongseong(word)
  {
    if HasJongseong(word) then "으로" else "로"
  }

  /** Vocative particle 아/야. */
  function AYa(word: string): (r: string)
    ensures r == "아" <==> HasJongseong(word)
    ensures r == "야" <==> !HasJongseong(word)
  {
    if HasJongseong(word) then "아" else "야"
  }

  /** Vocative particle 이여/여. */
  function IyeoYeo(word: string): (r: string)
    ensures r == "이여" <==> HasJongseong(word)
    ensures r == "여" <==> !HasJongseong(word)
  {
    if HasJongseong(word) then "이여" else "여"
  }

  /** Accompanying particle 이랑/랑. */
  function IrangRang(word: string): (r: string)
    ensures r == "이랑" <==> HasJongseong(word)
    ensures r == "랑" <==> !HasJongseong(word)
  {
    if HasJongseong(word) then "이랑" else "랑"
  }

  /** The closed set of resolvers an entry of the alias table can name. */
  datatype Family = Topic | Object | Subject | Conjunctive | Directional | VocativeA | VocativeI | Accompanying
  {
    /** Calls the resolver this family names. The result is the family's
        coda form after a final consonant and its plain form otherwise. */
    function Resolve(word: string): (r: string)
      ensures r == if HasJongseong(word) then CodaForm() else PlainForm()
    {
      match this
      case Topic => EunNeun(word)
      case Object => EulReul(word)
      case Subject => IGa(word)
      case Conjunctive => GwaWa(word)
      case Directional => EuroRo(word)
      case VocativeA => AYa(word)
      case VocativeI => IyeoYeo(word)
      case Accompanying => IrangRang(word)
    }

    /** The particle written after a syllable with a final consonant. */
    function CodaForm(): (r: string)
      ensures 1 <= |r| <= 2
    {
      match this
      case Topic => "은"
      case Object => "을"
      case Subject => "이"
      case Conjunctive => "과"
      case Directional => "으로"
      case VocativeA => "아"
      case VocativeI => "이여"
      case Accompanying => "이랑"
    }

    /** The particle written after a syllable without one. */
    function PlainForm(): (r: string)
      ensures |r| == 1
    {
      match this
      case Topic => "는"
      case Object => "를"
      case Subject => "가"
      case Conjunctive => "와"
      case Directional => "로"
      case VocativeA => "야"
      case VocativeI => "여"
      case Accompanying => "랑"
    }

    /** The spellings that one line of `functionMap` maps to this family's
        resolver. */
    function Aliases(): set<string> {
      match this
      case Topic => TopicAliases
      case Object => ObjectAliases
      case Subject => SubjectAliases
      case Conjunctive => ConjunctiveAliases
      case Directional => DirectionalAliases
      case VocativeA => VocativeAAliases
      case VocativeI => VocativeIAliases
      case Accompanying => AccompanyingAliases
    }
  }

  // The lines of `functionMap` (josa.go:13-20), one per family.
  const TopicAliases: set<string> := {"은", "는", "은는", "는은", "은(는)", "는(은)", "은/는", "는/은"}
  const ObjectAliases: set<string> := {"을", "를", "을를", "를을", "을(를)", "를(을)", "을/를", "를/을"}
  const SubjectAliases: set<string> := {"이", "가", "이가", "가이", "이(가)", "가(이)", "이/가", "가/이"}
  const ConjunctiveAliases: set<string> := {"과", "와", "과와", "와과", "과(와)", "와(과)", "과/와", "와/과"}
  const DirectionalAliases: set<string> := {"으로", "로", "으로로", "로으로", "으로(로)", "로(으로)", "(으)로", "으로/로", "로/으로"}
  const VocativeAAliases: set<string> := {"아", "야", "아야", "야아", "아(야)", "야(아)", "아/야", "야/아"}
  const VocativeIAliases: set<string> := {"이여", "여", "이여여", "여이", "이여(여)", "여(이여)", "이여/여", "여/이여"}
  const AccompanyingAliases: set<string> := {"이랑", "랑", "이랑랑", "랑이랑", "이랑(랑)", "랑(이랑)", "이랑/랑", "랑/이랑"}

  /** Every key of `functionMap`. */
  const AllAliases: set<string> :=
    TopicAliases + ObjectAliases + SubjectAliases + ConjunctiveAliases
    + DirectionalAliases + VocativeAAliases + VocativeIAliases + AccompanyingAliases

  /** The family whose line lists `k`. */
  function FamilyOf(k: string): Family
    requires k in AllAliases
  {
    if k in TopicAliases then Topic
    else if k in ObjectAliases then Object
    else if k in SubjectAliases then Subject
    else if k in ConjunctiveAliases then Conjunctive
    else if k in DirectionalAliases then Directional
    else if k in VocativeAAliases then VocativeA
    else if k in VocativeIAliases then VocativeI
    else Accompanying
  }

  /** `functionMap`: every accepted spelling of a particle, mapped to the
      resolver of its family. */
  const FunctionMap: map<string, Family> := map k | k in AllAliases :: FamilyOf(k)

  /** No brace: a marker `{{k}}` then ends at its first `}`. */
  predicate BraceFree(k: string) {
    forall i :: 0 <= i < |k| ==> k[i] != '{' && k[i] != '}'
  }

  /** What every key satisfies: not empty, no white space to trim at either
      end, and no brace. */
  predicate PlainKey(k: string) {
    && k != []
    && !IsSpace(k[0]) && !IsSpace(k[|k| - 1])
    && BraceFree(k)
  }

  /** The syllables the spellings of one family are written with. */
  function Letters(f: Family): set<char> {
    match f
    case Topic => {'은', '는'}
    case Object => {'을', '를'}
    case Subject => {'이', '가'}
    case Conjunctive => {'과', '와'}
    case Directional => {'으', '로'}
    case VocativeA => {'아', '야'}
    case VocativeI => {'이', '여'}
    case Accompanying => {'이', '랑'}
  }

  /** Syllables of which every spelling of the family holds one, and which no
      family listed earlier in the table uses. */
  function Marks(f: Family): set<char> {
    match f
    case VocativeI => {'여'}
    case Accompanying => {'랑'}
    case _ => Letters(f)
  }

  /** Position of the family's line in the table. */
  function Line(f: Family): nat {
    match f
    case Topic => 0
    case Object => 1
    case Subject => 2
    case Conjunctive => 3
    case Directional => 4
    case VocativeA => 5
    case VocativeI => 6
    case Accompanying => 7
  }

  predicate Shaped(f: Family, k: string) {
    && PlainKey(k)
    && (forall i :: 0 <= i < |k| ==> k[i] in Letters(f) || k[i] in {'(', ')', '/'})
    && exists i :: 0 <= i < |k| && k[i] in Marks(f)
  }

  lemma TopicShaped(k: string)
    requires k in TopicAliases
    ensures Shaped(Topic, k)
  {
  }

  lemma ObjectShaped(k: string)
    requires k in ObjectAliases
    ensures Shaped(Object, k)
  {
  }

  lemma SubjectShaped(k: string)
    requires k in SubjectAliases
    ensures Shaped(Subject, k)
  {
  }

  lemma ConjunctiveShaped(k: string)
    requires k in ConjunctiveAliases
    ensures Shaped(Conjunctive, k)
  {
  }

  lemma DirectionalShaped(k: string)
    requires k in DirectionalAliases
    ensures Shaped(Directional, k)
  {
  }

  lemma VocativeAShaped(k: string)
    requires k in VocativeAAliases
    ensures Shaped(VocativeA, k)
  {
  }

  lemma VocativeIShaped(k: string)
    requires k in VocativeIAliases
    ensures Shaped(VocativeI, k)
  {
    assert '여' in k;
  }

  lemma AccompanyingShaped(k: string)
    requires k in AccompanyingAliases
    ensures Shaped(Accompanying, k)
  {
    assert '랑' in k;
  }

  lemma RowShaped(f: Family, k: string)
    requires k in f.Aliases()
    ensures Shaped(f, k)
  {
    match f
    case Topic => TopicShaped(k);
    case Object => ObjectShaped(k);
    case Subject => SubjectShaped(k);
    case Conjunctive => ConjunctiveShaped(k);
    case Directional => DirectionalShaped(k);
    case VocativeA => VocativeAShaped(k);
    case VocativeI => VocativeIShaped(k);
    case Accompanying => AccompanyingShaped(k);
  }

  /** The marks of a family are letters of no earlier family, and no
      punctuation. */
  lemma MarksAreNew(f: Family, g: Family, c: char)
    requires Line(g) < Line(f) && c in Marks(f)
    ensures c !in Letters(g) && c !in {'(', ')', '/'}
  {
  }

  /** A spelling of family `f` is on no earlier line. */
  lemma NotEarlier(f: Family, g: Family, k: string)
    requires Line(g) < Line(f) && k in f.Aliases()
    ensures k !in g.Aliases()
  {
    RowShaped(f, k);
    var i :| 0 <= i < |k| && k[i] in Marks(f);
    MarksAreNew(f, g, k[i]);
    if k in g.Aliases() {
      RowShaped(g, k);
      assert false;
    }
  }

  /** Each line of the table names one family: its spellings are keys, and
      they map to that family. */
  lemma AliasFamily(f: Family, k: string)
    requires k in f.Aliases()
    ensures PlainKey(k) && k in FunctionMap && FunctionMap[k] == f
  {
    RowShaped(f, k);
    if Line(Topic) < Line(f) { NotEarlier(f, Topic, k); }
    if Line(Object) < Line(f) { NotEarlier(f, Object, k); }
    if Line(Subject) < Line(f) { NotEarlier(f, Subject, k); }
    if Line(Conjunctive) < Line(f) { NotEarlier(f, Conjunctive, k); }
    if Line(Directional) < Line(f) { NotEarlier(f, Directional, k); }
    if Line(VocativeA) < Line(f) { NotEarlier(f, VocativeA, k); }
    if Line(VocativeI) < Line(f) { NotEarlier(f, VocativeI, k); }
  }

  /** Conversely every key lies on the line of the family it maps to. */
  lemma KeyOnItsLine(k: string)
    requires k in FunctionMap
    ensures k in FunctionMap[k].Aliases() && PlainKey(k)
  {
    assert k in AllAliases;
    FamilyOfOnItsLine(k);
    AliasFamily(FamilyOf(k), k);
  }

  lemma FamilyOfOnItsLine(k: string)
    requires k in AllAliases
    ensures k in FamilyOf(k).Aliases()
  {
    if k in TopicAliases {
      assert FamilyOf(k) == Topic;
    } else if k in ObjectAliases {
      assert FamilyOf(k) == Object;
    } else if k in SubjectAliases {
      assert FamilyOf(k) == Subject;
    } else if k in ConjunctiveAliases {
      assert FamilyOf(k) == Conjunctive;
    } else if k in DirectionalAliases {
      assert FamilyOf(k) == Directional;
    } else if k in VocativeAAliases {
      assert FamilyOf(k) == VocativeA;
    } else if k in VocativeIAliases {
      assert FamilyOf(k) == VocativeI;
    } else {
      assert FamilyOf(k) == Accompanying;
    }
  }

  /** The coda and plain forms differ, and both are spellings of their own
      family. */
  lemma FormsAreAliases(f: Family)
    ensures f.CodaForm() != f.PlainForm()
    ensures f.CodaForm() in f.Aliases() && f.PlainForm() in f.Aliases()
  {
  }

  /** `Josa` trims `s` and looks it up. On a hit it answers the resolver's
      particle and true; on a miss it answers the trimmed `s` and false (the
      doc comment's "empty string" is not what the code returns). */
  function Josa(word: string, s: string): (r: (string, bool))
    ensures r.1 <==> TrimSpace(s) in FunctionMap
    ensures r.1 ==> r.0 == FunctionMap[TrimSpace(s)].Resolve(word)
    ensures !r.1 ==> r.0 == TrimSpace(s)
  {
    var t := TrimSpace(s);
    if t in FunctionMap then (FunctionMap[t].Resolve(word), true) else (t, false)
  }

  /** `Concat` appends to `word` the resolved particle on a hit and the
      caller's `s`, untrimmed, on a miss: `word` is never dropped. */
  function Concat(word: string, s: string): (r: string)
    ensures |word| <= |r| && r[..|word|] == word
    ensures TrimSpace(s) in FunctionMap ==> r[|word|..] == FunctionMap[TrimSpace(s)].Resolve(word)
    ensures TrimSpace(s) !in FunctionMap ==> r == word + s
  {
    var j := Josa(word, s);
    var tail := if j.1 then j.0 else s;
    assert (word + tail)[|word|..] == tail;
    word + tail
  }

  /** Every spelling on a family's line, with any white space around it,
      resolves through that family. */
  lemma JosaOnSpelling(word: string, f: Family, k: string, p: string, q: string)
    requires k in f.Aliases()
    requires forall i :: 0 <= i < |p| ==> IsSpace(p[i])
    requires forall i :: 0 <= i < |q| ==> IsSpace(q[i])
    ensures Josa(word, p + k + q) == (f.Resolve(word), true)
  {
    AliasFamily(f, k);
    TrimSpacePadded(p, k, q);
  }

  /** `Concat` on a spelling of family `f` appends that family's particle
      for `word`: its coda form after a final consonant, its plain form
      otherwise. */
  lemma ConcatOnSpelling(word: string, f: Family, k: string)
    requires k in f.Aliases()
    ensures Josa(word, k) == (f.Resolve(word), true)
    ensures Concat(word, k) == word + f.Resolve(word)
  {
    AliasFamily(f, k);
    TrimSpaceFixedPoint(k);
  }

  /** Two spellings on one line are interchangeable. */
  lemma AliasInvariance(word: string, f: Family, k1: string, k2: string)
    requires k1 in f.Aliases() && k2 in f.Aliases()
    ensures Josa(word, k1) == Josa(word, k2)
    ensures Concat(word, k1) == Concat(word, k2)
  {
    ConcatOnSpelling(word, f, k1);
    ConcatOnSpelling(word, f, k2);
  }

  /** A resolved particle is itself a spelling of its family. */
  lemma ResolvedIsSpelling(word: string, f: Family)
    ensures Josa(word, f.Resolve(word)) == (f.Resolve(word), true)
  {
    FormsAreAliases(f);
    AliasFamily(f, f.Resolve(word));
    TrimSpaceFixedPoint(f.Resolve(word));
  }

  /** Resolving the answer of `Josa` again changes nothing: a resolved
      particle is a spelling of its own family, and an unknown spelling
      stays unknown. */
  lemma JosaIdempotent(word: string, s: string)
    ensures Josa(word, Josa(word, s).0) == Josa(word, s)
  {
    TrimSpaceIdempotent(s);
    var t := TrimSpace(s);
    if t in FunctionMap {
      ResolvedIsSpelling(word, FunctionMap[t]);
    }
  }

  /** The examples of the doc comments of `Josa` and `Concat`. */
  lemma DocumentedApple()
    ensures Josa("사과", "은는") == ("는", true)
    ensures Concat("사과", "은는") == "사과는"
  {
    DocumentedWords();
    ConcatOnSpelling("사과", Topic, "은는");
  }

  lemma DocumentedCloud()
    ensures Josa("구름", "와과") == ("과", true)
    ensures Concat("구름", "와과") == "구름과"
  {
    DocumentedWords();
    ConcatOnSpelling("구름", Conjunctive, "와과");
  }

  /** A string of the letters 여, 이, 여 is on no line of the table. The
      seventh line lists "여이" where the pattern of the other lines would
      have "여이여". */
  lemma YeoIYeoOnNoLine(f: Family, u: string)
    requires |u| == 3 && u[0] == '여' && u[1] == '이' && u[2] == '여'
    ensures u !in f.Aliases()
  {
    if u in f.Aliases() {
      RowShaped(f, u);
      assert false;
    }
  }

  /** A spelling that mixes the letters of two families is on no line. */
  lemma MixedOnNoLine(f: Family, u: string)
    requires |u| == 2 && u[0] == '은' && u[1] == '가'
    ensures u !in f.Aliases()
  {
    if u in f.Aliases() {
      RowShaped(f, u);
      assert false;
    }
  }

  /** A spelling on no line is no key. */
  lemma NoLineNoKey(u: string)
    requires forall f: Family :: u !in f.Aliases()
    ensures u !in FunctionMap
  {
    if u in FunctionMap {
      KeyOnItsLine(u);
    }
  }

  /** Unknown spellings pass through `Josa` unresolved, and `Concat`
      appends them as they were given. */
  lemma YeoIYeoPassesThrough(word: string)
    ensures Josa(word, "여이여") == ("여이여", false)
    ensures Concat(word, "여이여") == word + "여이여"
  {
    forall f: Family { YeoIYeoOnNoLine(f, "여이여"); }
    NoLineNoKey("여이여");
    TrimSpaceFixedPoint("여이여");
  }

  lemma MixedPassesThrough(word: string)
    ensures Josa(word, "은가 ") == ("은가", false)
    ensures Concat(word, "은가 ") == word + "은가 "
  {
    forall f: Family { MixedOnNoLine(f, "은가"); }
    NoLineNoKey("은가");
    TrimSpacePadded([], "은가", " ");
    assert [] + "은가" + " " == "은가 ";
  }
}
