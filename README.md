# josa: Korean particle selection and `{{…}}` templates, modelled in Dafny

The Go library josa chooses the Korean particle (josa) that follows a word.
The choice depends on whether the word's last syllable ends in a final
consonant (jongseong). The library also renders templates such as
`"새{{이/가}} 벌레{{을/를}} 잡는다."`, putting the right particle in place of
each `{{…}}` marker. This project models the whole of `josa.go` and proves
what its doc comments, its tests and its code promise.

Modules, in dependency order:

- `GoText` (gotext.dfy) restates the pieces of Go that the code relies on,
  over strings of codepoints:
  - Go's truncating `%` on runes, as `GoRem`;
  - `utf8.DecodeLastRuneInString`, as `LastRune`, which gives U+FFFD for "";
  - `unicode.IsSpace` and `strings.TrimSpace`.
- `Hangul` (hangul.dfy) holds `HasJongseong`. It also states the syllable
  composition of section 3.12 of the Unicode Standard, which the
  `(c - 0xAC00) % 28` test relies on.
- `Particles` (particles.dfy) holds:
  - the eight resolvers;
  - the alias table `functionMap`, as `FunctionMap: map<string, Family>`, where
    `Family` is the closed set of the eight resolvers;
  - `Josa` and `Concat`.

  It proves that each line of the table names exactly one family.
- `Template` (template.dfy) holds `Format` and `evaluateJosaList`:
  - The package state (`josaList`, filled once) is the class
    `Template.Formatter`.
  - The loops of `Format` are the methods `FormatIn` and `SpliceEach`. Each is
    proved equal to a specification function: `FormatWith`, `Stage` and
    `SpliceAll`.
  - The regular expression `([가-힣ㄱ-ㅣ]+)\{\{key\}\}` is a hand-written
    matcher. `Anchored` is a marker with a Hangul letter before it. `RunStart`
    is the greedy reach of `+`. `FindAll` lists every match, in order.
  - Every splice reuses the offsets found before the first splice of its
    stage, as the Go code does.
  - A slice bound past the end of the string, which panics in Go, is the
    outcome `Panicked`.
  - The same module also defines the corrected stage, `RebuiltStage` and
    `FormatRebuilt`. It builds the result from the pieces of the original
    string, so no offset goes stale.
- `TemplateFacts` (templatefacts.dfy) proves general facts:
  - a template is left alone exactly when nothing matches;
  - with at most one match per stage, `Format`'s stage and the corrected
    stage agree.
- `Slots` (slots.dfy) describes a template as the documentation writes one:
  a head, then slots `word{{key}}tail`. It computes what each stage finds and
  produces.
- `FormatResults` (formatresults.dfy) proves the documented behaviour:
  - in a template written as slots, when no key of the table is written
    twice (a spelling that is no key may repeat),
    `Format` replaces every marker of a key by the word's particle, in every
    order in which Go may range over the map;
  - the doc-comment examples and the test of `TestFormat` come out as
    documented.
- `FormatQuirks` (formatquirks.dfy) proves two behaviours the documentation
  does not mention:
  - the map order decides the result when two markers are glued together;
  - a key of the table written twice makes `Format` panic or garble the output.

Behaviours of the code that are easy to miss:

- **`Josa` on an unknown spelling.** The doc comment of `Josa`
  (josa.go:58) promises an empty string. The code returns the trimmed
  spelling, and the model follows the code.
- **`Concat` on an unknown spelling.** `Concat` appends the caller's string
  untrimmed (josa.go:99-107), because `Josa` trims only a copy.
- **Order of the spellings.** The order in which ranging over the map hands
  out the spellings can change `Format`'s result
  (`FormatQuirks.GluedOrderMatters`).
- **`HasJongseong` outside the syllable block.** `HasJongseong` gives false
  for every codepoint below U+AC00. It gives true for the empty string, which
  decodes to U+FFFD. Above the block, the arithmetic of josa.go:54 goes on
  unchanged.

The seventh line of `functionMap` lists "여이" where the pattern of the other
lines would give "여이여". The model keeps the table as written.
`Particles.YeoIYeoPassesThrough` shows that "여이여" is not a key.

## Model

| member | source | states |
|---|---|---|
| GoText.GoRem | josa.go:54 | Go's `%`: the remainder has the sign of the dividend, is smaller than the divisor in magnitude, and completes the truncating quotient |
| GoText.LastRune | josa.go:53 | the last codepoint of the word, and U+FFFD for the empty string |
| GoText.TrimSpace | josa.go:78 | the trimmed spelling is the infix left once all leading and trailing white space is cut, and neither starts nor ends with white space |
| GoText.TrimSpaceIdempotent | josa.go:78 | trimming twice is trimming once |
| GoText.TrimSpacePadded | josa.go:78 | white space around a spelling is exactly what trimming removes |
| Hangul.HasJongseong | josa.go:52-55 | for a last codepoint at or above U+AC00: true iff its offset from U+AC00 is not a multiple of 28; below U+AC00: false; on "": true |
| Hangul.HasJongseongLastOnly | josa.go:53-54 | the answer depends on the last codepoint only |
| Hangul.HasJongseongComposed | josa.go:54 | for the syllable composed of initial, vowel and final: true iff the final index is not 0 |
| Hangul.DocumentedWords | josa_test.go:13-20 | the test words: 사과, 과자 and 코드 have no final consonant; 구름, 곰 and 맛있는 것 have one |
| Particles.EunNeun | josa.go:139-146 | 은 iff the word has a final consonant, 는 iff it has none |
| Particles.EulReul | josa.go:148-155 | 을 iff final consonant, 를 iff none |
| Particles.IGa | josa.go:157-164 | 이 iff final consonant, 가 iff none |
| Particles.GwaWa | josa.go:166-173 | 과 iff final consonant, 와 iff none |
| Particles.EuroRo | josa.go:175-182 | 으로 iff final consonant, 로 iff none |
| Particles.AYa | josa.go:184-191 | 아 iff final consonant, 야 iff none |
| Particles.IyeoYeo | josa.go:193-200 | 이여 iff final consonant, 여 iff none |
| Particles.IrangRang | josa.go:202-209 | 이랑 iff final consonant, 랑 iff none |
| Particles.Family.Resolve | josa.go:139-209 | the resolver a family names answers its coda form after a final consonant and its plain form otherwise |
| Particles.FormsAreAliases | josa.go:12-21 | the two forms of a family differ, and both are spellings on the family's own line |
| Particles.AliasFamily | josa.go:13-20 | `FunctionMap`: every spelling on a family's line is a key of the map, is plain (no white space at either end, no brace) and maps to that family |
| Particles.KeyOnItsLine | josa.go:12-21 | `FunctionMap`: conversely, every key lies on the line of the family it maps to |
| Particles.NotEarlier | josa.go:13-20 | no spelling appears on two lines of the table |
| Particles.Josa | josa.go:77-87 | the flag is true iff the trimmed spelling is a key; on a hit the answer is the family's particle, and on a miss it is the trimmed spelling |
| Particles.Concat | josa.go:99-107 | the word is a prefix of the result; on a hit the rest is the family's particle; on a miss the result is word + the untrimmed spelling |
| Particles.JosaOnSpelling | josa.go:78-83 | any spelling of a family, padded with white space, resolves through that family |
| Particles.ConcatOnSpelling | josa.go:99-107 | `Concat` on a spelling of a family is word + that family's particle |
| Particles.AliasInvariance | josa.go:13-20 | two spellings on one line give the same `Josa` and the same `Concat` for every word |
| Particles.ResolvedIsSpelling | josa.go:77-87 | a resolved particle is itself a key that resolves to itself |
| Particles.JosaIdempotent | josa.go:77-87 | applying `Josa` to its own answer changes nothing |
| Particles.DocumentedApple | josa.go:60-62 | Josa("사과", "은는") is ("는", true), and Concat gives "사과는" |
| Particles.DocumentedCloud | josa.go:63-65 | Josa("구름", "와과") is ("과", true), and Concat gives "구름과" |
| Particles.YeoIYeoOnNoLine | josa.go:19 | the spelling 여이여 is on no line of the table |
| Particles.MixedOnNoLine | josa.go:13-20 | a spelling mixing two families' letters (은가) is on no line |
| Particles.NoLineNoKey | josa.go:12-21 | a spelling on no line is not a key |
| Particles.YeoIYeoPassesThrough | josa.go:77-107 | Josa(w, "여이여") is ("여이여", false), and Concat appends it unchanged |
| Particles.MixedPassesThrough | josa.go:77-107 | Josa(w, "은가 ") is ("은가", false) after trimming, while Concat appends "은가 " untrimmed |
| Template.HangulClass | josa.go:124 | `IsHangul`, the class `[가-힣ㄱ-ㅣ]`: its letters are neither white space (`IsSpace`) nor braces; each is a syllable or lies below the syllable block, and a word ending in such a jamo has no final consonant |
| Template.Marker | josa.go:124 | the literal `{{key}}` has the key between two opening and two closing braces |
| Template.RunStart | josa.go:124 | the greedy `[가-힣ㄱ-ㅣ]+`: every letter from the start to the marker is Hangul, and the one before the start is not |
| Template.MatchAt | josa.go:126 | a match starts where the greedy run of Hangul letters before its marker starts, its word ends where the marker starts, and the match ends after the marker |
| Template.FindAllSpec | josa.go:126 | `FindAll`: every match reported has a Hangul-preceded marker of the key, every such marker is reported, and the matches are in increasing order |
| Template.FindAllAscending | josa.go:126 | the matches of one key do not overlap |
| Template.AnchoredApart | josa.go:124-126 | two markers of one key are separated by at least a whole marker |
| Template.ConcatShorterThanMarker | josa.go:129-131 | the spliced word and particle are shorter than the word and marker they replace |
| Template.Splice | josa.go:128-132 | a splice panics iff the match ends past the string; otherwise the text before the match is kept and the string gets shorter |
| Template.SpliceAll | josa.go:127-133 | the inner loop never lengthens the string, and shortens it when anything was spliced |
| Template.Stage | josa.go:124-133 | one spelling's stage leaves the string unchanged iff its pattern finds nothing |
| Template.FormatWith | josa.go:123-136 | the result is never longer than the template |
| Template.Formatter.constructor | josa.go:23-24 | a freshly loaded package has no list yet |
| Template.Formatter.EvaluateJosaList | josa.go:27-42 | the first call fills the list with every key of the map, each once; later calls keep the list |
| Template.Formatter.Format | josa.go:120-137 | after building the list, the result is `FormatWith` of the template in the list's order |
| Template.EnumerationSize | josa.go:35 | a list of every key, each once, is as long as the map |
| Template.FormatIn | josa.go:123-136 | the outer loop computes `FormatWith` over the given list |
| Template.SpliceEach | josa.go:127-133 | the inner loop computes `SpliceAll` with the offsets found before the first splice |
| TemplateFacts.QuietSkip | josa.go:124-126 | a stretch without `{{` holds no match |
| TemplateFacts.QuietFindsNothing | josa.go:124-126 | a string without `{{` has no match of any key |
| TemplateFacts.MarkerKeyUnique | josa.go:124 | at most one brace-free key has its marker at a given place |
| TemplateFacts.FormatFixedPoint | josa.go:120-137 | `Format` returns the template unchanged iff no spelling of the list matches in it |
| TemplateFacts.QuietUnchanged | josa.go:120-137 | a template without `{{` comes out unchanged |
| TemplateFacts.StageAgrees | josa.go:126-133 | with at most one match, the stale-offset stage equals the rebuilt stage |
| Slots.ConcatNoBrace | josa.go:129 | neither a particle nor an unknown brace-free spelling brings in a brace |
| Slots.PieceScan | josa.go:124-126 | a slot holds exactly its own match of a key and no other |
| Slots.FindAllText | josa.go:126 | in a well-formed template, the matches of a key are exactly one per slot of that key, around its word and marker |
| Slots.ExpectedAtMostOne | josa.go:126 | when a spelling is written in one slot at most, it matches at most once |
| Slots.RebuiltStageText | josa.go:126-133 | the corrected stage replaces every slot of the key by word + particle, however often the key occurs |
| Slots.StageText | josa.go:124-133 | `Format`'s stage replaces the slot of the key by word + particle when the key is written in one slot at most |
| Slots.FormatText | josa.go:123-134 | `Format` over a list of keys performs their stages in turn, when no key is written in two slots |
| Slots.FormatRebuiltText | josa.go:123-134 | the corrected `Format` performs the stages in turn for any template |
| FormatResults.SlotResolves | josa.go:129 | a slot of a listed spelling resolves through `Concat`, and any other slot stays as it is |
| FormatResults.ReplaceAllResolves | josa.go:123-134 | the stages of every key, in any order, give the reference resolution |
| FormatResults.EnumeratedPlain | josa.go:12-21 | every key of the map is plain and brace-free |
| FormatResults.FormatResolves | josa.go:109-137 | in a template in which no key of the table is written twice (other spellings may repeat), in every map order, each `word{{key}}` of a known key becomes word + the particle and everything else is kept |
| FormatResults.FormatRebuiltResolves | josa.go:109-137 | the corrected `Format` gives that same rendering, repeated spellings included |
| FormatResults.ResolvedNoBrace | josa.go:127-133 | when every marker names a key, the reference resolution holds no brace |
| FormatResults.FormatLeavesNoBrace | josa.go:120-137 | in a template with no key written twice whose markers all name keys, `Format` does not panic and leaves no `{` behind |
| FormatResults.MarkedResolves | josa.go:129 | a slot with a spelling of a family resolves to word + that family's particle |
| FormatResults.FormatTwo | josa.go:120-137 | a template of two slots with different spellings renders with both particles, in every map order |
| FormatResults.FourSlotsFormat | josa.go:120-137 | a template of four slots with different spellings renders with all four particles, in every map order |
| FormatResults.DocumentedEarlyBird | josa.go:115-116 | "일찍 일어나는 새{{이/가}} 벌레{{을/를}} 잡는다." renders as "일찍 일어나는 새가 벌레를 잡는다." in every map order |
| FormatResults.DocumentedIThink | josa.go:118-119 | "나{{은}} 생각한다. 고로 나{{은(는)}} 존재한다." renders as "나는 생각한다. 고로 나는 존재한다." in every map order |
| FormatResults.TestedJourney | josa_test.go:66-73 | the template of `TestFormat` renders as "구름과 고양이와 멍멍이는 화성으로 기나긴 여행을 떠난다" in every map order |
| FormatResults.UnknownSpellingRepeated | josa.go:120-137 | "가{{ab}} 나{{ab}} 다{{이}}", whose repeated spelling is no key, renders as "가{{ab}} 나{{ab}} 다가" in every map order |
| FormatQuirks.FormatWithStep | josa.go:123-134 | the outer loop is the first stage followed by the loop over the rest |
| FormatQuirks.FormatWithAppend | josa.go:123-134 | the loop over a + b is the loop over a, then the loop over b on its outcome, with a panic carried through |
| FormatQuirks.BeforeOrAfter | josa.go:38 | of two different keys in an enumeration, exactly one comes first |
| FormatQuirks.TwoStages | josa.go:123-134 | when only two keys match, the result is their two stages in list order |
| FormatQuirks.GluedScan | josa.go:124-126 | in `w{{k1}}{{k2}}`, only k1 matches, once, around w and its marker |
| FormatQuirks.GluedOrderMatters | josa.go:38 | `w{{k1}}{{k2}}` renders as w + both particles when k1 comes first in the map order, but leaves `{{k2}}` in place when k2 comes first |
| FormatQuirks.GluedExample | josa.go:123-133 | "나{{은}}{{이}}" renders as "나는이" or as "나는{{이}}", depending on the map order |
| FormatQuirks.StagePanicsOnSecond | josa.go:127-133 | a stage whose second match ends at the end of the original string panics |
| FormatQuirks.RepeatedSpellingPanics | josa.go:126-133 | `w1{{k}}t1 w2{{k}}` with one key written twice panics in every map order |
| FormatQuirks.StageOfTwo | josa.go:127-133 | a stage with two matches splices the second one into the string the first splice left, at the offsets found before it |
| FormatQuirks.TwoSlotsStale | josa.go:124-133 | on `w1{{k}}t1 w2{{k}}t2`, the stage of k resolves the first slot and then splices at the second slot's original offset in the shortened string |
| FormatQuirks.RepeatedSpellingStale | josa.go:120-137 | for that template, in every map order, `Format`'s outcome is that stale splice followed by the stages of the spellings listed after k |
| FormatQuirks.OneClosingFindsNothing | josa.go:124-126 | a string with a single `}` holds no match of any key |
| FormatQuirks.GarbledExample | josa.go:120-137 | "가{{이}} 나{{이}} 다라마바" renders as the garbled "가가 나{{이}가바" in every map order; the corrected `Format` gives "가가 나가 다라마바" |
| FormatQuirks.RepeatedSpellingRebuilt | josa.go:126-133 | the corrected `Format` renders `w1{{k}}t1 w2{{k}}t2` as w1 + particle + t1 + w2 + particle + t2 |
| FormatQuirks.TwiceExample | josa.go:126-133 | "가{{이}} 나{{이}}" panics under `Format` in every map order; the corrected `Format` gives "가가 나가" |

## Left out

- The mutex and the lazy-build guard of josa.go:24-33 are concurrency
  machinery. The model keeps the once-only build as the `evaluated` flag of
  `Template.Formatter`, with no locking.
- `regexp.MustCompile`, `regexp.QuoteMeta` and `fmt.Sprintf` (josa.go:124)
  are library calls. They are replaced by the explicit matcher of
  `Template`, which assumes what every key of the table satisfies: no brace.
- UTF-8 decoding and byte offsets are left out. Strings are sequences of
  codepoints, so match offsets count codepoints where Go counts bytes.
  - For "가{{이}} 나{{이}}", Go also panics: after the first splice the
    string is 17 bytes long, and the second match ends at byte 21.
  - For "가{{이}} 나{{이}} 다라마바", Go also garbles the string, into
    different text: its stale byte offsets cut through the UTF-8 of 이.
  - For other templates with repeated spellings, the two measures can garble
    or panic at different places.
- `Template.Formatter.EvaluateJosaList` does not model Go's randomised map
  iteration. The order is an arbitrary choice (`:|`), and every result about
  `Format` holds for every enumeration of the keys (`IsKeyEnumeration`).
- GoText.LastRune: the decoding of malformed UTF-8 is not modelled, because
  a string of codepoints has no malformed bytes.
- Particles.Josa: on a miss it returns the trimmed spelling, as the code
  does, not the empty string that its doc comment promises.
- Template.Formatter.Format: a Go run-time panic becomes the `Panicked`
  outcome; unwinding the caller is not modelled.
- `Slots` and `FormatResults` cover templates written as slots: each
  `word{{key}}` has a whole Hangul run as its word, and no other text opens a
  brace.
  - A marker with no Hangul letter before it, or with a brace inside, is
    covered only by `TemplateFacts.FormatFixedPoint` and
    `TemplateFacts.QuietUnchanged`.
  - Glued markers are covered by `FormatQuirks.GluedOrderMatters`.
  - Between two slots there must be text that ends in a letter outside the
    class. A marker glued directly to the next word, as in
    "철수{{와}}영희{{가}} 왔다", is not covered.
- FormatResults.FormatResolves: does not cover a marker glued directly to the
  next slot's word, as in "철수{{와}}영희{{가}} 왔다", which Go renders as
  "철수와영희가 왔다" in both orders. After the first stage, the next match's
  greedy word reaches back into the resolved text, so the slot description of
  the intermediate string no longer holds.
- FormatResults.FormatLeavesNoBrace: does not cover a marker glued directly
  to the next slot's word, for the same reason.
- josa_test.go is used only as a source of expected values. Its tests are
  stated as lemmas.

## Findings

| source | as written | input that shows it | evidently intended | confidence | as-written member | corrected member |
|---|---|---|---|---|---|---|
| josa.go:126-133 | the matches of a spelling are found once. Each splice then shortens the string, yet later splices reuse the old offsets. When a spelling is written twice and the second slot ends the template, the second slice bound runs past the end, and Go panics. | "가{{이}} 나{{이}}" | "가가 나가": every marker replaced, as the doc comment describes | high (proved on the model; not executed) | FormatQuirks.RepeatedSpellingPanics | FormatQuirks.RepeatedSpellingRebuilt |
| josa.go:126-133 | the same stale offsets. When text follows the second slot, the second splice takes the wrong stretch for the word and the marker, and `Format` returns a garbled string. | "가{{이}} 나{{이}} 다라마바" gives "가가 나{{이}가바" | "가가 나가 다라마바" | high (proved on the model; not executed) | FormatQuirks.GarbledExample | FormatQuirks.RepeatedSpellingRebuilt |
