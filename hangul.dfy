/** The final-consonant (jongseong) test of josa.go:52-55, and the Hangul
    syllable composition it relies on (section 3.12 of the Unicode Standard:
    a precomposed syllable is SBase + (LIndex * VCount + VIndex) * TCount +
    TIndex, where TIndex is 0 for a syllable without a final consonant). */
module Hangul {
  import opened GoText

  const SBase := 0xAC00   // first precomposed syllable, 가
  const SLast := 0xD7A3   // last precomposed syllable, 힣
  const LCount := 19      // initial consonants
  const VCount := 21      // vowels
  const TCount := 28      // final consonants, counting "none"

  /** A codepoint of the Hangul Syllables block. */
  predicate IsSyllable(c: char) {
    SBase <= c as int <= SLast
  }

  /** The syllable with initial `l`, vowel `v` and final `t`. */
  function ComposeSyllable(l: nat, v: nat, t: nat): (c: char)
    requires l < LCount && v < VCount && t < TCount
    ensures IsSyllable(c)
  {
    (SBase + (l * VCount + v) * TCount + t) as char
  }

  /** HasJongseong: Go decodes the last rune `c` (U+FFFD for the empty
      string) and answers `(c - 0xAC00) % 28 > 0` with Go's truncating `%`.
      On a syllable that is "its final index is not 0", and the same
      arithmetic goes on past the block; every codepoint below the block
      gives a non-positive remainder, so false. */
  function HasJongseong(word: string): (r: bool)
    ensures word != [] && word[|word| - 1] as int >= SBase ==>
              (r <==> (word[|word| - 1] as int - SBase) % TCount != 0)
    ensures word != [] && word[|word| - 1] as int < SBase ==> !r
    ensures word == [] ==> r
  {
    GoRem(LastRune(word) as int - SBase, TCount) > 0
  }

  /** The answer depends on the last codepoint only. */
  lemma HasJongseongLastOnly(prefix: string, c: char)
    ensures HasJongseong(prefix + [c]) == HasJongseong([c])
  {
  }

  /** The answer for a syllable built by the composition formula is exactly
      "it has a final consonant". */
  lemma HasJongseongComposed(prefix: string, l: nat, v: nat, t: nat)
    requires l < LCount && v < VCount && t < TCount
    ensures HasJongseong(prefix + [ComposeSyllable(l, v, t)]) <==> t != 0
  {
    var c := ComposeSyllable(l, v, t);
    var w := prefix + [c];
    assert w[|w| - 1] == c;
    assert c as int - SBase == (l * VCount + v) * TCount + t;
  }

  /** The words of the test table in josa_test.go:13-20. */
  lemma DocumentedWords()
    ensures !HasJongseong("사과") && !HasJongseong("과자") && !HasJongseong("코드")
    ensures HasJongseong("구름") && HasJongseong("곰") && HasJongseong("맛있는 것")
  {
  }
}
