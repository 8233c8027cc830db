/**
 * The key model of the terminal layer: a key code plus a `u8` modifier
 * bitset, with equality and hashing both defined through case
 * normalisation.
 */
module KeyInput {
  import opened Component

  datatype KeyCode =
    | Backspace
    | Enter
    | Left
    | Right
    | Up
    | Down
    | Home
    | End
    | PageUp
    | PageDown
    | Tab
    | BackTab
    | Delete
    | Insert
    | F(n: u8)
    | Char(c: char)
    | Null
    | Esc

  /** The `KeyModifiers` bitset, stored as its `u8` bits. */
  type KeyModifiers = bv8

  const SHIFT: KeyModifiers := 0x01
  const CONTROL: KeyModifiers := 0x02
  const ALT: KeyModifiers := 0x04
  const NONE: KeyModifiers := 0x00

  predicate Contains(modifiers: KeyModifiers, flag: KeyModifiers) {
    modifiers & flag == flag
  }

  function Insert(modifiers: KeyModifiers, flag: KeyModifiers): (r: KeyModifiers)
    ensures Contains(r, flag)
    ensures forall other: KeyModifiers :: Contains(modifiers, other) ==> Contains(r, other)
  {
    modifiers | flag
  }

  datatype KeyEvent = KeyEvent(code: KeyCode, modifiers: KeyModifiers)

  /** `KeyEvent::new`. */
  function New(code: KeyCode, modifiers: KeyModifiers): (e: KeyEvent)
    ensures e.code == code && e.modifiers == modifiers
  {
    KeyEvent(code, modifiers)
  }

  /** `From<KeyCode> for KeyEvent`: a bare key with no modifiers held. */
  function FromCode(code: KeyCode): (e: KeyEvent)
    ensures e.code == code
    ensures !Contains(e.modifiers, SHIFT) && !Contains(e.modifiers, CONTROL) && !Contains(e.modifiers, ALT)
    ensures e.modifiers == NONE
  {
    KeyEvent(code, NONE)
  }

  predicate IsAsciiUppercase(c: char) {
    'A' <= c <= 'Z'
  }

  predicate IsAsciiLowercase(c: char) {
    'a' <= c <= 'z'
  }

  predicate IsAsciiAlphabetic(c: char) {
    IsAsciiUppercase(c) || IsAsciiLowercase(c)
  }

  /** `char::to_ascii_uppercase`: maps `a`..`z` to `A`..`Z`, everything else to itself. */
  function ToAsciiUppercase(c: char): (r: char)
    ensures IsAsciiLowercase(c) ==> IsAsciiUppercase(r) && r as int == c as int - 32
    ensures !IsAsciiLowercase(c) ==> r == c
  {
    if IsAsciiLowercase(c) then (c as int - 32) as char else c
  }

  /**
   * `KeyEvent::normalize_case`. An uppercase ASCII letter gains SHIFT; any
   * other character held with SHIFT is replaced by its ASCII uppercase, and
   * SHIFT stays set. Keys other than characters are returned as they are.
   */
  function NormalizeCase(e: KeyEvent): (r: KeyEvent)
    ensures r.code.Char? <==> e.code.Char?
    ensures r.code.Char? ==> ToAsciiUppercase(r.code.c) == ToAsciiUppercase(e.code.c)
    ensures Contains(e.modifiers, SHIFT) ==> r.modifiers == e.modifiers
    ensures r.modifiers & (CONTROL | ALT) == e.modifiers & (CONTROL | ALT)
  {
    match e.code
    case Char(c) =>
      if IsAsciiUppercase(c) then KeyEvent(e.code, Insert(e.modifiers, SHIFT))
      else if Contains(e.modifiers, SHIFT) then KeyEvent(Char(ToAsciiUppercase(c)), e.modifiers)
      else e
    case _ => e
  }

  /**
   * The normal form `normalize_case` aims at, stated without it: a
   * character held with SHIFT is already its own ASCII uppercase, and an
   * ASCII uppercase letter is held with SHIFT.
   */
  predicate IsNormal(e: KeyEvent) {
    e.code.Char? ==>
      && (IsAsciiUppercase(e.code.c) ==> Contains(e.modifiers, SHIFT))
      && (Contains(e.modifiers, SHIFT) ==> ToAsciiUppercase(e.code.c) == e.code.c)
  }

  /**
   * `PartialEq for KeyEvent`: equal normalised code and modifiers. Identical
   * events are equal, two keys other than characters are equal only when
   * identical, and equal events agree on CONTROL and ALT.
   */
  function Eq(a: KeyEvent, b: KeyEvent): (r: bool)
    ensures a == b ==> r
    ensures !a.code.Char? ==> (r <==> a == b)
    ensures r ==> a.modifiers & (CONTROL | ALT) == b.modifiers & (CONTROL | ALT)
  {
    var na, nb := NormalizeCase(a), NormalizeCase(b);
    na.code == nb.code && na.modifiers == nb.modifiers
  }

  /** What `Hash for KeyEvent` writes into a hasher. */
  datatype HashWord = CodeWord(code: KeyCode) | ModifiersWord(bits: KeyModifiers)

  /**
   * `Hash for KeyEvent`: the hasher state, seen as the words written into
   * it so far, after the normalised code and then the normalised modifiers
   * are written. Any `Hasher::finish` is a function of this sequence.
   */
  function Hash(e: KeyEvent, state: seq<HashWord>): (r: seq<HashWord>)
    ensures |r| == |state| + 2 && r[..|state|] == state
  {
    var n := NormalizeCase(e);
    state + [CodeWord(n.code), ModifiersWord(n.modifiers)]
  }

  // ---------------------------------------------------------------------
  // Properties of normalisation

  /** Keys other than characters are untouched, modifiers included. */
  lemma NormalizeNonCharUnchanged(e: KeyEvent)
    requires !e.code.Char?
    ensures NormalizeCase(e) == e
  {
  }

  /**
   * An ASCII uppercase character keeps its code and gains SHIFT; CONTROL
   * and ALT are left as they were.
   */
  lemma NormalizeUppercaseAddsShift(c: char, m: KeyModifiers)
    requires IsAsciiUppercase(c)
    ensures NormalizeCase(KeyEvent(Char(c), m)).code == Char(c)
    ensures Contains(NormalizeCase(KeyEvent(Char(c), m)).modifiers, SHIFT)
    ensures NormalizeCase(KeyEvent(Char(c), m)).modifiers & (CONTROL | ALT) == m & (CONTROL | ALT)
  {
  }

  /**
   * A character that is not ASCII uppercase, held with SHIFT, becomes its
   * ASCII uppercase and SHIFT stays set: the modifiers do not change at all.
   */
  lemma NormalizeShiftedKeepsShift(c: char, m: KeyModifiers)
    requires !IsAsciiUppercase(c) && Contains(m, SHIFT)
    ensures NormalizeCase(KeyEvent(Char(c), m)) == KeyEvent(Char(ToAsciiUppercase(c)), m)
    ensures Contains(NormalizeCase(KeyEvent(Char(c), m)).modifiers, SHIFT)
    ensures !IsAsciiLowercase(c) ==> NormalizeCase(KeyEvent(Char(c), m)) == KeyEvent(Char(c), m)
  {
  }

  /** A character that is not ASCII uppercase, held without SHIFT, is unchanged. */
  lemma NormalizeUnshiftedUnchanged(c: char, m: KeyModifiers)
    requires !IsAsciiUppercase(c) && !Contains(m, SHIFT)
    ensures NormalizeCase(KeyEvent(Char(c), m)) == KeyEvent(Char(c), m)
  {
  }

  /** `normalize_case` always lands in the normal form. */
  lemma NormalizeCaseIsNormal(e: KeyEvent)
    ensures IsNormal(NormalizeCase(e))
  {
    if e.code.Char? {
      var c := e.code.c;
      if IsAsciiUppercase(c) {
        assert Contains(Insert(e.modifiers, SHIFT), SHIFT);
      } else if Contains(e.modifiers, SHIFT) {
        assert ToAsciiUppercase(ToAsciiUppercase(c)) == ToAsciiUppercase(c);
      }
    }
  }

  /** The normal form is exactly the set of fixed points of `normalize_case`. */
  lemma NormalFormIsFixedPoint(e: KeyEvent)
    ensures IsNormal(e) <==> NormalizeCase(e) == e
  {
    if e.code.Char? {
      var c := e.code.c;
      if IsAsciiUppercase(c) {
        if Contains(e.modifiers, SHIFT) {
          assert Insert(e.modifiers, SHIFT) == e.modifiers;
        } else {
          assert Insert(e.modifiers, SHIFT) != e.modifiers by {
            assert Contains(Insert(e.modifiers, SHIFT), SHIFT);
          }
        }
      }
    }
  }

  /** `normalize_case` is idempotent. */
  lemma NormalizeCaseIdempotent(e: KeyEvent)
    ensures NormalizeCase(NormalizeCase(e)) == NormalizeCase(e)
  {
    NormalizeCaseIsNormal(e);
    NormalFormIsFixedPoint(NormalizeCase(e));
  }

  /**
   * For an ASCII letter, the normalised event holds SHIFT exactly when its
   * code is an uppercase letter (the intent stated beside `normalize_case`).
   */
  lemma NormalizedLetterShiftIffUppercase(e: KeyEvent)
    requires e.code.Char? && IsAsciiAlphabetic(e.code.c)
    ensures NormalizeCase(e).code.Char?
    ensures IsAsciiUppercase(NormalizeCase(e).code.c) <==> Contains(NormalizeCase(e).modifiers, SHIFT)
  {
    NormalizeCaseIsNormal(e);
  }

  // ---------------------------------------------------------------------
  // Properties of equality and hashing

  lemma EqReflexive(a: KeyEvent)
    ensures Eq(a, a)
  {
  }

  lemma EqSymmetric(a: KeyEvent, b: KeyEvent)
    ensures Eq(a, b) <==> Eq(b, a)
  {
  }

  lemma EqTransitive(a: KeyEvent, b: KeyEvent, c: KeyEvent)
    requires Eq(a, b) && Eq(b, c)
    ensures Eq(a, c)
  {
  }

  /** Equality is exactly equality of normal forms. */
  lemma EqIffSameNormalForm(a: KeyEvent, b: KeyEvent)
    ensures Eq(a, b) <==> NormalizeCase(a) == NormalizeCase(b)
  {
  }

  /** Every event is equal to its own normal form. */
  lemma EqNormalized(a: KeyEvent)
    ensures Eq(a, NormalizeCase(a))
  {
    NormalizeCaseIdempotent(a);
  }

  /**
   * A lowercase letter held with SHIFT (and any other modifiers) equals the
   * uppercase letter held with the same modifiers, with or without SHIFT.
   */
  lemma ShiftedLowercaseEqualsUppercase(c: char, m: KeyModifiers)
    requires IsAsciiLowercase(c)
    ensures Eq(KeyEvent(Char(c), m | SHIFT), KeyEvent(Char(ToAsciiUppercase(c)), m & !SHIFT))
    ensures Eq(KeyEvent(Char(c), m | SHIFT), KeyEvent(Char(ToAsciiUppercase(c)), m | SHIFT))
  {
    assert (m & !SHIFT) | SHIFT == m | SHIFT;
  }

  /** `Char('a')` with SHIFT equals `Char('A')` with no modifiers. */
  lemma ShiftedAEqualsUppercaseA()
    ensures Eq(New(Char('a'), SHIFT), FromCode(Char('A')))
  {
    ShiftedLowercaseEqualsUppercase('a', NONE);
  }

  /** Without SHIFT, case is significant: `Char('a')` differs from `Char('A')`. */
  lemma UnshiftedCaseDistinguishes()
    ensures !Eq(FromCode(Char('a')), FromCode(Char('A')))
  {
    assert NormalizeCase(FromCode(Char('a'))).code == Char('a');
  }

  /** For a non-letter SHIFT still matters: `'1'` with SHIFT differs from `'1'`. */
  lemma ShiftDistinguishesNonLetters()
    ensures !Eq(New(Char('1'), SHIFT), FromCode(Char('1')))
  {
    assert NormalizeCase(New(Char('1'), SHIFT)).modifiers == SHIFT;
    assert NormalizeCase(FromCode(Char('1'))).modifiers == NONE;
  }

  /** Equal events write the same words into any hasher state. */
  lemma HashAgreesWithEq(a: KeyEvent, b: KeyEvent, state: seq<HashWord>)
    requires Eq(a, b)
    ensures Hash(a, state) == Hash(b, state)
  {
  }

  /** And the converse: events that hash to the same words are equal. */
  lemma HashDeterminesEq(a: KeyEvent, b: KeyEvent, state: seq<HashWord>)
    requires Hash(a, state) == Hash(b, state)
    ensures Eq(a, b)
  {
    var ha, hb := Hash(a, state), Hash(b, state);
    assert ha[|state|] == hb[|state|] && ha[|state| + 1] == hb[|state| + 1];
  }
}
