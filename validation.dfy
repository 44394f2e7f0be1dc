/**
 * Form validators of OpenLearn's application script: the e-mail shape and the
 * password shape. Each validator is an executable predicate; its partner is the
 * regular expression it implements, written out as a ghost predicate over
 * positions, and a lemma proves the two agree on every string.
 *
 * A `char` stands for one UTF-16 code unit of the JavaScript string.
 */
module Validation {

  /** JavaScript's `\s`: the ECMAScript white-space and line-terminator code points. */
  predicate EstEspace(c: char) {
    || c == ' ' || c == '\t' || c == '\n' || c == '\r' || c == '\U{B}' || c == '\U{C}'
    || c == '\U{A0}' || c == '\U{1680}' || ('\U{2000}' <= c <= '\U{200A}')
    || c == '\U{2028}' || c == '\U{2029}' || c == '\U{202F}' || c == '\U{205F}'
    || c == '\U{3000}' || c == '\U{FEFF}'
  }

  /** The character class `[^\s@]`. */
  predicate CaractereAdresse(c: char) {
    !EstEspace(c) && c != '@'
  }

  /** A line terminator, the characters that `.` does not match without the `s` flag. */
  predicate FinDeLigne(c: char) {
    c == '\n' || c == '\r' || c == '\U{2028}' || c == '\U{2029}'
  }

  /** `[A-Z]` */
  predicate MajusculeAscii(c: char) {
    'A' <= c <= 'Z'
  }

  /** `\d` (without the `u` flag): `[0-9]` */
  predicate ChiffreAscii(c: char) {
    '0' <= c <= '9'
  }

  // ---------------------------------------------------------------------------
  // E-mail
  // ---------------------------------------------------------------------------

  /**
   * `/^[^\s@]+@[^\s@]+\.[^\s@]+$/` matches `s`: the string splits as
   * A "@" B "." C with A, B and C non-empty runs of `[^\s@]`. Position `i` holds
   * the "@", position `j` the literal "." the match chooses; every other
   * position, the "." included, is in `[^\s@]`.
   */
  ghost predicate CorrespondRegexEmail(s: string) {
    exists i, j :: 0 < i && i + 1 < j < |s| - 1 && s[i] == '@' && s[j] == '.' &&
      forall k :: 0 <= k < |s| && k != i ==> CaractereAdresse(s[k])
  }

  /** The first position of `c` in `s`, or `|s|` when `c` does not occur. */
  function IndexDe(s: string, c: char): (i: nat)
    ensures i <= |s|
    ensures i < |s| ==> s[i] == c
    ensures forall k :: 0 <= k < i ==> s[k] != c
  {
    if s == [] then 0
    else if s[0] == c then 0
    else 1 + IndexDe(s[1..], c)
  }

  /** `validerEmail`: the part before the first "@" is non-empty, no other
      character is "@" or white space, and a "." stands strictly inside what
      follows the "@". */
  function ValiderEmail(email: string): bool {
    var i := IndexDe(email, '@');
    && 0 < i < |email|
    && (forall k | 0 <= k < |email| && k != i :: CaractereAdresse(email[k]))
    && (exists j | i + 1 < j < |email| - 1 :: email[j] == '.')
  }

  /** `validerEmail` accepts exactly the strings its regular expression matches. */
  lemma ValiderEmailRegex(email: string)
    ensures ValiderEmail(email) <==> CorrespondRegexEmail(email)
  {
    var i := IndexDe(email, '@');
    if ValiderEmail(email) {
      var j :| i + 1 < j < |email| - 1 && email[j] == '.';
      assert 0 < i && i + 1 < j < |email| - 1 && email[i] == '@' && email[j] == '.';
    }
    if CorrespondRegexEmail(email) {
      var a, j :| 0 < a && a + 1 < j < |email| - 1 && email[a] == '@' && email[j] == '.' &&
        forall k :: 0 <= k < |email| && k != a ==> CaractereAdresse(email[k]);
      assert forall k :: 0 <= k < |email| && k != a ==> email[k] != '@';
      assert i == a;
    }
  }

  /** The part after the first character and before the last one. */
  function Interieur(d: string): string {
    if |d| < 2 then [] else d[1..|d| - 1]
  }

  /**
   * `validerEmail` read part by part: no white space, exactly one "@", a
   * non-empty part before it, and a "." in the part after it that is neither
   * that part's first nor its last character.
   */
  ghost predicate PartiesEmail(email: string) {
    && (forall k :: 0 <= k < |email| ==> !EstEspace(email[k]))
    && exists i :: 0 <= i < |email| && email[i] == '@' && '@' !in email[..i] &&
         '@' !in email[i + 1..] && email[..i] != [] && '.' in Interieur(email[i + 1..])
  }

  /** `validerEmail` accepts exactly the addresses that read part by part as above. */
  lemma ValiderEmailParties(email: string)
    ensures ValiderEmail(email) <==> PartiesEmail(email)
  {
    if ValiderEmail(email) {
      PartiesDepuisValide(email);
    }
    if PartiesEmail(email) {
      ValideDepuisParties(email);
    }
  }

  lemma PartiesDepuisValide(email: string)
    requires ValiderEmail(email)
    ensures PartiesEmail(email)
  {
    var i := IndexDe(email, '@');
    var j :| i + 1 < j < |email| - 1 && email[j] == '.';
    var d := email[i + 1..];
    assert d[j - i - 1] == '.';
    assert Interieur(d)[j - i - 2] == '.';
    forall k | 0 <= k < |email| ensures !EstEspace(email[k]) {
      if k != i {
        assert CaractereAdresse(email[k]);
      }
    }
    assert '@' !in email[i + 1..] by {
      forall k | i + 1 <= k < |email| ensures email[k] != '@' {
        assert CaractereAdresse(email[k]);
      }
    }
    assert '@' !in email[..i];
  }

  lemma ValideDepuisParties(email: string)
    requires PartiesEmail(email)
    ensures ValiderEmail(email)
  {
    var a :| 0 <= a < |email| && email[a] == '@' && '@' !in email[..a] &&
      '@' !in email[a + 1..] && email[..a] != [] && '.' in Interieur(email[a + 1..]);
    ArobaseUnique(email, a);
    assert forall k :: 0 <= k < |email| && k != a ==> CaractereAdresse(email[k]);
    var d := email[a + 1..];
    var m :| 0 <= m < |Interieur(d)| && Interieur(d)[m] == '.';
    assert |d| >= 2 && Interieur(d) == d[1..|d| - 1];
    assert d[m + 1] == '.';
    assert a + 1 < a + 2 + m < |email| - 1 && email[a + 2 + m] == '.';
  }

  /** An "@" absent from both sides of position `a` occurs only at `a`. */
  lemma ArobaseUnique(email: string, a: nat)
    requires a < |email| && email[a] == '@' && '@' !in email[..a] && '@' !in email[a + 1..]
    ensures IndexDe(email, '@') == a
    ensures forall k :: 0 <= k < |email| && k != a ==> email[k] != '@'
  {
    forall k | 0 <= k < |email| && k != a ensures email[k] != '@' {
      if k < a {
        assert email[..a][k] == email[k];
      } else {
        assert email[a + 1..][k - a - 1] == email[k];
      }
    }
  }

  /** Sample addresses, stated of the regular expression
      and carried over to `validerEmail` by `ValiderEmailRegex`. */
  lemma ExemplesEmail()
    ensures CorrespondRegexEmail("a@b.co")
    ensures !CorrespondRegexEmail("a@b")
    ensures !CorrespondRegexEmail("@b.co")
    ensures !CorrespondRegexEmail("a.b.co")
  {
    var s := "a@b.co";
    assert 0 < 1 && 1 + 1 < 3 < |s| - 1 && s[1] == '@' && s[3] == '.';
    assert forall k :: 0 <= k < |s| && k != 1 ==> CaractereAdresse(s[k]);
    var t := "@b.co";
    assert forall i :: 0 < i < |t| ==> t[i] != '@';
    var u := "a.b.co";
    assert forall i :: 0 <= i < |u| ==> u[i] != '@';
  }

  // ---------------------------------------------------------------------------
  // Password
  // ---------------------------------------------------------------------------

  /**
   * `/^(?=.*[A-Z])(?=.*\d).{8,}$/` matches `s`: from position 0, some upper-case
   * letter and some digit are each reached across non-line-terminators, and the
   * whole string is at least eight non-line-terminators.
   */
  ghost predicate CorrespondRegexMotDePasse(s: string) {
    && (exists k :: 0 <= k < |s| && MajusculeAscii(s[k]) && forall m :: 0 <= m < k ==> !FinDeLigne(s[m]))
    && (exists k :: 0 <= k < |s| && ChiffreAscii(s[k]) && forall m :: 0 <= m < k ==> !FinDeLigne(s[m]))
    && |s| >= 8
    && forall m :: 0 <= m < |s| ==> !FinDeLigne(s[m])
  }

  /** `validerMotDePasse`: eight characters or more, no line terminator, at
      least one ASCII upper-case letter and at least one ASCII digit. */
  function ValiderMotDePasse(motDePasse: string): bool {
    && |motDePasse| >= 8
    && (forall m | 0 <= m < |motDePasse| :: !FinDeLigne(motDePasse[m]))
    && (exists k | 0 <= k < |motDePasse| :: MajusculeAscii(motDePasse[k]))
    && (exists k | 0 <= k < |motDePasse| :: ChiffreAscii(motDePasse[k]))
  }

  /** `validerMotDePasse` accepts exactly the strings its regular expression matches. */
  lemma ValiderMotDePasseRegex(motDePasse: string)
    ensures ValiderMotDePasse(motDePasse) <==> CorrespondRegexMotDePasse(motDePasse)
  {
  }

  /** Sample passwords: an upper-case letter and a digit are required,
      lower case is not; four characters are too few. */
  lemma ExemplesMotDePasse()
    ensures CorrespondRegexMotDePasse("Abcdefg1")
    ensures CorrespondRegexMotDePasse("ABCDEFG1")
    ensures !CorrespondRegexMotDePasse("abcdefg1")
    ensures !CorrespondRegexMotDePasse("Abc1")
  {
    MotDePasseHuitCaracteres("Abcdefg1");
    MotDePasseHuitCaracteres("ABCDEFG1");
    var s := "abcdefg1";
    assert forall k | 0 <= k < |s| :: !MajusculeAscii(s[k]);
    ValiderMotDePasseRegex(s);
    ValiderMotDePasseRegex("Abc1");
  }

  /** A candidate of eight characters whose first is upper case and whose last
      is a digit, all without line terminators, matches the expression. */
  lemma MotDePasseHuitCaracteres(s: string)
    requires |s| == 8 && MajusculeAscii(s[0]) && ChiffreAscii(s[7])
    requires forall m :: 0 <= m < |s| ==> !FinDeLigne(s[m])
    ensures CorrespondRegexMotDePasse(s)
  {
    ValiderMotDePasseRegex(s);
  }
}
