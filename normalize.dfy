/**
 * The text normaliser `normalize_text` (main.py:23-31): lowercase the text,
 * then replace every accented vowel of a fixed table, and `ñ`, by its plain
 * ASCII letter.
 *
 * Python's `str.lower` is modelled over a stated alphabet: the ASCII letters
 * `A`-`Z` and the uppercase forms of the 21 tabled letters map to their
 * lowercase forms, and every other character is left as it is.
 */
module Normalize {
  import opened Wrappers

  /** `str.lower` on one character of the modelled alphabet: ASCII capitals and
      the uppercase forms of the tabled letters become lowercase. */
  function Lower(c: char): char
  {
    if 'A' <= c <= 'Z' then (c as int + 32) as char
    else match c
      case 'Á' => 'á' case 'À' => 'à' case 'Ä' => 'ä' case 'Â' => 'â'
      case 'É' => 'é' case 'È' => 'è' case 'Ë' => 'ë' case 'Ê' => 'ê'
      case 'Í' => 'í' case 'Ì' => 'ì' case 'Ï' => 'ï' case 'Î' => 'î'
      case 'Ó' => 'ó' case 'Ò' => 'ò' case 'Ö' => 'ö' case 'Ô' => 'ô'
      case 'Ú' => 'ú' case 'Ù' => 'ù' case 'Ü' => 'ü' case 'Û' => 'û'
      case 'Ñ' => 'ñ'
      case _ => c
  }

  /** The character class of the regular expression: the letters to replace. */
  const AccentClass: set<char> := {
    'á', 'à', 'ä', 'â', 'é', 'è', 'ë', 'ê', 'í', 'ì', 'ï', 'î',
    'ó', 'ò', 'ö', 'ô', 'ú', 'ù', 'ü', 'û', 'ñ'}

  /** The replacement table, as `table.get(c)`: the base letter of a tabled letter. */
  function TableGet(c: char): Option<char>
  {
    match c
    case 'á' => Some('a') case 'à' => Some('a') case 'ä' => Some('a') case 'â' => Some('a')
    case 'é' => Some('e') case 'è' => Some('e') case 'ë' => Some('e') case 'ê' => Some('e')
    case 'í' => Some('i') case 'ì' => Some('i') case 'ï' => Some('i') case 'î' => Some('i')
    case 'ó' => Some('o') case 'ò' => Some('o') case 'ö' => Some('o') case 'ô' => Some('o')
    case 'ú' => Some('u') case 'ù' => Some('u') case 'ü' => Some('u') case 'û' => Some('u')
    case 'ñ' => Some('n')
    case _ => None
  }

  /** `str.lower` on a whole string. */
  function LowerText(s: string): (r: string)
    ensures |r| == |s|
  {
    if s == [] then [] else [Lower(s[0])] + LowerText(s[1..])
  }

  /** One match of the pattern replaced by `table.get(match, match)`. */
  function Fold(c: char): char
  {
    if c in AccentClass then TableGet(c).GetOr(c) else c
  }

  /** `re.sub` of the accent pattern over a string. */
  function StripAccents(s: string): (r: string)
    ensures |r| == |s|
  {
    if s == [] then [] else [Fold(s[0])] + StripAccents(s[1..])
  }

  /** `normalize_text`. */
  function NormalizeText(text: string): (r: string)
    ensures |r| == |text|
  {
    StripAccents(LowerText(text))
  }

  /** What the normaliser does to a single character. */
  function Normalized(c: char): char
  {
    var l := Lower(c);
    TableGet(l).GetOr(l)
  }

  /** The pattern's class and the table's keys are the same letters, so the
      `.get` fallback of the replacement is never taken. */
  lemma ClassIsTableDomain()
    ensures forall c :: c in AccentClass <==> TableGet(c).Some?
  {
  }

  lemma {:induction false} LowerTextAt(s: string, i: nat)
    requires i < |s|
    ensures LowerText(s)[i] == Lower(s[i])
  {
    if i > 0 {
      LowerTextAt(s[1..], i - 1);
    }
  }

  lemma {:induction false} StripAccentsAt(s: string, i: nat)
    requires i < |s|
    ensures StripAccents(s)[i] == Fold(s[i])
  {
    if i > 0 {
      StripAccentsAt(s[1..], i - 1);
    }
  }

  /** Each character of the result is the lowercase of the input character,
      replaced by its base letter when that lowercase letter is in the table. */
  lemma NormalizeAt(s: string, i: nat)
    requires i < |s|
    ensures |NormalizeText(s)| == |s|
    ensures NormalizeText(s)[i] == Normalized(s[i])
    ensures TableGet(Lower(s[i])).Some? ==> NormalizeText(s)[i] == TableGet(Lower(s[i])).value
    ensures TableGet(Lower(s[i])).None? ==> NormalizeText(s)[i] == Lower(s[i])
  {
    LowerTextAt(s, i);
    StripAccentsAt(LowerText(s), i);
  }

  /** Two strings normalise alike exactly when they do character by character. */
  lemma NormalizeEqual(s: string, t: string)
    ensures NormalizeText(s) == NormalizeText(t) <==>
      |s| == |t| && forall i :: 0 <= i < |s| ==> Normalized(s[i]) == Normalized(t[i])
  {
    if |s| == |t| {
      forall i | 0 <= i < |s|
        ensures NormalizeText(s)[i] == Normalized(s[i])
        ensures NormalizeText(t)[i] == Normalized(t[i])
      {
        NormalizeAt(s, i);
        NormalizeAt(t, i);
      }
    }
  }

  /** No letter of the accent class survives normalisation. */
  lemma NoAccentSurvives(s: string)
    ensures forall i :: 0 <= i < |NormalizeText(s)| ==> NormalizeText(s)[i] !in AccentClass
  {
    forall i | 0 <= i < |NormalizeText(s)|
      ensures NormalizeText(s)[i] !in AccentClass
    {
      NormalizeAt(s, i);
    }
  }

  /** Normalising one character twice is normalising it once. */
  lemma NormalizedIdempotent(c: char)
    ensures Normalized(Normalized(c)) == Normalized(c)
  {
    var l := Lower(c);
    LowerIdempotent(c);
    match TableGet(l)
    case Some(b) =>
      BaseLettersAreFixed(l);
    case None =>
  }

  /** Lowercasing twice is lowercasing once. */
  lemma LowerIdempotent(c: char)
    ensures Lower(Lower(c)) == Lower(c)
  {
  }

  /** The base letters of the table are lowercase ASCII and not in the table. */
  lemma BaseLettersAreFixed(c: char)
    requires TableGet(c).Some?
    ensures var b := TableGet(c).value;
      'a' <= b <= 'z' && Lower(b) == b && TableGet(b).None?
  {
  }

  /** Normalising normalised text changes nothing. */
  lemma NormalizeIdempotent(s: string)
    ensures NormalizeText(NormalizeText(s)) == NormalizeText(s)
  {
    var n := NormalizeText(s);
    forall i | 0 <= i < |n|
      ensures Normalized(n[i]) == Normalized(s[i])
    {
      NormalizeAt(s, i);
      NormalizedIdempotent(s[i]);
    }
    NormalizeEqual(n, s);
  }

  /** Text that differs only in letter case normalises alike. */
  lemma NormalizeIgnoresCase(s: string, t: string)
    requires |s| == |t|
    requires forall i :: 0 <= i < |s| ==> Lower(s[i]) == Lower(t[i])
    ensures NormalizeText(s) == NormalizeText(t)
  {
    NormalizeEqual(s, t);
  }

  /** A string normalises to `t` when each of its characters normalises to
      the character of `t` at the same place. */
  lemma NormalizesTo(s: string, t: string)
    requires |s| == |t|
    requires forall i :: 0 <= i < |s| ==> Normalized(s[i]) == t[i]
    ensures NormalizeText(s) == t
  {
    forall i | 0 <= i < |s|
      ensures NormalizeText(s)[i] == t[i]
    {
      NormalizeAt(s, i);
    }
  }

  /** The upper-case accented spelling and the plain spelling of a word
      normalise alike. */
  lemma CafeExample()
    ensures NormalizeText("CAFÉ") == "cafe" == NormalizeText("cafe")
  {
    assert Normalized('C') == 'c' && Normalized('A') == 'a' && Normalized('F') == 'f';
    assert Normalized('É') == 'e';
    NormalizesTo("CAFÉ", "cafe");
    NormalizesTo("cafe", "cafe");
  }
}
