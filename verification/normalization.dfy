/**
 Category-name normalisation of the classify-and-dispatch loop (`normalizar`).

 The source runs three stages: Unicode canonical decomposition (NFD, Unicode
 Standard Annex #15, section 1.2), an ASCII encode that silently drops every
 code point above 127, then `str.lower`. Decomposition is modelled by a table
 for the Latin letters Spanish category labels use; every other code point is
 its own decomposition here.
 */
module Normalization {
  import opened Wrappers

  predicate IsAscii(c: char) {
    c as int < 128
  }

  predicate IsUpper(c: char) {
    'A' <= c <= 'Z'
  }

  predicate AllAscii(s: string) {
    forall i :: 0 <= i < |s| ==> IsAscii(s[i])
  }

  /** What `normalizar` can return: ASCII characters, none of them upper-case. */
  predicate IsNormalized(s: string) {
    forall i :: 0 <= i < |s| ==> IsAscii(s[i]) && !IsUpper(s[i])
  }

  const CombiningAcute: char := '\U{0301}'
  const CombiningTilde: char := '\U{0303}'
  const CombiningDiaeresis: char := '\U{0308}'

  /** A canonical decomposition: an ASCII base letter followed by one combining mark. */
  datatype Decomposition = Decomposition(base: char, mark: char)

  /** The decomposition table: the accented letters of Spanish labels, both cases. */
  function Decompose(c: char): (d: Option<Decomposition>)
    ensures d.Some? ==> IsAscii(d.value.base) && !IsAscii(d.value.mark) && !IsAscii(c)
  {
    match c
    case '\U{00E1}' => Some(Decomposition('a', CombiningAcute))
    case '\U{00E9}' => Some(Decomposition('e', CombiningAcute))
    case '\U{00ED}' => Some(Decomposition('i', CombiningAcute))
    case '\U{00F3}' => Some(Decomposition('o', CombiningAcute))
    case '\U{00FA}' => Some(Decomposition('u', CombiningAcute))
    case '\U{00FC}' => Some(Decomposition('u', CombiningDiaeresis))
    case '\U{00F1}' => Some(Decomposition('n', CombiningTilde))
    case '\U{00C1}' => Some(Decomposition('A', CombiningAcute))
    case '\U{00C9}' => Some(Decomposition('E', CombiningAcute))
    case '\U{00CD}' => Some(Decomposition('I', CombiningAcute))
    case '\U{00D3}' => Some(Decomposition('O', CombiningAcute))
    case '\U{00DA}' => Some(Decomposition('U', CombiningAcute))
    case '\U{00DC}' => Some(Decomposition('U', CombiningDiaeresis))
    case '\U{00D1}' => Some(Decomposition('N', CombiningTilde))
    case _ => None
  }

  /** The NFD expansion of one code point. */
  function DecomposeChar(c: char): (r: string)
    ensures 1 <= |r| <= 2
    ensures IsAscii(c) ==> r == [c]
    ensures |r| == 2 ==> IsAscii(r[0]) && !IsAscii(r[1])
  {
    match Decompose(c)
    case Some(d) => [d.base, d.mark]
    case None => [c]
  }

  /** `unicodedata.normalize('NFD', s)` over the decomposition table. */
  function Nfd(s: string): (r: string)
    ensures |s| <= |r| <= 2 * |s|
    ensures AllAscii(s) ==> r == s
  {
    if |s| == 0 then [] else DecomposeChar(s[0]) + Nfd(s[1..])
  }

  /** `s.encode('ascii', 'ignore').decode("utf-8")`: every non-ASCII code point is dropped. */
  function AsciiOnly(s: string): (r: string)
    ensures AllAscii(r)
    ensures |r| <= |s|
    ensures AllAscii(s) ==> r == s
    ensures forall c :: c in r <==> c in s && IsAscii(c)
  {
    if |s| == 0 then []
    else if IsAscii(s[0]) then [s[0]] + AsciiOnly(s[1..])
    else AsciiOnly(s[1..])
  }

  /** `str.lower` on one ASCII character. */
  function LowerChar(c: char): (r: char)
    ensures !IsUpper(r)
    ensures IsAscii(r) <==> IsAscii(c)
    ensures IsUpper(c) ==> r as int - c as int == 'a' as int - 'A' as int
    ensures !IsUpper(c) ==> r == c
  {
    if IsUpper(c) then (c as int - 'A' as int + 'a' as int) as char else c
  }

  /** `str.lower`; applied after the ASCII filter, so only A-Z change. */
  function Lower(s: string): (r: string)
    ensures |r| == |s|
    ensures forall i :: 0 <= i < |s| ==> r[i] == LowerChar(s[i])
  {
    if |s| == 0 then [] else [LowerChar(s[0])] + Lower(s[1..])
  }

  /** `normalizar`: decompose, drop non-ASCII, lower-case. */
  function Normalize(s: string): (r: string)
    ensures IsNormalized(r)
  {
    Lower(AsciiOnly(Nfd(s)))
  }

  /**
   Reference definition, one code point at a time: an accented letter of the
   table becomes its lower-case base letter, any other ASCII character its
   lower-case self, and every other code point disappears.
   */
  function FoldChar(c: char): string {
    match Decompose(c)
    case Some(d) => [LowerChar(d.base)]
    case None => if IsAscii(c) then [LowerChar(c)] else []
  }

  function Fold(s: string): string {
    if |s| == 0 then [] else FoldChar(s[0]) + Fold(s[1..])
  }

  lemma {:induction false} AsciiOnlyConcat(a: string, b: string)
    ensures AsciiOnly(a + b) == AsciiOnly(a) + AsciiOnly(b)
  {
    if |a| == 0 {
      assert a + b == b;
    } else {
      assert (a + b)[1..] == a[1..] + b;
      AsciiOnlyConcat(a[1..], b);
    }
  }

  lemma {:induction false} LowerConcat(a: string, b: string)
    ensures Lower(a + b) == Lower(a) + Lower(b)
  {
    if |a| == 0 {
      assert a + b == b;
    } else {
      assert (a + b)[1..] == a[1..] + b;
      LowerConcat(a[1..], b);
    }
  }

  /** The three stages of `normalizar` commute with splitting off the first code point. */
  lemma NormalizeCons(c: char, s: string)
    ensures Normalize([c] + s) == FoldChar(c) + Normalize(s)
  {
    assert ([c] + s)[1..] == s;
    assert Nfd([c] + s) == DecomposeChar(c) + Nfd(s);
    AsciiOnlyConcat(DecomposeChar(c), Nfd(s));
    LowerConcat(AsciiOnly(DecomposeChar(c)), AsciiOnly(Nfd(s)));
    match Decompose(c)
    case Some(d) =>
      assert AsciiOnly(DecomposeChar(c)) == [d.base];
    case None =>
  }

  /** `normalizar` agrees with the code-point-at-a-time reference definition. */
  lemma {:induction false} NormalizeIsFold(s: string)
    ensures Normalize(s) == Fold(s)
  {
    if |s| == 0 {
    } else {
      assert s == [s[0]] + s[1..];
      NormalizeCons(s[0], s[1..]);
      NormalizeIsFold(s[1..]);
    }
  }

  lemma {:induction false} FoldConcat(a: string, b: string)
    ensures Fold(a + b) == Fold(a) + Fold(b)
  {
    if |a| == 0 {
      assert a + b == b;
    } else {
      assert (a + b)[1..] == a[1..] + b;
      FoldConcat(a[1..], b);
    }
  }

  /** Normalising a concatenation normalises each part. */
  lemma NormalizeConcat(a: string, b: string)
    ensures Normalize(a + b) == Normalize(a) + Normalize(b)
  {
    NormalizeIsFold(a + b);
    NormalizeIsFold(a);
    NormalizeIsFold(b);
    FoldConcat(a, b);
  }

  lemma {:induction false} FoldLength(s: string)
    ensures |Fold(s)| <= |s|
  {
    if |s| > 0 {
      FoldLength(s[1..]);
    }
  }

  /** Every input code point yields at most one output character. */
  lemma NormalizeLength(s: string)
    ensures |Normalize(s)| <= |s|
  {
    NormalizeIsFold(s);
    FoldLength(s);
  }

  /** An accented letter of the table normalises to its lower-case base letter. */
  lemma StripsAccent(c: char)
    requires Decompose(c).Some?
    ensures Normalize([c]) == [LowerChar(Decompose(c).value.base)]
  {
    NormalizeCons(c, []);
    assert [c] + [] == [c];
  }

  /** A string already in normal form is its own normalisation. */
  lemma NormalizeFixesNormalized(s: string)
    requires IsNormalized(s)
    ensures Normalize(s) == s
  {
    assert AllAscii(s);
    assert Nfd(s) == s;
    assert AsciiOnly(s) == s;
  }

  /** `normalizar` is idempotent. */
  lemma NormalizeIdempotent(s: string)
    ensures Normalize(Normalize(s)) == Normalize(s)
  {
    NormalizeFixesNormalized(Normalize(s));
  }

  /** On ASCII-only input `normalizar` is plain lower-casing. */
  lemma NormalizeAsciiIsLower(s: string)
    requires AllAscii(s)
    ensures Normalize(s) == Lower(s)
  {
  }

  lemma FoldPlastico()
    ensures Fold("Pl\U{00E1}stico") == "plastico"
  {
    assert "Pl\U{00E1}stico" == "Pl" + "\U{00E1}" + "stico";
    FoldConcat("Pl" + "\U{00E1}", "stico");
    FoldConcat("Pl", "\U{00E1}");
  }

  lemma FoldOrganico()
    ensures Fold("Org\U{00E1}nico") == "organico"
  {
    assert "Org\U{00E1}nico" == "Org" + "\U{00E1}" + "nico";
    FoldConcat("Org" + "\U{00E1}", "nico");
    FoldConcat("Org", "\U{00E1}");
  }

  lemma FoldCapitalised()
    ensures Fold("METAL") == "metal"
    ensures Fold("Metal") == "metal"
    ensures Fold("Papel") == "papel"
  {
  }

  /** Spelled-out labels: the accent goes and capitals become lower-case. */
  lemma NormalizePlastico()
    ensures Normalize("Pl\U{00E1}stico") == "plastico"
  {
    NormalizeIsFold("Pl\U{00E1}stico");
    FoldPlastico();
  }

  lemma NormalizeOrganico()
    ensures Normalize("Org\U{00E1}nico") == "organico"
  {
    NormalizeIsFold("Org\U{00E1}nico");
    FoldOrganico();
  }

  lemma NormalizeCapitalised()
    ensures Normalize("METAL") == "metal"
    ensures Normalize("Metal") == "metal"
    ensures Normalize("Papel") == "papel"
  {
    NormalizeIsFold("METAL");
    NormalizeIsFold("Metal");
    NormalizeIsFold("Papel");
    FoldCapitalised();
  }
}
