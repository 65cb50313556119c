/** The JavaScript string operations the frontend relies on: `toLowerCase`,
    `normalize("NFD")`, regular-expression replacements, `trim`, `includes`
    and number-to-string conversion. Characters are UTF-16 code units. */
module Text {

  // ---------------------------------------------------------------------
  // Character classes.

  /** The `\s` class of JavaScript regular expressions (also what `trim` removes). */
  predicate IsWs(c: char) {
    c == '\t' || c == '\n' || c == '\U{000B}' || c == '\U{000C}' || c == '\r' || c == ' '
    || c == '\U{00A0}' || c == '\U{1680}' || ('\U{2000}' <= c <= '\U{200A}')
    || c == '\U{2028}' || c == '\U{2029}' || c == '\U{202F}' || c == '\U{205F}'
    || c == '\U{3000}' || c == '\U{FEFF}'
  }

  predicate AllWs(w: string) {
    forall i :: 0 <= i < |w| ==> IsWs(w[i])
  }

  /** The `\w` class: `[A-Za-z0-9_]`. */
  predicate IsWordChar(c: char) {
    ('A' <= c <= 'Z') || ('a' <= c <= 'z') || ('0' <= c <= '9') || c == '_'
  }

  /** What a normalised label is made of. */
  predicate IsSlugChar(c: char) {
    ('a' <= c <= 'z') || ('0' <= c <= '9') || c == '_'
  }

  /** No ASCII capital letter occurs in s. */
  predicate NoCapitals(s: string) {
    forall i :: 0 <= i < |s| ==> !('A' <= s[i] <= 'Z')
  }

  /** Combining diacritical marks, U+0300 to U+036F. */
  predicate IsCombining(c: char) {
    '\U{0300}' <= c <= '\U{036F}'
  }

  // ---------------------------------------------------------------------
  // Lower-casing.

  /** `toLowerCase` on one code unit: ASCII and the Latin-1 capitals
      (U+00C0..U+00DE without the multiplication sign U+00D7, which covers
      the Spanish capitals Á É Í Ó Ú Ü Ñ) move by 0x20; everything else is kept. */
  function LowerChar(c: char): (d: char)
    ensures !('A' <= d <= 'Z')
    ensures IsWordChar(c) <==> IsWordChar(d)
    ensures IsSlugChar(c) ==> d == c
  {
    if 'A' <= c <= 'Z' || ('\U{00C0}' <= c <= '\U{00DE}' && c != '\U{00D7}')
    then (c as int + 0x20) as char
    else c
  }

  function Lower(s: string): (r: string)
    ensures |r| == |s|
    ensures forall i :: 0 <= i < |s| ==> r[i] == LowerChar(s[i])
  {
    if s == [] then [] else [LowerChar(s[0])] + Lower(s[1..])
  }

  lemma {:induction false} LowerIdempotent(s: string)
    ensures Lower(Lower(s)) == Lower(s)
  {
    if s != [] {
      LowerIdempotent(s[1..]);
      assert Lower(s)[1..] == Lower(s[1..]);
    }
  }

  // ---------------------------------------------------------------------
  // Canonical decomposition (`normalize("NFD")`) of the lower-case Latin-1 letters.

  /** The base letter and combining mark a lower-case Latin-1 letter decomposes into,
      or the character alone when it has no decomposition. */
  function DecomposeChar(c: char): (r: string)
    ensures 1 <= |r| <= 2
    ensures |r| == 2 ==> 'a' <= r[0] <= 'z' && IsCombining(r[1])
    ensures |r| == 1 ==> r[0] == c
    ensures IsSlugChar(c) || IsWs(c) || IsCombining(c) ==> r == [c]
  {
    match c
    case '\U{00E0}' => ['a', '\U{0300}']
    case '\U{00E1}' => ['a', '\U{0301}']
    case '\U{00E2}' => ['a', '\U{0302}']
    case '\U{00E3}' => ['a', '\U{0303}']
    case '\U{00E4}' => ['a', '\U{0308}']
    case '\U{00E5}' => ['a', '\U{030A}']
    case '\U{00E7}' => ['c', '\U{0327}']
    case '\U{00E8}' => ['e', '\U{0300}']
    case '\U{00E9}' => ['e', '\U{0301}']
    case '\U{00EA}' => ['e', '\U{0302}']
    case '\U{00EB}' => ['e', '\U{0308}']
    case '\U{00EC}' => ['i', '\U{0300}']
    case '\U{00ED}' => ['i', '\U{0301}']
    case '\U{00EE}' => ['i', '\U{0302}']
    case '\U{00EF}' => ['i', '\U{0308}']
    case '\U{00F1}' => ['n', '\U{0303}']
    case '\U{00F2}' => ['o', '\U{0300}']
    case '\U{00F3}' => ['o', '\U{0301}']
    case '\U{00F4}' => ['o', '\U{0302}']
    case '\U{00F5}' => ['o', '\U{0303}']
    case '\U{00F6}' => ['o', '\U{0308}']
    case '\U{00F9}' => ['u', '\U{0300}']
    case '\U{00FA}' => ['u', '\U{0301}']
    case '\U{00FB}' => ['u', '\U{0302}']
    case '\U{00FC}' => ['u', '\U{0308}']
    case '\U{00FD}' => ['y', '\U{0301}']
    case '\U{00FF}' => ['y', '\U{0308}']
    case _ => [c]
  }

  function Decompose(s: string): (r: string)
    ensures |r| >= |s|
  {
    if s == [] then [] else DecomposeChar(s[0]) + Decompose(s[1..])
  }

  // ---------------------------------------------------------------------
  // Regular-expression replacements.

  /** `replace(/[\u0300-\u036f]/g, "")`. */
  function StripCombining(s: string): (r: string)
    ensures |r| <= |s|
    ensures forall i :: 0 <= i < |r| ==> !IsCombining(r[i])
    ensures NoCapitals(s) ==> NoCapitals(r)
  {
    if s == [] then []
    else if IsCombining(s[0]) then StripCombining(s[1..])
    else [s[0]] + StripCombining(s[1..])
  }

  /** `replace(/[^\w\s]/g, "")`. */
  function StripNonWord(s: string): (r: string)
    ensures |r| <= |s|
    ensures forall i :: 0 <= i < |r| ==> IsWordChar(r[i]) || IsWs(r[i])
    ensures NoCapitals(s) ==> NoCapitals(r)
  {
    if s == [] then []
    else if IsWordChar(s[0]) || IsWs(s[0]) then [s[0]] + StripNonWord(s[1..])
    else StripNonWord(s[1..])
  }

  /** Drops the whitespace at the front of s. */
  function DropWs(s: string): (r: string)
    ensures |r| <= |s|
    ensures r == [] || !IsWs(r[0])
    ensures r == s[|s| - |r|..]
    ensures AllWs(s[..|s| - |r|])
  {
    if s != [] && IsWs(s[0]) then
      var r := DropWs(s[1..]);
      assert s[..|s| - |r|] == [s[0]] + s[1..][..|s| - 1 - |r|];
      r
    else s
  }

  /** `replace(/\s+/g, "_")`: every maximal run of whitespace becomes one underscore. */
  function CollapseWs(s: string): (r: string)
    ensures forall i :: 0 <= i < |r| ==> !IsWs(r[i])
    ensures (forall i :: 0 <= i < |s| ==> IsSlugChar(s[i]) || IsWs(s[i])) ==>
      forall i :: 0 <= i < |r| ==> IsSlugChar(r[i])
    decreases |s|
  {
    if s == [] then []
    else if IsWs(s[0]) then
      var rest := DropWs(s);
      assert forall i :: 0 <= i < |rest| ==> rest[i] == s[|s| - |rest| + i];
      "_" + CollapseWs(rest)
    else [s[0]] + CollapseWs(s[1..])
  }

  /** r is the part of s from position a on that is left once the white
      space before a and after r is cut away. */
  predicate TrimmedAt(s: string, r: string, a: int) {
    0 <= a <= |s| - |r| && r == s[a..a + |r|] && AllWs(s[..a]) && AllWs(s[a + |r|..])
  }

  /** `trim()`: removes leading and trailing whitespace. */
  function Trim(s: string): (r: string)
    ensures r == [] || (!IsWs(r[0]) && !IsWs(r[|r| - 1]))
    ensures exists a :: TrimmedAt(s, r, a)
  {
    var d := DropWs(s);
    var r := TrimEnd(d);
    TrimmedAfterDrop(s, d, r);
    r
  }

  /** Cutting white space off the front and then off the back cuts white space
      from both ends of the original. */
  lemma TrimmedAfterDrop(s: string, d: string, r: string)
    requires |d| <= |s| && d == s[|s| - |d|..] && AllWs(s[..|s| - |d|])
    requires |r| <= |d| && r == d[..|r|] && AllWs(d[|r|..])
    ensures TrimmedAt(s, r, |s| - |d|)
  {
    var a := |s| - |d|;
    assert s[a..a + |r|] == d[..|r|];
    assert s[a + |r|..] == d[|r|..];
  }

  function TrimEnd(s: string): (r: string)
    ensures |r| <= |s| && r == s[..|r|]
    ensures AllWs(s[|r|..])
    ensures r == [] || !IsWs(r[|r| - 1])
    ensures s != [] && !IsWs(s[0]) ==> r != [] && r[0] == s[0]
  {
    if s != [] && IsWs(s[|s| - 1]) then
      assert |s| > 1 && !IsWs(s[0]) ==> s[..|s| - 1][0] == s[0];
      var r := TrimEnd(s[..|s| - 1]);
      assert s[|r|..] == s[..|s| - 1][|r|..] + [s[|s| - 1]];
      r
    else s
  }

  /** Trimming a string without whitespace leaves it unchanged. */
  lemma TrimNoWs(s: string)
    requires forall i :: 0 <= i < |s| ==> !IsWs(s[i])
    ensures Trim(s) == s
  {
  }

  /** Lower-case, decompose, drop the marks and the non-word characters, and turn
      each run of whitespace into `_`. */
  function Slug(s: string): string {
    CollapseWs(StripNonWord(StripCombining(Decompose(Lower(s)))))
  }

  /** Every character that survives is a lower-case ASCII letter, a digit or `_`. */
  lemma SlugChars(s: string)
    ensures forall i :: 0 <= i < |Slug(s)| ==> IsSlugChar(Slug(s)[i])
  {
    LowerDecomposeNoCapitals(Lower(s));
    var w := StripNonWord(StripCombining(Decompose(Lower(s))));
    assert forall i :: 0 <= i < |w| ==> IsSlugChar(w[i]) || IsWs(w[i]) by {
      assert NoCapitals(w);
    }
  }

  /** The label normalisation used to turn a display name such as
      "Me duele la cabeza" into the backend's class name "me_duele_la_cabeza";
      the final `trim()` never has anything to remove. */
  function NormalizeLabel(s: string): (r: string)
    ensures forall i :: 0 <= i < |r| ==> IsSlugChar(r[i])
    ensures r == Slug(s)
  {
    SlugChars(s);
    TrimNoWs(Slug(s));
    Trim(Slug(s))
  }

  lemma {:induction false} LowerDecomposeNoCapitals(s: string)
    requires NoCapitals(s)
    ensures NoCapitals(Decompose(s))
  {
    if s != [] {
      LowerDecomposeNoCapitals(s[1..]);
      var d := DecomposeChar(s[0]);
      var t := Decompose(s[1..]);
      forall i | 0 <= i < |d + t| ensures !('A' <= (d + t)[i] <= 'Z') {
        if i >= |d| { assert (d + t)[i] == t[i - |d|]; }
      }
    }
  }

  lemma {:induction false} CollapseWsSlug(s: string)
    requires forall i :: 0 <= i < |s| ==> IsSlugChar(s[i])
    ensures CollapseWs(s) == s
  {
    if s != [] { CollapseWsSlug(s[1..]); }
  }

  /** A normalised label is a fixed point of the normalisation, so normalising
      both sides of a comparison is safe however often it is applied. */
  lemma NormalizeLabelIdempotent(s: string)
    ensures NormalizeLabel(NormalizeLabel(s)) == NormalizeLabel(s)
  {
    var n := NormalizeLabel(s);
    LowerSlug(n);
    DecomposeSlug(n);
    StripCombiningSlug(n);
    StripNonWordSlug(n);
    CollapseWsSlug(n);
    TrimNoWs(n);
  }

  /** An accented letter, capital or not, normalises to its bare base letter
      (so "Í" and "í" both give "i", "Ñ" gives "n"). */
  lemma AccentDropped(c: char)
    requires |DecomposeChar(LowerChar(c))| == 2
    ensures NormalizeLabel([c]) == [DecomposeChar(LowerChar(c))[0]]
  {
    var d := DecomposeChar(LowerChar(c));
    assert Lower([c]) == [LowerChar(c)];
    assert Decompose([LowerChar(c)]) == d;
    assert StripCombining(d) == [d[0]];
    assert StripNonWord([d[0]]) == [d[0]];
    assert CollapseWs([d[0]]) == [d[0]];
  }

  /** A run of whitespace between two words becomes a single underscore. */
  lemma WhitespaceRun(a: char, w: string, b: char)
    requires IsSlugChar(a) && IsSlugChar(b)
    requires w != [] && AllWs(w)
    ensures NormalizeLabel([a] + w + [b]) == [a, '_', b]
  {
    var s := [a] + w + [b];
    assert forall i :: 0 <= i < |s| ==> IsSlugChar(s[i]) || IsWs(s[i]) by {
      forall i | 0 <= i < |s| ensures IsSlugChar(s[i]) || IsWs(s[i]) {
        if 0 < i < |s| - 1 { assert s[i] == w[i - 1]; }
      }
    }
    SlugOfSlugWs(s);
    CollapseRun(a, w, b);
  }

  /** On lower-case words and whitespace only the whitespace step does anything. */
  lemma SlugOfSlugWs(s: string)
    requires forall i :: 0 <= i < |s| ==> IsSlugChar(s[i]) || IsWs(s[i])
    ensures Slug(s) == CollapseWs(s)
  {
    LowerSlug(s);
    DecomposeSlug(s);
    StripCombiningSlug(s);
    StripNonWordSlug(s);
  }

  lemma CollapseRun(a: char, w: string, b: char)
    requires IsSlugChar(a) && IsSlugChar(b)
    requires w != [] && AllWs(w)
    ensures CollapseWs([a] + w + [b]) == [a, '_', b]
  {
    var s := [a] + w + [b];
    assert s == [a] + (w + [b]);
    CollapseWord(a, w + [b]);
    var r1 := CollapseWs(w + [b]);
    CollapseSpaces(w, [b]);
    CollapseWord(b, []);
    assert [b] + [] == [b];
    assert r1 == "_" + [b];
    ThreeChars(a, b);
  }

  lemma CollapseWord(a: char, t: string)
    requires !IsWs(a)
    ensures CollapseWs([a] + t) == [a] + CollapseWs(t)
  {
    assert ([a] + t)[1..] == t;
  }

  lemma CollapseSpaces(w: string, t: string)
    requires w != [] && AllWs(w)
    requires t != [] && !IsWs(t[0])
    ensures CollapseWs(w + t) == "_" + CollapseWs(t)
  {
    WsFacts(w, t);
    assert (w + t)[0] == w[0];
  }

  lemma ThreeChars(a: char, b: char)
    ensures [a] + ("_" + [b]) == [a, '_', b]
  {
    var t := [a] + ("_" + [b]);
    assert t[0] == a && t[1] == '_' && t[2] == b;
  }

  lemma {:induction false} WsFacts(w: string, t: string)
    requires AllWs(w)
    requires t != [] && !IsWs(t[0])
    ensures DropWs(w + t) == t
  {
    if w != [] {
      assert (w + t)[1..] == w[1..] + t;
      WsFacts(w[1..], t);
    }
  }

  lemma {:induction false} LowerSlug(s: string)
    requires forall i :: 0 <= i < |s| ==> IsSlugChar(s[i]) || IsWs(s[i])
    ensures Lower(s) == s
  {
    if s != [] { LowerSlug(s[1..]); }
  }

  lemma {:induction false} DecomposeSlug(s: string)
    requires forall i :: 0 <= i < |s| ==> IsSlugChar(s[i]) || IsWs(s[i])
    ensures Decompose(s) == s
  {
    if s != [] { DecomposeSlug(s[1..]); }
  }

  lemma {:induction false} StripCombiningSlug(s: string)
    requires forall i :: 0 <= i < |s| ==> IsSlugChar(s[i]) || IsWs(s[i])
    ensures StripCombining(s) == s
  {
    if s != [] { StripCombiningSlug(s[1..]); }
  }

  lemma {:induction false} StripNonWordSlug(s: string)
    requires forall i :: 0 <= i < |s| ==> IsSlugChar(s[i]) || IsWs(s[i])
    ensures StripNonWord(s) == s
  {
    if s != [] { StripNonWordSlug(s[1..]); }
  }

  // ---------------------------------------------------------------------
  // Other string helpers.

  /** `replace(/x/g, y)` for single characters. */
  function ReplaceChar(s: string, x: char, y: char): (r: string)
    ensures |r| == |s|
    ensures forall i :: 0 <= i < |s| ==> r[i] == (if s[i] == x then y else s[i])
  {
    if s == [] then [] else [if s[0] == x then y else s[0]] + ReplaceChar(s[1..], x, y)
  }

  /** `haystack.includes(needle)`. */
  predicate Includes(haystack: string, needle: string)
    decreases |haystack|
  {
    needle <= haystack || (haystack != [] && Includes(haystack[1..], needle))
  }

  /** The needle occurs in the haystack starting at position k. */
  predicate OccursAt(haystack: string, needle: string, k: int) {
    0 <= k <= |haystack| - |needle| && haystack[k..k + |needle|] == needle
  }

  /** An occurrence in the tail is an occurrence one position later. */
  lemma OccursShift(haystack: string, needle: string, k: int)
    requires haystack != [] && 0 <= k
    ensures OccursAt(haystack[1..], needle, k) <==> OccursAt(haystack, needle, k + 1)
  {
    if k <= |haystack| - 1 - |needle| {
      assert haystack[1..][k..k + |needle|] == haystack[k + 1..k + 1 + |needle|];
    }
  }

  /** `includes` means: the needle occurs at some position. */
  lemma {:induction false} IncludesAt(haystack: string, needle: string)
    ensures Includes(haystack, needle) <==> exists k :: OccursAt(haystack, needle, k)
  {
    if needle <= haystack {
      assert OccursAt(haystack, needle, 0);
    }
    if haystack == [] {
      if exists k :: OccursAt(haystack, needle, k) {
        assert needle == [];
      }
      return;
    }
    IncludesAt(haystack[1..], needle);
    if exists k :: OccursAt(haystack, needle, k) {
      var k :| OccursAt(haystack, needle, k);
      if k > 0 {
        OccursShift(haystack, needle, k - 1);
      } else {
        assert needle <= haystack;
      }
    }
    if Includes(haystack[1..], needle) {
      var k :| OccursAt(haystack[1..], needle, k);
      OccursShift(haystack, needle, k);
    }
  }

  lemma EmptyIncluded(s: string)
    ensures Includes(s, "")
  {
  }

  // ---------------------------------------------------------------------
  // Decimal representation of naturals (template literals such as `record-${i}`).

  function DigitChar(d: nat): (c: char)
    requires d < 10
    ensures '0' <= c <= '9'
  {
    ('0' as int + d) as char
  }

  function NatToString(n: nat): (s: string)
    ensures |s| >= 1
    ensures forall i :: 0 <= i < |s| ==> '0' <= s[i] <= '9'
  {
    if n < 10 then [DigitChar(n)] else NatToString(n / 10) + [DigitChar(n % 10)]
  }

  /** Reads a string of decimal digits. */
  function ParseNat(s: string): nat
    requires forall i :: 0 <= i < |s| ==> '0' <= s[i] <= '9'
  {
    if s == [] then 0 else 10 * ParseNat(s[..|s| - 1]) + (s[|s| - 1] as int - '0' as int)
  }

  lemma {:induction false} ParseNatToString(n: nat)
    ensures ParseNat(NatToString(n)) == n
  {
    if n >= 10 {
      ParseNatToString(n / 10);
      var s := NatToString(n);
      assert s[..|s| - 1] == NatToString(n / 10);
    }
  }

  /** Different numbers print differently. */
  lemma NatToStringInjective(m: nat, n: nat)
    requires NatToString(m) == NatToString(n)
    ensures m == n
  {
    ParseNatToString(m);
    ParseNatToString(n);
  }
}
