/** components/label-card.tsx: the difficulty badge, the background colour
    derived from a hash of the name, and the footer's buttons or links.
    JavaScript numbers are modelled as integers: the hash stays an exact
    integer for any name shorter than about four million characters. */
module LabelCard {
  import opened Types
  import opened Text

  const TwoTo32 := 0x1_0000_0000
  const TwoTo31 := 0x8000_0000

  /** `ToInt32`: the value modulo 2^32, read as a signed 32-bit integer. */
  function ToInt32(x: int): (r: int)
    ensures -TwoTo31 <= r < TwoTo31
    ensures (r - x) % TwoTo32 == 0
  {
    var m := x % TwoTo32;
    if m >= TwoTo31 then m - TwoTo32 else m
  }

  /** `x << 5`: both operands become 32-bit integers, and so does the result. */
  function ShiftLeft5(x: int): (r: int)
    ensures -TwoTo31 <= r < TwoTo31
    ensures (r - 32 * ToInt32(x)) % TwoTo32 == 0
  {
    ToInt32(ToInt32(x) * 32)
  }

  /** `a % 360`: the remainder takes the sign of the dividend. */
  function Rem360(a: int): (r: int)
    ensures -360 < r < 360
    ensures (a - r) % 360 == 0
    ensures a >= 0 ==> r >= 0
    ensures a < 0 ==> r <= 0
  {
    if a >= 0 then a % 360 else -((-a) % 360)
  }

  /** One step of the hash: `charCode + ((hash << 5) - hash)`. */
  function HashStep(hash: int, c: char): int {
    c as int + (ShiftLeft5(hash) - hash)
  }

  /** The hash of a name, character by character from the left. */
  function Hash(name: string): int {
    if name == [] then 0 else HashStep(Hash(name[..|name| - 1]), name[|name| - 1])
  }

  /** A hash of a name one character longer is one step further. */
  lemma HashAppend(name: string, c: char)
    ensures Hash(name + [c]) == HashStep(Hash(name), c)
  {
    assert (name + [c])[..|name|] == name;
  }

  /** The decimal text of an integer, with a leading "-" when negative. */
  function IntToString(n: int): (s: string)
    ensures |s| >= 1
    ensures n >= 0 ==> s == NatToString(n)
    ensures n < 0 ==> s == "-" + NatToString(-n)
  {
    if n >= 0 then NatToString(n) else "-" + NatToString(-n)
  }

  /** The colour `getBackgroundColor` returns for a hue. */
  function HslColour(hue: int): string {
    "hsl(" + IntToString(hue) + ", 70%, 85%)"
  }

  /** `getBackgroundColor(name)`: the hash loop, then the hue and the colour. */
  method BackgroundColour(name: string) returns (colour: string, hue: int)
    ensures hue == Rem360(Hash(name)) && colour == HslColour(hue)
    ensures -360 < hue < 360
  {
    var hash := 0;
    var i := 0;
    while i < |name|
      invariant 0 <= i <= |name|
      invariant hash == Hash(name[..i])
    {
      HashAppend(name[..i], name[i]);
      assert name[..i] + [name[i]] == name[..i + 1];
      hash := name[i] as int + (ShiftLeft5(hash) - hash);
      i := i + 1;
    }
    assert name[..i] == name;
    hue := Rem360(hash);
    colour := HslColour(hue);
  }

  /** A one-letter name hashes to its character code. */
  lemma OneLetterHash(c: char)
    ensures Hash([c]) == c as int
  {
    assert [c][..0] == [];
  }

  /** The badge text: "beginner" is Principiante, "intermediate" Intermedio,
      and anything else Avanzado. Also the badge of app/practice/page.tsx. */
  function DifficultyBadge(difficulty: Option<string>): (text: string)
    ensures difficulty == Some("beginner") ==> text == "Principiante"
    ensures difficulty == Some("intermediate") ==> text == "Intermedio"
    ensures difficulty != Some("beginner") && difficulty != Some("intermediate") ==> text == "Avanzado"
  {
    if difficulty == Some("beginner") then "Principiante"
    else if difficulty == Some("intermediate") then "Intermedio"
    else "Avanzado"
  }

  /** `difficultyColor[label.difficulty]`: a class for the three known codes. */
  function DifficultyClass(difficulty: Option<string>): (c: Option<string>)
    ensures c.Some? <==> difficulty.Some? && difficulty.value in {"beginner", "intermediate", "advanced"}
  {
    if difficulty == Some("beginner") then Some("bg-green-100 text-green-800 dark:bg-green-900 dark:text-green-300")
    else if difficulty == Some("intermediate") then Some("bg-amber-100 text-amber-800 dark:bg-amber-900 dark:text-amber-300")
    else if difficulty == Some("advanced") then Some("bg-red-100 text-red-800 dark:bg-red-900 dark:text-red-300")
    else None
  }

  /** The footer: one select button with an `onSelect`, else two links. */
  datatype Footer = SelectButton(text: string, highlighted: bool) | Links(details: string, practice: string)

  function CardFooter(l: Label, selectable: bool, isSelected: bool): (f: Footer)
    ensures selectable ==> f.SelectButton? && f.highlighted == isSelected
    ensures selectable ==> f.text == (if isSelected then "Seleccionada" else "Seleccionar")
    ensures !selectable ==> f == Links("/labels/" + l.id, "/practice?label=" + l.id)
  {
    if selectable then SelectButton(if isSelected then "Seleccionada" else "Seleccionar", isSelected)
    else Links("/labels/" + l.id, "/practice?label=" + l.id)
  }
}
