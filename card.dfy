/**
 * The card presenter: pure functions from one record to what its card shows,
 * namely the colour theme, the icon paths, the background image, which icons
 * are hidden and the star ratings.
 */
module Card {
  import opened Wrappers
  import opened Strings
  import opened CardData

  /** The colour themes; each names a style class and an icon folder. */
  datatype Theme = Teal | Green | Orange | Pink | Purple {
    function Name(): string
    {
      match this
      case Teal => "teal"
      case Green => "green"
      case Orange => "orange"
      case Pink => "pink"
      case Purple => "purple"
    }
  }

  /** The theme a folder name stands for, if any. */
  function ThemeNamed(name: string): (t: Option<Theme>)
    ensures t.Some? ==> t.value.Name() == name
  {
    if name == "teal" then Some(Teal)
    else if name == "green" then Some(Green)
    else if name == "orange" then Some(Orange)
    else if name == "pink" then Some(Pink)
    else if name == "purple" then Some(Purple)
    else None
  }

  /** Every theme is recovered from its name. */
  lemma ThemeNamedName(t: Theme)
    ensures ThemeNamed(t.Name()) == Some(t)
  {
  }

  /** `getColor`: the theme of the record's sector, matched ignoring case, teal for any unknown sector. */
  function GetColor(r: Record): (t: Theme)
    ensures t == Green <==> Lower(r.sector) == "agriculture"
    ensures t == Orange <==> Lower(r.sector) == "manufacturing"
    ensures t == Pink <==> Lower(r.sector) == "built environment"
    ensures t == Purple <==> Lower(r.sector) == "transport"
    ensures t == Teal <==> Lower(r.sector) !in {"agriculture", "manufacturing", "built environment", "transport"}
  {
    var sector := Lower(r.sector);
    if sector == "energy" then Teal
    else if sector == "agriculture" then Green
    else if sector == "manufacturing" then Orange
    else if sector == "built environment" then Pink
    else if sector == "transport" then Purple
    else Teal
  }

  /** The theme does not depend on the case in which the sector is written. */
  lemma GetColorIgnoresCase(r: Record)
    ensures GetColor(r.(sector := Upper(r.sector))) == GetColor(r)
    ensures GetColor(r.(sector := Lower(r.sector))) == GetColor(r)
  {
    LowerOfUpper(r.sector);
    LowerIdempotent(r.sector);
  }

  /** An icon's file name: every space removed, then the first '&' removed. */
  function IconLabel(s: string): string
  {
    RemoveFirst(RemoveAll(s, ' '), '&')
  }

  /** A label has no space, one '&' fewer than its text when the text had any, and every other character as often. */
  lemma IconLabelCounts(s: string)
    ensures ' ' !in IconLabel(s)
    ensures multiset(IconLabel(s))['&'] == if multiset(s)['&'] > 0 then multiset(s)['&'] - 1 else 0
    ensures forall c :: c != ' ' && c != '&' ==> multiset(IconLabel(s))[c] == multiset(s)[c]
  {
    var spaceless := RemoveAll(s, ' ');
    var name := RemoveFirst(spaceless, '&');
    var m0, m1, m2 := multiset(s), multiset(spaceless), multiset(name);
    assert m1 == m0[' ' := 0];
    assert '&' in spaceless <==> m1['&'] > 0;
    assert m2 == if m1['&'] > 0 then m1 - multiset{'&'} else m1;
    assert m2[' '] == 0;
    assert ' ' in name <==> m2[' '] > 0;
    forall c | c != ' ' && c != '&' ensures m2[c] == m0[c] {
      assert m1[c] == m0[c];
    }
  }

  /** `<theme>/<label>.svg`. */
  function IconPath(t: Theme, tag: string): string
  {
    t.Name() + "/" + IconLabel(tag) + ".svg"
  }

  /** Reads a theme folder and a file name back out of an icon path. */
  function ParseIconPath(p: string): Option<(Theme, string)>
  {
    var i := IndexOf(p, '/');
    if i < 0 then None
    else
      match ThemeNamed(p[..i])
      case None => None
      case Some(t) =>
        var file := p[i + 1..];
        if |file| >= 4 && file[|file| - 4..] == ".svg" then Some((t, file[..|file| - 4])) else None
  }

  /** Any `<theme>/<base>.svg` parses back into its theme and base name. */
  lemma ParseJoined(t: Theme, base: string)
    ensures ParseIconPath(t.Name() + "/" + base + ".svg") == Some((t, base))
  {
    var name, file := t.Name(), base + ".svg";
    var p := name + "/" + file;
    assert p == t.Name() + "/" + base + ".svg";
    assert p[..|name|] == name;
    assert '/' !in name;
    IndexOfFirst(p, '/', |name|);
    assert p[|name| + 1..] == file;
    assert file[|file| - 4..] == ".svg";
    assert file[..|file| - 4] == base;
    ThemeNamedName(t);
  }

  /** An icon path names its theme folder and its normalised label, and nothing else. */
  lemma IconPathRoundTrip(t: Theme, tag: string)
    ensures ParseIconPath(IconPath(t, tag)) == Some((t, IconLabel(tag)))
  {
    ParseJoined(t, IconLabel(tag));
  }

  /** `getPhaseIcon`: the phase title's icon in the card's theme folder. */
  function GetPhaseIcon(r: Record): (p: string)
    ensures ParseIconPath(p) == Some((GetColor(r), IconLabel(r.phaseTitle)))
  {
    IconPathRoundTrip(GetColor(r), r.phaseTitle);
    IconPath(GetColor(r), r.phaseTitle)
  }

  /** `getAI1Icon`: the first AI capability's icon in the card's theme folder. */
  function GetAI1Icon(r: Record): (p: string)
    ensures ParseIconPath(p) == Some((GetColor(r), IconLabel(r.ai1)))
  {
    IconPathRoundTrip(GetColor(r), r.ai1);
    IconPath(GetColor(r), r.ai1)
  }

  /** `getAI2Icon`: the second AI capability's icon in the card's theme folder. */
  function GetAI2Icon(r: Record): (p: string)
    ensures ParseIconPath(p) == Some((GetColor(r), IconLabel(r.ai2)))
  {
    IconPathRoundTrip(GetColor(r), r.ai2);
    IconPath(GetColor(r), r.ai2)
  }

  /** `getAI3Icon`: the third AI capability's icon in the card's theme folder. */
  function GetAI3Icon(r: Record): (p: string)
    ensures ParseIconPath(p) == Some((GetColor(r), IconLabel(r.ai3)))
  {
    IconPathRoundTrip(GetColor(r), r.ai3);
    IconPath(GetColor(r), r.ai3)
  }

  /** `getImg`: the background image, named after the sector in its original case. */
  function GetImg(r: Record): (p: string)
    ensures |p| == |r.sector| + 4
    ensures p[..|r.sector|] == r.sector && p[|r.sector|..] == ".svg"
  {
    r.sector + ".svg"
  }

  /** Sectors that differ only in case share a theme but not a background image. */
  lemma GetImgKeepsCase(r: Record, s: Record)
    ensures GetImg(r) == GetImg(s) <==> r.sector == s.sector
  {
    if GetImg(r) == GetImg(s) {
      assert r.sector == GetImg(r)[..|r.sector|];
    }
  }

  /** "Energy" and "energy" give the same theme and different image names. */
  lemma EnergyCaseExample(r: Record)
    requires r.sector == "Energy"
    ensures GetColor(r) == GetColor(r.(sector := "energy")) == Teal
    ensures GetImg(r) != GetImg(r.(sector := "energy"))
  {
    var s := r.(sector := "energy");
    LowerEnergy();
    assert GetColor(r) == Teal && GetColor(s) == Teal;
    GetImgKeepsCase(r, s);
  }

  lemma LowerEnergy()
    ensures Lower("Energy") == "energy" && Lower("energy") == "energy"
  {
  }

  // The hide flags: a slot is hidden only when its field is exactly the empty string.

  predicate HideIcon1(r: Record) { r.ai1 == "" }

  predicate HideIcon2(r: Record) { r.ai2 == "" }

  predicate HideIcon3(r: Record) { r.ai3 == "" }

  predicate HideGC(r: Record) { r.challenge == "" }

  /**
   * `toHTML` builds no icon for a hidden slot (js/main.js:227-238). Hiding loses
   * nothing: the icon it would have built has no file name.
   */
  lemma HiddenIconsAreNameless(r: Record)
    ensures HideIcon1(r) ==> ParseIconPath(GetAI1Icon(r)) == Some((GetColor(r), ""))
    ensures HideIcon2(r) ==> ParseIconPath(GetAI2Icon(r)) == Some((GetColor(r), ""))
    ensures HideIcon3(r) ==> ParseIconPath(GetAI3Icon(r)) == Some((GetColor(r), ""))
  {
    assert RemoveAll("", ' ') == [];
  }

  /** A tag made only of spaces is shown, with an icon whose file name is empty. */
  lemma BlankTagShownNameless(r: Record)
    requires r.ai1 == " "
    ensures !HideIcon1(r)
    ensures ParseIconPath(GetAI1Icon(r)) == Some((GetColor(r), ""))
  {
    assert RemoveAll(r.ai1, ' ') == [];
  }

  /** A slot of the three-star rating. */
  datatype Star = Filled | Empty

  /** `starRating`: n filled stars then 3 - n empty ones for n in 1..3, nothing at all otherwise. */
  function StarRating(n: int): (stars: seq<Star>)
    ensures 1 <= n <= 3 ==> |stars| == 3 && forall i :: 0 <= i < 3 ==> (stars[i] == Filled <==> i < n)
    ensures !(1 <= n <= 3) ==> stars == []
  {
    if n == 1 then [Filled, Empty, Empty]
    else if n == 2 then [Filled, Filled, Empty]
    else if n == 3 then [Filled, Filled, Filled]
    else []
  }

  /** The number of filled stars is the score. */
  lemma StarRatingCount(n: int)
    requires 1 <= n <= 3
    ensures multiset(StarRating(n))[Filled] == n
    ensures multiset(StarRating(n))[Empty] == 3 - n
  {
  }
}
