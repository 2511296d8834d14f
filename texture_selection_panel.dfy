/** The texture selection side panel: shown while a surface is selected, it
    lists the catalog for that kind of surface under display names derived
    from the file paths, marks the committed texture, requests a texture on
    click and clears the selection on close. */
module TextureSelectionPanel {
  import opened Surfaces
  import opened TextureContext

  /** What follows the last '/' (the whole path when there is none): the
      last element of `split('/')`. */
  function LastSegment(s: string): (r: string)
    ensures '/' !in r
    ensures |r| <= |s| && r == s[|s| - |r|..]
    ensures forall i :: |s| - |r| <= i < |s| ==> s[i] != '/'
    ensures r == s || s[|s| - |r| - 1] == '/'
    ensures '/' !in s ==> r == s
    decreases |s|
  {
    if s == [] then []
    else if s[|s| - 1] == '/' then []
    else
      var init, c := s[..|s| - 1], s[|s| - 1];
      var t := LastSegment(init);
      assert s == init + [c];
      ExtendSegment(s, init, c, t, t + [c]);
      t + [c]
  }

  /** One more character that is not '/' extends the last segment. */
  lemma ExtendSegment(s: string, init: string, c: char, t: string, r: string)
    requires s == init + [c] && c != '/' && r == t + [c]
    requires '/' !in t && |t| <= |init| && t == init[|init| - |t|..]
    requires forall i :: |init| - |t| <= i < |init| ==> init[i] != '/'
    requires t == init || init[|init| - |t| - 1] == '/'
    requires '/' !in init ==> t == init
    ensures '/' !in r && |r| <= |s| && r == s[|s| - |r|..]
    ensures forall i :: |s| - |r| <= i < |s| ==> s[i] != '/'
    ensures r == s || s[|s| - |r| - 1] == '/'
    ensures '/' !in s ==> r == s
  {
    assert forall i :: 0 <= i < |init| ==> init[i] == s[i];
    assert init[|init| - |t|..] + [c] == s[|s| - |r|..];
    if '/' !in s {
      assert forall i :: 0 <= i < |init| ==> init[i] in s;
    }
  }

  /** What precedes the first '.' (the whole name when there is none): the
      first element of `split('.')`. */
  function BeforeFirstDot(s: string): (r: string)
    ensures '.' !in r
    ensures |r| <= |s| && r == s[..|r|]
    ensures r == s || s[|r|] == '.'
    ensures '.' !in s ==> r == s
    ensures forall c :: c in r ==> c in s
    decreases |s|
  {
    if s == [] then []
    else if s[0] == '.' then []
    else [s[0]] + BeforeFirstDot(s[1..])
  }

  /** Every '-' becomes a space. */
  function DashesToSpaces(s: string): (r: string)
    ensures |r| == |s|
    ensures forall i :: 0 <= i < |s| ==> r[i] == if s[i] == '-' then ' ' else s[i]
    decreases |s|
  {
    if s == [] then []
    else
      var r := [if s[0] == '-' then ' ' else s[0]] + DashesToSpaces(s[1..]);
      assert forall i :: 1 <= i < |s| ==> r[i] == DashesToSpaces(s[1..])[i - 1] && s[i] == s[1..][i - 1];
      r
  }

  /** After the replacement no dash is left, and a name without dashes is
      left as it is. */
  lemma DashesReplaced(s: string)
    ensures '-' !in DashesToSpaces(s)
    ensures '-' !in s ==> DashesToSpaces(s) == s
  {
    var r := DashesToSpaces(s);
    assert forall i :: 0 <= i < |r| ==> r[i] != '-';
    if '-' !in s {
      assert forall i :: 0 <= i < |r| ==> s[i] in s && r[i] == s[i];
    }
  }

  /** The characters of the regular-expression class `\w`. */
  predicate IsWordChar(c: char)
  {
    ('a' <= c <= 'z') || ('A' <= c <= 'Z') || ('0' <= c <= '9') || c == '_'
  }

  /** `toUpperCase` on a single word character. */
  function Upper(c: char): (u: char)
    ensures IsWordChar(c) <==> IsWordChar(u)
    ensures 'a' <= c <= 'z' ==> 'A' <= u <= 'Z'
    ensures !('a' <= c <= 'z') ==> u == c
  {
    if 'a' <= c <= 'z' then (c as int - 32) as char else c
  }

  /** An upper-cased character stays as it is. */
  lemma UpperIdempotent(c: char)
    ensures Upper(Upper(c)) == Upper(c)
  {
  }

  /** Whether the character at `i` starts a word: a word character with no
      word character right before it (`\b\w`); `afterWord` says whether a
      word character precedes the whole of `s`. */
  predicate StartsWord(s: string, i: int, afterWord: bool)
    requires 0 <= i < |s|
  {
    IsWordChar(s[i]) && !(if i == 0 then afterWord else IsWordChar(s[i - 1]))
  }

  /** Upper-cases the first character of every word, scanning left to right. */
  function CapitalizeFrom(s: string, afterWord: bool): (r: string)
    ensures |r| == |s|
    ensures forall i :: 0 <= i < |s| ==> r[i] == if StartsWord(s, i, afterWord) then Upper(s[i]) else s[i]
    decreases |s|
  {
    if s == [] then []
    else
      var head := if IsWordChar(s[0]) && !afterWord then Upper(s[0]) else s[0];
      var rest := CapitalizeFrom(s[1..], IsWordChar(s[0]));
      var r := [head] + rest;
      assert forall i :: 1 <= i < |s| ==> r[i] == rest[i - 1] && s[i] == s[1..][i - 1];
      r
  }

  /** `replace(/\b\w/g, l => l.toUpperCase())`. */
  function Capitalize(s: string): (r: string)
    ensures |r| == |s|
    ensures forall i :: 0 <= i < |s| ==> r[i] == if StartsWord(s, i, false) then Upper(s[i]) else s[i]
    ensures forall i :: 0 <= i < |s| ==> (IsWordChar(r[i]) <==> IsWordChar(s[i]))
    ensures forall i :: 0 <= i < |s| && !IsWordChar(s[i]) ==> r[i] == s[i]
  {
    CapitalizeFrom(s, false)
  }

  /** Capitalising twice changes nothing more. */
  lemma CapitalizeIdempotent(s: string)
    ensures Capitalize(Capitalize(s)) == Capitalize(s)
  {
    var r := Capitalize(s);
    var rr := Capitalize(r);
    forall i | 0 <= i < |s|
      ensures rr[i] == r[i]
    {
      UpperIdempotent(s[i]);
      if i > 0 {
        assert IsWordChar(r[i - 1]) <==> IsWordChar(s[i - 1]);
      }
    }
  }

  /** The display name of a texture path: the file name without extension,
      dashes as spaces, every word capitalised. */
  function TextureName(path: string): (name: string)
    ensures '/' !in name && '.' !in name && '-' !in name
    ensures |name| == |BeforeFirstDot(LastSegment(path))|
    ensures |name| <= |path|
  {
    NameHasNoSeparators(path);
    Capitalize(DashesToSpaces(BeforeFirstDot(LastSegment(path))))
  }

  lemma NameHasNoSeparators(path: string)
    ensures var name := Capitalize(DashesToSpaces(BeforeFirstDot(LastSegment(path))));
      '/' !in name && '.' !in name && '-' !in name
  {
    SpacedHasNoSeparators(path);
    CapitalizeAddsNoSeparator(DashesToSpaces(BeforeFirstDot(LastSegment(path))));
  }

  /** Capitalising only changes word characters, so it brings in no
      separator. */
  lemma CapitalizeAddsNoSeparator(s: string)
    requires '/' !in s && '.' !in s && '-' !in s
    ensures var r := Capitalize(s);
      '/' !in r && '.' !in r && '-' !in r
  {
    var r := Capitalize(s);
    forall i | 0 <= i < |r|
      ensures r[i] != '/' && r[i] != '.' && r[i] != '-'
    {
      assert s[i] in s;
      if !IsWordChar(s[i]) {
        assert r[i] == s[i];
      }
    }
  }

  /** Before capitalising, the name already holds no separator. */
  lemma SpacedHasNoSeparators(path: string)
    ensures var spaced := DashesToSpaces(BeforeFirstDot(LastSegment(path)));
      '/' !in spaced && '.' !in spaced && '-' !in spaced
  {
    var base := BeforeFirstDot(LastSegment(path));
    assert '/' !in base && '.' !in base;
    DashesKeepOtherSeparators(base);
    DashesReplaced(base);
  }

  /** Replacing dashes brings in no '/' and no '.'. */
  lemma DashesKeepOtherSeparators(base: string)
    requires '/' !in base && '.' !in base
    ensures '/' !in DashesToSpaces(base) && '.' !in DashesToSpaces(base)
  {
    var spaced := DashesToSpaces(base);
    forall i | 0 <= i < |spaced|
      ensures spaced[i] != '/' && spaced[i] != '.'
    {
      assert base[i] in base;
    }
  }

  /** A display name is its own display name. */
  lemma TextureNameIdempotent(path: string)
    ensures TextureName(TextureName(path)) == TextureName(path)
  {
    var name := TextureName(path);
    var spaced := DashesToSpaces(BeforeFirstDot(LastSegment(path)));
    assert name == Capitalize(spaced);
    assert LastSegment(name) == name;
    assert BeforeFirstDot(name) == name;
    DashesReplaced(name);
    CapitalizeIdempotent(spaced);
  }

  /** A catalog name, worked out: path, file name, base name, spaced,
      capitalised. */
  lemma WoodPanelName()
    ensures TextureName("/textures/walls/wood-panel2.jpg") == "Wood Panel2"
  {
    WoodPanelFile();
    WoodPanelBase();
    SpacedWoodPanel2();
    CapitalizeWoodPanel2();
  }

  lemma WoodPanelFile()
    ensures LastSegment("/textures/walls/wood-panel2.jpg") == "wood-panel2.jpg"
  {
    var p := "/textures/walls/wood-panel2.jpg";
    assert p[15] == '/' && p[16..] == "wood-panel2.jpg";
    assert forall i :: 15 < i < |p| ==> p[i] == p[16..][i - 16];
    LastSegmentAfter(p, 15);
  }

  lemma WoodPanelBase()
    ensures BeforeFirstDot("wood-panel2.jpg") == "wood-panel2"
  {
    BeforeFirstDotAt("wood-panel2.jpg", 11);
    assert "wood-panel2.jpg"[..11] == "wood-panel2";
  }

  lemma SpacedWoodPanel2()
    ensures DashesToSpaces("wood-panel2") == "wood panel2"
  {
    assert "wood" + " " + "panel2" == "wood panel2";
    assert "wood" + "-" + "panel2" == "wood-panel2";
    SpacedSplit("wood", "panel2");
  }

  /** Replacing dashes around a single dash. */
  lemma SpacedSplit(a: string, b: string)
    requires '-' !in a && '-' !in b
    ensures DashesToSpaces(a + "-" + b) == a + " " + b
  {
    var s, e := a + "-" + b, a + " " + b;
    var d := DashesToSpaces(s);
    forall i | 0 <= i < |s|
      ensures d[i] == e[i]
    {
      SpacedAt(a, b, s, e, i);
    }
  }

  lemma SpacedAt(a: string, b: string, s: string, e: string, i: nat)
    requires '-' !in a && '-' !in b
    requires s == a + "-" + b && e == a + " " + b && i < |s|
    ensures DashesToSpaces(s)[i] == e[i]
  {
    if i < |a| {
      assert s[i] == a[i] && e[i] == a[i] && a[i] in a;
    } else if i == |a| {
      assert s[i] == '-' && e[i] == ' ';
    } else {
      var j := i - |a| - 1;
      assert s[i] == b[j] && e[i] == b[j] && b[j] in b;
    }
  }

  lemma CapitalizeWoodPanel2()
    ensures Capitalize("wood panel2") == "Wood Panel2"
  {
    var a, b := "wood", "panel2";
    assert forall i :: 0 <= i < |a| ==> IsWordChar(a[i]);
    assert forall i :: 0 <= i < |b| ==> IsWordChar(b[i]);
    WoodPanel2Spelled();
    CapitalizeTwoWords(a, b);
  }

  lemma WoodPanel2Spelled()
    ensures "wood" + " " + "panel2" == "wood panel2"
    ensures [Upper('w')] + "ood" + " " + [Upper('p')] + "anel2" == "Wood Panel2"
  {
  }

  /** Two words joined by a space: each one's first character is upper-cased
      and nothing else changes. */
  lemma CapitalizeTwoWords(a: string, b: string)
    requires |a| > 0 && |b| > 0
    requires forall i :: 0 <= i < |a| ==> IsWordChar(a[i])
    requires forall i :: 0 <= i < |b| ==> IsWordChar(b[i])
    ensures Capitalize(a + " " + b) == [Upper(a[0])] + a[1..] + " " + [Upper(b[0])] + b[1..]
  {
    var s := a + " " + b;
    var r := Capitalize(s);
    var e := ([Upper(a[0])] + a[1..]) + " " + ([Upper(b[0])] + b[1..]);
    assert |e| == |s|;
    forall i | 0 <= i < |s|
      ensures r[i] == e[i]
    {
      if i <= |a| {
        CapitalizeFirstWord(a, b, i);
      } else {
        CapitalizeSecondWord(a, b, i - |a| - 1);
      }
    }
  }

  lemma CapitalizeFirstWord(a: string, b: string, i: nat)
    requires |a| > 0 && |b| > 0 && i <= |a|
    requires forall i :: 0 <= i < |a| ==> IsWordChar(a[i])
    ensures Capitalize(a + " " + b)[i] == (([Upper(a[0])] + a[1..]) + " " + ([Upper(b[0])] + b[1..]))[i]
  {
    var s := a + " " + b;
    if 0 < i < |a| {
      assert s[i - 1] == a[i - 1];
    }
  }

  lemma CapitalizeSecondWord(a: string, b: string, j: nat)
    requires |a| > 0 && |b| > 0 && j < |b|
    requires forall i :: 0 <= i < |b| ==> IsWordChar(b[i])
    ensures Capitalize(a + " " + b)[|a| + 1 + j] == (([Upper(a[0])] + a[1..]) + " " + ([Upper(b[0])] + b[1..]))[|a| + 1 + j]
  {
    var s := a + " " + b;
    var i := |a| + 1 + j;
    assert s[i] == b[j];
    assert s[i - 1] == if j == 0 then ' ' else b[j - 1];
  }

  /** The segment after a '/' with no '/' following it. */
  lemma LastSegmentAfter(s: string, k: nat)
    requires k < |s| && s[k] == '/'
    requires forall i :: k < i < |s| ==> s[i] != '/'
    ensures LastSegment(s) == s[k + 1..]
  {
  }

  /** The name before the first '.', found at `k`. */
  lemma BeforeFirstDotAt(s: string, k: nat)
    requires k < |s| && s[k] == '.' && '.' !in s[..k]
    ensures BeforeFirstDot(s) == s[..k]
  {
    var r := BeforeFirstDot(s);
    assert forall i :: 0 <= i < |r| ==> r[i] == s[i];
    assert |r| <= k;
    assert forall i :: 0 <= i < k ==> s[..k][i] == s[i];
    assert |r| == k;
  }

  /** The catalog offered for a surface. */
  function AvailableTextures(s: Surface): (ts: seq<string>)
    ensures s == Floor ==> ts == FloorTextures
    ensures IsWall(s) ==> ts == WallTextures
  {
    if s == Floor then FloorTextures else WallTextures
  }

  /** One entry of the texture list. */
  datatype Item = Item(texture: string, name: string, isCurrent: bool)

  /** The panel's content. */
  datatype Panel = Panel(
    surfaceLabel: string,
    kind: string,
    currentTexture: string,
    currentName: string,
    items: seq<Item>)

  /** The panel for a selection: nothing without one; otherwise the
      catalog for the surface's kind, in order, with the committed texture
      marked. */
  function View(selected: Option<Surface>, t: TextureRecords): (p: Option<Panel>)
    requires Total(t)
    ensures p.None? <==> selected.None?
    ensures p.Some? ==> p.value.surfaceLabel == Label(selected.value)
    ensures p.Some? ==> p.value.kind == if selected.value == Floor then "Floor" else "Wall"
    ensures p.Some? ==> p.value.currentTexture == t.current[selected.value]
    ensures p.Some? ==> p.value.currentName == TextureName(t.current[selected.value])
    ensures p.Some? ==> |p.value.items| == |AvailableTextures(selected.value)|
    ensures p.Some? ==> forall i :: 0 <= i < |p.value.items| ==>
      p.value.items[i] == Item(AvailableTextures(selected.value)[i], TextureName(AvailableTextures(selected.value)[i]),
                               AvailableTextures(selected.value)[i] == t.current[selected.value])
  {
    if selected.None? then None
    else
      var s := selected.value;
      var current := t.current[s];
      var available := AvailableTextures(s);
      Some(Panel(Label(s), if s == Floor then "Floor" else "Wall", current, TextureName(current),
                 Items(available, current)))
  }

  /** The list entries for a catalog, marking the committed texture. */
  function Items(available: seq<string>, current: string): (items: seq<Item>)
    ensures |items| == |available|
    ensures forall i :: 0 <= i < |items| ==>
      items[i] == Item(available[i], TextureName(available[i]), available[i] == current)
  {
    seq(|available|, i requires 0 <= i < |available| =>
      Item(available[i], TextureName(available[i]), available[i] == current))
  }

  predicate Distinct(ts: seq<string>)
  {
    forall i, j :: 0 <= i < j < |ts| ==> ts[i] != ts[j]
  }

  lemma CatalogsDistinct()
    ensures Distinct(WallTextures) && Distinct(FloorTextures)
  {
  }

  /** In a catalog without duplicates, a committed texture from the catalog
      is marked on exactly one entry, and any other committed texture on
      none. */
  lemma CurrentMarkedOnce(available: seq<string>, current: string)
    requires Distinct(available)
    ensures current in available ==>
      exists i :: 0 <= i < |available| && Items(available, current)[i].isCurrent &&
        forall j :: 0 <= j < |available| && j != i ==> !Items(available, current)[j].isCurrent
    ensures current !in available ==> forall j :: 0 <= j < |available| ==> !Items(available, current)[j].isCurrent
  {
    if current in available {
      var i :| 0 <= i < |available| && available[i] == current;
      assert Items(available, current)[i].isCurrent;
    }
  }

  /** The panel's handlers, bound to the store. */
  class SelectionPanel {
    const store: TextureProvider

    ghost predicate Valid()
      reads this, store
    {
      store.Valid()
    }

    constructor (store: TextureProvider)
      ensures this.store == store
    {
      this.store := store;
    }

    /** A click on an entry requests that texture for the selected surface.
        The handler exists only while the panel is shown, so a surface is
        selected. */
    method HandleTextureSelect(texture: string)
      requires Valid() && store.selectedSurface.Some?
      modifies store
      ensures Valid()
      ensures store.Textures() == AfterSetTexture(old(store.Textures()), old(store.selectedSurface).value, texture)
      ensures store.selectedSurface == old(store.selectedSurface) && store.roomDimensions == old(store.roomDimensions)
    {
      store.SetTexture(store.selectedSurface.value, texture);
    }

    /** The close button clears the selection, which hides the panel. */
    method HandleClose()
      requires Valid()
      modifies store
      ensures Valid()
      ensures store.selectedSurface == None
      ensures View(store.selectedSurface, store.Textures()) == None
      ensures store.Textures() == old(store.Textures()) && store.roomDimensions == old(store.roomDimensions)
    {
      store.SetSelectedSurface(None);
    }
  }
}
