/**
  Avatar URL construction of `AvatarCustomizer`
  (src/components/AvatarCustomizer.tsx): a table of twenty avatar styles,
  the customization record whose background colour the user picks, and
  `generateAvatarUrl`.
*/
module Avatar {
  import opened Options

  datatype AvatarStyle = AvatarStyle(name: string, seed: string, style: string)

  datatype Customization = Customization(
    style: string,
    backgroundColor: string,
    hairColor: string,
    skinColor: string,
    clothingColor: string)

  datatype ColorChoice = ColorChoice(name: string, value: string)

  const Transparent := "transparent"
  const UrlHost := "https://api.dicebear.com/7.x/"
  const SeedQuery := "/svg?seed="
  const BackgroundQuery := "&backgroundColor="

  const AvatarStyles: seq<AvatarStyle> := [
    AvatarStyle("Professional 1", "john", "avataaars"),
    AvatarStyle("Professional 2", "jane", "avataaars"),
    AvatarStyle("Casual 1", "alex", "avataaars"),
    AvatarStyle("Casual 2", "sarah", "avataaars"),
    AvatarStyle("Corporate 1", "michael", "avataaars"),
    AvatarStyle("Corporate 2", "lisa", "avataaars"),
    AvatarStyle("Creative 1", "david", "avataaars"),
    AvatarStyle("Creative 2", "emma", "avataaars"),
    AvatarStyle("Tech 1", "ryan", "avataaars"),
    AvatarStyle("Tech 2", "sophia", "avataaars"),
    AvatarStyle("Minimalist 1", "chris", "initials"),
    AvatarStyle("Minimalist 2", "anna", "initials"),
    AvatarStyle("Modern 1", "kevin", "personas"),
    AvatarStyle("Modern 2", "maya", "personas"),
    AvatarStyle("Geometric 1", "tom", "identicon"),
    AvatarStyle("Geometric 2", "zoe", "identicon"),
    AvatarStyle("Playful 1", "ben", "bottts"),
    AvatarStyle("Playful 2", "chloe", "bottts"),
    AvatarStyle("Abstract 1", "jake", "shapes"),
    AvatarStyle("Abstract 2", "ruby", "shapes")
  ]

  const BackgroundColors: seq<ColorChoice> := [
    ColorChoice("Transparent", "transparent"),
    ColorChoice("Blue", "3b82f6"),
    ColorChoice("Purple", "8b5cf6"),
    ColorChoice("Green", "10b981"),
    ColorChoice("Pink", "ec4899"),
    ColorChoice("Red", "dc2626")
  ]

  /** The customization the component starts with. */
  function InitialCustomization(): (c: Customization)
    ensures c.backgroundColor == Transparent && c.style == "avataaars"
  {
    Customization("avataaars", Transparent, "brown", "light", "blue")
  }

  /** The URL without a background parameter for style `index`. */
  function BaseUrl(index: int): (url: string)
    requires 0 <= index < |AvatarStyles|
    ensures UrlHost + AvatarStyles[index].style <= url
    ensures |SeedQuery + AvatarStyles[index].seed| <= |url|
    ensures |url| == |UrlHost + AvatarStyles[index].style| + |SeedQuery + AvatarStyles[index].seed|
    ensures url[|url| - |SeedQuery + AvatarStyles[index].seed|..] == SeedQuery + AvatarStyles[index].seed
  {
    UrlHost + AvatarStyles[index].style + SeedQuery + AvatarStyles[index].seed
  }

  /** The background `generateAvatarUrl` uses: a non-empty custom colour,
      otherwise the stored one. */
  function EffectiveBackground(customBg: Option<string>, c: Customization): (bg: string)
    ensures customBg.Some? && customBg.value != "" ==> bg == customBg.value
    ensures (customBg.None? || customBg.value == "") ==> bg == c.backgroundColor
  {
    if customBg.Some? && customBg.value != "" then customBg.value else c.backgroundColor
  }

  /** The image URL `generateAvatarUrl` builds for style `index`: the base
      URL, with the background appended unless it is transparent. */
  function GenerateAvatarUrl(index: int, customBg: Option<string>, c: Customization): (url: string)
    requires 0 <= index < |AvatarStyles|
    ensures BaseUrl(index) <= url
    ensures EffectiveBackground(customBg, c) == Transparent ==> url == BaseUrl(index)
    ensures EffectiveBackground(customBg, c) != Transparent ==>
              url == BaseUrl(index) + BackgroundQuery + EffectiveBackground(customBg, c)
  {
    var bg := EffectiveBackground(customBg, c);
    if bg != Transparent then BaseUrl(index) + BackgroundQuery + bg else BaseUrl(index)
  }

  /** Clicking a colour swatch: the customization keeps every field but the
      background colour, which takes the swatch's value. */
  function SelectBackground(c: Customization, value: string): (r: Customization)
    ensures r.backgroundColor == value
    ensures r.style == c.style && r.hairColor == c.hairColor
    ensures r.skinColor == c.skinColor && r.clothingColor == c.clothingColor
  {
    c.(backgroundColor := value)
  }

  /** The URL determines the effective background: two calls for the same
      style agree exactly when their effective backgrounds do. */
  lemma UrlDeterminesBackground(index: int, customBg1: Option<string>, c1: Customization,
                                customBg2: Option<string>, c2: Customization)
    requires 0 <= index < |AvatarStyles|
    ensures GenerateAvatarUrl(index, customBg1, c1) == GenerateAvatarUrl(index, customBg2, c2) <==>
            EffectiveBackground(customBg1, c1) == EffectiveBackground(customBg2, c2)
  {
    var base := BaseUrl(index);
    var bg1, bg2 := EffectiveBackground(customBg1, c1), EffectiveBackground(customBg2, c2);
    var u1, u2 := GenerateAvatarUrl(index, customBg1, c1), GenerateAvatarUrl(index, customBg2, c2);
    if bg1 != Transparent && bg2 != Transparent {
      assert u1[|base + BackgroundQuery|..] == bg1;
      assert u2[|base + BackgroundQuery|..] == bg2;
    } else if bg1 != Transparent || bg2 != Transparent {
      assert |u1| != |u2|;
    }
  }

  /** Passing the stored colour as `customBg` (the customize tab's preview)
      gives the same URL as passing none (the gallery). */
  lemma StoredBackgroundAsArgument(index: int, c: Customization)
    requires 0 <= index < |AvatarStyles|
    ensures GenerateAvatarUrl(index, Some(c.backgroundColor), c) == GenerateAvatarUrl(index, None, c)
  {
  }

  /** Of the six offered swatches, the first (transparent) leaves the URL at
      its base; each other one appends its own colour value, and no two
      swatches give the same URL. */
  lemma {:induction false} OfferedBackgroundsInUrl(index: int, c: Customization, k: int, m: int)
    requires 0 <= index < |AvatarStyles|
    requires 0 <= k < |BackgroundColors| && 0 <= m < |BackgroundColors|
    ensures k == 0 ==>
              GenerateAvatarUrl(index, None, SelectBackground(c, BackgroundColors[k].value)) == BaseUrl(index)
    ensures k != 0 ==>
              GenerateAvatarUrl(index, None, SelectBackground(c, BackgroundColors[k].value)) ==
              BaseUrl(index) + BackgroundQuery + BackgroundColors[k].value
    ensures k != m ==>
              GenerateAvatarUrl(index, None, SelectBackground(c, BackgroundColors[k].value)) !=
              GenerateAvatarUrl(index, None, SelectBackground(c, BackgroundColors[m].value))
  {
    UrlDeterminesBackground(index, None, SelectBackground(c, BackgroundColors[k].value),
                            None, SelectBackground(c, BackgroundColors[m].value));
  }

  /** The table has twenty entries, and the initial customization shows
      every avatar without a background parameter. */
  lemma InitialUrlsAreBase(index: int)
    requires 0 <= index < |AvatarStyles|
    ensures |AvatarStyles| == 20
    ensures GenerateAvatarUrl(index, None, InitialCustomization()) == BaseUrl(index)
  {
  }
}
