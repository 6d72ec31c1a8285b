/**
  applyThemeToCssVars (main.js): the value each of the fourteen --mai-*
  CSS variables receives from the theme configuration. Every value is the
  theme's own when it is present and truthy, otherwise a fixed default.
 */
module Theme {
  import opened Wrappers
  import opened JsString
  import opened Deck

  datatype Backgrounds = Backgrounds(page: Option<string>, panel: Option<string>, card: Option<string>)
  datatype TextColors = TextColors(primary: Option<string>, secondary: Option<string>, strong: Option<string>, muted: Option<string>)
  datatype Colors = Colors(backgrounds: Option<Backgrounds>, text: Option<TextColors>)
  /** A font family (`name`) and its fallback families (`fallbacks`). */
  datatype FontSpec = FontSpec(name: Option<string>, fallbacks: Option<seq<string>>)
  /** `recommended_sizes`, in px. */
  datatype Sizes = Sizes(title: Option<int>, slideTitle: Option<int>, heading: Option<int>, body: Option<int>, caption: Option<int>)
  datatype Fonts = Fonts(primary: Option<FontSpec>, secondary: Option<FontSpec>, recommendedSizes: Option<Sizes>)
  /** The theme JSON: `colors` and `fonts`. */
  datatype ThemeConfig = ThemeConfig(colors: Option<Colors>, fonts: Option<Fonts>)

  /** The values given to --mai-bg-page ... --mai-font-size-caption, in the order they are set. */
  datatype CssVars = CssVars(
    bgPage: string, bgPanel: string, bgCard: string,
    textPrimary: string, textSecondary: string, textStrong: string, textMuted: string,
    fontBody: string, fontTitle: string,
    fontSizeTitle: string, fontSizeSlideTitle: string, fontSizeHeading: string,
    fontSizeBody: string, fontSizeCaption: string)

  /** The variables of a theme that sets nothing. */
  const DefaultVars := CssVars(
    "#FEF9ED", "#F5ECE0", "#EADAC7",
    "#72675B", "#92877A", "#3B230E", "#B3A79A",
    "\"Segoe UI\", sans-serif", "\"Times New Roman\", serif",
    "72px", "48px", "32px", "22px", "16px")

  /** `value || fallback` on a string. */
  function OrString(value: Option<string>, fallback: string): string
  {
    if Truthy(value) then value.value else fallback
  }

  /** `value || fallback` on a number. */
  function OrNumber(value: Option<int>, fallback: int): int
  {
    if value.Some? && value.value != 0 then value.value else fallback
  }

  /** `(size || fallback) + "px"` */
  function Px(size: Option<int>, fallback: int): string
  {
    IntToString(OrNumber(size, fallback)) + "px"
  }

  /** `"${name}", ${spec?.fallbacks?.join(", ") || generic}` with name = `spec?.name || defaultName`. */
  function FontStack(spec: Option<FontSpec>, defaultName: string, generic: string): string
  {
    var name := OrString(if spec.Some? then spec.value.name else None, defaultName);
    var joined := if spec.Some? && spec.value.fallbacks.Some? then Join(spec.value.fallbacks.value, ", ") else "";
    "\"" + name + "\", " + (if joined != "" then joined else generic)
  }

  /** `colors.backgrounds`, read as `{}` when either level is missing. */
  function BackgroundsOf(theme: ThemeConfig): Backgrounds
  {
    theme.colors.GetOr(Colors(None, None)).backgrounds.GetOr(Backgrounds(None, None, None))
  }

  /** `colors.text`, read as `{}` when either level is missing. */
  function TextColorsOf(theme: ThemeConfig): TextColors
  {
    theme.colors.GetOr(Colors(None, None)).text.GetOr(TextColors(None, None, None, None))
  }

  /** `theme.fonts || {}` */
  function FontsOf(theme: ThemeConfig): Fonts
  {
    theme.fonts.GetOr(Fonts(None, None, None))
  }

  /** `fonts.recommended_sizes || {}` */
  function SizesOf(theme: ThemeConfig): Sizes
  {
    FontsOf(theme).recommendedSizes.GetOr(Sizes(None, None, None, None, None))
  }

  /** applyThemeToCssVars, as the values it passes to setProperty. */
  function ApplyTheme(theme: ThemeConfig): CssVars
  {
    var bg, text, fonts, sizes := BackgroundsOf(theme), TextColorsOf(theme), FontsOf(theme), SizesOf(theme);
    CssVars(
      OrString(bg.page, "#FEF9ED"), OrString(bg.panel, "#F5ECE0"), OrString(bg.card, "#EADAC7"),
      OrString(text.primary, "#72675B"), OrString(text.secondary, "#92877A"),
      OrString(text.strong, "#3B230E"), OrString(text.muted, "#B3A79A"),
      FontStack(fonts.secondary, "Segoe UI", "sans-serif"),
      FontStack(fonts.primary, "Times New Roman", "serif"),
      Px(sizes.title, 72), Px(sizes.slideTitle, 48), Px(sizes.heading, 32),
      Px(sizes.body, 22), Px(sizes.caption, 16))
  }

  /** A theme that sets nothing gives every variable its default. */
  lemma EmptyThemeGivesDefaults()
    ensures ApplyTheme(ThemeConfig(None, None)) == DefaultVars
  {
    DefaultFontStacks();
    DefaultSizes();
  }

  lemma DefaultFontStacks()
    ensures FontStack(None, "Segoe UI", "sans-serif") == DefaultVars.fontBody
    ensures FontStack(None, "Times New Roman", "serif") == DefaultVars.fontTitle
  {
    DefaultBodyStack();
    DefaultTitleStack();
  }

  lemma DefaultBodyStack()
    ensures FontStack(None, "Segoe UI", "sans-serif") == "\"Segoe UI\", sans-serif"
  {
    QuotedStack("Segoe UI", "sans-serif");
  }

  lemma DefaultTitleStack()
    ensures FontStack(None, "Times New Roman", "serif") == "\"Times New Roman\", serif"
  {
    QuotedStack("Times New Roman", "serif");
  }

  /** With no font entry the stack is the quoted default name and the generic family. */
  lemma QuotedStack(defaultName: string, generic: string)
    ensures FontStack(None, defaultName, generic) == "\"" + defaultName + "\", " + generic
  {
  }

  lemma DefaultSizes()
    ensures Px(None, 72) == "72px" && Px(None, 48) == "48px" && Px(None, 32) == "32px"
    ensures Px(None, 22) == "22px" && Px(None, 16) == "16px"
  {
    assert IntToString(72) == "72" && IntToString(48) == "48" && IntToString(32) == "32";
    assert IntToString(22) == "22" && IntToString(16) == "16";
  }

  /**
    A theme that sets only the page background changes --mai-bg-page, and
    only when the value is non-empty; every other variable keeps its default.
   */
  lemma PageColorOverridesOnlyItself(page: Option<string>)
    ensures var theme := ThemeConfig(Some(Colors(Some(Backgrounds(page, None, None)), None)), None);
      ApplyTheme(theme) == DefaultVars.(bgPage := if Truthy(page) then page.value else "#FEF9ED")
  {
    EmptyThemeGivesDefaults();
  }

  /**
    Every colour variable is the theme's colour when it is present and
    non-empty, and otherwise the default a theme that sets nothing gets.
   */
  lemma ColoursFallBack(theme: ThemeConfig)
    ensures var r, bg, text := ApplyTheme(theme), BackgroundsOf(theme), TextColorsOf(theme);
      && r.bgPage == (if Truthy(bg.page) then bg.page.value else DefaultVars.bgPage)
      && r.bgPanel == (if Truthy(bg.panel) then bg.panel.value else DefaultVars.bgPanel)
      && r.bgCard == (if Truthy(bg.card) then bg.card.value else DefaultVars.bgCard)
      && r.textPrimary == (if Truthy(text.primary) then text.primary.value else DefaultVars.textPrimary)
      && r.textSecondary == (if Truthy(text.secondary) then text.secondary.value else DefaultVars.textSecondary)
      && r.textStrong == (if Truthy(text.strong) then text.strong.value else DefaultVars.textStrong)
      && r.textMuted == (if Truthy(text.muted) then text.muted.value else DefaultVars.textMuted)
  {
  }

  /** A size variable as the theme gives it: the size in px when present and non-zero, else the default text. */
  function SizeOr(size: Option<int>, default: string): string
  {
    if size.Some? && size.value != 0 then IntToString(size.value) + "px" else default
  }

  /**
    Every size variable is the theme's size in px when it is present and
    non-zero, and otherwise the default a theme that sets nothing gets.
   */
  lemma SizesFallBack(theme: ThemeConfig)
    ensures var r, sizes := ApplyTheme(theme), SizesOf(theme);
      && r.fontSizeTitle == SizeOr(sizes.title, DefaultVars.fontSizeTitle)
      && r.fontSizeSlideTitle == SizeOr(sizes.slideTitle, DefaultVars.fontSizeSlideTitle)
      && r.fontSizeHeading == SizeOr(sizes.heading, DefaultVars.fontSizeHeading)
      && r.fontSizeBody == SizeOr(sizes.body, DefaultVars.fontSizeBody)
      && r.fontSizeCaption == SizeOr(sizes.caption, DefaultVars.fontSizeCaption)
  {
    DefaultSizes();
  }

  /**
    The title font names the theme's primary family (or Times New Roman)
    and falls back to serif when the fallback list is missing, empty, or a
    single empty name; otherwise it lists the fallbacks joined with ", ".
   */
  lemma TitleFontFallback(theme: ThemeConfig)
    ensures var spec := FontsOf(theme).primary;
      var name := if spec.Some? && Truthy(spec.value.name) then spec.value.name.value else "Times New Roman";
      var list := if spec.Some? && spec.value.fallbacks.Some? then spec.value.fallbacks.value else [];
      ApplyTheme(theme).fontTitle ==
        "\"" + name + "\", " + (if list == [] || list == [""] then "serif" else Join(list, ", "))
  {
    var spec := FontsOf(theme).primary;
    if spec.Some? && spec.value.fallbacks.Some? {
      JoinEmptyIff(spec.value.fallbacks.value, ", ");
    }
  }

  /**
    The body font names the theme's secondary family (or Segoe UI) and
    falls back to sans-serif when the fallback list is missing, empty, or a
    single empty name; otherwise it lists the fallbacks joined with ", ".
   */
  lemma BodyFontFallback(theme: ThemeConfig)
    ensures var spec := FontsOf(theme).secondary;
      var name := if spec.Some? && Truthy(spec.value.name) then spec.value.name.value else "Segoe UI";
      var list := if spec.Some? && spec.value.fallbacks.Some? then spec.value.fallbacks.value else [];
      ApplyTheme(theme).fontBody ==
        "\"" + name + "\", " + (if list == [] || list == [""] then "sans-serif" else Join(list, ", "))
  {
    var spec := FontsOf(theme).secondary;
    if spec.Some? && spec.value.fallbacks.Some? {
      JoinEmptyIff(spec.value.fallbacks.value, ", ");
    }
  }

  /** A length in px: integer text followed by "px". */
  predicate IsPxLength(s: string)
  {
    |s| > 2 && s[|s| - 2..] == "px" && IsIntText(s[..|s| - 2])
  }

  /**
    Whatever the theme holds, no colour is ever set to an empty value, both
    font stacks start with a quoted family name, and every size is an
    integer length in px.
   */
  lemma EveryVariableHasAValue(theme: ThemeConfig)
    ensures var r := ApplyTheme(theme);
      && r.bgPage != "" && r.bgPanel != "" && r.bgCard != ""
      && r.textPrimary != "" && r.textSecondary != "" && r.textStrong != "" && r.textMuted != ""
      && |r.fontBody| > 0 && r.fontBody[0] == '"' && |r.fontTitle| > 0 && r.fontTitle[0] == '"'
      && IsPxLength(r.fontSizeTitle) && IsPxLength(r.fontSizeSlideTitle) && IsPxLength(r.fontSizeHeading)
      && IsPxLength(r.fontSizeBody) && IsPxLength(r.fontSizeCaption)
  {
    var sizes := SizesOf(theme);
    PxReadsBack(sizes.title, 72);
    PxReadsBack(sizes.slideTitle, 48);
    PxReadsBack(sizes.heading, 32);
    PxReadsBack(sizes.body, 22);
    PxReadsBack(sizes.caption, 16);
  }

  /** `(size || fallback) + "px"` is a length in px whose number reads back as `size || fallback`. */
  lemma PxReadsBack(size: Option<int>, fallback: int)
    ensures var s := Px(size, fallback);
      IsPxLength(s) && IntValue(s[..|s| - 2]) == OrNumber(size, fallback)
  {
    var s := Px(size, fallback);
    assert s[..|s| - 2] == IntToString(OrNumber(size, fallback));
    IntToStringRoundTrip(OrNumber(size, fallback));
  }
}
