/** The theme preference: its name, whether it renders dark, the palettes,
    and its persistence under the appTheme key. */
module ThemeContext {
  import opened Wrappers
  import opened Storage

  const ThemeKey := "appTheme"
  const SystemTheme := "system"

  /** The colour palette of the screens. */
  datatype Palette = Palette(background: string, text: string, card: string, primary: string,
                             placeholder: string, searchBg: string, error: string)

  const LightPalette := Palette("#F8F9FA", "#1A1A1A", "#FFFFFF", "#007AFF", "#999", "#F0F2F5", "#FF3B30")
  const DarkPalette := Palette("#121212", "#FFFFFF", "#1C1C1E", "#0A84FF", "#AAA", "#171717", "#FF453A")

  /** `themeName === "dark" || (themeName === "system" && system === "dark")` */
  predicate IsDark(themeName: string, system: string)
  {
    themeName == "dark" || (themeName == SystemTheme && system == "dark")
  }

  function Colors(themeName: string, system: string): (c: Palette)
    ensures c == DarkPalette <==> IsDark(themeName, system)
  {
    if IsDark(themeName, system) then DarkPalette else LightPalette
  }

  /** The colours handed to the navigation container. */
  datatype NavPalette = NavPalette(primary: string, background: string, card: string, text: string,
                                   border: string, notification: string)

  const LightNavPalette := NavPalette("#007AFF", "#F8F9FA", "#FFFFFF", "#1A1A1A", "#E5E5EA", "#FF3B30")
  const DarkNavPalette := NavPalette("#0A84FF", "#121212", "#1C1C1E", "#FFFFFF", "#2C2C2E", "#FF453A")

  function NavColors(themeName: string, system: string): (c: NavPalette)
    ensures c == DarkNavPalette <==> IsDark(themeName, system)
  {
    if IsDark(themeName, system) then DarkNavPalette else LightNavPalette
  }

  /** A loaded name is not checked: anything but dark and system renders
      light, whatever the system setting. */
  lemma UnknownNameRendersLight(themeName: string, system: string)
    requires themeName != "dark" && themeName != SystemTheme
    ensures Colors(themeName, system) == LightPalette
    ensures NavColors(themeName, system) == LightNavPalette
  {
  }

  /** toggleTheme: light becomes dark, anything else (dark, system, other
      text) becomes light. */
  function Toggled(themeName: string): (r: string)
    ensures r == "dark" <==> themeName == "light"
    ensures r == "light" <==> themeName != "light"
  {
    if themeName == "light" then "dark" else "light"
  }

  /** Toggling always picks an explicit theme that ignores the system
      setting and flips dark and light; two toggles give back light or
      dark, but turn system (or any other name) into dark. */
  lemma ToggleSpec(themeName: string, system: string, other: string)
    ensures IsDark(Toggled(themeName), system) == IsDark(Toggled(themeName), other)
    ensures themeName == "light" || themeName == "dark" ==>
      IsDark(Toggled(themeName), system) == !IsDark(themeName, system)
      && Toggled(Toggled(themeName)) == themeName
    ensures themeName != "light" ==> Toggled(Toggled(themeName)) == "dark"
  {
  }

  class ThemeState {
    var themeName: string
    const store: KeyValueStore

    /** The provider starts with "system". */
    constructor (store: KeyValueStore)
      ensures themeName == SystemTheme && this.store == store
    {
      themeName := SystemTheme;
      this.store := store;
    }

    /** The persist effect: the name is written under appTheme; a failed
        write is ignored. */
    method Persist()
      modifies store`cells
      ensures store.cells == Written(old(store.cells), store.writeFails, ThemeKey, Text(themeName))
    {
      var _ := store.SetItem(ThemeKey, Text(themeName));
    }

    /** The load effect: a non-empty saved name replaces the current one,
        and a change of name runs the persist effect. A missing key, an
        empty string or a failed read leave the name as it is. */
    method Load()
      modifies this, store`cells
      ensures var saved := old(store.GetItem(ThemeKey));
        if saved.Ok? && saved.value.Some? && saved.value.value.Text? && saved.value.value.text != ""
        then themeName == saved.value.value.text
          && store.cells == (if themeName != old(themeName)
                              then Written(old(store.cells), store.writeFails, ThemeKey, Text(themeName))
                              else old(store.cells))
        else themeName == old(themeName) && store.cells == old(store.cells)
    {
      var saved := store.GetItem(ThemeKey);
      if saved.Ok? && saved.value.Some? && saved.value.value.Text? && saved.value.value.text != "" {
        var name := saved.value.value.text;
        if name != themeName {
          themeName := name;
          Persist();
        }
      }
    }

    /** toggleTheme, followed by the persist effect. */
    method Toggle()
      modifies this, store`cells
      ensures themeName == Toggled(old(themeName))
      ensures store.cells == Written(old(store.cells), store.writeFails, ThemeKey, Text(themeName))
    {
      themeName := Toggled(themeName);
      Persist();
    }

    /** setTheme; the persist effect runs only when the name changes. */
    method SetTheme(name: string)
      modifies this, store`cells
      ensures themeName == name
      ensures store.cells == (if name != old(themeName)
                              then Written(old(store.cells), store.writeFails, ThemeKey, Text(name))
                              else old(store.cells))
    {
      if name != themeName {
        themeName := name;
        Persist();
      }
    }
  }

  /** What a successful write leaves under appTheme is what the next load
      reads back as the name, non-empty names included. */
  lemma PersistThenLoad(cells: Cells, themeName: string)
    ensures Read(Written(cells, false, ThemeKey, Text(themeName)), false, ThemeKey) == Ok(Some(Text(themeName)))
  {
  }
}
