/** The theme toggle button: the theme a click moves to, and the icon and
    label shown for the current theme. The theme is the provider's string. */
module ThemeToggle {

  /** `cycleTheme`: light to dark, dark to system, anything else to light. */
  function CycleTheme(theme: string): (next: string)
    ensures next in {"light", "dark", "system"}
  {
    if theme == "light" then "dark"
    else if theme == "dark" then "system"
    else "light"
  }

  datatype Icon = Sun | Moon | Monitor

  function IconOf(theme: string): Icon {
    if theme == "light" then Sun
    else if theme == "dark" then Moon
    else Monitor
  }

  function LabelOf(theme: string): string {
    if theme == "light" then "Switch to dark mode"
    else if theme == "dark" then "Switch to system mode"
    else "Switch to light mode"
  }

  /** Three clicks bring each of the three themes back to itself, and every
      other value joins the cycle after one click; the cycle visits all
      three themes. */
  lemma ThreeClicksCycle(theme: string)
    ensures theme in {"light", "dark", "system"} ==> CycleTheme(CycleTheme(CycleTheme(theme))) == theme
    ensures theme !in {"light", "dark", "system"} ==> CycleTheme(theme) == "light"
    ensures {theme, CycleTheme(theme), CycleTheme(CycleTheme(theme))} >= {"light", "dark"}
  {
  }

  /** The label always announces the theme the click moves to. */
  lemma LabelNamesNextTheme(theme: string)
    ensures LabelOf(theme) == "Switch to " + CycleTheme(theme) + " mode"
  {
  }

  /** The icon shows the current theme: Sun and Moon for light and dark,
      Monitor for system and any other value. */
  lemma IconShowsCurrentTheme(theme: string)
    ensures IconOf(theme) == Sun <==> theme == "light"
    ensures IconOf(theme) == Moon <==> theme == "dark"
    ensures IconOf(CycleTheme(theme)) != IconOf(theme) || theme !in {"light", "dark", "system"}
  {
  }
}
