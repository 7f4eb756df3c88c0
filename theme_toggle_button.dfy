/**
 * The dark-mode toggle (src/components/ThemeToggleButton.tsx): the
 * effective theme, the icon it shows and the theme a click asks for.
 * Storing the chosen theme is the theme provider's job and is not
 * modelled; `AfterClicks` assumes each click's theme is stored as given.
 */
module ThemeToggleButton {

  datatype Theme = Dark | Light | System

  datatype Icon = Sun | Moon

  /** `currentTheme`: "system" is read as "light". */
  function CurrentTheme(theme: Theme): (current: Theme)
    ensures current != System
    ensures theme != System ==> current == theme
    ensures theme == System ==> current == Light
  {
    if theme == System then Light else theme
  }

  /** `isDark`: only an explicit "dark" is dark; "system" is not. */
  predicate IsDark(theme: Theme): (dark: bool)
    ensures dark <==> theme == Dark
  {
    CurrentTheme(theme) == Dark
  }

  /** The value the click handler passes to `setTheme`. */
  function NextTheme(theme: Theme): (next: Theme)
    ensures next != System
    ensures next != CurrentTheme(theme)
    ensures next == Light <==> theme == Dark
  {
    if IsDark(theme) then Light else Dark
  }

  /** The icon on the button: the sun while dark, the moon otherwise. */
  function ButtonIcon(theme: Theme): (icon: Icon)
    ensures icon == Sun <==> theme == Dark
  {
    if IsDark(theme) then Sun else Moon
  }

  /** The stored theme after `n` clicks, starting from `theme`. */
  function AfterClicks(theme: Theme, n: nat): Theme
    decreases n
  {
    if n == 0 then theme else AfterClicks(NextTheme(theme), n - 1)
  }

  /** Two clicks from an explicit theme come back to it. */
  lemma ToggleTwice(theme: Theme)
    requires theme != System
    ensures AfterClicks(theme, 2) == theme
    ensures ButtonIcon(AfterClicks(theme, 1)) != ButtonIcon(theme)
  {
  }

  /**
   * After at least one click the theme is never "system" again; from
   * "system" the clicks alternate dark, light, dark, ...
   */
  lemma {:induction false} ClicksLeaveSystem(theme: Theme, n: nat)
    requires n >= 1
    ensures AfterClicks(theme, n) != System
    ensures theme == System ==> AfterClicks(theme, n) == (if n % 2 == 1 then Dark else Light)
    ensures theme != System ==> AfterClicks(theme, n) == (if n % 2 == 0 then theme else NextTheme(theme))
    decreases n
  {
    if n > 1 {
      ClicksLeaveSystem(NextTheme(theme), n - 1);
    }
  }
}
