/**
 * The colour scheme in effect (hooks/use-color-scheme.ts): the chosen theme mode, falling back
 * to the operating system's scheme, which a listener keeps current.
 */
module ColorScheme {
  import ThemeSlice

  /** What the operating system reports: light, dark, or nothing. */
  datatype SystemScheme = SystemLight | SystemDark | Unspecified

  /** The hook's result. */
  datatype Scheme = Light | Dark

  /** The scheme for a theme mode, given the system's scheme. */
  function Resolve(mode: ThemeSlice.ThemeMode, system: SystemScheme): Scheme {
    if mode == ThemeSlice.Light then Light
    else if mode == ThemeSlice.Dark then Dark
    else if system == SystemDark then Dark
    else Light
  }

  /** An explicit light or dark mode is the result, whatever the system says. */
  lemma ExplicitModeWins(mode: ThemeSlice.ThemeMode, system: SystemScheme)
    requires mode != ThemeSlice.System
    ensures Resolve(mode, system) == (if mode == ThemeSlice.Light then Light else Dark)
  {
  }

  /** With an explicit mode, a change of system scheme changes nothing. */
  lemma SystemChangeIgnored(mode: ThemeSlice.ThemeMode, before: SystemScheme, after: SystemScheme)
    requires mode != ThemeSlice.System
    ensures Resolve(mode, before) == Resolve(mode, after)
  {
  }

  /** In system mode the result is dark exactly when the system is dark; no answer means light. */
  lemma SystemModeFollowsSystem(system: SystemScheme)
    ensures Resolve(ThemeSlice.System, system) == Dark <==> system == SystemDark
    ensures system == Unspecified ==> Resolve(ThemeSlice.System, system) == Light
  {
  }

  /** The system scheme the hook holds, updated by the appearance listener. */
  class SystemAppearance {
    var systemTheme: SystemScheme

    constructor (initial: SystemScheme)
      ensures systemTheme == initial
    {
      systemTheme := initial;
    }

    method OnChange(scheme: SystemScheme)
      modifies this
      ensures systemTheme == scheme
    {
      systemTheme := scheme;
    }

    /** The hook's return value for the mode in the theme store. */
    function Current(mode: ThemeSlice.ThemeMode): Scheme
      reads this
    {
      Resolve(mode, systemTheme)
    }
  }

  /**
   * The system turning dark after start-up shows through only in system mode: a light choice
   * stays light, the system mode follows to dark.
   */
  method SystemTurnsDark(chosen: ThemeSlice.ThemeMode) returns (scheme: Scheme)
    ensures chosen == ThemeSlice.Light ==> scheme == Light
    ensures chosen != ThemeSlice.Light ==> scheme == Dark
  {
    var appearance := new SystemAppearance(SystemLight);
    appearance.OnChange(SystemDark);
    scheme := appearance.Current(chosen);
  }
}
