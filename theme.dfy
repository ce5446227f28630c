/** The theme preference (store/slices/themeSlice.ts). */
module ThemeSlice {

  datatype ThemeMode = System | Light | Dark

  class ThemeStore {
    var mode: ThemeMode

    constructor ()
      ensures mode == System
    {
      mode := System;
    }

    method SetThemeMode(m: ThemeMode)
      modifies this
      ensures mode == m
    {
      mode := m;
    }
  }

  /** Of two consecutive choices the last one wins, from any starting mode. */
  method LastChoiceWins(start: ThemeMode, first: ThemeMode, second: ThemeMode) returns (mode: ThemeMode)
    ensures mode == second
  {
    var store := new ThemeStore();
    store.SetThemeMode(start);
    store.SetThemeMode(first);
    store.SetThemeMode(second);
    mode := store.mode;
  }

  /** Choosing the same mode twice leaves the store as choosing it once. */
  method SameChoiceTwice(start: ThemeMode, m: ThemeMode) returns (once: ThemeMode, twice: ThemeMode)
    ensures once == twice == m
  {
    var a := new ThemeStore();
    a.SetThemeMode(start);
    a.SetThemeMode(m);
    var b := new ThemeStore();
    b.SetThemeMode(start);
    b.SetThemeMode(m);
    b.SetThemeMode(m);
    once, twice := a.mode, b.mode;
  }
}
