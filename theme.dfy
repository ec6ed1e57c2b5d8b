/**
 * The dark-mode toggle: the body's `dark-mode` class, the button's text and
 * the `darkMode` flag in the store.
 */
module Theme {
  import opened Wrappers
  import opened Storage

  const DarkModeKey := "darkMode"
  const LightModeLabel := "☀️ Light Mode"
  const DarkModeLabel := "🌙 Dark Mode"

  /** The button offers the other theme. */
  function ButtonLabel(dark: bool): (text: string)
    ensures text == LightModeLabel <==> dark
    ensures text == DarkModeLabel <==> !dark
  {
    if dark then LightModeLabel else DarkModeLabel
  }

  /** The stored flag: "1" for dark mode, "0" for light mode. */
  function StoredFlag(dark: bool): (flag: string)
    ensures flag == "1" <==> dark
    ensures flag == "0" <==> !dark
  {
    if dark then "1" else "0"
  }

  class ThemeToggle {
    /** Whether the body carries the `dark-mode` class. */
    var darkMode: bool
    var buttonText: string
    const storage: LocalStorage

    constructor (storage: LocalStorage, darkMode: bool, buttonText: string)
      ensures this.storage == storage && this.darkMode == darkMode && this.buttonText == buttonText
    {
      this.storage := storage;
      this.darkMode := darkMode;
      this.buttonText := buttonText;
    }

    /** The button text and the stored flag both agree with the theme on screen. */
    ghost predicate Consistent()
      reads this, storage
    {
      buttonText == ButtonLabel(darkMode) && storage.GetItem(DarkModeKey) == Some(StoredFlag(darkMode))
    }

    /** The click handler: flip the theme, relabel the button, store the flag. */
    method Click()
      modifies this, storage
      ensures darkMode == !old(darkMode)
      ensures buttonText == ButtonLabel(darkMode)
      ensures storage.items == old(storage.items)[DarkModeKey := StoredFlag(darkMode)]
      ensures Consistent()
    {
      darkMode := !darkMode;
      buttonText := ButtonLabel(darkMode);
      storage.SetItem(DarkModeKey, StoredFlag(darkMode));
    }

    /** The restore step at page load: dark mode is applied only for a stored flag of exactly "1". */
    method Restore()
      modifies this
      ensures storage.GetItem(DarkModeKey) == Some("1") ==> darkMode && buttonText == LightModeLabel
      ensures storage.GetItem(DarkModeKey) != Some("1") ==> unchanged(this)
    {
      if storage.GetItem(DarkModeKey) == Some("1") {
        darkMode := true;
        buttonText := LightModeLabel;
      }
    }
  }

  /** Two clicks bring the theme back, and everything else too when it was consistent. */
  method ClickTwice(t: ThemeToggle)
    modifies t, t.storage
    ensures t.darkMode == old(t.darkMode)
    ensures t.Consistent()
    ensures old(t.Consistent()) ==> t.buttonText == old(t.buttonText) && t.storage.items == old(t.storage.items)
  {
    t.Click();
    t.Click();
    assert t.storage.items == old(t.storage.items)[DarkModeKey := StoredFlag(t.darkMode)];
    if old(t.Consistent()) {
      assert DarkModeKey in old(t.storage.items) && old(t.storage.items)[DarkModeKey] == StoredFlag(t.darkMode);
    }
  }
}
