/** The theme provider: one dark-mode flag, loaded once from storage and
    written through on every toggle. The flag holds whatever `JSON.parse`
    returned for the stored string, and is read with JavaScript truthiness. */
module Theme {
  import opened JsValues
  import opened Console
  import opened Storage

  /** The storage key of the theme mode. */
  const Key := "themeMode"

  const LoadError := "Fout bij laden van themamodus:"
  const ToggleError := "Fout bij toggelen van themamodus:"

  datatype Step = Step(mode: Json, store: Store, log: seq<Entry>)

  /** Whether the screens render dark: `isDarkMode ? dark : light`. */
  predicate IsDark(mode: Json)
  {
    Truthy(mode)
  }

  /** The mode a new provider holds before loading: light. */
  function Initial(): (mode: Json)
    ensures mode.JBool? && !IsDark(mode)
  {
    JBool(false)
  }

  /** `loadThemeMode`: a stored string replaces the mode with what it parses
      to; no stored string leaves the mode alone; a failed read, or a stored
      string `JSON.parse` rejects (the empty one included), is logged and
      leaves the mode alone. */
  function Load(mode: Json, store: Store, readSucceeds: bool): (r: Step)
    ensures r.store == store
    ensures readSucceeds && Key in store && store[Key].JsonText? ==> r.mode == store[Key].value && r.log == []
    ensures readSucceeds && Key !in store ==> r.mode == mode && r.log == []
    ensures r.log != [] <==> !readSucceeds || (Key in store && store[Key].Unparsable?)
    ensures r.log != [] ==> r.mode == mode && r.log == [Error(LoadError)]
  {
    match GetItem(store, Key, readSucceeds)
    case ReadFailed => Step(mode, store, [Error(LoadError)])
    case Missing => Step(mode, store, [])
    case Found(text) =>
      match Parse(text)
      case Some(j) => Step(j, store, [])
      case None => Step(mode, store, [Error(LoadError)])
  }

  /** `toggleTheme`: sets the mode to the Boolean negation of the current
      one, then writes it through; a failed write is logged and the new mode
      stands. */
  function Toggle(mode: Json, store: Store, writeSucceeds: bool): (r: Step)
    ensures r.mode.JBool? && (IsDark(r.mode) <==> !IsDark(mode))
    ensures writeSucceeds ==> Key in r.store && r.store[Key] == Stringify(r.mode) && r.log == []
    ensures !writeSucceeds ==> r.store == store && r.log == [Error(ToggleError)]
    ensures r.store - {Key} == store - {Key}
  {
    var newMode := JBool(!Truthy(mode));
    Step(newMode, SetItem(store, Key, Stringify(newMode), writeSucceeds),
         if writeSucceeds then [] else [Error(ToggleError)])
  }

  /** Toggling twice restores the rendered mode, and restores the mode itself
      whenever it is a Boolean (which it always is unless storage held
      another JSON value). */
  lemma ToggleTwice(mode: Json, store: Store, firstWrites: bool, secondWrites: bool)
    ensures
      var once := Toggle(mode, store, firstWrites);
      var twice := Toggle(once.mode, once.store, secondWrites);
      && (IsDark(twice.mode) <==> IsDark(mode))
      && (mode.JBool? ==> twice.mode == mode)
  {
  }

  /** The new mode does not depend on whether the write succeeded: there is
      no rollback. */
  lemma NoRollback(mode: Json, store: Store)
    ensures Toggle(mode, store, false).mode == Toggle(mode, store, true).mode
    ensures Toggle(mode, store, false).store == store
  {
  }

  /** After a successful toggle, a restart loads the toggled mode. */
  lemma ToggleThenRestart(mode: Json, store: Store)
    ensures
      var toggled := Toggle(mode, store, true);
      Load(Initial(), toggled.store, true) == Step(toggled.mode, toggled.store, [])
  {
  }
}
