/**
 * What the two client scripts share about themes: the attribute values, the
 * storage key, and the rule choosing the initial theme (a non-empty saved value,
 * else the OS preference), which both write the same way.
 */
module ThemeChoice {

  const Dark := "dark"
  const Light := "light"
  const StorageKey := "theme"

  /** `getInitialTheme` / `savedTheme || (prefersDark ? 'dark' : 'light')`. */
  function InitialTheme(storage: map<string, string>, prefersDark: bool): (t: string)
    ensures StorageKey in storage && storage[StorageKey] != "" ==> t == storage[StorageKey]
    ensures !(StorageKey in storage && storage[StorageKey] != "") ==> t == (if prefersDark then Dark else Light)
    ensures t != ""
  {
    if StorageKey in storage && storage[StorageKey] != "" then storage[StorageKey]
    else if prefersDark then Dark else Light
  }
}
