/** Settings as the configuration reader hands them to a collector. */
module Settings {
  /**
   * One setting: a value written without a comma arrives as a string, a value written as a
   * comma-separated list arrives as a list of strings.
   */
  datatype ConfigValue = Single(text: string) | Multiple(items: seq<string>)
}
