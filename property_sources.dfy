/**
 * The lookup both property loaders use: a JVM system property wins over the entry of the
 * configuration file, which wins over the built-in default; flags are parsed the way
 * `Boolean.parseBoolean` does.
 */
module PropertySources {
  import opened Wrappers
  import opened JavaText

  type Properties = map<string, string>

  /**
   * `properties.load(stream)`: the entries read from the configuration resource. `None`
   * stands for a missing resource (a null stream) and keeps no entry; a read that fails
   * part-way keeps the entries read before the failure, which is `Some` of those.
   */
  function Loaded(file: Option<Properties>): (r: Properties)
    ensures file.None? ==> r == map[]
    ensures file.Some? ==> r == file.value
  {
    file.GetOr(map[])
  }

  /** `getOverridenProperty(key, defaultValue)`. */
  function OverriddenProperty(system: Properties, file: Properties, key: string, default: string): (r: string)
    ensures key in system ==> r == system[key]
    ensures key !in system && key in file ==> r == file[key]
    ensures key !in system && key !in file ==> r == default
  {
    if key in system then system[key]
    else if key in file then file[key]
    else default
  }

  /** The priority rule as layering: defaults, overridden by the file, overridden by the system. */
  lemma PriorityIsLayering(system: Properties, file: Properties, key: string, default: string)
    ensures OverriddenProperty(system, file, key, default) == (map[key := default] + file + system)[key]
  {
  }

  /** `String.equalsIgnoreCase`, on the ASCII letters. */
  predicate EqualsIgnoreCase(a: string, b: string) {
    ToLower(a) == ToLower(b)
  }

  /** `Boolean.parseBoolean`: true exactly for "true" in any letter case. */
  predicate ParseBoolean(s: string) {
    EqualsIgnoreCase(s, "true")
  }

  lemma LowerCharIs(c: char, lower: char)
    requires 'a' <= lower <= 'z'
    ensures LowerChar(c) == lower <==> c == lower || c as int == lower as int - 32
  {
  }

  /** The sixteen spellings `parseBoolean` accepts, and nothing else. */
  lemma ParseBooleanSpellings(s: string)
    ensures ParseBoolean(s) <==>
      |s| == 4 && s[0] in "tT" && s[1] in "rR" && s[2] in "uU" && s[3] in "eE"
  {
    assert ToLower("true") == "true";
    if |s| == 4 {
      LowerCharIs(s[0], 't');
      LowerCharIs(s[1], 'r');
      LowerCharIs(s[2], 'u');
      LowerCharIs(s[3], 'e');
      if s[0] in "tT" && s[1] in "rR" && s[2] in "uU" && s[3] in "eE" {
        assert ToLower(s) == "true";
      }
    }
  }
}
