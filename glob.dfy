/** Shell-glob matching as done by the `glob` crate's `Pattern::matches`
    with default options, for patterns built from literal characters and
    `*`: `*` matches any run of characters, including `/` and the empty
    run, and literal characters match themselves, case-sensitively. */
module Glob {
  import opened Strings

  predicate Literal(pattern: string) {
    '*' !in pattern
  }

  predicate Matches(pattern: string, name: string)
    decreases |pattern| + |name|
  {
    if pattern == [] then name == []
    else if pattern[0] == '*' then
      Matches(pattern[1..], name) || (name != [] && Matches(pattern, name[1..]))
    else
      name != [] && name[0] == pattern[0] && Matches(pattern[1..], name[1..])
  }

  /** A pattern without `*` matches exactly itself. */
  lemma {:induction false} LiteralMatches(pattern: string, name: string)
    requires Literal(pattern)
    ensures Matches(pattern, name) <==> name == pattern
  {
    if pattern != [] && name != [] {
      LiteralMatches(pattern[1..], name[1..]);
      if name[0] == pattern[0] {
        assert name == [name[0]] + name[1..];
        assert pattern == [pattern[0]] + pattern[1..];
      }
    }
  }

  /** `*<literal>` matches exactly the names that end with the literal. */
  lemma {:induction false} StarSuffix(suffix: string, name: string)
    requires Literal(suffix)
    ensures Matches(['*'] + suffix, name) <==> EndsWith(name, suffix)
  {
    var pattern := ['*'] + suffix;
    assert pattern[1..] == suffix;
    LiteralMatches(suffix, name);
    if name != [] {
      StarSuffix(suffix, name[1..]);
      EndsWithTail(name, suffix);
    }
  }
}
