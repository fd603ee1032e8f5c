/** The plugin's command type: its identity, the commands it registers, and the
    validator for the site machine name it asks for during configuration. */
module CommandType {
  import opened Php

  const RequiredMessage := "The site machine name is required!"
  const InvalidMessage := "The site machine name format is invalid!"

  /** The command classes a command type can register; this plugin has one. */
  datatype CommandClass = FeatureCommandClass

  function PluginId(): string { "feature" }

  function PluginLabel(): string { "Feature" }

  function RegisteredCommands(): seq<CommandClass> { [FeatureCommandClass] }

  lemma Registration()
    ensures PluginId() == "feature" && PluginLabel() == "Feature"
    ensures |RegisteredCommands()| == 1 && RegisteredCommands()[0] == FeatureCommandClass
  {
  }

  /** PCRE's `\w` without the `u` modifier: ASCII letters, digits and underscore. */
  predicate IsWordChar(c: char)
  {
    'a' <= c <= 'z' || 'A' <= c <= 'Z' || '0' <= c <= '9' || c == '_'
  }

  /** A member of the character class `[\w-]`. */
  predicate IsNameChar(c: char)
  {
    IsWordChar(c) || c == '-'
  }

  predicate AllNameChars(s: string)
  {
    forall i :: 0 <= i < |s| ==> IsNameChar(s[i])
  }

  /** The strings matched by `/^[\w-]+$/`: one or more name characters, then the end of the
      subject or a single newline that ends it (`$` without the `D` modifier). */
  ghost predicate MatchesPattern(s: string)
  {
    exists t :: |t| >= 1 && AllNameChars(t) && (s == t || s == t + "\n")
  }

  /** The length of the longest prefix of `s` made of name characters: what the greedy
      `[\w-]+` consumes from the start of the subject. */
  function NameRun(s: string): (k: nat)
    ensures k <= |s|
    ensures AllNameChars(s[..k])
    ensures k < |s| ==> !IsNameChar(s[k])
  {
    if s == [] || !IsNameChar(s[0]) then 0
    else
      var k := 1 + NameRun(s[1..]);
      assert s[..k] == [s[0]] + s[1..][..k - 1];
      k
  }

  /** `preg_match('/^[\w-]+$/', s)`: the greedy run must be non-empty and be followed
      by the end of the subject or by a final newline. Backtracking cannot help, since
      a newline is not a name character; so this accepts exactly the pattern's strings. */
  function PregMatch(s: string): (matched: bool)
    ensures matched <==> MatchesPattern(s)
  {
    var k := NameRun(s);
    k >= 1 && (k == |s| || (k == |s| - 1 && s[k] == '\n'))
  }

  /** The validator closure of the site machine name question: the emptiness check comes
      first, then the format check; an accepted value is returned unchanged. */
  function Validate(value: Option<string>): (r: Result<string>)
    ensures r.Ok? <==> !Empty(value) && MatchesPattern(value.value)
    ensures r.Ok? ==> value == Some(r.value)
    ensures Empty(value) ==> r == Err(RequiredMessage)
    ensures !Empty(value) && !MatchesPattern(value.value) ==> r == Err(InvalidMessage)
  {
    if Empty(value) then Err(RequiredMessage)
    else
      if !PregMatch(value.value) then Err(InvalidMessage)
      else Ok(value.value)
  }

  /** "0" is empty to PHP, so it is refused as missing although it matches the pattern. */
  lemma ZeroIsRequired()
    ensures MatchesPattern("0")
    ensures Validate(Some("0")) == Err(RequiredMessage)
  {
    assert AllNameChars("0");
  }

  /** A string of hyphens only is a valid machine name. */
  lemma HyphensAccepted(n: nat)
    requires n >= 1
    ensures Validate(Some(seq(n, _ => '-'))) == Ok(seq(n, _ => '-'))
  {
    var t := seq(n, _ => '-');
    assert t[0] == '-' && AllNameChars(t);
    assert MatchesPattern(t);
  }

  /** A valid name followed by one newline passes the format check, newline included. */
  lemma TrailingNewlineAccepted(t: string)
    requires |t| >= 1 && AllNameChars(t)
    ensures Validate(Some(t + "\n")) == Ok(t + "\n")
  {
    assert MatchesPattern(t + "\n");
  }

  /** Any character outside `[\w-]`, other than one newline in last position, makes a
      non-empty value fail the format check. */
  lemma ForeignCharRejected(s: string, i: nat)
    requires i < |s| && !IsNameChar(s[i])
    requires !(i == |s| - 1 && s[i] == '\n')
    ensures Validate(Some(s)) == Err(InvalidMessage)
  {
    forall t | |t| >= 1 && AllNameChars(t)
      ensures s != t && s != t + "\n"
    {
      assert s == t + "\n" ==> i < |t|;
    }
    assert !MatchesPattern(s);
    assert !Empty(Some(s));
  }
}
