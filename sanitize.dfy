/** The binding name becomes a base name for files and models: every character
    of one fixed regular-expression class is replaced by `_`. */
module Sanitize {

  /** Membership in the class `[-.\/`~!@#%^&*()-+={}'";:<>,?/]`. Inside the
      brackets `)-+` is a range, so `)`, `*` and `+` belong to it; `_`, `$`,
      `[`, `]`, `\`, `|` and the space do not. */
  predicate IsSpecial(c: char) {
    || c == '-' || c == '.' || c == '/' || c == '`' || c == '~' || c == '!' || c == '@'
    || c == '#' || c == '%' || c == '^' || c == '&' || c == '*' || c == '('
    || (')' <= c <= '+')
    || c == '=' || c == '{' || c == '}' || c == '\'' || c == '"' || c == ';' || c == ':'
    || c == '<' || c == '>' || c == ',' || c == '?' || c == '/'
  }

  /** The global replace of every class character by `_`. */
  function SanitizeBindingName(s: string): (r: string)
    ensures |r| == |s|
    ensures forall i :: 0 <= i < |s| && IsSpecial(s[i]) ==> r[i] == '_'
    ensures forall i :: 0 <= i < |s| && !IsSpecial(s[i]) ==> r[i] == s[i]
  {
    if s == [] then [] else [if IsSpecial(s[0]) then '_' else s[0]] + SanitizeBindingName(s[1..])
  }

  /** No class character survives, so a sanitised name is usable as a file name. */
  lemma SanitizedHasNoSpecial(s: string)
    ensures forall i :: 0 <= i < |s| ==> !IsSpecial(SanitizeBindingName(s)[i])
  {
    assert !IsSpecial('_');
  }

  /** Sanitising twice gives the same name as sanitising once. */
  lemma SanitizeIdempotent(s: string)
    ensures SanitizeBindingName(SanitizeBindingName(s)) == SanitizeBindingName(s)
  {
    SanitizedHasNoSpecial(s);
  }

  /** A name is left unchanged exactly when it holds no class character. */
  lemma SanitizeFixedPoint(s: string)
    ensures SanitizeBindingName(s) == s <==> forall i :: 0 <= i < |s| ==> !IsSpecial(s[i])
  {
    SanitizedHasNoSpecial(s);
  }

  /** A dot and a dash are replaced. */
  lemma SanitizeDotAndDash()
    ensures SanitizeBindingName("a.b-c") == "a_b_c"
  {
    var r := SanitizeBindingName("a.b-c");
    assert IsSpecial('.') && IsSpecial('-');
    assert r[0] == 'a' && r[1] == '_' && r[2] == 'b' && r[3] == '_' && r[4] == 'c';
  }

  /** The range `)-+` in the class covers `*`. */
  lemma SanitizeRange()
    ensures SanitizeBindingName("a*b") == "a_b"
  {
    var r := SanitizeBindingName("a*b");
    assert r[0] == 'a' && r[1] == '_' && r[2] == 'b';
  }

  /** `$`, `[` and `]` are outside the class and stay. */
  lemma SanitizeKeepsBrackets()
    ensures SanitizeBindingName("$[]") == "$[]"
  {
    var r := SanitizeBindingName("$[]");
    assert r[0] == '$' && r[1] == '[' && r[2] == ']';
  }

  /** `|`, the space and `_` are outside the class and stay. */
  lemma SanitizeKeepsBar()
    ensures SanitizeBindingName("| _") == "| _"
  {
    var r := SanitizeBindingName("| _");
    assert r[0] == '|' && r[1] == ' ' && r[2] == '_';
  }
}
