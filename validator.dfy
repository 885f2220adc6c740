/** Macro.validate and the is_valid_* checks of swirl/data_models.py: every
    check either passes or raises the first SwirlError it meets. */
module Validator {

  import opened Common
  import opened Errors
  import opened Grammar
  import opened Models

  const MaxLength := 30

  /** The outcome of a check: it returns, or it raises. */
  datatype Check = Pass | Fail(error: SwirlError) {
    /** Run `next` only if this check passed. */
    function Then(next: Check): Check {
      if Fail? then this else next
    }
  }

  /** is_valid_length: a match longer than the maximum raises LengthError
      naming the match. */
  function IsValidLength(matched: string): (r: Check)
    ensures r.Pass? <==> |matched| <= MaxLength
    ensures r.Fail? ==> r.error == LengthError(matched)
  {
    if |matched| <= MaxLength then Pass else Fail(LengthError(matched))
  }

  /** is_char: without a match only a single character is accepted;
      anything else raises InvalidNameError naming the raw text. */
  function IsChar(raw: string): (r: Check)
    ensures r.Pass? <==> |raw| == 1
    ensures r.Fail? ==> r.error == InvalidNameError(raw)
  {
    if |raw| == 1 then Pass else Fail(InvalidNameError(raw))
  }

  /** is_equal: the match must cover the whole raw text, otherwise
      InvalidNameError names the raw text. */
  function IsEqual(matched: string, raw: string): (r: Check)
    ensures r.Pass? <==> matched == raw
    ensures r.Fail? ==> r.error == InvalidNameError(raw)
  {
    if matched == raw then Pass else Fail(InvalidNameError(raw))
  }

  /** is_not_keyword: a reserved word raises KeywordNameError. */
  function IsNotKeyword(matched: string): (r: Check)
    ensures r.Pass? <==> matched !in Keywords
    ensures r.Fail? ==> r.error == KeywordNameError(matched)
  {
    if matched !in Keywords then Pass else Fail(KeywordNameError(matched))
  }

  /** The checks run on one token once its pattern has been tried: on a
      match, length of the match, then full-match equality, then keyword;
      without a match, the single-character rule. */
  function CheckToken(match_: Option<string>, raw: string): Check {
    match match_
    case Some(t) => IsValidLength(t).Then(IsEqual(t, raw)).Then(IsNotKeyword(t))
    case None => IsChar(raw)
  }

  /** is_valid_name: the name pattern is tried once on the raw name; a
      match that is too long, partial or reserved is refused, and with no
      match only a single character passes. A partial match, or no match,
      is reported against the whole name. */
  function IsValidName(name: string): (r: Check)
    ensures r.Pass? ==> 1 <= |name| <= MaxLength
    ensures r.Fail? ==> !r.error.NameAlreadyUsedError?
    ensures r.Fail? && r.error.InvalidNameError? ==> r.error.ref == name
  {
    CheckToken(NameMatch(name), name)
  }

  /** One variable declaration, stripped before matching. */
  function CheckVariable(v: string): Check {
    var t := Strip(v);
    CheckToken(VarMatch(t), t)
  }

  /** The variables in list order, stopping at the first failure. */
  function CheckVariables(vs: seq<string>): Check {
    if vs == [] then Pass else CheckVariable(vs[0]).Then(CheckVariables(vs[1..]))
  }

  /** Macro.validate: the name, then the variables. */
  function Validate(m: Macro): Check {
    IsValidName(m.name).Then(CheckVariables(m.variables))
  }

  /** is_valid_variables: the loop over the declarations. */
  method IsValidVariables(vs: seq<string>) returns (r: Check)
    ensures r.Pass? <==> forall i :: 0 <= i < |vs| ==> CheckVariable(vs[i]).Pass?
    ensures r.Fail? ==>
      (exists i :: 0 <= i < |vs| && r == CheckVariable(vs[i]) && forall j :: 0 <= j < i ==> CheckVariable(vs[j]).Pass?)
    ensures r == CheckVariables(vs)
  {
    var i := 0;
    while i < |vs|
      invariant 0 <= i <= |vs|
      invariant forall j :: 0 <= j < i ==> CheckVariable(vs[j]).Pass?
      invariant CheckVariables(vs) == CheckVariables(vs[i..])
    {
      var c := CheckVariable(vs[i]);
      assert vs[i..][1..] == vs[i + 1..];
      if c.Fail? {
        return c;
      }
      i := i + 1;
    }
    r := Pass;
  }

  /** Macro.validate, as the source runs it: the name, then the loop. */
  method ValidateMacro(m: Macro) returns (r: Check)
    ensures r == Validate(m)
  {
    r := IsValidName(m.name);
    if r.Pass? {
      r := IsValidVariables(m.variables);
    }
  }

  // ------------------------------------------------------------ properties

  /** A name passes in exactly two cases: the longest prefix matching the
      name pattern is the whole name, has at most 30 characters and is not
      a keyword; or the name is a single character of any kind. */
  lemma NameValidIff(name: string)
    ensures IsValidName(name).Pass? <==>
      (NamePattern(name) && |name| <= MaxLength && name !in Keywords) || |name| == 1
  {
    assert name[..|name|] == name;
    var m := NameMatch(name);
    if m.Some? && NamePattern(name) {
      assert m.value == name;
    }
  }

  /** The checks on a name run in a fixed order: the length check sees the
      matched prefix, the equality check reports the raw name, and only a
      full match reaches the keyword check. */
  lemma NameCheckOrder(name: string, t: string)
    requires NameMatch(name) == Some(t)
    ensures |t| > MaxLength ==> IsValidName(name) == Fail(LengthError(t))
    ensures |t| <= MaxLength && t != name ==> IsValidName(name) == Fail(InvalidNameError(name))
    ensures |t| <= MaxLength && t == name && name in Keywords ==>
      IsValidName(name) == Fail(KeywordNameError(name))
  {
  }

  /** A concrete case: a 31-character valid prefix followed by '-' raises
      LengthError for the prefix, not InvalidNameError for the name. */
  lemma LongPrefixThenJunk()
    ensures var p := "abcdefghijabcdefghijabcdefghijk";
      IsValidName(p + "-") == Fail(LengthError(p))
  {
    var p := "abcdefghijabcdefghijabcdefghijk";
    var s := p + "-";
    assert SkipWhile(s, 1, NameTailChars) == 31 by {
      assert forall k :: 1 <= k < 31 ==> NameTail(s[k]);
      SkipAll(s, 1, 31, NameTailChars);
    }
    assert s[..31] == p;
  }

  /** A variable passes exactly when its stripped text is matched in full
      by the variable pattern (default included) within 30 characters and is
      not a keyword, or when it is one character the pattern cannot start. */
  lemma VariableValidIff(v: string)
    ensures var t := Strip(v);
      CheckVariable(v).Pass? <==>
        (VarPattern(t) && |t| <= MaxLength && t !in Keywords) || (|t| == 1 && !VarChar(t[0]))
  {
    var t := Strip(v);
    VarMatchIsLongest(t);
    assert t[..|t|] == t;
    var m := VarMatch(t);
    if m.Some? && VarPattern(t) {
      assert m.value == t;
    }
    if |t| == 1 && VarChar(t[0]) {
      assert m.Some?;
    }
  }

  /** A declaration that is blank after stripping raises InvalidNameError
      for the empty token. */
  lemma BlankVariableRejected(v: string)
    requires forall i :: 0 <= i < |v| ==> IsSpace(v[i])
    ensures CheckVariable(v) == Fail(InvalidNameError(""))
  {
    assert |Strip(v)| == 0;
  }

  /** In an accepted declaration, what follows an '=' is blanks and the
      characters of the default class only. */
  lemma AcceptedDefaultChars(v: string, j: nat)
    requires CheckVariable(v).Pass?
    requires j < |Strip(v)| && Strip(v)[j] == '='
    ensures forall i :: j < i < |Strip(v)| ==> IsSpace(Strip(v)[i]) || DefaultChar(Strip(v)[i])
  {
    VariableValidIff(v);
    if |Strip(v)| > 1 {
      DefaultSuffixChars(Strip(v), j);
    }
  }

  /** A declaration with blanks and a decimal default passes. */
  lemma SpacedDefaultAccepted()
    ensures CheckVariable(" n = 2.5 ").Pass?
  {
    SpacedDefaultToken();
    MatchSpacedDefault();
    SpacedDefaultChecks();
  }

  lemma SpacedDefaultToken()
    ensures CheckVariable(" n = 2.5 ") == CheckToken(VarMatch("n = 2.5"), "n = 2.5")
  {
    StripSpacedDefault();
  }

  lemma SpacedDefaultChecks()
    ensures CheckToken(Some("n = 2.5"), "n = 2.5") == Pass
  {
  }

  lemma StripSpacedDefault()
    ensures Strip(" n = 2.5 ") == "n = 2.5"
  {
    var v, a := " n = 2.5 ", "n = 2.5";
    assert IsSpace(' ') && !IsSpace('n') && !IsSpace('5');
    SkipAll(v, 0, 1, Spaces);
    assert v[1..] == a + " ";
    assert (a + " ")[..|a|] == a;
    assert TrimEnd(a) == a;
    assert TrimEnd(a + " ") == a;
  }

  lemma MatchSpacedDefault()
    ensures VarMatch("n = 2.5") == Some("n = 2.5")
  {
    var a := "n = 2.5";
    assert IsSpace(' ') && !IsSpace('n') && !IsSpace('=') && !IsSpace('2') && !IsSpace('5');
    assert !VarChar(' ') && DefaultChar('2') && DefaultChar('.') && DefaultChar('5');
    SkipAll(a, 0, 1, VarChars);
    SkipAll(a, 1, 2, Spaces);
    SkipAll(a, 3, 4, Spaces);
    SkipAll(a, 4, 7, DefaultChars);
    assert GroupEnd(a, 1) == 7;
    assert a[..7] == a;
  }

  /** A default may only use the characters of the class: "abc" is cut
      after its 'a', so the full-match check fails on the raw token. */
  lemma ForeignDefaultRejected()
    ensures CheckVariable("x=abc") == Fail(InvalidNameError("x=abc"))
  {
    ForeignDefaultStripped();
    ForeignDefaultMatch();
    assert IsValidLength("x=a") == Pass;
    assert IsEqual("x=a", "x=abc") == Fail(InvalidNameError("x=abc"));
  }

  lemma ForeignDefaultStripped()
    ensures Strip("x=abc") == "x=abc"
  {
    var c := "x=abc";
    assert c[0] == 'x' && !IsSpace('x');
    SkipAll(c, 0, 0, Spaces);
    assert c[0..] == c;
    assert TrimEnd(c) == c;
  }

  lemma ForeignDefaultMatch()
    ensures VarMatch("x=abc") == Some("x=a")
  {
    var c := "x=abc";
    assert c[0] == 'x' && c[1] == '=' && c[2] == 'a' && c[3] == 'b';
    assert !IsSpace('=') && !IsSpace('a');
    assert !DefaultChar('b') && DefaultChar('a') && !VarChar('=');
    SkipAll(c, 0, 1, VarChars);
    SkipAll(c, 1, 1, Spaces);
    SkipAll(c, 2, 2, Spaces);
    SkipAll(c, 2, 3, DefaultChars);
    assert GroupEnd(c, 1) == 3;
    assert c[..3] == "x=a";
  }

  /** Every reserved keyword, as a name or as a variable, raises
      KeywordNameError: a keyword is two or more letters, so the pattern
      matches all of it, it is short enough, and only the keyword check
      refuses it. */
  lemma KeywordRejected(k: string)
    requires k in Keywords
    ensures IsValidName(k) == Fail(KeywordNameError(k))
    ensures CheckVariable(k) == Fail(KeywordNameError(k))
  {
    KeywordShape(k);
    KeywordNameMatch(k);
    NameCheckOrder(k, k);
    KeywordStripped(k);
    KeywordVarMatch(k);
  }

  /** Each keyword is spelled with two to eight ASCII letters. */
  lemma KeywordShape(k: string)
    requires k in Keywords
    ensures 2 <= |k| <= MaxLength && forall i :: 0 <= i < |k| ==> IsAsciiLetter(k[i])
  {
  }

  lemma KeywordNameMatch(k: string)
    requires 2 <= |k| && forall i :: 0 <= i < |k| ==> IsAsciiLetter(k[i])
    ensures NameMatch(k) == Some(k)
  {
    assert k[..|k|] == k;
    assert NamePattern(k[..|k|]);
  }

  lemma KeywordStripped(k: string)
    requires 2 <= |k| && forall i :: 0 <= i < |k| ==> IsAsciiLetter(k[i])
    ensures Strip(k) == k
  {
    assert !IsSpace(k[0]) && !IsSpace(k[|k| - 1]);
  }

  lemma KeywordVarMatch(k: string)
    requires 2 <= |k| && forall i :: 0 <= i < |k| ==> IsAsciiLetter(k[i])
    ensures VarMatch(k) == Some(k)
  {
    SkipAll(k, 0, |k|, VarChars);
    SkipAll(k, |k|, |k|, Spaces);
    assert GroupEnd(k, |k|) == |k|;
    assert k[..|k|] == k;
  }

  /** validate stops at the first failure: the name first, then the
      variables in list order. */
  lemma {:induction false} FirstFailingVariable(vs: seq<string>, i: nat)
    requires i < |vs| && CheckVariable(vs[i]).Fail?
    requires forall j :: 0 <= j < i ==> CheckVariable(vs[j]).Pass?
    ensures CheckVariables(vs) == CheckVariable(vs[i])
  {
    if i > 0 {
      var rest := vs[1..];
      assert rest[i - 1] == vs[i];
      forall j | 0 <= j < i - 1
        ensures CheckVariable(rest[j]).Pass?
      {
        assert rest[j] == vs[j + 1];
      }
      FirstFailingVariable(rest, i - 1);
      assert CheckVariable(vs[0]).Pass?;
    }
  }

  /** A macro passes validation iff its name passes and every variable
      passes; a failing name is reported even if a variable also fails, and
      with no variables only the name is checked. */
  lemma {:induction false} ValidateIff(m: Macro)
    ensures Validate(m).Pass? <==>
      IsValidName(m.name).Pass? && forall i :: 0 <= i < |m.variables| ==> CheckVariable(m.variables[i]).Pass?
    ensures IsValidName(m.name).Fail? ==> Validate(m) == IsValidName(m.name)
    ensures m.variables == [] ==> Validate(m) == IsValidName(m.name)
  {
    AllPass(m.variables);
  }

  lemma {:induction false} AllPass(vs: seq<string>)
    ensures CheckVariables(vs).Pass? <==> forall i :: 0 <= i < |vs| ==> CheckVariable(vs[i]).Pass?
  {
    if vs != [] {
      AllPass(vs[1..]);
      assert forall i :: 1 <= i < |vs| ==> vs[i] == vs[1..][i - 1];
    }
  }

  /** Every accepted token is at most 30 characters long, except that a
      single character is always accepted. */
  lemma AcceptedLengths(m: Macro)
    requires Validate(m).Pass?
    ensures |m.name| <= MaxLength
    ensures forall i :: 0 <= i < |m.variables| ==> |Strip(m.variables[i])| <= MaxLength
  {
    ValidateIff(m);
    NameValidIff(m.name);
    forall i | 0 <= i < |m.variables| ensures |Strip(m.variables[i])| <= MaxLength {
      VariableValidIff(m.variables[i]);
    }
  }
}
