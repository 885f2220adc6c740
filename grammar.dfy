/** The patterns the validator and the record loader match strings against, written as greedy
    character-class scanners (swirl/data_models.py):

      names      ^[_a-zA-Z*][_a-zA-Z0-9=]+
      variables  ^[_a-zA-Z0-9*]+(\s*=?\s*[0-9.True|False|]+)?

    plus Python's str.strip() and the keyword list. Each scanner is proved
    against a declarative reference: a universally quantified shape for the
    name pattern and a small automaton for the variable pattern. */
module Grammar {

  import opened Common

  predicate IsAsciiLetter(c: char) { 'a' <= c <= 'z' || 'A' <= c <= 'Z' }

  predicate IsAsciiDigit(c: char) { '0' <= c <= '9' }

  /** `[_a-zA-Z*]`: the first character of a name. */
  predicate NameHead(c: char) { c == '_' || c == '*' || IsAsciiLetter(c) }

  /** `[_a-zA-Z0-9=]`: every later character of a name. */
  predicate NameTail(c: char) { c == '_' || c == '=' || IsAsciiLetter(c) || IsAsciiDigit(c) }

  /** `[_a-zA-Z0-9*]`: the identifier part of a variable. */
  predicate VarChar(c: char) { c == '_' || c == '*' || IsAsciiLetter(c) || IsAsciiDigit(c) }

  /** `[0-9.True|False|]` is a character class, not an alternation: a digit,
      '.', '|', or one of the letters T, r, u, e, F, a, l, s. */
  predicate DefaultChar(c: char) {
    IsAsciiDigit(c) || c in {'.', '|', 'T', 'r', 'u', 'e', 'F', 'a', 'l', 's'}
  }

  /** Python's whitespace (str.isspace), which is both what str.strip()
      removes and what `\s` matches in a str pattern. */
  predicate IsSpace(c: char) {
    ('\t' <= c <= '\r') || ('\U{1C}' <= c <= ' ') || c == '\U{85}' || c == '\U{A0}'
    || c == '\U{1680}' || ('\U{2000}' <= c <= '\U{200A}') || c == '\U{2028}' || c == '\U{2029}'
    || c == '\U{202F}' || c == '\U{205F}' || c == '\U{3000}'
  }

  /** `[package|macro]`: a character of a record file's kind prefix. */
  predicate PrefixChar(c: char) { c in {'p', 'a', 'c', 'k', 'g', 'e', 'm', 'r', 'o', '|'} }

  /** `[a-zA-Z0-9_]`: a character of a record file's id. */
  predicate IdChar(c: char) { c == '_' || IsAsciiLetter(c) || IsAsciiDigit(c) }

  datatype CharClass = NameTailChars | VarChars | DefaultChars | Spaces | PrefixChars | IdChars

  predicate In(cls: CharClass, c: char) {
    match cls
    case NameTailChars => NameTail(c)
    case VarChars => VarChar(c)
    case DefaultChars => DefaultChar(c)
    case Spaces => IsSpace(c)
    case PrefixChars => PrefixChar(c)
    case IdChars => IdChar(c)
  }

  /** The end of the longest run of `cls` characters starting at `i`
      (what a greedy `[...]*` consumes). */
  function SkipWhile(s: string, i: nat, cls: CharClass): (j: nat)
    requires i <= |s|
    ensures i <= j <= |s|
    ensures forall k :: i <= k < j ==> In(cls, s[k])
    ensures j < |s| ==> !In(cls, s[j])
    decreases |s| - i
  {
    if i < |s| && In(cls, s[i]) then SkipWhile(s, i + 1, cls) else i
  }

  /** A run of `cls` characters from i to j that stops at j is what
      SkipWhile finds. */
  lemma SkipAll(s: string, i: nat, j: nat, cls: CharClass)
    requires i <= j <= |s|
    requires forall k :: i <= k < j ==> In(cls, s[k])
    requires j < |s| ==> !In(cls, s[j])
    ensures SkipWhile(s, i, cls) == j
  {
  }

  // ---------------------------------------------------------------- names

  /** The strings the name pattern matches in full. */
  predicate NamePattern(t: string) {
    |t| >= 2 && NameHead(t[0]) && forall i :: 1 <= i < |t| ==> NameTail(t[i])
  }

  /** re.match of the name pattern: the matched prefix, if any. */
  function NameMatch(s: string): (r: Option<string>)
    ensures r.Some? ==> |r.value| <= |s| && r.value == s[..|r.value|] && NamePattern(r.value)
    ensures r.Some? ==> forall n :: |r.value| < n <= |s| ==> !NamePattern(s[..n])
    ensures r.None? ==> forall n :: 0 <= n <= |s| ==> !NamePattern(s[..n])
  {
    if |s| >= 2 && NameHead(s[0]) && NameTail(s[1]) then
      var n := SkipWhile(s, 1, NameTailChars);
      assert forall n' :: n < n' <= |s| ==> s[..n'][n] == s[n];
      Some(s[..n])
    else
      assert forall n :: 2 <= n <= |s| ==> s[..n][0] == s[0] && s[..n][1] == s[1];
      None
  }

  // ------------------------------------------------------------ variables

  /** An automaton for `[_a-zA-Z0-9*]+(\s*=?\s*[0-9.True|False|]+)?`.
      Ident: inside the identifier; Gap: blanks after it; AfterEq: after the
      '=' (and blanks); Default: inside the default literal. */
  datatype VarState = Start | Ident | Gap | AfterEq | Default | Dead

  function Step(q: VarState, c: char): VarState {
    match q
    case Start => if VarChar(c) then Ident else Dead
    case Ident =>
      if VarChar(c) then Ident
      else if IsSpace(c) then Gap
      else if c == '=' then AfterEq
      else if DefaultChar(c) then Default
      else Dead
    case Gap =>
      if IsSpace(c) then Gap
      else if c == '=' then AfterEq
      else if DefaultChar(c) then Default
      else Dead
    case AfterEq =>
      if IsSpace(c) then AfterEq
      else if DefaultChar(c) then Default
      else Dead
    case Default => if DefaultChar(c) then Default else Dead
    case Dead => Dead
  }

  predicate Accepting(q: VarState) { q == Ident || q == Default }

  /** The automaton's state after reading the first n characters of s. */
  function StateAfter(s: string, n: nat): VarState
    requires n <= |s|
  {
    if n == 0 then Start else Step(StateAfter(s, n - 1), s[n - 1])
  }

  /** The strings the variable pattern matches in full. */
  predicate VarPattern(t: string) {
    Accepting(StateAfter(t, |t|))
  }

  /** The end of the optional default group when it is tried at k, or k
      when it does not match (backtracking `=?` cannot help: '=' is not a
      default character). */
  function GroupEnd(s: string, k: nat): (n: nat)
    requires k <= |s|
    ensures k <= n <= |s|
  {
    var p1 := SkipWhile(s, k, Spaces);
    var p2 := if p1 < |s| && s[p1] == '=' then SkipWhile(s, p1 + 1, Spaces) else p1;
    if p2 < |s| && DefaultChar(s[p2]) then SkipWhile(s, p2, DefaultChars) else k
  }

  /** re.match of the variable pattern: the maximal identifier run, then the
      default group if it matches there. */
  function VarMatch(s: string): Option<string> {
    if |s| == 0 || !VarChar(s[0]) then None
    else Some(s[..GroupEnd(s, SkipWhile(s, 0, VarChars))])
  }

  /** Reading a prefix of s leaves the automaton where reading s does. */
  lemma {:induction false} StateAfterPrefix(s: string, m: nat, n: nat)
    requires n <= m <= |s|
    ensures StateAfter(s[..m], n) == StateAfter(s, n)
  {
    if n > 0 {
      StateAfterPrefix(s, m, n - 1);
      assert s[..m][n - 1] == s[n - 1];
    }
  }

  /** A run of characters on which q loops leaves the automaton in q. */
  lemma {:induction false} StaysOnRun(s: string, i: nat, j: nat, q: VarState)
    requires i <= j <= |s|
    requires StateAfter(s, i) == q
    requires forall x :: i <= x < j ==> Step(q, s[x]) == q
    ensures StateAfter(s, j) == q
    decreases j - i
  {
    if i < j {
      StaysOnRun(s, i + 1, j, q);
    }
  }

  /** Once dead, the automaton stays dead. */
  lemma {:induction false} DeadStays(s: string, i: nat, j: nat)
    requires i <= j <= |s|
    requires StateAfter(s, i) == Dead
    ensures StateAfter(s, j) == Dead
  {
    StaysOnRun(s, i, j, Dead);
  }

  /** After a Gap or AfterEq state, a run of blanks keeps the state and
      a character the group cannot use kills the automaton. */
  lemma {:induction false} BlanksThenStop(s: string, i: nat, p: nat, q: VarState)
    requires q == Gap || q == AfterEq
    requires i <= p <= |s|
    requires StateAfter(s, i) == q
    requires forall x :: i <= x < p ==> IsSpace(s[x])
    requires p < |s| ==> Step(q, s[p]) == Dead
    ensures forall m :: i <= m <= |s| ==> !Accepting(StateAfter(s, m))
  {
    StaysOnRun(s, i, p, q);
    forall m | i <= m <= |s| ensures !Accepting(StateAfter(s, m)) {
      if m <= p {
        StaysOnRun(s, i, m, q);
      } else {
        DeadStays(s, p + 1, m);
      }
    }
  }

  /** The greedy scan returns the longest prefix the variable pattern
      matches, and no prefix matches when it returns nothing. */
  lemma {:induction false} VarMatchIsLongest(s: string)
    ensures VarMatch(s).Some? ==>
      var t := VarMatch(s).value;
      |t| <= |s| && t == s[..|t|] && VarPattern(t)
      && forall m :: |t| < m <= |s| ==> !VarPattern(s[..m])
    ensures VarMatch(s).None? ==> forall m :: 0 <= m <= |s| ==> !VarPattern(s[..m])
  {
    forall m | 0 <= m <= |s| ensures VarPattern(s[..m]) <==> Accepting(StateAfter(s, m)) {
      StateAfterPrefix(s, m, m);
    }
    if |s| == 0 || !VarChar(s[0]) {
      forall m | 1 <= m <= |s| ensures !Accepting(StateAfter(s, m)) {
        DeadStays(s, 1, m);
      }
    } else {
      var k := SkipWhile(s, 0, VarChars);
      assert StateAfter(s, 1) == Ident;
      StaysOnRun(s, 1, k, Ident);
      TailAfterIdent(s, k);
    }
  }

  /** From the end k of the identifier run: the automaton accepts at
      GroupEnd(s, k) and at no later position. */
  lemma {:induction false} TailAfterIdent(s: string, k: nat)
    requires 1 <= k <= |s| && StateAfter(s, k) == Ident
    requires k < |s| ==> !VarChar(s[k])
    ensures Accepting(StateAfter(s, GroupEnd(s, k)))
    ensures forall m :: GroupEnd(s, k) < m <= |s| ==> !Accepting(StateAfter(s, m))
  {
    var p1 := SkipWhile(s, k, Spaces);
    var eq := p1 < |s| && s[p1] == '=';
    var p2 := if eq then SkipWhile(s, p1 + 1, Spaces) else p1;
    if p1 > k {
      GapRun(s, k, p1);
    }
    if p2 < |s| && DefaultChar(s[p2]) {
      GroupMatches(s, k, p1, p2, eq);
      assert GroupEnd(s, k) == SkipWhile(s, p2, DefaultChars);
    } else {
      assert GroupEnd(s, k) == k;
      NoGroup(s, k, p1, p2, eq);
    }
  }

  /** When the default group does not match at k, no position after k is
      accepting. */
  lemma NoGroup(s: string, k: nat, p1: nat, p2: nat, eq: bool)
    requires 1 <= k <= |s| && StateAfter(s, k) == Ident
    requires k < |s| ==> !VarChar(s[k])
    requires p1 == SkipWhile(s, k, Spaces)
    requires eq == (p1 < |s| && s[p1] == '=')
    requires p2 == if eq then SkipWhile(s, p1 + 1, Spaces) else p1
    requires p1 > k ==> forall m :: k < m <= p1 ==> StateAfter(s, m) == Gap
    requires !(p2 < |s| && DefaultChar(s[p2]))
    ensures forall m :: k < m <= |s| ==> !Accepting(StateAfter(s, m))
  {
    if eq {
      assert StateAfter(s, p1 + 1) == AfterEq;
      BlanksThenStop(s, p1 + 1, p2, AfterEq);
    } else if p1 > k {
      BlanksThenStop(s, k + 1, p1, Gap);
    } else if k < |s| {
      assert StateAfter(s, k + 1) == Dead;
      forall m | k < m <= |s| ensures !Accepting(StateAfter(s, m)) {
        DeadStays(s, k + 1, m);
      }
    }
  }

  /** Blanks right after the identifier: Gap throughout. */
  lemma {:induction false} GapRun(s: string, k: nat, p1: nat)
    requires 1 <= k < p1 <= |s| && StateAfter(s, k) == Ident
    requires forall x :: k <= x < p1 ==> IsSpace(s[x])
    ensures forall m :: k < m <= p1 ==> StateAfter(s, m) == Gap
  {
    assert !VarChar(s[k]);
    assert StateAfter(s, k + 1) == Gap;
    forall m | k < m <= p1 ensures StateAfter(s, m) == Gap {
      StaysOnRun(s, k + 1, m, Gap);
    }
  }

  /** The default group matches: Default up to its end, dead afterwards. */
  lemma {:induction false} GroupMatches(s: string, k: nat, p1: nat, p2: nat, eq: bool)
    requires 1 <= k <= p1 <= p2 < |s| && StateAfter(s, k) == Ident && !VarChar(s[k])
    requires p1 > k ==> StateAfter(s, p1) == Gap
    requires eq <==> p1 < |s| && s[p1] == '='
    requires eq ==> p1 < p2 && forall x :: p1 < x < p2 ==> IsSpace(s[x])
    requires !eq ==> p2 == p1
    requires p1 < |s| ==> !IsSpace(s[p1])
    requires DefaultChar(s[p2])
    ensures var n := SkipWhile(s, p2, DefaultChars);
      StateAfter(s, n) == Default && forall m :: n < m <= |s| ==> StateAfter(s, m) == Dead
  {
    DefaultEntered(s, k, p1, p2, eq);
    assert In(DefaultChars, s[p2]);
    assert SkipWhile(s, p2, DefaultChars) == SkipWhile(s, p2 + 1, DefaultChars);
    DefaultTail(s, p2 + 1);
  }

  /** The first default character moves the automaton into Default. */
  lemma DefaultEntered(s: string, k: nat, p1: nat, p2: nat, eq: bool)
    requires 1 <= k <= p1 <= p2 < |s| && StateAfter(s, k) == Ident && !VarChar(s[k])
    requires p1 > k ==> StateAfter(s, p1) == Gap
    requires eq <==> p1 < |s| && s[p1] == '='
    requires eq ==> p1 < p2 && forall x :: p1 < x < p2 ==> IsSpace(s[x])
    requires !eq ==> p2 == p1
    requires p1 < |s| ==> !IsSpace(s[p1])
    requires DefaultChar(s[p2])
    ensures StateAfter(s, p2 + 1) == Default
  {
    var q := if eq then AfterEq else if p1 > k then Gap else Ident;
    if eq {
      assert StateAfter(s, p1 + 1) == AfterEq;
      StaysOnRun(s, p1 + 1, p2, AfterEq);
    }
    assert StateAfter(s, p2) == q;
    assert Step(q, s[p2]) == Default;
  }

  /** Inside the default literal: Default up to the end of the run of
      default characters, dead afterwards. */
  lemma {:induction false} DefaultTail(s: string, i: nat)
    requires 0 < i <= |s| && StateAfter(s, i) == Default
    ensures var n := SkipWhile(s, i, DefaultChars);
      StateAfter(s, n) == Default && forall m :: n < m <= |s| ==> StateAfter(s, m) == Dead
  {
    var n := SkipWhile(s, i, DefaultChars);
    StaysOnRun(s, i, n, Default);
    forall m | n < m <= |s| ensures StateAfter(s, m) == Dead {
      DeadStays(s, n + 1, m);
    }
  }

  /** Inside a token the variable pattern matches, everything after an '='
      is a blank or a default-literal character. */
  lemma {:induction false} DefaultSuffixChars(t: string, j: nat)
    requires VarPattern(t) && j < |t| && t[j] == '='
    ensures forall i :: j < i < |t| ==> IsSpace(t[i]) || DefaultChar(t[i])
  {
    // before the '=', the automaton is in Ident or Gap; after it, in AfterEq or Default or Dead
    forall i | j < i < |t| ensures IsSpace(t[i]) || DefaultChar(t[i]) {
      AfterEqReads(t, j, i);
    }
  }

  /** Helper of DefaultSuffixChars: from position j + 1 on, the automaton is
      in AfterEq, Default or Dead, and an accepted token never dies. */
  lemma {:induction false} AfterEqReads(t: string, j: nat, i: nat)
    requires VarPattern(t) && j < i < |t| && t[j] == '='
    ensures IsSpace(t[i]) || DefaultChar(t[i])
  {
    var q := StateAfter(t, j + 1);
    assert q == AfterEq || q == Dead;
    LaterStates(t, j + 1, i + 1);
    var r := StateAfter(t, i + 1);
    if r == Dead {
      DeadStays(t, i + 1, |t|);
    }
  }

  /** Past an '=' the automaton only moves among AfterEq, Default and Dead,
      and it enters AfterEq or Default only on a blank or a default character. */
  lemma {:induction false} LaterStates(t: string, a: nat, b: nat)
    requires 0 < a <= b <= |t|
    requires StateAfter(t, a) in {AfterEq, Default, Dead}
    ensures StateAfter(t, b) in {AfterEq, Default, Dead}
    ensures b > a && StateAfter(t, b) != Dead ==> IsSpace(t[b - 1]) || DefaultChar(t[b - 1])
    decreases b - a
  {
    if a < b {
      LaterStates(t, a, b - 1);
    }
  }

  // ---------------------------------------------------------------- strip

  /** The number of leading blanks of s. */
  function LeadingSpaces(s: string): (a: nat)
    ensures a <= |s|
    ensures forall i :: 0 <= i < a ==> IsSpace(s[i])
    ensures a < |s| ==> !IsSpace(s[a])
  {
    SkipWhile(s, 0, Spaces)
  }

  function TrimEnd(s: string): (r: string)
    ensures |r| <= |s| && r == s[..|r|]
    ensures forall i :: |r| <= i < |s| ==> IsSpace(s[i])
    ensures |r| > 0 ==> !IsSpace(r[|r| - 1])
  {
    if |s| > 0 && IsSpace(s[|s| - 1]) then
      var r := TrimEnd(s[..|s| - 1]);
      assert r == s[..|r|];
      r
    else s
  }

  /** str.strip(): s without its leading and trailing blanks. */
  function Strip(s: string): (r: string)
    ensures LeadingSpaces(s) + |r| <= |s|
    ensures r == s[LeadingSpaces(s)..LeadingSpaces(s) + |r|]
    ensures forall i :: LeadingSpaces(s) + |r| <= i < |s| ==> IsSpace(s[i])
    ensures |r| > 0 ==> !IsSpace(r[0]) && !IsSpace(r[|r| - 1])
  {
    var a := LeadingSpaces(s);
    var t := s[a..];
    var r := TrimEnd(t);
    assert r == s[a..a + |r|] by {
      assert r == t[..|r|];
    }
    assert forall i :: a + |r| <= i < |s| ==> s[i] == t[i - a];
    assert |r| > 0 ==> r[0] == s[a];
    r
  }

  // ------------------------------------------------------------- keywords

  /** keyword.kwlist of Python 3.10 and later. */
  const Keywords: set<string> := {
    "False", "None", "True", "and", "as", "assert", "async", "await", "break",
    "class", "continue", "def", "del", "elif", "else", "except", "finally",
    "for", "from", "global", "if", "import", "in", "is", "lambda", "nonlocal",
    "not", "or", "pass", "raise", "return", "try", "while", "with", "yield"
  }
}
