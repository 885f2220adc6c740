/** The typed failures raised by validation and by the name-collision checks
    (tests/errors.py). Every kind is a SwirlError carrying the offending token
    as `ref` and a formatted message. */
module Errors {

  const LengthSuffix := " should not be longer than 30 characters!"
  const InvalidSuffix := " is not a valid name!"
  const UsedSuffix := " is already used! Please use another name for this."

  datatype SwirlError =
    | LengthError(ref: string)
    | InvalidNameError(ref: string)
    | KeywordNameError(ref: string)
    | NameAlreadyUsedError(ref: string)
  {
    /** The fixed text that follows the quoted token in the message. */
    function Suffix(): string {
      match this
      case LengthError(_) => LengthSuffix
      case InvalidNameError(_) => InvalidSuffix
      case KeywordNameError(_) => UsedSuffix
      case NameAlreadyUsedError(_) => UsedSuffix
    }

    /** The `message` field: the token in double quotes, then the kind's text. */
    function Message(): (m: string)
      ensures |m| == |ref| + 2 + |Suffix()|
      ensures m[0] == '"' && m[1..|ref| + 1] == ref && m[|ref| + 1] == '"'
      ensures m[|ref| + 2..] == Suffix()
    {
      var quoted := ['"'] + ref + ['"'];
      assert quoted[1..|ref| + 1] == ref;
      quoted + Suffix()
    }
  }

  /** KeywordNameError and NameAlreadyUsedError word their message identically. */
  lemma KeywordAndUsedShareMessage(r: string)
    ensures KeywordNameError(r).Message() == NameAlreadyUsedError(r).Message()
  {
  }

  /** A message determines its token, and it determines the error kind except
      that a keyword clash and a name clash read the same. */
  lemma MessageDeterminesError(e1: SwirlError, e2: SwirlError)
    requires e1.Message() == e2.Message()
    ensures e1.ref == e2.ref
    ensures e1 == e2 || (e1.Suffix() == UsedSuffix && e2.Suffix() == UsedSuffix)
  {
    var m := e1.Message();
    var s1, s2 := e1.Suffix(), e2.Suffix();
    // the last two characters of the message tell the three suffixes apart
    assert m[|m| - 1] == s1[|s1| - 1] && m[|m| - 1] == s2[|s2| - 1];
    assert m[|m| - 2] == s1[|s1| - 2] && m[|m| - 2] == s2[|s2| - 2];
    assert s1 == s2;
    assert |e1.ref| == |e2.ref|;
    assert e1.ref == m[1..|e1.ref| + 1] == e2.ref;
  }
}
