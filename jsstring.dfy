/**
  `String.prototype.trim` as the client uses it to validate user names and
  chat messages: it removes JavaScript white space and line terminators from
  both ends and keeps everything in between.
 */
module JsString {

  /** The characters ECMAScript counts as WhiteSpace or LineTerminator. */
  predicate IsWhiteSpace(c: char)
  {
    ('\t' <= c <= '\r') || c == ' ' || c == '\U{A0}' || c == '\U{1680}' ||
    ('\U{2000}' <= c <= '\U{200A}') || c == '\U{2028}' || c == '\U{2029}' ||
    c == '\U{202F}' || c == '\U{205F}' || c == '\U{3000}' || c == '\U{FEFF}'
  }

  predicate AllWhiteSpace(s: string)
  {
    forall i :: 0 <= i < |s| ==> IsWhiteSpace(s[i])
  }

  /** Neither end of `s` is white space. */
  predicate Trimmed(s: string)
  {
    s == [] || (!IsWhiteSpace(s[0]) && !IsWhiteSpace(s[|s| - 1]))
  }

  /** `s` without its leading white space. */
  function TrimStart(s: string): (r: string)
    ensures |r| <= |s| && r == s[|s| - |r|..]
    ensures AllWhiteSpace(s[..|s| - |r|])
    ensures r == [] || !IsWhiteSpace(r[0])
  {
    if s != [] && IsWhiteSpace(s[0]) then
      var t := s[1..];
      var r := TrimStart(t);
      assert t[|t| - |r|..] == s[|s| - |r|..];
      assert s[..|s| - |r|] == [s[0]] + t[..|t| - |r|];
      r
    else s
  }

  /** `s` without its trailing white space. */
  function TrimEnd(s: string): (r: string)
    ensures |r| <= |s| && r == s[..|r|]
    ensures AllWhiteSpace(s[|r|..])
    ensures r == [] || !IsWhiteSpace(r[|r| - 1])
  {
    if s != [] && IsWhiteSpace(s[|s| - 1]) then
      var r := TrimEnd(s[..|s| - 1]);
      assert s[|r|..] == s[..|s| - 1][|r|..] + [s[|s| - 1]];
      r
    else s
  }

  /**
    `s.trim()`: the slice of `s` left after removing white space at both
    ends; what was removed is all white space, what is kept starts and ends
    with something else.
   */
  function Trim(s: string): (r: string)
    ensures Trimmed(r)
    ensures |r| <= |TrimStart(s)| <= |s|
  {
    TrimEnd(TrimStart(s))
  }

  /**
    What `Trim` keeps is one contiguous slice of `s`, and everything it drops
    on either side is white space.
   */
  lemma TrimSlice(s: string) returns (lead: nat)
    ensures lead + |Trim(s)| <= |s|
    ensures Trim(s) == s[lead..lead + |Trim(s)|]
    ensures AllWhiteSpace(s[..lead]) && AllWhiteSpace(s[lead + |Trim(s)|..])
  {
    var t := TrimStart(s);
    var r := TrimEnd(t);
    assert Trim(s) == r;
    lead := KeptSlice(s, t, r);
  }

  /** A prefix `r` of a suffix `t` of `s`, with white space cut off either side. */
  lemma KeptSlice(s: string, t: string, r: string) returns (lead: nat)
    requires |t| <= |s| && t == s[|s| - |t|..] && AllWhiteSpace(s[..|s| - |t|])
    requires |r| <= |t| && r == t[..|r|] && AllWhiteSpace(t[|r|..])
    ensures lead == |s| - |t| && lead + |r| <= |s| && r == s[lead..lead + |r|]
    ensures AllWhiteSpace(s[..lead]) && AllWhiteSpace(s[lead + |r|..])
  {
    lead := |s| - |t|;
    SliceOfSuffix(s, lead, |r|);
    WhiteSpaceTail(t, |r|, s[lead + |r|..]);
  }

  lemma WhiteSpaceTail(t: string, n: nat, u: string)
    requires n <= |t| && AllWhiteSpace(t[n..]) && u == t[n..]
    ensures AllWhiteSpace(u)
  {
  }

  lemma SliceOfSuffix(s: string, lead: nat, n: nat)
    requires lead + n <= |s|
    ensures s[lead..][..n] == s[lead..lead + n]
    ensures s[lead..][n..] == s[lead + n..]
  {
  }

  /** A name or message is blank after trimming exactly when it is all white space. */
  lemma TrimEmptyIff(s: string)
    ensures Trim(s) == [] <==> AllWhiteSpace(s)
  {
    var lead := |s| - |TrimStart(s)|;
    if Trim(s) == [] {
      assert s == s[..lead] + s[lead..];
    } else {
      assert Trim(s)[0] == s[lead];
    }
  }

  /** Trimming twice trims nothing more. */
  lemma TrimIdempotent(s: string)
    ensures Trim(Trim(s)) == Trim(s)
  {
    var r := Trim(s);
    TrimNoOp(r);
  }

  lemma TrimNoOp(s: string)
    requires Trimmed(s)
    ensures Trim(s) == s
  {
  }
}
