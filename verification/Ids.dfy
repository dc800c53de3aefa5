/**
 User, client and session identifiers as `econn` compares, copies and ranks them
 (src/econn/econn_help.c and the string helpers it relies on).
 */
module Ids {

  /** Size of the identifier fields, terminator included (ECONN_ID_LEN). */
  const ID_LEN: nat := 128

  /** `str_ncpy` into an identifier field: what does not fit is cut off. */
  function Stored(s: string): (r: string)
    ensures |r| < ID_LEN
  {
    if |s| < ID_LEN then s else s[..ID_LEN - 1]
  }

  function Lower(c: char): char {
    if 'A' <= c <= 'Z' then c - 'A' + 'a' else c
  }

  /** `0 == str_casecmp(s, t)`. */
  predicate SameId(s: string, t: string) {
    |s| == |t| && forall i | 0 <= i < |s| :: Lower(s[i]) == Lower(t[i])
  }

  /** A stored identifier is recognised as the one it came from if and only if the field could hold it. */
  lemma RecognisedIff(s: string)
    ensures SameId(Stored(s), s) <==> |s| < ID_LEN
  {
  }

  /** `strcmp`, reduced to its sign. */
  function StrCmp(s: string, t: string): (r: int)
    ensures -1 <= r <= 1
  {
    if s == [] then (if t == [] then 0 else -1)
    else if t == [] then 1
    else if s[0] < t[0] then -1
    else if t[0] < s[0] then 1
    else StrCmp(s[1..], t[1..])
  }

  /** Glare is won by the greater user id; the client id decides a tie (econn_iswinner). */
  predicate IsWinner(userSelf: string, clientSelf: string, userRemote: string, clientRemote: string) {
    var r := StrCmp(userSelf, userRemote);
    (if r == 0 then StrCmp(clientSelf, clientRemote) else r) > 0
  }

  lemma {:induction false} StrCmpAntisymmetric(s: string, t: string)
    ensures StrCmp(s, t) == -StrCmp(t, s)
  {
    if s != [] && t != [] && s[0] == t[0] {
      StrCmpAntisymmetric(s[1..], t[1..]);
    }
  }

  lemma {:induction false} StrCmpZeroIffEqual(s: string, t: string)
    ensures StrCmp(s, t) == 0 <==> s == t
  {
    if s != [] && t != [] && s[0] == t[0] {
      StrCmpZeroIffEqual(s[1..], t[1..]);
      assert s == [s[0]] + s[1..] && t == [t[0]] + t[1..];
    }
  }

  /** Of two different (user, client) pairs exactly one side believes it won. */
  lemma ExactlyOneWinner(u: string, c: string, v: string, d: string)
    ensures !(IsWinner(u, c, v, d) && IsWinner(v, d, u, c))
    ensures (u, c) != (v, d) <==> IsWinner(u, c, v, d) || IsWinner(v, d, u, c)
  {
    StrCmpAntisymmetric(u, v);
    StrCmpAntisymmetric(c, d);
    StrCmpZeroIffEqual(u, v);
    StrCmpZeroIffEqual(c, d);
  }
}
