/** The cookie string that both the configuration store and the background worker build from the
    browser's cookie list: `name=value` pairs joined by "; ", the cookie-header syntax of
    section 4.2.1 of RFC 6265. */
module Cookies {
  import opened Common

  /** One browser cookie; only the name and the value take part in the string. */
  datatype Cookie = Cookie(name: string, value: string)

  /** `${c.name}=${c.value}` */
  function Pair(c: Cookie): (r: string)
    ensures |r| == |c.name| + 1 + |c.value| && r[|c.name|] == '='
    ensures r[..|c.name|] == c.name && r[|c.name| + 1..] == c.value
  {
    c.name + "=" + c.value
  }

  /** `cookies.map(Pair).join('; ')`, in the order the cookies were returned. */
  function Serialize(cs: seq<Cookie>): (r: string)
    ensures r == "" <==> cs == []
  {
    if |cs| == 0 then ""
    else if |cs| == 1 then Pair(cs[0])
    else Pair(cs[0]) + "; " + Serialize(cs[1..])
  }

  /** Joining keeps the order: the string of a concatenation is the two strings joined by "; ". */
  lemma {:induction false} SerializeAppend(a: seq<Cookie>, b: seq<Cookie>)
    requires a != [] && b != []
    ensures Serialize(a + b) == Serialize(a) + "; " + Serialize(b)
  {
    if |a| == 1 {
      assert (a + b)[1..] == b;
    } else {
      assert (a + b)[1..] == a[1..] + b;
      SerializeAppend(a[1..], b);
    }
  }

  // ---------------------------------------------------------------- reading a cookie string back

  /** A cookie whose name is an RFC 6265 token as far as the separators go ('=' and ';' are not in
      it) and whose value holds no ';'. */
  predicate WellFormed(c: Cookie)
  {
    '=' !in c.name && ';' !in c.name && ';' !in c.value
  }

  /** The position of the first `ch` in `s`. */
  function FirstIndex(s: string, ch: char): (r: Option<nat>)
    ensures r.Some? ==> r.value < |s| && s[r.value] == ch
    ensures r.Some? ==> forall k :: 0 <= k < r.value ==> s[k] != ch
    ensures r.None? <==> ch !in s
  {
    if s == [] then None
    else if s[0] == ch then Some(0)
    else match FirstIndex(s[1..], ch)
      case None => None
      case Some(i) => Some(i + 1)
  }

  /** Splits one `name=value` pair at its first '='. */
  function ParsePair(s: string): Cookie
  {
    match FirstIndex(s, '=')
    case None => Cookie(s, "")
    case Some(i) => Cookie(s[..i], s[i + 1..])
  }

  /** Splits a cookie string at each ';' and drops the space that follows it. */
  function Parse(s: string): seq<Cookie>
    decreases |s|
  {
    if s == "" then []
    else match FirstIndex(s, ';')
      case None => [ParsePair(s)]
      case Some(i) => [ParsePair(s[..i])] + Parse(if i + 2 <= |s| then s[i + 2..] else "")
  }

  lemma ParsePairOfPair(c: Cookie)
    requires WellFormed(c)
    ensures ParsePair(Pair(c)) == c
  {
  }

  /** The pair of a well-formed cookie holds no ';', so it is never split. */
  lemma PairHasNoSemicolon(c: Cookie)
    requires WellFormed(c)
    ensures ';' !in Pair(c)
  {
    var p := Pair(c);
    forall k | 0 <= k < |p| ensures p[k] != ';' {
      if k < |c.name| {
        assert p[k] == p[..|c.name|][k] == c.name[k];
      } else if k > |c.name| {
        assert p[k] == p[|c.name| + 1..][k - |c.name| - 1] == c.value[k - |c.name| - 1];
      }
    }
  }

  /** Reading back the string of well-formed cookies gives the same cookies in the same order. */
  lemma {:induction false} ParseSerialize(cs: seq<Cookie>)
    requires forall c :: c in cs ==> WellFormed(c)
    ensures Parse(Serialize(cs)) == cs
  {
    if |cs| == 0 {
    } else {
      var p := Pair(cs[0]);
      ParsePairOfPair(cs[0]);
      PairHasNoSemicolon(cs[0]);
      if |cs| == 1 {
        assert FirstIndex(p, ';').None?;
      } else {
        var rest := Serialize(cs[1..]);
        var s := p + "; " + rest;
        assert s == Serialize(cs);
        var r := FirstIndex(s, ';');
        assert s[|p|] == ';';
        assert forall k :: 0 <= k < |p| ==> s[k] == p[k];
        assert r.Some? && r.value == |p|;
        assert s[..|p|] == p;
        assert s[|p| + 2..] == rest;
        ParseSerialize(cs[1..]);
      }
    }
  }
}
