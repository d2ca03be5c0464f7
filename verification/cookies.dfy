/** Set-Cookie directives as records, and the browser's cookie store that
    applies them (one origin, one path; section 5.3 of RFC 6265). */
module Cookies {
  import opened Wrappers

  datatype SameSite = Unspecified | Lax

  /** One directive as `cookie.serialize` would emit it. */
  datatype SetCookie = SetCookie(
    name: string,
    value: string,
    httpOnly: bool,
    secure: bool,
    maxAge: int,
    path: string,
    sameSite: SameSite)

  /** A Max-Age of zero or less makes the browser drop the cookie at once
      (section 5.2.2 of RFC 6265). */
  predicate Expires(c: SetCookie)
  {
    c.maxAge <= 0
  }

  /** The directive that replaces a cookie by an empty, already expired one:
      no flags but `path=/`, and Max-Age -1. */
  function Cleared(name: string): (c: SetCookie)
    ensures c.name == name && Expires(c) && c.path == "/"
  {
    SetCookie(name, "", false, false, -1, "/", Unspecified)
  }

  /** The cookie store after the browser processes one directive. */
  function Step(jar: map<string, string>, c: SetCookie): map<string, string>
  {
    if Expires(c) then jar - {c.name} else jar[c.name := c.value]
  }

  /** The cookie store after the browser processes `cs` in order. */
  function Apply(jar: map<string, string>, cs: seq<SetCookie>): map<string, string>
    decreases |cs|
  {
    if |cs| == 0 then jar else Step(Apply(jar, cs[..|cs| - 1]), cs[|cs| - 1])
  }

  /** The last directive in `cs` that names `n`, if any. */
  function Last(cs: seq<SetCookie>, n: string): (r: Option<SetCookie>)
    ensures r.None? <==> forall i :: 0 <= i < |cs| ==> cs[i].name != n
    ensures r.Some? ==> r.value.name == n && r.value in cs
    decreases |cs|
  {
    if |cs| == 0 then None
    else if cs[|cs| - 1].name == n then Some(cs[|cs| - 1])
    else
      var r := Last(cs[..|cs| - 1], n);
      assert forall i :: 0 <= i < |cs| - 1 ==> cs[..|cs| - 1][i] == cs[i];
      r
  }
  /** The directive `Last` picks is the last one naming `n`: when position
      `i` names `n` and no later directive does, `Last` returns it. */
  lemma {:induction false} LastIsLast(cs: seq<SetCookie>, n: string, i: nat)
    requires i < |cs| && cs[i].name == n
    requires forall j :: i < j < |cs| ==> cs[j].name != n
    ensures Last(cs, n) == Some(cs[i])
    decreases |cs|
  {
    if i < |cs| - 1 {
      assert cs[|cs| - 1].name != n;
      LastIsLast(cs[..|cs| - 1], n, i);
    }
  }


  /** Reference reading of a directive list: what cookie `n` holds afterwards
      is decided by the last directive naming it, and by the old store when
      none does. */
  function Effect(jar: map<string, string>, cs: seq<SetCookie>, n: string): Option<string>
  {
    match Last(cs, n)
    case None => Find(jar, n)
    case Some(c) => if Expires(c) then None else Some(c.value)
  }

  /** Applying directives one by one agrees with the reference reading. */
  lemma {:induction false} ApplyIsLastWins(jar: map<string, string>, cs: seq<SetCookie>, n: string)
    ensures Find(Apply(jar, cs), n) == Effect(jar, cs, n)
    decreases |cs|
  {
    if |cs| > 0 {
      ApplyIsLastWins(jar, cs[..|cs| - 1], n);
    }
  }

  /** A cookie that no directive names keeps its old value (or its absence). */
  lemma Untouched(jar: map<string, string>, cs: seq<SetCookie>, n: string)
    requires forall i :: 0 <= i < |cs| ==> cs[i].name != n
    ensures Find(Apply(jar, cs), n) == Find(jar, n)
  {
    ApplyIsLastWins(jar, cs, n);
  }
}
