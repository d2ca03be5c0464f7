/** What the two route gates share: their decision and the prefix test
    `prefixes.some((p) => pathname.startsWith(p))`. */
module Routes {

  /** `NextResponse.next()` or `NextResponse.redirect(path)`. */
  datatype Decision = Next | RedirectTo(path: string)

  const SigninPath := "/api/auth/signin"

  /** A path is public for a gate when one of the gate's public prefixes
      starts it. */
  predicate IsPublic(prefixes: seq<string>, path: string)
  {
    exists i :: 0 <= i < |prefixes| && prefixes[i] <= path
  }

  /** The prefix test as the gates run it, one prefix after another. */
  function AnyPrefix(prefixes: seq<string>, path: string): (r: bool)
    ensures r <==> IsPublic(prefixes, path)
  {
    if |prefixes| == 0 then false
    else if prefixes[0] <= path then true
    else
      var r := AnyPrefix(prefixes[1..], path);
      assert forall i :: 1 <= i < |prefixes| ==> prefixes[1..][i - 1] == prefixes[i];
      r
  }
}
