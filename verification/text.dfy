/** The one piece of string handling the handlers need beyond prefixes:
    `String.prototype.split(' ')`. */
module Text {

  /** The index of the first space in `s`, or `|s|` when there is none. */
  function FirstSpace(s: string): (i: nat)
    ensures i <= |s|
    ensures i < |s| <==> ' ' in s
    ensures i < |s| ==> s[i] == ' '
    ensures forall j :: 0 <= j < i ==> s[j] != ' '
  {
    if |s| == 0 then 0
    else if s[0] == ' ' then 0
    else
      var i := FirstSpace(s[1..]);
      assert forall j :: 1 <= j <= i ==> s[j] == s[1..][j - 1];
      1 + i
  }

  /** `s.split(' ')`: the pieces between single spaces, so `n` spaces give
      `n + 1` pieces, some of them possibly empty. */
  function Split(s: string): (fields: seq<string>)
    ensures |fields| >= 1
    ensures fields[0] == s[..FirstSpace(s)]
    ensures ' ' in s ==> |fields| >= 2
    decreases |s|
  {
    var i := FirstSpace(s);
    if i == |s| then [s] else [s[..i]] + Split(s[i + 1..])
  }

  /** No field of `split(' ')` holds a space. */
  lemma {:induction false} FieldsHaveNoSpace(s: string)
    ensures forall k :: 0 <= k < |Split(s)| ==> ' ' !in Split(s)[k]
    decreases |s|
  {
    var i := FirstSpace(s);
    if i < |s| {
      FieldsHaveNoSpace(s[i + 1..]);
      assert Split(s) == [s[..i]] + Split(s[i + 1..]);
      assert forall j :: 0 <= j < i ==> s[..i][j] == s[j];
    }
  }

  /** The fields glued back together with single spaces. */
  function Join(fields: seq<string>): string
    requires |fields| >= 1
  {
    if |fields| == 1 then fields[0] else fields[0] + " " + Join(fields[1..])
  }

  /** Splitting loses nothing: gluing the fields back gives the text. */
  lemma {:induction false} JoinSplit(s: string)
    ensures Join(Split(s)) == s
    decreases |s|
  {
    var i := FirstSpace(s);
    if i < |s| {
      var rest := Split(s[i + 1..]);
      assert Split(s) == [s[..i]] + rest;
      assert ([s[..i]] + rest)[1..] == rest;
      JoinSplit(s[i + 1..]);
      assert s == s[..i] + " " + s[i + 1..];
    }
  }

  /** Splitting a join of space-free fields gives the fields back, so each
      space marks exactly one field boundary. */
  lemma {:induction false} SplitJoin(fields: seq<string>)
    requires |fields| >= 1
    requires forall k :: 0 <= k < |fields| ==> ' ' !in fields[k]
    ensures Split(Join(fields)) == fields
    decreases |fields|
  {
    var s := Join(fields);
    if |fields| == 1 {
      assert FirstSpace(s) == |s|;
    } else {
      var f := fields[0];
      var tail := Join(fields[1..]);
      assert s == f + " " + tail;
      assert s[|f|] == ' ';
      assert forall j :: 0 <= j < |f| ==> s[j] == f[j];
      var i := FirstSpace(s);
      assert i == |f|;
      assert s[..i] == f;
      assert s[i + 1..] == tail;
      SplitJoin(fields[1..]);
      assert Split(s) == [f] + fields[1..];
    }
  }

  /** The second field of `"Bearer " + t` is `t` up to its first space, so
      it is `t` itself exactly when `t` holds no space. */
  lemma {:induction false} SecondFieldAfterScheme(scheme: string, t: string)
    requires ' ' !in scheme
    ensures |Split(scheme + " " + t)| >= 2
    ensures Split(scheme + " " + t)[1] == t[..FirstSpace(t)]
    ensures (Split(scheme + " " + t)[1] == t) <==> ' ' !in t
  {
    var h := scheme + " " + t;
    assert h[|scheme|] == ' ';
    assert forall j :: 0 <= j < |scheme| ==> h[j] == scheme[j];
    var i := FirstSpace(h);
    assert i == |scheme|;
    assert h[i + 1..] == t;
    var rest := Split(t);
    assert Split(h) == [h[..i]] + rest;
    if ' ' !in t {
      assert rest == [t];
    } else {
      assert |rest[0]| < |t|;
    }
  }
}
