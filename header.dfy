/** Reading the bearer token out of the `Authorization` header:
    `authHeader && authHeader.split(' ')[1]`. The scheme word is not looked at. */
module Header {
  import opened Wrappers

  /** JavaScript's `s.split(sep)` for a one-character separator: every occurrence splits,
      so adjacent separators yield empty fields and there is always at least one field. */
  function Split(s: string, sep: char): (fields: seq<string>)
    ensures |fields| >= 1
    ensures forall i :: 0 <= i < |fields| ==> sep !in fields[i]
    ensures Join(fields, sep) == s
  {
    if s == [] then [[]]
    else
      var rest := Split(s[1..], sep);
      if s[0] == sep then
        assert ([[]] + rest)[1..] == rest;
        [[]] + rest
      else
        assert [s[0]] + s[1..] == s;
        [[s[0]] + rest[0]] + rest[1..]
  }

  /** `fields.join(sep)`, the inverse of Split. */
  function Join(fields: seq<string>, sep: char): string {
    if fields == [] then []
    else if |fields| == 1 then fields[0]
    else fields[0] + [sep] + Join(fields[1..], sep)
  }

  /** The token app.js reads from the header: None where JavaScript gets `undefined` (no
      header, or no second field), which the gate answers with 401. An empty header
      short-circuits `&&` to the empty string itself, which is not null. */
  function ExtractToken(authorization: Option<string>): (token: Option<string>)
    ensures token.None? <==> authorization.None? || (authorization.value != "" && ' ' !in authorization.value)
    ensures token.Some? ==> ' ' !in token.value
    ensures authorization == Some("") ==> token == Some("")
  {
    match authorization
    case None => None
    case Some(h) =>
      if h == "" then Some("")
      else
        var fields := Split(h, ' ');
        SplitIsSingleIff(h, ' ');
        if |fields| >= 2 then Some(fields[1]) else None
  }

  /** Joining two or more fields puts a separator in. */
  lemma JoinManyHasSep(fields: seq<string>, sep: char)
    requires |fields| >= 2
    ensures sep in Join(fields, sep)
  {
    assert (fields[0] + [sep] + Join(fields[1..], sep))[|fields[0]|] == sep;
  }

  /** A string splits into one field exactly when it holds no separator. */
  lemma SplitIsSingleIff(s: string, sep: char)
    ensures |Split(s, sep)| == 1 <==> sep !in s
  {
    var fields := Split(s, sep);
    if |fields| >= 2 {
      JoinManyHasSep(fields, sep);
    }
  }

  /** A field without separators followed by one separator splits off as the first field. */
  lemma {:induction false} SplitAfterField(w: string, sep: char, s: string)
    requires sep !in w
    ensures Split(w + [sep] + s, sep) == [w] + Split(s, sep)
  {
    if w == [] {
      assert w + [sep] + s == [sep] + s;
      assert ([sep] + s)[1..] == s;
    } else {
      assert (w + [sep] + s)[1..] == w[1..] + [sep] + s;
      SplitAfterField(w[1..], sep, s);
      assert [w[0]] + w[1..] == w;
    }
  }

  /** `scheme + " " + token` yields the token, whatever the scheme word. */
  lemma BearerHeaderYieldsToken(scheme: string, token: string)
    requires ' ' !in scheme && ' ' !in token
    ensures ExtractToken(Some(scheme + " " + token)) == Some(token)
  {
    SplitAfterField(scheme, ' ', token);
    SplitIsSingleIff(token, ' ');
    assert |Split(token, ' ')| == 1;
    assert Join(Split(token, ' '), ' ') == Split(token, ' ')[0];
  }

  /** Anything after a further space is ignored. */
  lemma TrailingFieldsIgnored(scheme: string, token: string, more: string)
    requires ' ' !in scheme && ' ' !in token
    ensures ExtractToken(Some(scheme + " " + token + " " + more)) == Some(token)
  {
    SplitAfterField(scheme, ' ', token + " " + more);
    SplitAfterField(token, ' ', more);
    assert scheme + " " + token + " " + more == scheme + [' '] + (token + [' '] + more);
  }
}
