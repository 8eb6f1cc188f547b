/** The preview-target normaliser of `usePreview`'s `setTarget`: a URL gets an
    `http://` prefix unless it already carries a scheme. The scheme test is the
    regular expression `/https?:\/\//`, which is not anchored, so a scheme text
    anywhere in the string counts. */
module PreviewTarget {

  const HTTP: string := "http://"
  const HTTPS: string := "https://"

  /** `pat` occurs in `s` starting at position `i`. */
  ghost predicate OccursAt(s: string, pat: string, i: nat) {
    i + |pat| <= |s| && s[i..i + |pat|] == pat
  }

  /** Unanchored search for `pat` in `s`, scanning from the left as a regular
      expression engine does. */
  function Contains(s: string, pat: string): bool
    decreases |s|
  {
    if |s| < |pat| then false
    else s[..|pat|] == pat || Contains(s[1..], pat)
  }

  /** The scan finds `pat` exactly when it occurs at some position. */
  lemma {:induction false} ContainsIff(s: string, pat: string)
    ensures Contains(s, pat) <==> exists i: nat :: OccursAt(s, pat, i)
    decreases |s|
  {
    if |s| < |pat| {
      forall i: nat ensures !OccursAt(s, pat, i) { }
    } else if s[..|pat|] == pat {
      assert OccursAt(s, pat, 0);
    } else {
      ContainsIff(s[1..], pat);
      if Contains(s[1..], pat) {
        var i: nat :| OccursAt(s[1..], pat, i);
        assert s[i + 1..i + 1 + |pat|] == s[1..][i..i + |pat|];
        assert OccursAt(s, pat, i + 1);
      } else {
        forall i: nat | OccursAt(s, pat, i) ensures false {
          if i > 0 {
            assert s[1..][i - 1..i - 1 + |pat|] == s[i..i + |pat|];
            assert OccursAt(s[1..], pat, i - 1);
          }
        }
      }
    }
  }

  /** An occurrence at a known position is found by the scan. */
  lemma ContainsAt(s: string, pat: string, i: nat)
    requires OccursAt(s, pat, i)
    ensures Contains(s, pat)
  {
    ContainsIff(s, pat);
  }

  /** What `url.match(/https?:\/\//)` tests: `http://` or `https://` anywhere. */
  predicate HasScheme(url: string) {
    Contains(url, HTTP) || Contains(url, HTTPS)
  }

  /** `setTarget`: the URL handed to the preview effect. The input is kept
      unchanged when it has a scheme somewhere and is otherwise prefixed with
      `http://`; either way it ends with the input and has a scheme. */
  function Normalise(url: string): (r: string)
    ensures r == url <==> HasScheme(url)
    ensures !HasScheme(url) ==> r == HTTP + url
    ensures |r| >= |url| && r[|r| - |url|..] == url
    ensures HasScheme(r)
  {
    if HasScheme(url) then url
    else
      var r := HTTP + url;
      assert r[|r| - |url|..] == url;
      assert r[0..|HTTP|] == HTTP;
      ContainsAt(r, HTTP, 0);
      r
  }

  /** Normalising an already normalised target changes nothing. */
  lemma NormaliseIdempotent(url: string)
    ensures Normalise(Normalise(url)) == Normalise(url)
  {
  }

  /** The search is not anchored: a scheme that appears only after other text
      (here in a query parameter of an `ftp:` URL) suppresses the prefix. */
  lemma UnanchoredScheme()
    ensures Normalise("ftp://a/?u=http://b") == "ftp://a/?u=http://b"
  {
    var s := "ftp://a/?u=http://b";
    assert s[11..18] == HTTP;
    ContainsAt(s, HTTP, 11);
  }

  /** The match is case-sensitive: an upper-case scheme is not recognised and
      gets a second, lower-case one in front of it. */
  lemma UpperCaseSchemeIsPrefixed()
    ensures Normalise("HTTP://a") == "http://HTTP://a"
  {
    var s := "HTTP://a";
    assert s[..|HTTP|][0] != HTTP[0];
    assert s[1..][..|HTTP|][0] != HTTP[0];
    assert |s[1..][1..]| < |HTTP|;
    assert s[..|HTTPS|][0] != HTTPS[0];
    assert |s[1..]| < |HTTPS|;
  }
}
