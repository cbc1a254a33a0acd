/**
 * The address rule applied before the main window loads the configured url:
 * an address without a scheme separator "://" is loaded over plain http.
 */
module Url {
  import Config

  const Separator: string := "://"
  const HttpPrefix: string := "http://"

  /** `sub` occurs somewhere in `s`, as JavaScript's `includes` tests. */
  predicate Contains(s: string, sub: string)
    decreases |s|
  {
    |sub| <= |s| && (s[..|sub|] == sub || Contains(s[1..], sub))
  }

  /** `s.includes(sub)` holds whenever `sub` occurs at some offset `i`. */
  lemma {:induction false} ContainsAt(s: string, sub: string, i: nat)
    requires i + |sub| <= |s| && s[i..i + |sub|] == sub
    ensures Contains(s, sub)
    decreases i
  {
    if i > 0 {
      assert s[1..][i - 1..i - 1 + |sub|] == s[i..i + |sub|];
      ContainsAt(s[1..], sub, i - 1);
    } else {
      assert s[..|sub|] == s[0..|sub|];
    }
  }

  /** The address actually loaded (src/index.ts:31-33): unchanged when it has a scheme separator, otherwise prefixed with "http://". */
  function Normalize(url: string): (r: string)
    ensures Contains(r, Separator)
    ensures Contains(url, Separator) ==> r == url
    ensures !Contains(url, Separator) ==> r == HttpPrefix + url && |r| == |url| + 7
    ensures r[|r| - |url|..] == url
  {
    if Contains(url, Separator) then url
    else
      var r := HttpPrefix + url;
      assert r[4..7] == Separator;
      ContainsAt(r, Separator, 4);
      r
  }

  /** Normalising twice is normalising once. */
  lemma NormalizeIdempotent(url: string)
    ensures Normalize(Normalize(url)) == Normalize(url)
  {
  }

  /** The fallback address already carries a scheme, so it is loaded as it is. */
  lemma DefaultUrlLoadsUnchanged()
    ensures Normalize(Config.DefaultUrl) == Config.DefaultUrl
  {
    var d := Config.DefaultUrl;
    assert d[5] == ':' && d[6] == '/' && d[7] == '/';
    assert d[5..8] == Separator;
    ContainsAt(d, Separator, 5);
  }
}
