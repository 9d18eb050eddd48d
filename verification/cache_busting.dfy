/**
 * The cache-busting rewrite the server applies to every stored image URL it returns, and the
 * client applies to a URL it cannot parse: `cb=<number>` appended after `&` or `?`.
 */
module CacheBusting {
  import opened Text

  /**
   * A URL with `cb=n` added: after `&` when the URL already has a `?`, after `?` otherwise.
   * The URL is kept whole as a prefix.
   */
  function CacheBust(url: string, n: nat): (r: string)
    ensures StartsWith(r, url) && |r| > |url|
    ensures r[|url|] == (if '?' in url then '&' else '?')
    ensures r[|url| + 1..] == "cb=" + Decimal(n)
  {
    url + (if '?' in url then "&cb=" else "?cb=") + Decimal(n)
  }

  /**
   * A cache-busted URL determines both the stored URL and the number: the number is the digit run
   * after the last `=`, and what precedes `[?&]cb=` is the URL.
   */
  lemma CacheBustInjective(u1: string, n1: nat, u2: string, n2: nat)
    requires CacheBust(u1, n1) == CacheBust(u2, n2)
    ensures u1 == u2 && n1 == n2
  {
    var r := CacheBust(u1, n1);
    var d1, d2 := Decimal(n1), Decimal(n2);
    assert r[|r| - |d1|..] == d1 && r[|r| - |d2|..] == d2;
    assert r[|r| - |d1| - 1] == '=' && r[|r| - |d2| - 1] == '=';
    if |d1| < |d2| {
      assert false;
    } else if |d2| < |d1| {
      assert false;
    }
    assert d1 == d2;
    DecimalValue(n1);
    DecimalValue(n2);
    assert |u1| == |u2|;
    assert u1 == r[..|u1|] && u2 == r[..|u2|];
  }
}
