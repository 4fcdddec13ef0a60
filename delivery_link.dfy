/** The delivery-link check of the Shop checkout:
      /^(https?:\/\/)?(www\.)?(google\.[a-z]+\/maps|maps\.google\.[a-z]+|maps\.app\.goo\.gl|goo\.gl\/maps)/i
    The pattern is anchored at the start only, so any suffix is allowed.
    Under the `i` flag (without the `u` flag) only ASCII letters fold, so the
    pattern is matched case-sensitively against the ASCII-lowered link. */
module DeliveryLink {
  import opened Text

  predicate IsLowerLetter(c: char)
  {
    'a' <= c <= 'z'
  }

  predicate AllLowerLetters(s: string)
  {
    forall i :: 0 <= i < |s| ==> IsLowerLetter(s[i])
  }

  // ---------------------------------------------------------------------
  // The pattern's language, read off the regular expression

  /** `(https?:\/\/)?` */
  predicate IsScheme(x: string)
  {
    x == "" || x == "http://" || x == "https://"
  }

  /** `(www\.)?` */
  predicate IsWww(x: string)
  {
    x == "" || x == "www."
  }

  /** `google\.[a-z]+\/maps|maps\.google\.[a-z]+|maps\.app\.goo\.gl|goo\.gl\/maps` */
  predicate IsHost(h: string)
  {
    (|h| >= 13 && h[..7] == "google." && h[|h| - 5..] == "/maps" && AllLowerLetters(h[7..|h| - 5]))
    || (|h| >= 13 && h[..12] == "maps.google." && AllLowerLetters(h[12..]))
    || h == "maps.app.goo.gl"
    || h == "goo.gl/maps"
  }

  /** `t[..k]` is a scheme (up to `i`), then a `www.` part (up to `j`), then a host. */
  predicate SplitsAt(t: string, i: int, j: int, k: int)
  {
    0 <= i <= j <= k <= |t| && IsScheme(t[..i]) && IsWww(t[i..j]) && IsHost(t[j..k])
  }

  /** `regex.test(s)`: some prefix of the lowered link splits into an optional
      scheme, an optional `www.` and one of the host forms. */
  ghost predicate RegexMatches(s: string)
  {
    exists i, j, k :: SplitsAt(Lower(s), i, j, k)
  }

  // ---------------------------------------------------------------------
  // The same test, deciding each optional part from the text itself

  function StripScheme(t: string): string
  {
    if "https://" <= t then t[8..] else if "http://" <= t then t[7..] else t
  }

  function StripWww(t: string): string
  {
    if "www." <= t then t[4..] else t
  }

  /** The number of leading `[a-z]` characters. */
  function LetterRun(w: string): (n: nat)
    ensures n <= |w|
    ensures AllLowerLetters(w[..n])
    ensures n < |w| ==> !IsLowerLetter(w[n])
  {
    if w != [] && IsLowerLetter(w[0]) then 1 + LetterRun(w[1..]) else 0
  }

  /** One of the host forms starts `u`. */
  predicate StartsWithHost(u: string)
  {
    ("google." <= u && 0 < LetterRun(u[7..]) && "/maps" <= u[7 + LetterRun(u[7..])..])
    || ("maps.google." <= u && |u| > 12 && IsLowerLetter(u[12]))
    || "maps.app.goo.gl" <= u
    || "goo.gl/maps" <= u
  }

  /** `deliveryLocation && googleMapsRegex.test(deliveryLocation)` */
  predicate IsValidDeliveryLink(location: string)
  {
    location != "" && StartsWithHost(StripWww(StripScheme(Lower(location))))
  }

  // ---------------------------------------------------------------------
  // The two agree

  /** A run of letters followed by a non-letter is exactly the letter run. */
  lemma LetterRunExact(w: string, n: nat)
    requires n < |w| && AllLowerLetters(w[..n]) && !IsLowerLetter(w[n])
    ensures LetterRun(w) == n
  {
  }

  /** The `google\.[a-z]+\/maps` form at the start of `u`. */
  lemma GoogleHostPrefix(u: string, k: nat)
    requires 13 <= k <= |u| && u[..7] == "google." && u[k - 5..k] == "/maps" && AllLowerLetters(u[7..k - 5])
    ensures StartsWithHost(u)
  {
    var w := u[7..];
    assert w[..k - 12] == u[7..k - 5];
    assert w[k - 12] == u[k - 5..k][0];
    LetterRunExact(w, k - 12);
    assert u[7 + (k - 12)..][..5] == u[k - 5..k];
  }

  /** The `maps\.google\.[a-z]+` form at the start of `u`. */
  lemma MapsGoogleHostPrefix(u: string, k: nat)
    requires 13 <= k <= |u| && u[..12] == "maps.google." && AllLowerLetters(u[12..k])
    ensures StartsWithHost(u)
  {
    assert u[12] == u[12..k][0];
  }

  lemma HostIsPrefix(u: string, k: nat)
    requires k <= |u| && IsHost(u[..k])
    ensures StartsWithHost(u)
  {
    var h := u[..k];
    if |h| >= 13 && h[..7] == "google." && h[|h| - 5..] == "/maps" && AllLowerLetters(h[7..|h| - 5]) {
      assert h[..7] == u[..7] && h[|h| - 5..] == u[k - 5..k] && h[7..|h| - 5] == u[7..k - 5];
      GoogleHostPrefix(u, k);
    } else if |h| >= 13 && h[..12] == "maps.google." && AllLowerLetters(h[12..]) {
      assert h[..12] == u[..12] && h[12..] == u[12..k];
      MapsGoogleHostPrefix(u, k);
    }
  }

  /** The host `google.` + letters + `/maps` that StartsWithHost found. */
  lemma GoogleHostOf(u: string, n: nat)
    requires "google." <= u && n == LetterRun(u[7..]) && 0 < n && "/maps" <= u[7 + n..]
    ensures 12 + n <= |u| && IsHost(u[..12 + n])
  {
    var k := 12 + n;
    var h := u[..k];
    assert h[..7] == u[..7];
    assert h[k - 5..] == u[7 + n..][..5];
    assert h[7..k - 5] == u[7..][..n];
  }

  lemma PrefixHost(u: string) returns (k: nat)
    requires StartsWithHost(u)
    ensures k <= |u| && IsHost(u[..k])
  {
    if "google." <= u && 0 < LetterRun(u[7..]) && "/maps" <= u[7 + LetterRun(u[7..])..] {
      GoogleHostOf(u, LetterRun(u[7..]));
      k := 12 + LetterRun(u[7..]);
    } else if "maps.google." <= u && |u| > 12 && IsLowerLetter(u[12]) {
      k := 13;
      assert u[..13][..12] == u[..12] && u[..13][12..] == [u[12]];
    } else if "maps.app.goo.gl" <= u {
      k := 15;
    } else {
      k := 11;
    }
  }

  /** Every host form starts with `g` or `m`. */
  lemma HostStart(h: string)
    requires IsHost(h)
    ensures |h| > 0 && (h[0] == 'g' || h[0] == 'm')
  {
    if |h| >= 13 && h[..7] == "google." {
      assert h[0] == h[..7][0];
    } else if |h| >= 13 && h[..12] == "maps.google." {
      assert h[0] == h[..12][0];
    }
  }

  /** StripScheme removes exactly a scheme the pattern would match. */
  lemma SchemeSplit(t: string) returns (i: nat)
    ensures i <= |t| && IsScheme(t[..i]) && StripScheme(t) == t[i..]
  {
    if "https://" <= t {
      i := 8;
    } else if "http://" <= t {
      i := 7;
    } else {
      i := 0;
    }
  }

  /** StripWww removes exactly a `www.` part the pattern would match. */
  lemma WwwSplit(u: string) returns (m: nat)
    ensures m <= |u| && IsWww(u[..m]) && StripWww(u) == u[m..]
  {
    if "www." <= u {
      m := 4;
    } else {
      m := 0;
    }
  }

  /** Three parts found one after the other form a split of `t`. */
  lemma SplitsCompose(t: string, i: nat, m: nat, k: nat)
    requires i + m + k <= |t|
    requires IsScheme(t[..i]) && IsWww(t[i..][..m]) && IsHost(t[i..][m..][..k])
    ensures SplitsAt(t, i, i + m, i + m + k)
  {
    assert t[i..][..m] == t[i..i + m];
    assert t[i..][m..][..k] == t[i + m..i + m + k];
  }

  /** When the stripped text starts with a host, the text splits as the pattern needs. */
  lemma StrippedSplits(t: string)
    requires StartsWithHost(StripWww(StripScheme(t)))
    ensures exists i, j, k :: SplitsAt(t, i, j, k)
  {
    var i := SchemeSplit(t);
    var m := WwwSplit(t[i..]);
    var k := PrefixHost(t[i..][m..]);
    SplitsCompose(t, i, m, k);
  }

  lemma ValidImpliesRegex(s: string)
    requires IsValidDeliveryLink(s)
    ensures RegexMatches(s)
  {
    StrippedSplits(Lower(s));
  }

  /** When a scheme, an optional `www.` and a host follow each other, the
      scheme is the one StripScheme removes: neither `www.` nor a host starts
      with `h`. */
  lemma SchemeDetermined(t: string, i: nat, j: nat, k: nat)
    requires i <= j <= k <= |t| && IsScheme(t[..i]) && IsWww(t[i..j]) && IsHost(t[j..k])
    ensures StripScheme(t) == t[i..]
  {
    HostStart(t[j..k]);
    assert t[j] == t[j..k][0];
    if i == 0 {
      if j > 0 {
        assert t[0] == t[i..j][0] == 'w';
      }
      assert t[0] != 'h';
    } else if t[..i] == "http://" {
      assert t[4] == ':';
    }
  }

  /** After the scheme, the `www.` part is the one StripWww removes: a host
      does not start with `w`. */
  lemma WwwDetermined(t: string, i: nat, j: nat, k: nat)
    requires i <= j <= k <= |t| && IsWww(t[i..j]) && IsHost(t[j..k])
    ensures StripWww(t[i..]) == t[j..]
  {
    HostStart(t[j..k]);
    assert t[j] == t[j..k][0];
    if j == i + 4 {
      assert t[i..][..4] == t[i..j];
    }
  }

  /** A host found at `j` means the text from `j` starts with a host. */
  lemma HostAt(t: string, j: nat, k: nat)
    requires j <= k <= |t| && IsHost(t[j..k])
    ensures StartsWithHost(t[j..])
  {
    assert t[j..][..k - j] == t[j..k];
    HostIsPrefix(t[j..], k - j);
  }

  lemma SplitImpliesHost(t: string, i: int, j: int, k: int)
    requires SplitsAt(t, i, j, k)
    ensures StartsWithHost(StripWww(StripScheme(t)))
  {
    SchemeDetermined(t, i, j, k);
    WwwDetermined(t, i, j, k);
    HostAt(t, j, k);
  }

  lemma RegexImpliesValid(s: string)
    requires RegexMatches(s)
    ensures IsValidDeliveryLink(s)
  {
    var i, j, k :| SplitsAt(Lower(s), i, j, k);
    SplitImpliesHost(Lower(s), i, j, k);
    HostStart(Lower(s)[j..k]);
  }

  /** The checkout accepts a link exactly when the regular expression matches it. */
  lemma ValidIffRegex(s: string)
    ensures IsValidDeliveryLink(s) <==> RegexMatches(s)
  {
    if IsValidDeliveryLink(s) {
      ValidImpliesRegex(s);
    }
    if RegexMatches(s) {
      RegexImpliesValid(s);
    }
  }

  // ---------------------------------------------------------------------
  // Examples

  /** The three leading parts of a concatenation, by position. */
  lemma PartsOfConcat(a: string, b: string, c: string, d: string)
    ensures var t := a + b + c + d;
      t[..|a|] == a && t[|a|..|a| + |b|] == b && t[|a| + |b|..|a| + |b| + |c|] == c
  {
    var t := a + b + c + d;
    assert t == a + (b + (c + d));
    assert t[|a|..] == b + (c + d);
    assert t[|a| + |b|..] == c + d;
  }

  /** A link made of a scheme, a `www.` part and a host, in any case,
      followed by anything, is accepted. */
  lemma AcceptedParts(scheme: string, www: string, host: string, rest: string)
    requires IsScheme(Lower(scheme)) && IsWww(Lower(www)) && IsHost(Lower(host))
    ensures IsValidDeliveryLink(scheme + www + host + rest)
  {
    var s := scheme + www + host + rest;
    LowerAppend(scheme + www + host, rest);
    LowerAppend(scheme + www, host);
    LowerAppend(scheme, www);
    PartsOfConcat(Lower(scheme), Lower(www), Lower(host), Lower(rest));
    assert SplitsAt(Lower(s), |scheme|, |scheme| + |www|, |scheme| + |www| + |host|);
    RegexImpliesValid(s);
  }

  lemma ShortLinkSplit()
    ensures "https://maps.app.goo.gl/AbC123" == "https://" + "" + "maps.app.goo.gl" + "/AbC123"
  {
  }

  lemma ShortLinkLowers()
    ensures Lower("https://") == "https://" && Lower("") == ""
    ensures Lower("maps.app.goo.gl") == "maps.app.goo.gl"
  {
  }

  /** The short-link form, with any path after it. */
  lemma ShortLinkAccepted()
    ensures IsValidDeliveryLink("https://maps.app.goo.gl/AbC123")
  {
    ShortLinkSplit();
    ShortLinkLowers();
    AcceptedParts("https://", "", "maps.app.goo.gl", "/AbC123");
  }

  lemma MixedCaseSplit()
    ensures "www.Google.COM/maps" == "" + "www." + "Google.COM/maps" + ""
  {
  }

  lemma MixedCaseLowers()
    ensures Lower("") == "" && Lower("www.") == "www."
    ensures Lower("Google.COM/maps") == "google.com/maps"
  {
  }

  lemma GoogleComMapsIsHost()
    ensures IsHost("google.com/maps")
  {
    var h := "google.com/maps";
    assert h[..7] == "google." && h[10..] == "/maps" && h[7..10] == "com";
  }

  /** Without a scheme, with `www.` and in mixed case. */
  lemma MixedCaseLinkAccepted()
    ensures IsValidDeliveryLink("www.Google.COM/maps")
  {
    MixedCaseSplit();
    MixedCaseLowers();
    GoogleComMapsIsHost();
    AcceptedParts("", "www.", "Google.COM/maps", "");
  }

  /** A text whose first character is not `w` keeps it: no `www.` part. */
  lemma NoWww(u: string)
    requires u != [] && u[0] != 'w'
    ensures StripWww(u) == u
  {
    assert |u| >= 4 ==> u[..4][0] == u[0];
  }

  /** A text whose first character starts no host form has no host. */
  lemma NoHost(u: string)
    requires u != [] && u[0] != 'g' && u[0] != 'm'
    ensures !StartsWithHost(u)
  {
    if StartsWithHost(u) {
      var k := PrefixHost(u);
      HostStart(u[..k]);
      assert false;
    }
  }

  lemma RefusedLowers()
    ensures Lower("https://example.com/maps") == "https://example.com/maps"
  {
  }

  lemma RefusedScheme()
    ensures StripScheme("https://example.com/maps") == "example.com/maps"
  {
    var s := "https://example.com/maps";
    assert s[..8] == "https://";
  }

  /** A foreign host and the empty string are refused. */
  lemma RefusedExamples()
    ensures !IsValidDeliveryLink("https://example.com/maps")
    ensures !IsValidDeliveryLink("")
  {
    RefusedLowers();
    RefusedScheme();
    NoWww("example.com/maps");
    NoHost("example.com/maps");
  }
}
