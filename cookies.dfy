/**
  The per-account cookie store: the file name derived from the username
  (ql-docker-plus.py:136-139), the filter that keeps only cookies of the two
  trusted domains (ql-docker-plus.py:761-769), and loading and saving
  (ql-docker-plus.py:173-197). The file system is a map from path to the cookie
  list stored there.
*/
module Cookies {
  import opened Wrappers
  import opened Text

  /** A browser cookie; `domain` is None when the cookie has no `domain` key. */
  datatype Cookie = Cookie(name: string, value: string, domain: Option<string>, attributes: seq<(string, string)>)

  /** Path to the stored cookie list, for every file that exists and parses. */
  type FileSystem = map<string, seq<Cookie>>

  /** The directory the script keeps its files in (`SCRIPT_DIR`). */
  const ScriptDir: string := "/ql/data/scripts"

  // ---------------------------------------------------------------------------
  // File naming

  /** The username with every `@` and `.` replaced by `_`. */
  function SanitizeUsername(username: string): (r: string)
    ensures |r| == |username|
    ensures forall i :: 0 <= i < |r| ==> r[i] == FoldChar(username[i])
  {
    ReplaceChar(ReplaceChar(username, '@', '_'), '.', '_')
  }

  /** The character class the file name keeps: `@` and `.` become `_`. */
  function FoldChar(c: char): char {
    if c == '@' || c == '.' then '_' else c
  }

  /** `SCRIPT_DIR/cookies_<u>.json` with `<u>` the sanitized username. */
  function CookieFile(username: string): string {
    ScriptDir + "/cookies_" + SanitizeUsername(username) + ".json"
  }

  /** The sanitized part of the file name has no `@` and no `.`. */
  lemma {:induction false} SanitizedHasNoSeparators(username: string)
    ensures NoChar(SanitizeUsername(username), '@') && NoChar(SanitizeUsername(username), '.')
  {
  }

  /**
    Two usernames share a cookie file exactly when they have the same length and
    agree at every position once `@`, `.` and `_` are identified.
  */
  lemma {:induction false} SameCookieFileIff(u1: string, u2: string)
    ensures CookieFile(u1) == CookieFile(u2) <==>
      |u1| == |u2| && forall i :: 0 <= i < |u1| ==> FoldChar(u1[i]) == FoldChar(u2[i])
  {
    var prefix := ScriptDir + "/cookies_";
    var s1, s2 := SanitizeUsername(u1), SanitizeUsername(u2);
    assert CookieFile(u1) == prefix + s1 + ".json";
    assert CookieFile(u2) == prefix + s2 + ".json";
    if CookieFile(u1) == CookieFile(u2) {
      assert |s1| == |s2|;
      assert s1 == CookieFile(u1)[|prefix|..|prefix| + |s1|];
      assert s2 == CookieFile(u2)[|prefix|..|prefix| + |s2|];
      forall i | 0 <= i < |u1| ensures FoldChar(u1[i]) == FoldChar(u2[i]) {
        assert s1[i] == s2[i];
      }
    }
    if |u1| == |u2| && forall i :: 0 <= i < |u1| ==> FoldChar(u1[i]) == FoldChar(u2[i]) {
      assert s1 == s2;
    }
  }

  /** The naming is not injective: two different usernames can share one cookie file. */
  lemma SharedCookieFileExample()
    ensures "a.b@x.com" != "a_b@x.com" && CookieFile("a.b@x.com") == CookieFile("a_b@x.com")
  {
    SameCookieFileIff("a.b@x.com", "a_b@x.com");
  }

  // ---------------------------------------------------------------------------
  // Trusted-domain filter

  /** `c.get('domain', '')`. */
  function DomainOf(c: Cookie): string {
    c.domain.GetOr("")
  }

  /** The cookie's domain mentions `github.com` or `claw.cloud`. */
  predicate Trusted(c: Cookie) {
    Contains(DomainOf(c), "github.com") || Contains(DomainOf(c), "claw.cloud")
  }

  /** The comprehension that keeps the cookies of the trusted domains, in browser order. */
  function FilterTrusted(cookies: seq<Cookie>): seq<Cookie>
  {
    if cookies == [] then []
    else (if Trusted(cookies[0]) then [cookies[0]] else []) + FilterTrusted(cookies[1..])
  }

  /** Every kept cookie is trusted and was in the browser's list. */
  lemma {:induction false} FilterTrustedSound(cookies: seq<Cookie>)
    ensures forall c :: c in FilterTrusted(cookies) ==> Trusted(c) && c in cookies
    decreases |cookies|
  {
    if cookies != [] {
      FilterTrustedSound(cookies[1..]);
    }
  }

  /** Each trusted cookie is kept as often as it occurs; no other cookie is kept. */
  lemma {:induction false} FilterTrustedCount(cookies: seq<Cookie>, c: Cookie)
    ensures multiset(FilterTrusted(cookies))[c] == if Trusted(c) then multiset(cookies)[c] else 0
    decreases |cookies|
  {
    if cookies != [] {
      FilterTrustedCount(cookies[1..], c);
      assert cookies == [cookies[0]] + cookies[1..];
    }
  }

  /** Filtering a concatenation filters each part in place, so relative order is kept. */
  lemma {:induction false} FilterTrustedAppend(a: seq<Cookie>, b: seq<Cookie>)
    ensures FilterTrusted(a + b) == FilterTrusted(a) + FilterTrusted(b)
    decreases |a|
  {
    if a != [] {
      FilterTrustedAppend(a[1..], b);
      assert (a + b)[1..] == a[1..] + b;
      assert (a + b)[0] == a[0];
    } else {
      assert a + b == b;
    }
  }

  /** Filtering twice keeps what filtering once kept. */
  lemma {:induction false} FilterTrustedIdempotent(cookies: seq<Cookie>)
    ensures FilterTrusted(FilterTrusted(cookies)) == FilterTrusted(cookies)
    decreases |cookies|
  {
    if cookies != [] {
      FilterTrustedIdempotent(cookies[1..]);
      var head := if Trusted(cookies[0]) then [cookies[0]] else [];
      FilterTrustedAppend(head, FilterTrusted(cookies[1..]));
      if Trusted(cookies[0]) {
        assert FilterTrusted(head) == head by {
          assert head[1..] == [];
        }
      }
    }
  }

  // ---------------------------------------------------------------------------
  // Loading and saving

  /**
    `load_cookies`: the stored list when the file exists and the list is not
    empty; None otherwise.
  */
  function LoadCookies(files: FileSystem, path: string): (r: Option<seq<Cookie>>)
    ensures r.Some? ==> path in files && r.value == files[path] && r.value != []
    ensures r.None? ==> path !in files || files[path] == []
  {
    if path in files && files[path] != [] then Some(files[path]) else None
  }

  /** The file update of `save_cookies`: overwrite the file; an empty list writes nothing. */
  function StoreCookies(files: FileSystem, path: string, cookies: seq<Cookie>): (r: FileSystem)
    ensures forall q :: q != path ==> (q in r <==> q in files) && (q in files ==> r[q] == files[q])
    ensures cookies == [] ==> r == files
  {
    if cookies == [] then files else files[path := cookies]
  }

  /** Loading what was just saved gives back the saved list, unchanged and whole. */
  lemma {:induction false} StoreLoadRoundTrip(files: FileSystem, path: string, cookies: seq<Cookie>)
    requires cookies != []
    ensures LoadCookies(StoreCookies(files, path, cookies), path) == Some(cookies)
  {
  }

  /** Saving the same list twice leaves the same files as saving it once. */
  lemma {:induction false} StoreIdempotent(files: FileSystem, path: string, cookies: seq<Cookie>)
    ensures StoreCookies(StoreCookies(files, path, cookies), path, cookies) == StoreCookies(files, path, cookies)
  {
    if cookies != [] {
      assert StoreCookies(files, path, cookies)[path := cookies] == files[path := cookies];
    }
  }

  /** Saving for one account never changes what another path loads. */
  lemma {:induction false} StoreOtherPathsUnchanged(files: FileSystem, path: string, other: string, cookies: seq<Cookie>)
    requires other != path
    ensures LoadCookies(StoreCookies(files, path, cookies), other) == LoadCookies(files, other)
  {
  }

  /**
    What the script persists from the browser: after the filtered save, loading
    the account's file gives exactly the trusted cookies when there are any, and
    whatever was stored before when there are none.
  */
  lemma {:induction false} PersistedCookiesAreTrusted(files: FileSystem, path: string, browser: seq<Cookie>)
    ensures var after := LoadCookies(StoreCookies(files, path, FilterTrusted(browser)), path);
      && (FilterTrusted(browser) != [] ==> after == Some(FilterTrusted(browser)))
      && (FilterTrusted(browser) == [] ==> after == LoadCookies(files, path))
      && (after.Some? && FilterTrusted(browser) != [] ==> forall c :: c in after.value ==> Trusted(c) && c in browser)
  {
    FilterTrustedSound(browser);
  }
}
