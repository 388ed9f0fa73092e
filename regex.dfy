/**
 * The two Ruby regular expressions the pre-scan gate of WPScan relies on,
 * with Ruby's own meaning of their anchors and flags:
 *
 *  - `/^y/i`, applied to the operator's answer to the update prompt
 *    (app/controllers/core.rb:40);
 *  - `%r{/wp-admin/install.php$}i`, applied to the path of the homepage URL
 *    (app/controllers/core.rb:67).
 *
 * In Ruby `^` is the start of a LINE (start of the string or just after a
 * newline), `$` the end of a LINE (end of the string or just before a
 * newline), an unescaped `.` is any character except a newline, and `/i`
 * compares letters without regard to case.
 *
 * Each pattern is given twice: as a ghost predicate that says what a match
 * is (an index at which the pattern matches), and as a recursive scan that
 * the gate evaluates; the scan's contract proves the two agree.
 */
module RubyRegex {

  /** Ruby's `^`: position `i` starts a line of `s`. */
  predicate LineStart(s: string, i: int)
    requires 0 <= i <= |s|
  {
    i == 0 || s[i - 1] == '\n'
  }

  /** Ruby's `$`: position `i` ends a line of `s`. */
  predicate LineEnd(s: string, i: int)
    requires 0 <= i <= |s|
  {
    i == |s| || s[i] == '\n'
  }

  /** ASCII case folding, as `/i` applies it to the letters of both patterns. */
  function Fold(c: char): (f: char)
    ensures 'A' <= c <= 'Z' ==> 'a' <= f <= 'z'
    ensures 'a' <= f <= 'z' ==> c == f || c == f - 'a' + 'A'
    ensures !('A' <= c <= 'Z') ==> f == c
  {
    if 'A' <= c <= 'Z' then c - 'A' + 'a' else c
  }

  // ---------------------------------------------------------------------
  // `/^y/i`

  /** Character `s[i]` is a `y` of either case at the start of a line. */
  predicate YesAt(s: string, i: int)
    requires 0 <= i < |s|
  {
    LineStart(s, i) && Fold(s[i]) == 'y'
  }

  /** What it means for `/^y/i` to match `s`. */
  ghost predicate YesMatches(s: string)
  {
    exists i :: 0 <= i < |s| && YesAt(s, i)
  }

  /** Scan for a match of `/^y/i` at position `from` or later. */
  function YesFrom(s: string, from: nat): (b: bool)
    requires from <= |s|
    ensures b <==> exists i :: from <= i < |s| && YesAt(s, i)
    decreases |s| - from
  {
    if from == |s| then false
    else YesAt(s, from) || YesFrom(s, from + 1)
  }

  /** `s =~ /^y/i` taken as a boolean. */
  function MatchesYes(s: string): (b: bool)
    ensures b <==> YesMatches(s)
  {
    YesFrom(s, 0)
  }

  /**
   * On a single line (what a line reader hands back) `/^y/i` matches
   * exactly when the first character is `y` or `Y`: nothing is trimmed.
   */
  lemma {:induction false} YesOnOneLine(s: string)
    requires '\n' !in s
    ensures MatchesYes(s) <==> |s| > 0 && (s[0] == 'y' || s[0] == 'Y')
  {
    if MatchesYes(s) {
      var i :| 0 <= i < |s| && YesAt(s, i);
      assert forall j :: 0 <= j < |s| ==> s[j] != '\n';
    }
  }

  // ---------------------------------------------------------------------
  // `%r{/wp-admin/install.php$}i`

  /** The pattern's characters; the `.` at index 17 is not escaped. */
  const INSTALL_PATTERN: string := "/wp-admin/install.php"

  /** One pattern character against one subject character. */
  predicate CharMatches(p: char, c: char)
  {
    if p == '.' then c != '\n' else Fold(c) == Fold(p)
  }

  /** The pattern matches `s` starting at index `i`. */
  predicate InstallAt(s: string, i: int)
    requires 0 <= i && i + |INSTALL_PATTERN| <= |s|
  {
    forall k :: 0 <= k < |INSTALL_PATTERN| ==> CharMatches(INSTALL_PATTERN[k], s[i + k])
  }

  /** A match that the `$` anchor accepts: it ends where a line ends. */
  predicate InstallEndsLineAt(s: string, i: int)
    requires 0 <= i && i + |INSTALL_PATTERN| <= |s|
  {
    InstallAt(s, i) && LineEnd(s, i + |INSTALL_PATTERN|)
  }

  /** What it means for `%r{/wp-admin/install.php$}i` to match `s`. */
  ghost predicate InstallMatches(s: string)
  {
    exists i :: 0 <= i && i + |INSTALL_PATTERN| <= |s| && InstallEndsLineAt(s, i)
  }

  /** Scan for an anchored match at position `from` or later. */
  function InstallFrom(s: string, from: nat): (b: bool)
    requires from + |INSTALL_PATTERN| <= |s| + 1
    ensures b <==> exists i :: from <= i && i + |INSTALL_PATTERN| <= |s| && InstallEndsLineAt(s, i)
    decreases |s| - from
  {
    if from + |INSTALL_PATTERN| > |s| then false
    else InstallEndsLineAt(s, from) || InstallFrom(s, from + 1)
  }

  /** `s =~ %r{/wp-admin/install.php$}i` taken as a boolean. */
  function MatchesInstall(s: string): (b: bool)
    ensures b <==> InstallMatches(s)
  {
    |s| >= |INSTALL_PATTERN| && InstallFrom(s, 0)
  }

  /**
   * On a single line the pattern is a suffix test: the last 21 characters
   * must match it (letters in either case, any character for the `.`).
   */
  lemma {:induction false} InstallOnOneLine(s: string)
    requires '\n' !in s
    ensures MatchesInstall(s) <==>
              |s| >= |INSTALL_PATTERN| && InstallAt(s, |s| - |INSTALL_PATTERN|)
  {
    if MatchesInstall(s) {
      var i :| 0 <= i && i + |INSTALL_PATTERN| <= |s| && InstallEndsLineAt(s, i);
      assert forall j :: 0 <= j < |s| ==> s[j] != '\n';
    } else if |s| >= |INSTALL_PATTERN| && InstallAt(s, |s| - |INSTALL_PATTERN|) {
      assert InstallEndsLineAt(s, |s| - |INSTALL_PATTERN|);
    }
  }

  /**
   * Every path that ends in `/wp-admin/install.php`, whatever the case of
   * its letters, matches.
   */
  lemma {:induction false} SuffixMatches(prefix: string, tail: string)
    requires |tail| == |INSTALL_PATTERN|
    requires forall k :: 0 <= k < |tail| ==> Fold(tail[k]) == Fold(INSTALL_PATTERN[k])
    ensures MatchesInstall(prefix + tail)
  {
    var s := prefix + tail;
    forall k | 0 <= k < |INSTALL_PATTERN|
      ensures CharMatches(INSTALL_PATTERN[k], s[|prefix| + k])
    {
      assert s[|prefix| + k] == tail[k];
      if INSTALL_PATTERN[k] == '.' {
        assert Fold(tail[k]) == '.';
      }
    }
    assert InstallEndsLineAt(s, |prefix|);
  }

  /**
   * Because the `.` is not escaped, the match is looser than "ends with
   * install.php": any character other than a newline may stand for it.
   */
  lemma UnescapedDot()
    ensures MatchesInstall("/wp-admin/install_php")
  {
    assert InstallEndsLineAt("/wp-admin/install_php", 0);
  }

  /** Letters match in either case. */
  lemma CaseInsensitive()
    ensures MatchesInstall("/WP-Admin/Install.PHP")
  {
    SuffixMatches("", "/WP-Admin/Install.PHP");
  }

  /** `$` accepts a match that a newline follows. */
  lemma LineAnchor()
    ensures MatchesInstall("/wp-admin/install.php\nnext")
  {
    assert InstallEndsLineAt("/wp-admin/install.php\nnext", 0);
  }

  /** Anything after the file name on the same line defeats the match. */
  lemma TrailingSlash()
    ensures !MatchesInstall("/wp-admin/install.php/")
  {
    var s := "/wp-admin/install.php/";
    assert !LineEnd(s, |INSTALL_PATTERN|);
    assert !CharMatches(INSTALL_PATTERN[0], s[1]);
    assert !InstallFrom(s, 2);
  }
}
