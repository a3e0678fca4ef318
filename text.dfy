/** String helpers the downloader relies on: Python's `str.rstrip()`,
    `str.endswith`, `os.path.join` on POSIX and `str()` of an integer. */
module Text {

  /** The characters Python's `str.isspace` accepts within ASCII. */
  predicate IsSpace(c: char) {
    c == ' ' || (9 <= c as int <= 13) || (28 <= c as int <= 31)
  }

  /** `s.rstrip()`: drop the trailing whitespace. */
  function RStrip(s: string): (r: string)
    ensures |r| <= |s| && r == s[..|r|]
    ensures r == [] || !IsSpace(r[|r| - 1])
    ensures forall i :: |r| <= i < |s| ==> IsSpace(s[i])
  {
    if s == [] || !IsSpace(s[|s| - 1]) then s else RStrip(s[..|s| - 1])
  }

  /** Whitespace appended to a string does not survive `rstrip`. */
  lemma {:induction false} RStripIgnoresTrailingSpace(s: string, ws: string)
    requires forall i :: 0 <= i < |ws| ==> IsSpace(ws[i])
    ensures RStrip(s + ws) == RStrip(s)
  {
    if ws != [] {
      assert (s + ws)[..|s + ws| - 1] == s + ws[..|ws| - 1];
      RStripIgnoresTrailingSpace(s, ws[..|ws| - 1]);
    } else {
      assert s + ws == s;
    }
  }

  /** `s.endswith(suffix)`. */
  predicate EndsWith(s: string, suffix: string) {
    |suffix| <= |s| && s[|s| - |suffix|..] == suffix
  }

  /** `s.endswith(suffix)` holds iff `s` is some string followed by
      `suffix`. */
  lemma EndsWithIffSplit(s: string, suffix: string)
    ensures EndsWith(s, suffix) <==> exists u :: u + suffix == s
  {
    if EndsWith(s, suffix) {
      var u := s[..|s| - |suffix|];
      assert u + suffix == s;
    }
    if exists u :: u + suffix == s {
      var u :| u + suffix == s;
      assert s[|s| - |suffix|..] == suffix;
    }
  }

  /** Two-component `os.path.join` on POSIX: an absolute second component
      replaces the first; otherwise a separator is inserted unless the first
      is empty or already ends in one. */
  function Join(a: string, b: string): string {
    if b != [] && b[0] == '/' then b
    else if a == [] || a[|a| - 1] == '/' then a + b
    else a + "/" + b
  }

  /** The joined path ends with the second component; an absolute second
      component is the whole result; otherwise what precedes it is the
      first component, followed by a separator unless it is empty or
      already ends in one. */
  lemma JoinShape(a: string, b: string)
    ensures var r := Join(a, b);
      EndsWith(r, b)
      && (b != [] && b[0] == '/' ==> r == b)
      && (b == [] || b[0] != '/' ==>
            r[..|r| - |b|] == (if a == [] || a[|a| - 1] == '/' then a else a + "/"))
  {
    var r := Join(a, b);
    if !(b != [] && b[0] == '/') {
      if a == [] || a[|a| - 1] == '/' {
        assert r == a + b;
        assert r[..|a|] == a;
      } else {
        assert r == (a + "/") + b;
        assert r[..|a| + 1] == a + "/";
      }
    }
  }

  function DigitChar(d: nat): char
    requires d < 10
  {
    "0123456789"[d]
  }

  function NatText(n: nat): string
    decreases n
  {
    if n < 10 then [DigitChar(n)] else NatText(n / 10) + [DigitChar(n % 10)]
  }

  /** `str(i)` for a Python int. */
  function IntText(i: int): string {
    if i < 0 then "-" + NatText(-i) else NatText(i)
  }
}
