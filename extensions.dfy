/**
 * `Extensions.MapPath`: a path that starts with "~/" is resolved against the application's base
 * directory; any other path is used as it is.
 */
module Extensions {
  /** The application-relative prefix. */
  const Home: string := "~/"

  /** String.StartsWith("~/"). */
  predicate StartsWithHome(s: string) {
    |s| >= 2 && s[..2] == Home
  }

  /** Whether "~/" occurs anywhere in `s`. */
  predicate ContainsHome(s: string) {
    exists i | 0 <= i < |s| - 1 :: s[i] == '~' && s[i + 1] == '/'
  }

  /**
   * String.Replace("~/", ""): one scan from the left that drops every occurrence it meets and
   * resumes after it, so the pieces left behind may join into a new "~/".
   */
  function StripHome(s: string): string
    decreases |s|
  {
    if |s| < 2 then s
    else if s[..2] == Home then StripHome(s[2..])
    else [s[0]] + StripHome(s[1..])
  }

  /** The number of occurrences that scan drops. */
  function HomeCount(s: string): nat
    decreases |s|
  {
    if |s| < 2 then 0
    else if s[..2] == Home then 1 + HomeCount(s[2..])
    else HomeCount(s[1..])
  }

  /**
   * MapPath: a path without the prefix is returned unchanged; otherwise every "~/" is removed and
   * the rest combined with the base directory. `combine` stands for Path.Combine.
   */
  function MapPath(baseDirectory: string, path: string, combine: (string, string) -> string): string {
    if !StartsWithHome(path) then path else combine(baseDirectory, StripHome(path))
  }

  /**
   * A path without the prefix comes back unchanged; one with it is combined with the base
   * directory after at least its leading "~/" and every later one the scan meets are dropped.
   */
  lemma MapPathCases(baseDirectory: string, path: string, combine: (string, string) -> string)
    ensures !StartsWithHome(path) ==> MapPath(baseDirectory, path, combine) == path
    ensures StartsWithHome(path) ==>
      var stripped := StripHome(path);
      MapPath(baseDirectory, path, combine) == combine(baseDirectory, stripped) &&
      stripped == StripHome(path[2..]) &&
      HomeCount(path) >= 1 && |stripped| == |path| - 2 * HomeCount(path)
  {
    StripHomeLength(path);
  }

  /** The empty path and a lone "~" are not application-relative. */
  lemma ShortPathsUnchanged(baseDirectory: string, combine: (string, string) -> string)
    ensures MapPath(baseDirectory, "", combine) == ""
    ensures MapPath(baseDirectory, "~", combine) == "~"
    ensures MapPath(baseDirectory, "/~/a", combine) == "/~/a"
  {
    assert !StartsWithHome("/~/a") by {
      assert "/~/a"[..2] == "/~";
    }
  }

  /** Each occurrence removed shortens the path by two characters. */
  lemma {:induction false} StripHomeLength(s: string)
    ensures |StripHome(s)| == |s| - 2 * HomeCount(s)
    decreases |s|
  {
    if |s| >= 2 {
      if s[..2] == Home {
        StripHomeLength(s[2..]);
      } else {
        StripHomeLength(s[1..]);
      }
    }
  }

  /** The scan drops nothing exactly when there is nothing to drop. */
  lemma {:induction false} HomeCountZero(s: string)
    ensures HomeCount(s) == 0 <==> !ContainsHome(s)
    decreases |s|
  {
    if |s| >= 2 {
      if s[..2] == Home {
        assert s[0] == '~' && s[1] == '/';
      } else {
        HomeCountZero(s[1..]);
        assert s[..2] == [s[0], s[1]];
        if ContainsHome(s) {
          var i :| 0 <= i < |s| - 1 && s[i] == '~' && s[i + 1] == '/';
          assert s[1..][i - 1] == '~' && s[1..][i] == '/';
        }
        if ContainsHome(s[1..]) {
          var j :| 0 <= j < |s[1..]| - 1 && s[1..][j] == '~' && s[1..][j + 1] == '/';
          assert s[j + 1] == '~' && s[j + 2] == '/';
        }
      }
    } else {
      assert !ContainsHome(s);
    }
  }

  /** Replace leaves a string alone exactly when "~/" does not occur in it. */
  lemma {:induction false} StripHomeUnchanged(s: string)
    ensures StripHome(s) == s <==> !ContainsHome(s)
  {
    StripHomeLength(s);
    HomeCountZero(s);
    if HomeCount(s) == 0 {
      NothingStripped(s);
    }
  }

  lemma {:induction false} NothingStripped(s: string)
    requires HomeCount(s) == 0
    ensures StripHome(s) == s
    decreases |s|
  {
    if |s| >= 2 {
      NothingStripped(s[1..]);
      assert [s[0]] + s[1..] == s;
    }
  }

  /** Every occurrence goes, not only the prefix; and what is left can hold "~/" again. */
  lemma StripHomeExamples()
    ensures StripHome("~/a~/b") == "ab"
    ensures StripHome("~/~~//") == "~/" && HomeCount("~/~~//") == 2
    ensures ContainsHome(StripHome("~/~~//"))
  {
    assert "~/a~/b"[..2] == Home && "~/a~/b"[2..] == "a~/b";
    assert "a~/b"[..2] != Home by { assert "a~/b"[0] == 'a'; }
    assert "a~/b"[1..] == "~/b";
    assert "~/b"[..2] == Home && "~/b"[2..] == "b";
    assert "~/~~//"[..2] == Home && "~/~~//"[2..] == "~~//";
    assert "~~//"[..2] != Home by { assert "~~//"[1] == '~'; }
    assert "~~//"[1..] == "~//";
    assert "~//"[..2] == Home && "~//"[2..] == "/";
    assert StripHome("~//") == "/";
    assert StripHome("~~//") == "~/";
    assert "~/"[0] == '~' && "~/"[1] == '/';
  }
}
