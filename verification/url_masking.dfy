/** The masking of database URLs: the password between the credentials'
    ":" and the "@" replaced by "***", as the storage configuration prints
    its connection URL. */
module UrlMasking {
  import opened Util

  /** A server URL: scheme, credentials, host, port and database. */
  function ServerUrl(scheme: string, user: string, password: string, host: string, port: int,
                     database: string): string
  {
    scheme + user + ":" + password + "@" + host + ":" + IntToString(port) + "/" + database
  }

  /** The number of times `c` occurs in `s`. */
  function Occurrences(s: string, c: char): (n: nat)
    ensures n == 0 <==> c !in s
    decreases |s|
  {
    if |s| == 0 then 0 else (if s[0] == c then 1 else 0) + Occurrences(s[1..], c)
  }

  lemma {:induction false} OccurrencesConcat(a: string, b: string, c: char)
    ensures Occurrences(a + b, c) == Occurrences(a, c) + Occurrences(b, c)
    decreases |a|
  {
    if |a| > 0 {
      assert (a + b)[1..] == a[1..] + b;
      OccurrencesConcat(a[1..], b, c);
    } else {
      assert a + b == b;
    }
  }

  /** Python `s.split(sep)` for a one-character separator. */
  function SplitOn(s: string, sep: char): (parts: seq<string>)
    ensures |parts| == Occurrences(s, sep) + 1
    ensures forall i :: 0 <= i < |parts| ==> sep !in parts[i]
    decreases |s|
  {
    if |s| == 0 then [""]
    else
      var rest := SplitOn(s[1..], sep);
      if s[0] == sep then [""] + rest else [[s[0]] + rest[0]] + rest[1..]
  }

  /** Joining the pieces with the separator gives the text back. */
  lemma {:induction false} SplitJoin(s: string, sep: char)
    ensures Join(SplitOn(s, sep), [sep]) == s
    decreases |s|
  {
    if |s| > 0 {
      var rest := SplitOn(s[1..], sep);
      SplitJoin(s[1..], sep);
      if s[0] == sep {
        assert ([""] + rest)[1..] == rest;
      } else if |rest| > 1 {
        var parts := [[s[0]] + rest[0]] + rest[1..];
        assert parts[1..] == rest[1..];
        assert Join(rest, [sep]) == rest[0] + [sep] + Join(rest[1..], [sep]);
      }
    }
  }

  /** Text without the separator splits into itself alone. */
  lemma {:induction false} SplitWithout(s: string, sep: char)
    requires sep !in s
    ensures SplitOn(s, sep) == [s]
    decreases |s|
  {
    if |s| > 0 {
      SplitWithout(s[1..], sep);
      assert [s[0]] + s[1..] == s;
    }
  }

  /** Text with one separator splits around it. */
  lemma {:induction false} SplitOnce(a: string, b: string, sep: char)
    requires sep !in a && sep !in b
    ensures SplitOn(a + [sep] + b, sep) == [a, b]
    decreases |a|
  {
    if |a| == 0 {
      assert a + [sep] + b == [sep] + b;
      assert ([sep] + b)[1..] == b;
      SplitWithout(b, sep);
    } else {
      assert (a + [sep] + b)[1..] == a[1..] + [sep] + b;
      SplitOnce(a[1..], b, sep);
      assert [a[0]] + a[1..] == a;
    }
  }

  /** Python `s.rsplit(sep, 1)[0]`: the text before the last separator. */
  function BeforeLast(s: string, sep: char): (r: string)
    requires sep in s
    ensures |r| < |s| && r == s[..|r|] && s[|r|] == sep && sep !in s[|r| + 1..]
    decreases |s|
  {
    if s[|s| - 1] == sep then s[..|s| - 1]
    else
      assert sep in s[..|s| - 1];
      var r := BeforeLast(s[..|s| - 1], sep);
      assert s[|r| + 1..] == s[..|s| - 1][|r| + 1..] + [s[|s| - 1]];
      r
  }

  lemma BeforeLastOf(a: string, b: string, sep: char)
    requires sep !in b
    ensures BeforeLast(a + [sep] + b, sep) == a
  {
    var s := a + [sep] + b;
    var r := BeforeLast(s, sep);
    assert s[|a|] == sep;
  }

  /** `_safe_url` as written: when the URL holds exactly one "@" and a ":"
      before it, everything from the last ":" before the "@" up to the "@"
      becomes "***"; otherwise the URL is returned unchanged. */
  function MaskUrl(url: string): (r: string)
    ensures '@' !in url ==> r == url
    ensures Occurrences(url, '@') != 1 ==> r == url
  {
    if '@' in url && ':' in url then
      var parts := SplitOn(url, '@');
      if |parts| == 2 && ':' in parts[0] then BeforeLast(parts[0], ':') + ":***@" + parts[1] else url
    else url
  }

  /** Credentials and address without any "@", a password without ":". */
  predicate PlainCredentials(user: string, password: string, host: string, database: string) {
    '@' !in user && '@' !in password && '@' !in host && '@' !in database && ':' !in password
  }

  lemma ServerUrlParts(scheme: string, user: string, password: string, host: string, port: int, database: string)
    ensures ServerUrl(scheme, user, password, host, port, database)
            == (scheme + user + ":" + password) + ['@'] + (host + ":" + IntToString(port) + "/" + database)
  {
  }

  /** A server URL starts with its scheme and ends with its database. */
  lemma ServerUrlEnds(scheme: string, user: string, password: string, host: string, port: int, database: string)
    ensures StartsWith(ServerUrl(scheme, user, password, host, port, database), scheme)
    ensures EndsWith(ServerUrl(scheme, user, password, host, port, database), "/" + database)
  {
    var mid := user + ":" + password + "@" + host + ":" + IntToString(port);
    var u := ServerUrl(scheme, user, password, host, port, database);
    assert u == scheme + (mid + "/" + database);
    assert u == (scheme + mid) + ("/" + database);
    assert u[..|scheme|] == scheme;
    assert u[|u| - |"/" + database|..] == "/" + database;
  }

  /** The address part of a server URL has an "@" only where its host or
      database has one. */
  lemma AddressHasNoAt(host: string, port: int, database: string)
    requires '@' !in host && '@' !in database
    ensures '@' !in host + ":" + IntToString(port) + "/" + database
  {
  }

  /** A URL with exactly one "@" and a ":" before it is masked from the last
      such ":" to the "@". */
  lemma MaskOneAt(auth: string, rest: string)
    requires '@' !in auth && '@' !in rest && ':' in auth
    ensures MaskUrl(auth + ['@'] + rest) == BeforeLast(auth, ':') + ":***@" + rest
  {
    var url := auth + ['@'] + rest;
    SplitOnce(auth, rest, '@');
    assert url[|auth|] == '@';
    var k :| 0 <= k < |auth| && auth[k] == ':';
    assert url[k] == ':';
  }

  /** With plain credentials the masking hides exactly the password: the
      result is the URL built with "***" in its place. */
  lemma MaskHidesPlainPassword(scheme: string, user: string, password: string, host: string, port: int,
                               database: string)
    requires '@' !in scheme && PlainCredentials(user, password, host, database)
    ensures MaskUrl(ServerUrl(scheme, user, password, host, port, database))
            == ServerUrl(scheme, user, "***", host, port, database)
  {
    var auth := scheme + user + ":" + password;
    var rest := host + ":" + IntToString(port) + "/" + database;
    assert ServerUrl(scheme, user, password, host, port, database) == auth + ['@'] + rest by {
      ServerUrlParts(scheme, user, password, host, port, database);
    }
    assert ServerUrl(scheme, user, "***", host, port, database) == (scheme + user) + ":***@" + rest by {
      ServerUrlParts(scheme, user, "***", host, port, database);
    }
    assert '@' !in rest by {
      AddressHasNoAt(host, port, database);
    }
    assert ':' in auth && BeforeLast(auth, ':') == scheme + user by {
      assert auth == (scheme + user) + [':'] + password;
      BeforeLastOf(scheme + user, password, ':');
      assert auth[|scheme + user|] == ':';
    }
    MaskOneAt(auth, rest);
  }

  /** A password holding ":" keeps what precedes its last ":" in view. */
  lemma ColonPasswordShowsHead(scheme: string, user: string, head: string, tail: string, host: string, port: int,
                               database: string)
    requires '@' !in scheme && PlainCredentials(user, tail, host, database) && '@' !in head
    ensures MaskUrl(ServerUrl(scheme, user, head + ":" + tail, host, port, database))
            == ServerUrl(scheme, user, head + ":***", host, port, database)
  {
    var auth := scheme + user + ":" + (head + ":" + tail);
    var rest := host + ":" + IntToString(port) + "/" + database;
    var kept := scheme + user + ":" + head;
    assert ServerUrl(scheme, user, head + ":" + tail, host, port, database) == auth + ['@'] + rest by {
      ServerUrlParts(scheme, user, head + ":" + tail, host, port, database);
    }
    assert ServerUrl(scheme, user, head + ":***", host, port, database) == kept + ":***@" + rest by {
      ServerUrlParts(scheme, user, head + ":***", host, port, database);
    }
    assert '@' !in rest by {
      AddressHasNoAt(host, port, database);
    }
    assert '@' !in auth;
    assert ':' in auth && BeforeLast(auth, ':') == kept by {
      assert auth == kept + [':'] + tail;
      BeforeLastOf(kept, tail, ':');
      assert auth[|kept|] == ':';
    }
    MaskOneAt(auth, rest);
  }

  /** A password holding "@" is not masked at all: the URL comes back as
      it was, password included. */
  lemma AtPasswordUnmasked(scheme: string, user: string, password: string, host: string, port: int, database: string)
    requires '@' in password
    ensures MaskUrl(ServerUrl(scheme, user, password, host, port, database))
            == ServerUrl(scheme, user, password, host, port, database)
    ensures Contains(MaskUrl(ServerUrl(scheme, user, password, host, port, database)), password)
  {
    var front := scheme + user + ":";
    var back := ['@'] + (host + ":" + IntToString(port) + "/" + database);
    ServerUrlAround(scheme, user, password, host, port, database);
    TwoAts(front, password, back);
    ContainsMiddle(front, password, back);
    UnmaskedUnlessOneAt(ServerUrl(scheme, user, password, host, port, database));
  }

  lemma ServerUrlAround(scheme: string, user: string, password: string, host: string, port: int, database: string)
    ensures ServerUrl(scheme, user, password, host, port, database)
            == (scheme + user + ":") + password + (['@'] + (host + ":" + IntToString(port) + "/" + database))
  {
  }

  lemma ContainsMiddle(front: string, middle: string, back: string)
    ensures Contains(front + middle + back, middle)
  {
    var s := front + middle + back;
    assert s[|front|..][..|middle|] == middle;
  }

  lemma UnmaskedUnlessOneAt(url: string)
    requires Occurrences(url, '@') != 1
    ensures MaskUrl(url) == url
  {
  }

  lemma TwoAts(front: string, password: string, back: string)
    requires '@' in password && |back| > 0 && back[0] == '@'
    ensures Occurrences(front + password + back, '@') >= 2
  {
    OccurrencesConcat(front + password, back, '@');
    OccurrencesConcat(front, password, '@');
    assert back[0] in back;
  }
}
