/**
  `parse_input_path`: classifies the input directory string as a local path
  or as `user@host:path` on a remote host reached over ssh.
*/
module Locator {
  import opened Wrappers
  import opened Common
  import Text

  /** The `(Target, String, Option<String>, Option<String>)` tuple of the source. */
  datatype ParsedInput = ParsedInput(
    target: Target,
    path: string,
    username: Option<string>,
    hostname: Option<string>)

  /** The strings the regex `.*@.*:.*` matches when there is no newline: an `@` before a `:`. */
  ghost predicate LooksRemote(s: string) {
    exists i, j :: 0 <= i < j < |s| && s[i] == '@' && s[j] == ':'
  }

  /**
    A split that the greedy captures of `(.*)@(.*):(.*)` produce: the host
    holds no `@` and the path holds no `:`.
  */
  ghost predicate GreedySplit(s: string, user: string, host: string, path: string) {
    s == user + "@" + host + ":" + path && '@' !in host && ':' !in path
  }

  /**
    Remote exactly when the string looks like `user@host:path`, and then the
    three parts are the greedy captures; otherwise Local, with the string as
    the path and neither user nor host.
  */
  function ParseInputPath(s: string): (r: ParsedInput)
    requires '\n' !in s
    ensures r.target == Remote <==> LooksRemote(s)
    ensures r.target == Remote <==> r.username.Some?
    ensures r.target == Remote <==> r.hostname.Some?
    ensures r.target == Local ==> r.path == s
    ensures r.target == Remote ==> GreedySplit(s, r.username.value, r.hostname.value, r.path)
  {
    match Text.LastIndexOf(s, ':')
    case None =>
      assert !LooksRemote(s) by {
        forall i, j | 0 <= i < j < |s| ensures !(s[i] == '@' && s[j] == ':') {
          assert s[j] in s;
        }
      }
      ParsedInput(Local, s, None, None)
    case Some(j) =>
      match Text.LastIndexOf(s[..j], '@')
      case None =>
        assert !LooksRemote(s) by {
          forall i, k | 0 <= i < k < |s| && s[k] == ':' ensures s[i] != '@' {
            assert s[i] == s[..j][i];
          }
        }
        ParsedInput(Local, s, None, None)
      case Some(a) =>
        var user, host, path := s[..a], s[a + 1..j], s[j + 1..];
        assert s[..j][a + 1..] == host;
        assert s == user + "@" + host + ":" + path by {
          assert s == s[..a] + [s[a]] + s[a + 1..j] + [s[j]] + s[j + 1..];
        }
        assert s[a] == '@' && s[j] == ':';
        ParsedInput(Remote, path, Some(user), Some(host))
  }

  /** The greedy split is unique: there is only one way to read `user@host:path`. */
  lemma GreedySplitUnique(s: string, u1: string, h1: string, p1: string,
                          u2: string, h2: string, p2: string)
    requires GreedySplit(s, u1, h1, p1) && GreedySplit(s, u2, h2, p2)
    ensures u1 == u2 && h1 == h2 && p1 == p2
  {
    var c1, c2 := |u1| + 1 + |h1|, |u2| + 1 + |h2|;
    assert s[c1] == ':' && s[c2] == ':';
    assert s[c1 + 1..] == p1 && s[c2 + 1..] == p2;
    assert s[|u1|] == '@' && s[|u2|] == '@';
    assert s[|u1| + 1..c1] == h1 && s[|u2| + 1..c2] == h2;
    assert u1 == s[..|u1|] && u2 == s[..|u2|];
  }

  /**
    Every `user@host:path` whose host has no `@` and whose path has no `:` is
    parsed back into exactly those parts.
  */
  lemma ParseRemoteParts(user: string, host: string, path: string)
    requires '@' !in host && ':' !in path
    requires '\n' !in user && '\n' !in host && '\n' !in path
    ensures var s := user + "@" + host + ":" + path;
      '\n' !in s && ParseInputPath(s) == ParsedInput(Remote, path, Some(user), Some(host))
  {
    var s := user + "@" + host + ":" + path;
    assert s[|user|] == '@' && s[|user| + 1 + |host|] == ':';
    assert LooksRemote(s);
    var r := ParseInputPath(s);
    GreedySplitUnique(s, user, host, path, r.username.value, r.hostname.value, r.path);
  }

  /** The source's local test: a plain path is local and kept as it is. */
  lemma ParseLocalExample()
    ensures ParseInputPath("/some/local/path") == ParsedInput(Local, "/some/local/path", None, None)
  {
    var s := "/some/local/path";
    assert !LooksRemote(s) by {
      assert forall i :: 0 <= i < |s| ==> s[i] != '@';
    }
  }

  /**
    The source's remote tests: a host name, `marcin@localhost:/some/remote/path`,
    and an IP address with a trailing `/`, `twardak@10.0.0.52:/some/remote/path/`.
  */
  lemma ParseRemoteExamples()
    ensures ParseInputPath("marcin" + "@" + "localhost" + ":" + "/some/remote/path")
         == ParsedInput(Remote, "/some/remote/path", Some("marcin"), Some("localhost"))
    ensures ParseInputPath("twardak" + "@" + "10.0.0.52" + ":" + "/some/remote/path/")
         == ParsedInput(Remote, "/some/remote/path/", Some("twardak"), Some("10.0.0.52"))
  {
    ParseRemoteParts("marcin", "localhost", "/some/remote/path");
    ParseRemoteParts("twardak", "10.0.0.52", "/some/remote/path/");
  }
}
