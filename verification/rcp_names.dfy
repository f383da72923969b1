/**
 * The string logic of rcp (usr/src/bin/rcp/rcp.c) that works on names:
 * colon() finds the host separator, okname() vets a user name, main()
 * splits a `user@host:path` argument, and source()/rsource() take the last
 * component of a path. Strings are C strings: the characters before the
 * terminating NUL.
 */
module RcpNames {
  import opened Options

  // ---------------------------------------------------------------------
  // colon
  // ---------------------------------------------------------------------

  /**
   * What colon() answers for the suffix s[i..]: the first ':' provided no
   * '/' comes before it.
   */
  function ColonFrom(s: string, i: nat): (r: Option<nat>)
    requires i <= |s|
    ensures r.Some? ==> i <= r.value < |s| && s[r.value] == ':'
    ensures r.Some? ==> forall k :: i <= k < r.value ==> s[k] != ':' && s[k] != '/'
    ensures r.None? ==> forall k :: i <= k < |s| && s[k] == ':' ==> '/' in s[i..k]
    decreases |s| - i
  {
    if i == |s| then None
    else if s[i] == ':' then Some(i)
    else if s[i] == '/' then None
    else ColonFrom(s, i + 1)
  }

  /** colon(): the index of the host separator, or None for a local path. */
  method Colon(s: string) returns (r: Option<nat>)
    requires '\0' !in s
    ensures r == ColonFrom(s, 0)
  {
    var i := 0;
    while i < |s|
      invariant i <= |s|
      invariant ColonFrom(s, i) == ColonFrom(s, 0)
    {
      if s[i] == ':' {
        return Some(i);
      }
      if s[i] == '/' {
        return None;
      }
      i := i + 1;
    }
    return None;
  }

  // ---------------------------------------------------------------------
  // okname
  // ---------------------------------------------------------------------

  predicate IsAlpha(c: char) {
    'a' <= c <= 'z' || 'A' <= c <= 'Z'
  }

  predicate IsDigit(c: char) {
    '0' <= c <= '9'
  }

  /** A character okname() lets through: 7-bit, and a letter, a digit, '_' or '-'. */
  predicate UserNameChar(c: char) {
    c as int < 0x80 && (IsAlpha(c) || IsDigit(c) || c == '_' || c == '-')
  }

  /** The names okname() accepts. */
  predicate ValidUserName(s: string) {
    |s| > 0 && forall k :: 0 <= k < |s| ==> UserNameChar(s[k])
  }

  /**
   * okname(): a do-while over the characters; its first pass examines the
   * terminating NUL of an empty name, which is not a letter, so the empty
   * name is refused.
   */
  method OkName(s: string) returns (ok: bool)
    requires '\0' !in s
    ensures ok == ValidUserName(s)
  {
    var i := 0;
    while true
      invariant i < |s| || (i == 0 && |s| == 0)
      invariant forall k :: 0 <= k < i ==> UserNameChar(s[k])
      decreases |s| - i
    {
      var c := if i < |s| then s[i] else '\0';
      if c as int >= 0x80 {
        return false;
      }
      if !IsAlpha(c) && !IsDigit(c) && c != '_' && c != '-' {
        return false;
      }
      i := i + 1;
      if i == |s| {
        return true;
      }
    }
  }

  // ---------------------------------------------------------------------
  // user@host:path
  // ---------------------------------------------------------------------

  /** index(s, c) of the C library: the first occurrence of c. */
  function IndexOf(s: string, c: char): (r: Option<nat>)
    ensures r.Some? ==> r.value < |s| && s[r.value] == c && c !in s[..r.value]
    ensures r.None? ==> c !in s
  {
    if s == [] then None
    else if s[0] == c then Some(0)
    else match IndexOf(s[1..], c)
      case None => None
      case Some(k) => assert s[..k + 1] == [s[0]] + s[1..][..k]; Some(k + 1)
  }

  /**
   * What main() makes of a source or target argument. A remote one carries
   * the user when the argument names one ('@' present; an empty user stands
   * for the login name), the host and the path. `InvalidUser` is a name
   * okname() refuses: the target then ends rcp, a source is skipped.
   */
  datatype Location =
    | LocalPath(path: string)
    | RemotePath(user: Option<string>, host: string, path: string)
    | InvalidUser(name: string)

  function ParseLocation(arg: string, login: string): Location {
    match ColonFrom(arg, 0)
    case None => LocalPath(arg)
    case Some(k) =>
      var path := if k + 1 == |arg| then "." else arg[k + 1..];
      var prefix := arg[..k];
      match IndexOf(prefix, '@')
      case None => RemotePath(None, prefix, path)
      case Some(a) =>
        var user := prefix[..a];
        var host := prefix[a + 1..];
        if user == [] then RemotePath(Some(login), host, path)
        else if !ValidUserName(user) then InvalidUser(user)
        else RemotePath(Some(user), host, path)
  }

  /**
   * The splitting main() does in place: cut the argument at colon(), make an
   * empty path ".", cut the prefix at the first '@' into user and host.
   */
  method SplitLocation(arg: string, login: string) returns (loc: Location)
    requires '\0' !in arg
    ensures loc == ParseLocation(arg, login)
  {
    var colon := Colon(arg);
    if colon.None? {
      return LocalPath(arg);
    }
    var k := colon.value;
    var path := arg[k + 1..];
    if path == [] {
      path := ".";
    }
    var prefix := arg[..k];
    var at := IndexOf(prefix, '@');
    if at.None? {
      return RemotePath(None, prefix, path);
    }
    var user := prefix[..at.value];
    var host := prefix[at.value + 1..];
    if user == [] {
      return RemotePath(Some(login), host, path);
    }
    assert '\0' !in user by {
      assert forall j :: 0 <= j < |user| ==> user[j] == arg[j];
    }
    var ok := OkName(user);
    if !ok {
      return InvalidUser(user);
    }
    return RemotePath(Some(user), host, path);
  }

  /** The `user@host:path` spelling rcp hands to the remote rcp through rsh. */
  function RemoteSpec(user: string, host: string, path: string): string {
    user + "@" + host + ":" + path
  }

  /** colon() skips a stretch free of ':' and '/'. */
  lemma {:induction false} ColonSkips(s: string, i: nat, j: nat)
    requires i <= j <= |s|
    requires forall k :: i <= k < j ==> s[k] != ':' && s[k] != '/'
    ensures ColonFrom(s, i) == ColonFrom(s, j)
    decreases j - i
  {
    if i < j {
      ColonSkips(s, i + 1, j);
    }
  }

  /**
   * The spelling splits back into its parts: a valid user, a host without
   * ':' or '/', and a non-empty path come back unchanged.
   */
  lemma RemoteSpecSplits(user: string, host: string, path: string, login: string)
    requires ValidUserName(user)
    requires ':' !in host && '/' !in host
    requires path != []
    ensures ParseLocation(RemoteSpec(user, host, path), login) == RemotePath(Some(user), host, path)
  {
    var s := RemoteSpec(user, host, path);
    var k := |user| + 1 + |host|;
    assert s[..k] == user + "@" + host;
    assert s[k] == ':';
    assert s[k + 1..] == path;
    forall m | 0 <= m < k ensures s[m] != ':' && s[m] != '/' {
      if m < |user| {
        assert s[m] == user[m] && UserNameChar(user[m]);
      } else if m > |user| {
        assert s[m] == host[m - |user| - 1];
      }
    }
    ColonSkips(s, 0, k);
    var prefix := s[..k];
    assert prefix[|user|] == '@';
    assert forall m :: 0 <= m < |user| ==> prefix[m] == user[m] && UserNameChar(user[m]);
    assert prefix[..|user|] == user;
    assert prefix[|user| + 1..] == host;
  }

  /**
   * Splitting a target and spelling it again for the remote rcp as
   * user@host:path gives back the same user, host and path. The user is the
   * one the target names, or the login name when it names none (a bare
   * host:path or an empty user), and must be one okname() accepts.
   */
  lemma SplitThenSpellRoundTrip(arg: string, login: string, user: Option<string>, host: string, path: string)
    requires ParseLocation(arg, login) == RemotePath(user, host, path)
    requires ValidUserName(if user.Some? then user.value else login)
    ensures var who := if user.Some? then user.value else login;
      ParseLocation(RemoteSpec(who, host, path), login) == RemotePath(Some(who), host, path)
  {
    var who := if user.Some? then user.value else login;
    var k := ColonFrom(arg, 0).value;
    var prefix := arg[..k];
    assert path != [];
    match IndexOf(prefix, '@')
    case None =>
      assert host == prefix;
      forall m | 0 <= m < |host| ensures host[m] != ':' && host[m] != '/' {
        assert host[m] == arg[m];
      }
      RemoteSpecSplits(who, host, path, login);
    case Some(a) =>
      assert host == prefix[a + 1..];
      forall m | 0 <= m < |host| ensures host[m] != ':' && host[m] != '/' {
        assert host[m] == arg[a + 1 + m];
      }
      RemoteSpecSplits(who, host, path, login);
  }

  /** An argument with a colon but nothing after it names "." on the host. */
  lemma EmptyPathIsDot(host: string, login: string)
    requires ':' !in host && '/' !in host && '@' !in host
    ensures ParseLocation(host + ":", login) == RemotePath(None, host, ".")
  {
    var s := host + ":";
    forall m | 0 <= m < |host| ensures s[m] != ':' && s[m] != '/' {
      assert s[m] == host[m];
    }
    ColonSkips(s, 0, |host|);
    assert s[..|host|] == host;
  }

  // ---------------------------------------------------------------------
  // the last component of a path
  // ---------------------------------------------------------------------

  /** rindex(s, '/') of the C library: the last '/'. */
  function LastSlash(s: string): (r: Option<nat>)
    ensures r.Some? ==> r.value < |s| && s[r.value] == '/' && '/' !in s[r.value + 1..]
    ensures r.None? ==> '/' !in s
  {
    if s == [] then None
    else if s[|s| - 1] == '/' then Some(|s| - 1)
    else
      var r := LastSlash(s[..|s| - 1]);
      assert r.Some? ==> s[r.value + 1..] == s[..|s| - 1][r.value + 1..] + [s[|s| - 1]];
      assert r.None? ==> s == s[..|s| - 1] + [s[|s| - 1]];
      r
  }

  /** The name source() and rsource() send: the text after the last '/', or the whole name. */
  function Basename(name: string): (r: string)
    ensures '/' !in r
    ensures |r| <= |name| && r == name[|name| - |r|..]
    ensures |r| < |name| ==> name[|name| - |r| - 1] == '/'
  {
    match LastSlash(name)
    case None => name
    case Some(k) => name[k + 1..]
  }

  /** The last component of dir/base is base. */
  lemma BasenameOfPath(dir: string, base: string)
    requires '/' !in base
    ensures Basename(dir + "/" + base) == base
  {
    var s := dir + "/" + base;
    var k := LastSlash(s).value;
    assert s[|dir|] == '/';
    assert s[|dir| + 1..] == base;
  }
}
