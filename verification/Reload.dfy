/** The reload sidecar: which unix sockets its sweep removes. */
module Reload {
  import opened Base

  // ---- listenSockRe: listen\s+unix:(\S+\.sock) ----

  const LISTEN := "listen"
  const UNIX := "unix:"
  const SOCK := ".sock"

  /** `\s` of RE2. */
  predicate IsBlank(c: char) {
    c == ' ' || c == '\t' || c == '\n' || c == '\r' || c == '\U{000c}'
  }

  /** How many characters of `s`, from the start, are blank if `blank`, or not blank otherwise. */
  function RunLength(s: string, blank: bool): (n: nat)
    ensures n <= |s|
    ensures forall i :: 0 <= i < n ==> IsBlank(s[i]) == blank
    ensures n < |s| ==> IsBlank(s[n]) != blank
  {
    if s == [] || IsBlank(s[0]) != blank then 0 else 1 + RunLength(s[1..], blank)
  }

  predicate EndsInSock(s: string) {
    |s| > |SOCK| && s[|s| - |SOCK|..] == SOCK
  }

  /** The length of the longest prefix of `s` that `\S+\.sock` matches, or 0. */
  function LongestSock(s: string): (n: nat)
    ensures n <= |s|
    ensures n > 0 ==> EndsInSock(s[..n])
    ensures forall k :: n < k <= |s| ==> !EndsInSock(s[..k])
  {
    if |s| <= |SOCK| then 0
    else if EndsInSock(s) then assert s[..|s|] == s; |s|
    else
      var n := LongestSock(s[..|s| - 1]);
      assert forall k :: 0 <= k < |s| ==> s[..|s| - 1][..k] == s[..k];
      assert s[..|s|] == s;
      n
  }

  /** What follows `word` at the start of `s`. */
  function SkipWord(s: string, word: string): (r: Option<string>)
    ensures r.Some? ==> |r.value| + |word| == |s|
  {
    if word <= s then Some(s[|word|..]) else None
  }

  /** What follows the blanks at the start of `s`, of which there must be one. What comes next in the pattern is
      not blank, so the blanks are matched whole. */
  function SkipBlanks(s: string): (r: Option<string>)
    ensures r.Some? ==> |r.value| < |s|
  {
    var k := RunLength(s, true);
    if k > 0 then Some(s[k..]) else None
  }

  /** The greedy capture at the start of `s`, and what follows it. */
  function Capture(s: string): (r: Option<(string, string)>)
    ensures r.Some? ==> |r.value.1| < |s|
  {
    var n := LongestSock(s[..RunLength(s, false)]);
    if n > 0 then Some((s[..n], s[n..])) else None
  }

  /** The match that begins where `s` begins: what it captures, and what follows it. */
  function MatchHere(s: string): (r: Option<(string, string)>)
    ensures r.Some? ==> |r.value.1| < |s|
  {
    match SkipWord(s, LISTEN)
    case None => None
    case Some(s1) =>
      match SkipBlanks(s1)
      case None => None
      case Some(s2) =>
        match SkipWord(s2, UNIX)
        case None => None
        case Some(s3) => Capture(s3)
  }

  /** `FindAllStringSubmatch`: the captures of the leftmost matches that do not overlap. */
  function Captures(s: string): seq<string>
    decreases |s|
  {
    if s == [] then []
    else
      match MatchHere(s)
      case Some((path, rest)) => [path] + Captures(rest)
      case None => Captures(s[1..])
  }

  // ---- The listen line of a route ----

  const SOCKET_DIR := "/usr/local/openresty/nginx/sock/"

  predicate IsRouteChar(c: char) {
    'a' <= c <= 'z' || '0' <= c <= '9' || c == '.' || c == '_' || c == '-'
  }

  /** A route name as the CRD admits it. */
  predicate IsRouteName(route: string) {
    route != [] && forall i :: 0 <= i < |route| ==> IsRouteChar(route[i])
  }

  function SocketPath(route: string): string {
    SOCKET_DIR + route + SOCK
  }

  /** What both templates render: the listen directive, after an indent and before a comment. */
  function ListenDirective(route: string): string {
    "listen unix:" + SocketPath(route) + ";"
  }

  /** `filepath.Base`. */
  function BaseName(path: string): string
    decreases |path|
  {
    if path == "" then "."
    else if path[|path| - 1] == '/' then (if |path| == 1 then "/" else BaseName(path[..|path| - 1]))
    else AfterSlash(path)
  }

  function AfterSlash(s: string): string
    decreases |s|
  {
    var i := IndexOf(s, '/');
    if i < |s| then AfterSlash(s[i + 1..]) else s
  }

  lemma {:induction false} AfterLastSlash(dir: string, name: string)
    requires '/' !in name
    ensures AfterSlash(dir + "/" + name) == name
    decreases |dir|
  {
    var s := dir + "/" + name;
    var i := IndexOf(s, '/');
    assert s[|dir|] == '/';
    if i < |dir| {
      assert s[i + 1..] == dir[i + 1..] + "/" + name;
      AfterLastSlash(dir[i + 1..], name);
    } else {
      assert s[i + 1..] == name;
      assert forall k :: 0 <= k < |name| ==> name[k] in name;
    }
  }

  /** The last element of a path, whether or not a slash follows it; "/" of the root, and "." of nothing. */
  lemma BaseNameIs(dir: string, name: string)
    requires name != "" && '/' !in name
    ensures BaseName(dir + "/" + name) == name && BaseName(dir + "/" + name + "/") == name && BaseName(name) == name
    ensures BaseName("/") == "/" && BaseName("") == "."
  {
    var path := dir + "/" + name;
    AfterLastSlash(dir, name);
    assert path[|path| - 1] == name[|name| - 1] && name[|name| - 1] in name;
    assert (path + "/")[..|path|] == path;
    assert forall k :: 0 <= k < |name| ==> name[k] in name;
  }

  lemma SocketBaseName(route: string)
    requires IsRouteName(route)
    ensures BaseName(SocketPath(route)) == route + SOCK
  {
    var name := route + SOCK;
    forall c | c in name
      ensures c != '/'
    {
    }
    assert SocketPath(route) == "/usr/local/openresty/nginx/sock" + "/" + name;
    AfterLastSlash("/usr/local/openresty/nginx/sock", name);
    assert SocketPath(route)[|SocketPath(route)| - 1] == 'k';
  }

  // ---- The directive is always captured ----

  /** `s` is `after`, behind a blank and some end of `before`. */
  ghost predicate Within(s: string, before: string, after: string) {
    exists k :: 0 <= k <= |before| && s == before[k..] + " " + after
  }

  lemma WithinWithin(s: string, before: string, k: nat, after: string)
    requires k <= |before| && Within(s, before[k..], after)
    ensures Within(s, before, after)
  {
    var j :| 0 <= j <= |before[k..]| && s == before[k..][j..] + " " + after;
    assert before[k..][j..] == before[k + j..];
  }

  /** A word without blanks that begins `before + " " + after` lies within `before`. */
  lemma WordEndsBeforeBlank(word: string, before: string, after: string)
    requires SkipWord(before + " " + after, word).Some? && forall i :: 0 <= i < |word| ==> word[i] != ' '
    ensures |word| <= |before| && SkipWord(before + " " + after, word).value == before[|word|..] + " " + after
  {
    var s := before + " " + after;
    assert s[|before|] == ' ';
    assert forall i :: 0 <= i < |word| ==> s[i] == word[i];
  }

  lemma BlanksEndBeforeBlank(before: string, after: string)
    requires after != [] && !IsBlank(after[0]) && SkipBlanks(before + " " + after).Some?
    ensures var s := SkipBlanks(before + " " + after).value; s == after || Within(s, before, after)
  {
    var s := before + " " + after;
    var k := RunLength(s, true);
    assert s[|before| + 1] == after[0];
    if k <= |before| {
      assert s[k..] == before[k..] + " " + after;
    } else {
      assert s[k..] == after;
    }
  }

  lemma CaptureEndsBeforeBlank(before: string, after: string)
    requires Capture(before + " " + after).Some?
    ensures Within(Capture(before + " " + after).value.1, before, after)
  {
    var s := before + " " + after;
    assert s[|before|] == ' ';
    var n := LongestSock(s[..RunLength(s, false)]);
    assert s[n..] == before[n..] + " " + after;
  }

  /** A match that begins before a blank followed by "listen" also ends before that blank. */
  lemma MatchEndsBeforeBlank(before: string, after: string)
    requires LISTEN <= after && MatchHere(before + " " + after).Some?
    ensures Within(MatchHere(before + " " + after).value.1, before, after)
  {
    var n := |LISTEN|;
    WordEndsBeforeBlank(LISTEN, before, after);
    assert after[0] == 'l';
    BlanksEndBeforeBlank(before[n..], after);
    var s2 := SkipBlanks(before[n..] + " " + after).value;
    assert s2 != after by {
      assert UNIX[0] == 'u' && UNIX <= s2;
    }
    var k :| 0 <= k <= |before[n..]| && s2 == before[n..][k..] + " " + after;
    assert before[n..][k..] == before[n + k..];
    PathEndsBeforeBlank(before[n + k..], after);
    WithinWithin(MatchHere(before + " " + after).value.1, before, n + k, after);
  }

  lemma PathEndsBeforeBlank(before: string, after: string)
    requires SkipWord(before + " " + after, UNIX).Some? && Capture(SkipWord(before + " " + after, UNIX).value).Some?
    ensures Within(Capture(SkipWord(before + " " + after, UNIX).value).value.1, before, after)
  {
    WordEndsBeforeBlank(UNIX, before, after);
    var inner := before[|UNIX|..];
    CaptureEndsBeforeBlank(inner, after);
    WithinWithin(Capture(inner + " " + after).value.1, before, |UNIX|, after);
  }

  /** The directive itself matches, up to the socket's last character. */
  lemma DirectiveMatches(route: string, rest: string)
    requires IsRouteName(route) && rest != [] && IsBlank(rest[0])
    ensures MatchHere(ListenDirective(route) + rest) == Some((SocketPath(route), ";" + rest))
  {
    var path := SocketPath(route);
    var tail := path + (";" + rest);
    DirectiveBegins(tail);
    assert ListenDirective(route) + rest == "listen unix:" + tail;
    SocketHasNoBlank(route);
    PathIsCaptured(path, rest);
  }

  lemma DirectiveBegins(tail: string)
    ensures SkipWord("listen unix:" + tail, LISTEN) == Some(" unix:" + tail)
    ensures SkipBlanks(" unix:" + tail) == Some(UNIX + tail)
    ensures SkipWord(UNIX + tail, UNIX) == Some(tail)
  {
    var s := " unix:" + tail;
    assert "listen unix:" + tail == LISTEN + s;
    assert s[1] == 'u' && s[1..] == UNIX + tail;
  }

  lemma PathIsCaptured(path: string, rest: string)
    requires forall i :: 0 <= i < |path| ==> !IsBlank(path[i])
    requires EndsInSock(path) && rest != [] && IsBlank(rest[0])
    ensures Capture(path + (";" + rest)) == Some((path, ";" + rest))
  {
    var tail := path + (";" + rest);
    RunEnds(path, rest);
    LongestIsPath(path);
    assert tail[..|path|] == path && tail[|path|..] == ";" + rest;
  }

  lemma RunEnds(path: string, rest: string)
    requires forall i :: 0 <= i < |path| ==> !IsBlank(path[i])
    requires rest != [] && IsBlank(rest[0])
    ensures var tail := path + (";" + rest); tail[..RunLength(tail, false)] == path + ";"
  {
    var tail := path + (";" + rest);
    var n := RunLength(tail, false);
    assert tail[|path|] == ';' && tail[|path| + 1] == rest[0];
    assert forall i :: 0 <= i <= |path| ==> !IsBlank(tail[i]);
    assert n == |path| + 1;
  }

  lemma SocketHasNoBlank(route: string)
    requires IsRouteName(route)
    ensures forall i :: 0 <= i < |SocketPath(route)| ==> !IsBlank(SocketPath(route)[i])
    ensures EndsInSock(SocketPath(route))
  {
  }

  lemma LongestIsPath(path: string)
    requires EndsInSock(path)
    ensures LongestSock(path + ";") == |path|
  {
    var s := path + ";";
    assert s[..|path|] == path && s[..|s|] == s;
    assert s[|s| - 1] == ';' && SOCK[4] == 'k';
    assert !EndsInSock(s) by {
      assert s[|s| - |SOCK|..][4] == ';';
    }
  }

  /** Text before a blank cannot hide what is captured behind it. */
  lemma {:induction false} CapturedBehindBlank(before: string, after: string, path: string)
    requires LISTEN <= after && path in Captures(after)
    ensures path in Captures(before + " " + after)
    decreases |before|
  {
    var s := before + " " + after;
    if before == [] {
      assert s[0] == ' ' && s[1..] == after;
    } else if MatchHere(s).Some? {
      MatchEndsBeforeBlank(before, after);
      var k :| 0 <= k <= |before| && MatchHere(s).value.1 == before[k..] + " " + after;
      CapturedBehindBlank(before[k..], after, path);
    } else {
      assert s[1..] == before[1..] + " " + after;
      CapturedBehindBlank(before[1..], after, path);
    }
  }

  /** Whatever surrounds the directive of a route, its socket is among the captures. */
  lemma DirectiveIsCaptured(before: string, route: string, rest: string)
    requires IsRouteName(route) && rest != [] && IsBlank(rest[0])
    ensures SocketPath(route) in Captures(before + " " + ListenDirective(route) + rest)
  {
    var after := ListenDirective(route) + rest;
    DirectiveMatches(route, rest);
    assert LISTEN <= after;
    CapturedBehindBlank(before, after, SocketPath(route));
    assert before + " " + ListenDirective(route) + rest == before + " " + after;
  }

  // ---- The sweep ----

  /** The base names of the sockets that the configuration files mention. */
  function Active(confs: seq<string>): set<string> {
    set c, path | c in confs && path in Captures(c) :: BaseName(path)
  }

  /** Neither mentioned by a configuration file nor listened on. */
  predicate IsOrphan(sock: string, confs: seq<string>, listened: string -> bool) {
    BaseName(sock) !in Active(confs) && !listened(sock)
  }

  function Texts(confs: seq<Option<string>>): seq<string> {
    if confs == [] then []
    else Texts(confs[..|confs| - 1]) + if confs[|confs| - 1].Some? then [confs[|confs| - 1].value] else []
  }

  /** All the sockets but the listed orphans that the system lets go. */
  function Kept(sockets: set<string>, listed: seq<string>, confs: seq<string>,
                listened: string -> bool, removable: string -> bool): set<string> {
    set s | s in sockets && !(s in listed && IsOrphan(s, confs, listened) && removable(s))
  }

  /** Some configuration file mentions a socket of this base name. */
  ghost predicate Mentioned(sock: string, confs: seq<Option<string>>) {
    exists c, path :: Some(c) in confs && path in Captures(c) && BaseName(path) == BaseName(sock)
  }

  lemma {:induction false} TextsAre(confs: seq<Option<string>>, c: string)
    ensures c in Texts(confs) <==> Some(c) in confs
  {
    if confs == [] {
    } else {
      var n := |confs| - 1;
      TextsAre(confs[..n], c);
      assert confs == confs[..n] + [confs[n]];
      assert confs[n] == Some(c) <==> confs[n].Some? && confs[n].value == c;
    }
  }

  /** A socket stays exactly when it was not listed, is listened on or mentioned, or cannot be removed. */
  lemma KeptMeans(
    sock: string, sockets: set<string>, listed: seq<string>, confs: seq<Option<string>>,
    listened: string -> bool, removable: string -> bool)
    ensures sock in Kept(sockets, listed, Texts(confs), listened, removable) <==>
      sock in sockets && (sock !in listed || listened(sock) || Mentioned(sock, confs) || !removable(sock))
  {
    forall c
      ensures c in Texts(confs) <==> Some(c) in confs
    {
      TextsAre(confs, c);
    }
    if BaseName(sock) in Active(Texts(confs)) {
      var c, path :| c in Texts(confs) && path in Captures(c) && BaseName(path) == BaseName(sock);
      assert Some(c) in confs;
    }
    if Mentioned(sock, confs) {
      var c, path :| Some(c) in confs && path in Captures(c) && BaseName(path) == BaseName(sock);
      assert c in Texts(confs);
    }
  }

  /** The socket directory. */
  class SocketDir {
    var sockets: set<string>

    constructor (sockets: set<string>)
      ensures this.sockets == sockets
    {
      this.sockets := sockets;
    }

    /** `cleanupOrphanSockets`: `confs` are the configuration files, None when one cannot be read, `listed` the
        sockets in the order they are listed, `listened` and `removable` the answers of the system. */
    method CleanupOrphanSockets(
      confs: seq<Option<string>>, listed: seq<string>, listened: string -> bool, removable: string -> bool)
      modifies this
      ensures None in confs ==> sockets == old(sockets)
      ensures None !in confs ==>
                forall s :: s in sockets <==>
                  s in old(sockets) && (s !in listed || listened(s) || Mentioned(s, confs) || !removable(s))
    {
      var active: set<string> := {};
      for i := 0 to |confs|
        invariant unchanged(this)
        invariant None !in confs[..i]
        invariant active == Active(Texts(confs[..i]))
      {
        assert confs[..i + 1] == confs[..i] + [confs[i]];
        if confs[i].None? {
          return;
        }
        assert Texts(confs[..i + 1]) == Texts(confs[..i]) + [confs[i].value];
        var found := Captures(confs[i].value);
        active := active + set path | path in found :: BaseName(path);
        assert active == Active(Texts(confs[..i + 1]));
      }
      assert confs[..|confs|] == confs;
      for i := 0 to |listed|
        invariant sockets == Kept(old(sockets), listed[..i], Texts(confs), listened, removable)
      {
        var s := listed[i];
        assert listed[..i + 1] == listed[..i] + [s];
        if BaseName(s) in active || listened(s) {
          continue;
        }
        if removable(s) {
          sockets := sockets - {s};
        }
      }
      assert listed[..|listed|] == listed;
      forall s
        ensures s in sockets <==>
          s in old(sockets) && (s !in listed || listened(s) || Mentioned(s, confs) || !removable(s))
      {
        KeptMeans(s, old(sockets), listed, confs, listened, removable);
      }
    }
  }

  /** The socket of a route whose configuration is present is never an orphan, whatever else its file and the
      others contain. */
  lemma RouteKeepsItsSocket(
    route: string, confs: seq<string>, before: string, rest: string, sock: string, listened: string -> bool)
    requires IsRouteName(route) && rest != [] && IsBlank(rest[0])
    requires before + " " + ListenDirective(route) + rest in confs
    requires BaseName(sock) == route + SOCK
    ensures !IsOrphan(sock, confs, listened)
  {
    DirectiveIsCaptured(before, route, rest);
    SocketBaseName(route);
  }

  // ---- Watched directories ----

  /** `watchDirs`, where `dirOf` is the clean directory to watch for a path: every directory once, in the order
      of its first path. In particular the first directory belongs to the first path. */
  method WatchDirs(paths: seq<string>, dirOf: string -> string) returns (dirs: seq<string>)
    ensures forall i, j :: 0 <= i < j < |dirs| ==> dirs[i] != dirs[j]
    ensures forall d :: d in dirs <==> exists p :: p in paths && dirOf(p) == d
    ensures paths != [] ==> dirs != [] && dirs[0] == dirOf(paths[0])
  {
    dirs := [];
    var seen: set<string> := {};
    for i := 0 to |paths|
      invariant forall i, j :: 0 <= i < j < |dirs| ==> dirs[i] != dirs[j]
      invariant forall d :: d in dirs <==> d in seen
      invariant forall d :: d in seen <==> exists p :: p in paths[..i] && dirOf(p) == d
      invariant i == 0 ==> dirs == []
      invariant i > 0 ==> dirs != [] && dirs[0] == dirOf(paths[0])
    {
      var d := dirOf(paths[i]);
      assert paths[..i + 1] == paths[..i] + [paths[i]];
      if d in seen {
        continue;
      }
      seen := seen + {d};
      dirs := dirs + [d];
    }
    assert paths[..|paths|] == paths;
  }
}
