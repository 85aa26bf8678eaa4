/** The output folder that reconstruct derives from the file-name prefix:
    the prefix is split at '/', and every piece but the last is written back
    followed by '/'. The result is the prefix up to and including its last
    '/', or the empty string when it has none. */
module Folder {

  /** The position of the first occurrence of c in s. */
  function IndexOf(s: string, c: char): (p: nat)
    requires c in s
    ensures p < |s| && s[p] == c && c !in s[..p]
  {
    if s[0] == c then 0 else 1 + IndexOf(s[1..], c)
  }

  /** Python's s.split(sep): the pieces between the separators, in order;
      there is always at least one. */
  function Split(s: string, sep: char): (parts: seq<string>)
    ensures |parts| >= 1
    ensures forall n :: 0 <= n < |parts| ==> sep !in parts[n]
    decreases |s|
  {
    if sep !in s then [s]
    else
      var p := IndexOf(s, sep);
      [s[..p]] + Split(s[p + 1..], sep)
  }

  /** Python's sep.join(parts). */
  function Join(parts: seq<string>, sep: char): string
    requires |parts| >= 1
  {
    if |parts| == 1 then parts[0] else parts[0] + [sep] + Join(parts[1..], sep)
  }

  /** Joining the pieces of a split gives back the string. */
  lemma {:induction false} JoinSplit(s: string, sep: char)
    ensures Join(Split(s, sep), sep) == s
    decreases |s|
  {
    if sep in s {
      var p := IndexOf(s, sep);
      JoinSplit(s[p + 1..], sep);
      assert s == s[..p] + [sep] + s[p + 1..];
    }
  }

  /** Every piece followed by '/': what the loop over folders[:-1] builds. */
  function Terminated(parts: seq<string>): string {
    if parts == [] then "" else Terminated(parts[..|parts| - 1]) + parts[|parts| - 1] + "/"
  }

  lemma {:induction false} TerminatedCons(p: string, parts: seq<string>)
    ensures Terminated([p] + parts) == p + "/" + Terminated(parts)
    decreases |parts|
  {
    if parts != [] {
      var last := parts[|parts| - 1];
      assert ([p] + parts)[..|parts|] == [p] + parts[..|parts| - 1];
      TerminatedCons(p, parts[..|parts| - 1]);
    }
  }

  /** The longest prefix of s that is empty or ends in '/'. */
  function DirPrefix(s: string): (d: string)
    ensures |d| <= |s| && d == s[..|d|]
    ensures d == "" || d[|d| - 1] == '/'
    ensures '/' !in s[|d|..]
    decreases |s|
  {
    if |s| == 0 then ""
    else if s[|s| - 1] == '/' then s
    else
      assert s[..|s| - 1][|DirPrefix(s[..|s| - 1])|..] + [s[|s| - 1]] == s[|DirPrefix(s[..|s| - 1])|..];
      DirPrefix(s[..|s| - 1])
  }

  /** Everything before a '/' belongs to the folder. */
  lemma {:induction false} DirPrefixAfterSlash(u: string, rest: string)
    requires |u| > 0 && u[|u| - 1] == '/'
    ensures DirPrefix(u + rest) == u + DirPrefix(rest)
    decreases |rest|
  {
    if rest == [] {
      assert u + rest == u;
    } else {
      assert (u + rest)[..|u + rest| - 1] == u + rest[..|rest| - 1];
      if rest[|rest| - 1] != '/' {
        DirPrefixAfterSlash(u, rest[..|rest| - 1]);
      }
    }
  }

  /** A prefix without '/' has the empty folder. */
  lemma NoSlashNoFolder(s: string)
    requires '/' !in s
    ensures DirPrefix(s) == ""
  {
  }

  /** Dropping the last piece of a split at the first separator. */
  lemma SplitInit(s: string, p: nat)
    requires p < |s| && s[p] == '/' && '/' !in s[..p]
    ensures var parts, tail := Split(s, '/'), Split(s[p + 1..], '/');
            parts[..|parts| - 1] == [s[..p]] + tail[..|tail| - 1]
  {
    var parts, tail := Split(s, '/'), Split(s[p + 1..], '/');
    assert IndexOf(s, '/') == p;
    assert parts == [s[..p]] + tail;
  }

  /** The pieces before the last one, each followed by '/', spell the
      prefix up to and including its last '/'. */
  lemma {:induction false} TerminatedSplit(s: string)
    ensures var parts := Split(s, '/');
            Terminated(parts[..|parts| - 1]) == DirPrefix(s)
    decreases |s|
  {
    if '/' in s {
      var p := IndexOf(s, '/');
      var head, rest := s[..p], s[p + 1..];
      var tail := Split(rest, '/');
      var parts := Split(s, '/');
      assert s == (head + "/") + rest;
      calc {
        Terminated(parts[..|parts| - 1]);
        { SplitInit(s, p); }
        Terminated([head] + tail[..|tail| - 1]);
        { TerminatedCons(head, tail[..|tail| - 1]); }
        head + "/" + Terminated(tail[..|tail| - 1]);
        { TerminatedSplit(rest); }
        (head + "/") + DirPrefix(rest);
        { DirPrefixAfterSlash(head + "/", rest); }
        DirPrefix(s);
      }
    } else {
      NoSlashNoFolder(s);
    }
  }

  /** The folder_path loop of reconstruct. */
  method FolderPath(prefix: string) returns (folder: string)
    ensures folder == DirPrefix(prefix)
    ensures '/' !in prefix ==> folder == ""
  {
    var folders := Split(prefix, '/');
    folder := "";
    for n := 0 to |folders| - 1
      invariant folder == Terminated(folders[..n])
    {
      var p := folders[n];
      if p != "" {
        folder := folder + p;
      }
      folder := folder + "/";
      assert folders[..n + 1][..n] == folders[..n];
    }
    TerminatedSplit(prefix);
  }
}
