/**
 From object keys to local paths: the two expressions of the syncer that strip `users/{id}/` from a key,
 and how `pathlib` reads what is left.
 */
module Paths {
  import opened Text

  predicate MatchesAt(s: string, t: string, i: nat) {
    i + |t| <= |s| && s[i..i + |t|] == t
  }

  /** `t in s`. */
  predicate Contains(s: string, t: string) {
    exists i: nat | i <= |s| :: MatchesAt(s, t, i)
  }

  predicate StartsWith(s: string, t: string) {
    t <= s
  }

  predicate EndsWith(s: string, t: string) {
    |t| <= |s| && s[|s| - |t|..] == t
  }

  /** `s.split(sep, n)`: at most `n` cuts. */
  function SplitAtMost(s: string, sep: char, n: nat): (parts: seq<string>)
    ensures 1 <= |parts| <= n + 1
  {
    if n == 0 || s == "" then [s]
    else if s[0] == sep then [""] + SplitAtMost(s[1..], sep, n - 1)
    else
      var rest := SplitAtMost(s[1..], sep, n);
      [[s[0]] + rest[0]] + rest[1..]
  }

  /** The parts after the first `n`, joined into one. */
  function Capped(all: seq<string>, sep: char, n: nat): seq<string> {
    if |all| <= n then all else all[..n] + [Join(all[n..], sep)]
  }

  lemma CappedCons(first: string, rest: seq<string>, sep: char, n: nat)
    ensures Capped([first] + rest, sep, n + 1) == [first] + Capped(rest, sep, n)
  {
    var all := [first] + rest;
    if |rest| > n {
      assert all[..n + 1] == [first] + rest[..n] && all[n + 1..] == rest[n..];
    }
  }

  lemma CappedHead(first: string, rest: seq<string>, sep: char, n: nat)
    requires |rest| > 0 && n > 0
    ensures |Capped(rest, sep, n)| > 0
    ensures Capped([first + rest[0]] + rest[1..], sep, n) == [first + Capped(rest, sep, n)[0]] + Capped(rest, sep, n)[1..]
  {
    CappedCons(rest[0], rest[1..], sep, n - 1);
    CappedCons(first + rest[0], rest[1..], sep, n - 1);
    assert rest == [rest[0]] + rest[1..];
  }

  /** Stopping early leaves the remaining parts joined. */
  lemma {:induction false} SplitAtMostJoinsRest(s: string, sep: char, n: nat)
    ensures SplitAtMost(s, sep, n) == Capped(Split(s, sep), sep, n)
  {
    if n == 0 {
      JoinSplit(s, sep);
      assert Split(s, sep)[0..] == Split(s, sep);
    } else if s != "" {
      var rest := Split(s[1..], sep);
      if s[0] == sep {
        SplitAtMostJoinsRest(s[1..], sep, n - 1);
        CappedCons("", rest, sep, n - 1);
      } else {
        SplitAtMostJoinsRest(s[1..], sep, n);
        CappedHead([s[0]], rest, sep, n);
      }
    }
  }

  /******* Local keys *******/

  /** `sync_all`: drop the first two parts of a key below `users`. */
  function LocalKey(key: string): string {
    var parts := Split(key, '/');
    if |parts| >= 3 && parts[0] == "users" then Join(parts[2..], '/') else key
  }

  /** `sync_tool`: what follows the second slash. */
  function ToolLocalKey(key: string): string {
    var parts := SplitAtMost(key, '/', 2);
    if |parts| == 3 then parts[2] else key
  }

  lemma {:induction false} JoinLength(parts: seq<string>, sep: char)
    requires |parts| >= 2
    ensures |Join(parts[1..], sep)| < |Join(parts, sep)|
  {}

  /** The two expressions agree exactly on keys below `users` and on keys with fewer than two slashes. */
  lemma LocalKeysAgree(key: string)
    ensures LocalKey(key) == ToolLocalKey(key) <==> |Split(key, '/')| < 3 || Split(key, '/')[0] == "users"
  {
    var parts := Split(key, '/');
    SplitAtMostJoinsRest(key, '/', 2);
    if |parts| >= 3 {
      JoinSplit(key, '/');
      JoinLength(parts, '/');
      JoinLength(parts[1..], '/');
      assert parts[1..][1..] == parts[2..];
    }
  }

  lemma BelowUsers(key: string)
    requires StartsWith(key, "users/")
    ensures Split(key, '/')[0] == "users" && ToolLocalKey(key) == LocalKey(key)
  {
    assert key == "users" + ['/'] + key[6..];
    SplitConcat("users", key[6..], '/');
    SplitFree("users", '/');
    LocalKeysAgree(key);
  }

  /******* Paths *******/

  /** A place in the file system, as the names from the root down. */
  type Path = seq<string>

  /** Parts of a text that name nothing themselves. */
  predicate Silent(part: string) {
    part == "" || part == "."
  }

  /** Parts that do not stand for a name on the path. */
  predicate Moving(part: string) {
    Silent(part) || part == ".."
  }

  predicate AreNames(parts: seq<string>) {
    forall i :: 0 <= i < |parts| ==> !Moving(parts[i]) && Free(parts[i], '/')
  }

  type RealPath = p: Path | AreNames(p) witness []

  /** The data directory: somewhere below the root, and the results hold wherever that is. */
  const DATA_ROOT: RealPath

  /** Where the file system ends up from `at`: empty parts and `.` stay, `..` goes up, and the root is its own parent. */
  function Walk(at: Path, parts: seq<string>): Path
    decreases parts
  {
    if parts == [] then at
    else if Silent(parts[0]) then Walk(at, parts[1..])
    else if parts[0] == ".." then Walk(if at == [] then [] else at[..|at| - 1], parts[1..])
    else Walk(at + [parts[0]], parts[1..])
  }

  /** `base / text`: an absolute text starts from the root. */
  function Below(base: Path, text: string): Path {
    Walk(if text != "" && text[0] == '/' then [] else base, Split(text, '/'))
  }

  /** `data_dir / local`. */
  function Place(local: string): Path {
    Below(DATA_ROOT, local)
  }

  predicate StrictlyBelow(p: Path, dir: Path) {
    dir < p
  }

  /** `relative_to(data_dir).as_posix()`, for a file inside the data directory. */
  function Posix(p: Path): string
    requires StrictlyBelow(p, DATA_ROOT)
  {
    Join(p[|DATA_ROOT|..], '/')
  }

  /** The file lies below a directory named `tools` of the data directory. */
  predicate BelowTools(p: Path) {
    StrictlyBelow(p, DATA_ROOT) && exists i: nat :: |DATA_ROOT| <= i < |p| - 1 && p[i] == "tools"
  }

  /** Every part of the text is a name: none is empty, `.` or `..`. */
  predicate Plain(local: string) {
    var parts := Split(local, '/');
    forall i :: 0 <= i < |parts| ==> !Moving(parts[i])
  }

  /** Names just extend the path. */
  lemma {:induction false} WalkNames(at: Path, names: seq<string>)
    requires forall i :: 0 <= i < |names| ==> !Moving(names[i])
    ensures Walk(at, names) == at + names
    decreases names
  {
    if names != [] {
      WalkNames(at + [names[0]], names[1..]);
      assert at + [names[0]] + names[1..] == at + names;
    }
  }

  lemma {:induction false} WalkIsReal(at: Path, parts: seq<string>)
    requires AreNames(at) && AllFree(parts, '/')
    ensures AreNames(Walk(at, parts))
    decreases parts
  {
    if parts != [] {
      WalkIsReal(if Silent(parts[0]) then at else if parts[0] != ".." then at + [parts[0]] else if at == [] then [] else at[..|at| - 1], parts[1..]);
    }
  }

  lemma {:induction false} SplitIsFree(s: string, sep: char)
    ensures AllFree(Split(s, sep), sep)
  {
    if s != "" { SplitIsFree(s[1..], sep); }
  }

  /** Every file that is written has a real path. */
  lemma PlaceIsReal(local: string)
    ensures AreNames(Place(local))
  {
    SplitIsFree(local, '/');
    WalkIsReal(if local != "" && local[0] == '/' then [] else DATA_ROOT, Split(local, '/'));
  }

  /** Writing a path inside the data directory as text and reading it again gives the same path. */
  lemma PlaceOfPosix(p: Path)
    requires AreNames(p) && StrictlyBelow(p, DATA_ROOT)
    ensures Place(Posix(p)) == p
  {
    var names := p[|DATA_ROOT|..];
    SplitJoin(names, '/');
    WalkNames(DATA_ROOT, names);
    assert Posix(p)[0] == names[0][0] && names[0][0] in names[0];
  }

  /** A local key whose file lies inside the data directory is the text of its own path exactly when it is plain. */
  lemma PlainIsPosix(local: string)
    requires StrictlyBelow(Place(local), DATA_ROOT)
    ensures Posix(Place(local)) == local <==> Plain(local)
  {
    var parts, p := Split(local, '/'), Place(local);
    var names := p[|DATA_ROOT|..];
    PlaceIsReal(local);
    if Plain(local) {
      NotAbsolute(local);
      WalkNames(DATA_ROOT, parts);
      assert names == parts;
      JoinSplit(local, '/');
    }
    if Posix(p) == local { SplitJoin(names, '/'); }
  }

  lemma NotAbsolute(local: string)
    requires Plain(local)
    ensures local != "" && local[0] != '/'
  {
    assert !Moving(Split(local, '/')[0]);
  }
}
