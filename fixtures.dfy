/**
 * Fixture path resolution: a relative fixture path is given exactly one
 * leading separator, its forward slashes are rewritten to the platform's
 * directory separator, and the result is appended to the configured base
 * path. The filesystem is a map from path to file content; a path names a
 * regular file iff it is a key of the map.
 */
module Fixtures {
  import opened Wrappers

  type FileSystem = map<string, string>

  /** A run of `k` forward slashes. */
  function Slashes(k: nat): string
  {
    seq(k, _ => '/')
  }

  /** PHP `ltrim(s, '/')`: what is left of `s` after every leading slash is removed. */
  function LTrimSlashes(s: string): (r: string)
    ensures |r| <= |s| && r == s[|s| - |r|..]
    ensures r == [] || r[0] != '/'
    ensures forall i :: 0 <= i < |s| - |r| ==> s[i] == '/'
  {
    if s != [] && s[0] == '/' then LTrimSlashes(s[1..]) else s
  }

  /** PHP `str_replace('/', sep, s)`: every forward slash becomes `sep`, every other character stays. */
  function ReplaceSlashes(s: string, sep: char): (r: string)
    ensures |r| == |s|
    ensures forall i :: 0 <= i < |s| ==> r[i] == (if s[i] == '/' then sep else s[i])
  {
    if s == [] then [] else [if s[0] == '/' then sep else s[0]] + ReplaceSlashes(s[1..], sep)
  }

  /** The fixture suffix: one leading separator, then the fixture with its leading slashes dropped and the rest rewritten. */
  function NormaliseFixture(fixture: string, sep: char): (r: string)
    ensures |r| >= 1 && r[0] == sep
    ensures sep != '/' ==> forall i :: 0 <= i < |r| ==> r[i] != '/'
  {
    ReplaceSlashes("/" + LTrimSlashes(fixture), sep)
  }

  /** The path the loader reads: the base path followed by the normalised fixture. */
  function ResolveFixturePath(base: string, fixture: string, sep: char): (path: string)
    ensures |path| > |base| && path[..|base|] == base && path[|base|] == sep
  {
    base + NormaliseFixture(fixture, sep)
  }

  /** The exception raised when the resolved path is not a regular file. */
  datatype FixtureError = FixtureNotFound(path: string)
  {
    /** The exception message, which quotes the resolved path. */
    function Message(): (m: string)
      ensures |m| == |path| + 27
      ensures m[..15] == "Fixture file: \"" && m[15..15 + |path|] == path
      ensures m[15 + |path|..] == "\" not found!"
    {
      "Fixture file: \"" + path + "\" not found!"
    }
  }

  /** Loading a fixture: the content of the resolved path, or an error naming that path. */
  function LoadFixture(fs: FileSystem, base: string, fixture: string, sep: char): (r: Result<string, FixtureError>)
    ensures r.Success? <==> ResolveFixturePath(base, fixture, sep) in fs
    ensures r.Success? ==> r.value == fs[ResolveFixturePath(base, fixture, sep)]
    ensures r.Failure? ==> r.error == FixtureNotFound(ResolveFixturePath(base, fixture, sep))
  {
    var path := ResolveFixturePath(base, fixture, sep);
    if path in fs then Success(fs[path]) else Failure(FixtureNotFound(path))
  }

  /** After the leading slashes, the normalised suffix is the rest of the fixture with its slashes rewritten. */
  lemma NormaliseShape(fixture: string, sep: char, k: nat, rest: string)
    requires fixture == Slashes(k) + rest
    requires rest == [] || rest[0] != '/'
    ensures NormaliseFixture(fixture, sep) == [sep] + ReplaceSlashes(rest, sep)
  {
    LTrimSlashesDropsPrefix(k, rest);
    ReplaceSlashesAppend("/", rest, sep);
  }

  lemma {:induction false} LTrimSlashesDropsPrefix(k: nat, s: string)
    ensures LTrimSlashes(Slashes(k) + s) == LTrimSlashes(s)
  {
    var t := Slashes(k) + s;
    if k > 0 {
      assert t[0] == '/';
      assert t[1..] == Slashes(k - 1) + s;
      LTrimSlashesDropsPrefix(k - 1, s);
    } else {
      assert t == s;
    }
  }

  lemma ReplaceSlashesAppend(a: string, b: string, sep: char)
    ensures ReplaceSlashes(a + b, sep) == ReplaceSlashes(a, sep) + ReplaceSlashes(b, sep)
  {
    assert forall i :: 0 <= i < |a + b| ==>
      ReplaceSlashes(a + b, sep)[i] == (ReplaceSlashes(a, sep) + ReplaceSlashes(b, sep))[i];
  }

  /** `a/b`, `/a/b` and `//a/b` normalise identically: any number of leading slashes collapse into one separator. */
  lemma NormaliseIgnoresLeadingSlashes(k: nat, fixture: string, sep: char)
    ensures NormaliseFixture(Slashes(k) + fixture, sep) == NormaliseFixture(fixture, sep)
  {
    LTrimSlashesDropsPrefix(k, fixture);
  }

  /** With `/` as the separator the suffix begins with exactly one slash. */
  lemma NormaliseSingleLeadingSlash(fixture: string)
    ensures var r := NormaliseFixture(fixture, '/'); r[0] == '/' && (|r| == 1 || r[1] != '/')
  {
    var t := LTrimSlashes(fixture);
    ReplaceSlashesAppend("/", t, '/');
  }

  /** With `/` as the separator, normalising an already normalised fixture changes nothing. */
  lemma NormaliseIdempotent(fixture: string)
    ensures NormaliseFixture(NormaliseFixture(fixture, '/'), '/') == NormaliseFixture(fixture, '/')
  {
    var t := LTrimSlashes(fixture);
    var r := NormaliseFixture(fixture, '/');
    ReplaceSlashesBySlash("/" + t);
    assert r == Slashes(1) + t;
    NormaliseShape(r, '/', 1, t);
    ReplaceSlashesBySlash(t);
  }

  /** Rewriting slashes to slashes is the identity. */
  lemma ReplaceSlashesBySlash(s: string)
    ensures ReplaceSlashes(s, '/') == s
  {
  }

  /** Fixtures that differ only in leading slashes load the same file, or fail on the same path. */
  lemma LoadIgnoresLeadingSlashes(fs: FileSystem, base: string, k: nat, fixture: string, sep: char)
    ensures LoadFixture(fs, base, Slashes(k) + fixture, sep) == LoadFixture(fs, base, fixture, sep)
  {
    NormaliseIgnoresLeadingSlashes(k, fixture, sep);
  }

  /** Storing content at the resolved path and then loading the fixture returns exactly that content. */
  lemma LoadAfterStore(fs: FileSystem, base: string, fixture: string, sep: char, content: string)
    ensures LoadFixture(fs[ResolveFixturePath(base, fixture, sep) := content], base, fixture, sep) == Success(content)
  {
  }

  /** A path with no slash is left as it is. */
  lemma ReplaceSlashesNoSlash(s: string, sep: char)
    requires '/' !in s
    ensures ReplaceSlashes(s, sep) == s
  {
  }

  lemma ReplaceSlashesOneSlash(dir: string, file: string, sep: char)
    requires '/' !in dir && '/' !in file
    ensures ReplaceSlashes(dir + "/" + file, sep) == dir + [sep] + file
  {
    ReplaceSlashesAppend(dir + "/", file, sep);
    ReplaceSlashesAppend(dir, "/", sep);
    ReplaceSlashesNoSlash(dir, sep);
    ReplaceSlashesNoSlash(file, sep);
  }

  /**
   * A fixture `dir/file` under base `base` resolves to `base` `sep` `dir`
   * `sep` `file`, whatever slashes precede it: base `/fixtures` with
   * `sub/a.txt` gives `/fixtures/sub/a.txt`, and with separator `\` the
   * fixture `//sub/a.txt` gives `/fixtures\sub\a.txt`.
   */
  lemma ResolveNestedFixture(base: string, k: nat, dir: string, file: string, sep: char)
    requires dir != [] && '/' !in dir && '/' !in file
    ensures ResolveFixturePath(base, Slashes(k) + dir + "/" + file, sep) == base + [sep] + dir + [sep] + file
  {
    var rest := dir + "/" + file;
    var fixture := Slashes(k) + dir + "/" + file;
    assert fixture == Slashes(k) + rest;
    var suffix := [sep] + dir + [sep] + file;
    assert NormaliseFixture(fixture, sep) == suffix by {
      NormaliseShape(fixture, sep, k, rest);
      ReplaceSlashesOneSlash(dir, file, sep);
    }
  }

  /** The empty fixture resolves to the base path followed by one separator, and fails unless that is a file. */
  lemma EmptyFixtureResolvesToBase(fs: FileSystem, base: string, sep: char)
    ensures ResolveFixturePath(base, "", sep) == base + [sep]
    ensures base + [sep] !in fs ==> LoadFixture(fs, base, "", sep) == Failure(FixtureNotFound(base + [sep]))
  {
    NormaliseShape("", sep, 0, "");
  }
}
