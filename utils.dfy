/** The helpers of src/utils.rs: splitting on a separator as `str::split` does, the
    word-wrapping routine, and the file a project is deleted from. */
module Utils {
  import opened Wrappers
  import opened ProjectModel
  import opened Storage

  // ---------------------------------------------------------------------------
  // Splitting and joining
  // ---------------------------------------------------------------------------

  /** `s.split(c)`: the pieces between the occurrences of `c`, empty ones included, so
      there is always one piece more than there are separators. */
  function Split(s: string, c: char): (parts: seq<string>)
    ensures |parts| >= 1
    ensures forall i :: 0 <= i < |parts| ==> c !in parts[i]
    decreases |s|
  {
    if s == [] then [""]
    else
      var rest := Split(s[..|s| - 1], c);
      if s[|s| - 1] == c then rest + [""]
      else rest[..|rest| - 1] + [rest[|rest| - 1] + [s[|s| - 1]]]
  }

  /** The pieces put back together with `c` between them. */
  function Join(parts: seq<string>, c: char): (s: string)
    requires |parts| >= 1
    decreases |parts|
  {
    if |parts| == 1 then parts[0] else Join(parts[..|parts| - 1], c) + [c] + parts[|parts| - 1]
  }

  /** Splitting loses nothing: joining the pieces gives the string back. */
  lemma {:induction false} JoinSplit(s: string, c: char)
    ensures Join(Split(s, c), c) == s
    decreases |s|
  {
    if s != [] {
      var init := s[..|s| - 1];
      var rest := Split(init, c);
      JoinSplit(init, c);
      if s[|s| - 1] == c {
        assert Split(s, c)[..|Split(s, c)| - 1] == rest;
      } else {
        JoinLast(rest, c, [s[|s| - 1]]);
      }
      assert init + [s[|s| - 1]] == s;
    }
  }

  /** Extending the last piece extends the joined string. */
  lemma JoinLast(parts: seq<string>, c: char, tail: string)
    requires |parts| >= 1
    ensures Join(parts[..|parts| - 1] + [parts[|parts| - 1] + tail], c) == Join(parts, c) + tail
  {
    var extended := parts[..|parts| - 1] + [parts[|parts| - 1] + tail];
    if |parts| > 1 {
      assert extended[..|extended| - 1] == parts[..|parts| - 1];
    }
  }

  /** Appending text without the separator extends the last piece. */
  lemma {:induction false} SplitAppend(s: string, u: string, c: char)
    requires c !in u
    ensures var p := Split(s, c);
      Split(s + u, c) == p[..|p| - 1] + [p[|p| - 1] + u]
    decreases |u|
  {
    if u == [] {
      assert s + u == s;
      var p := Split(s, c);
      assert p[|p| - 1] + u == p[|p| - 1];
      assert p[..|p| - 1] + [p[|p| - 1]] == p;
    } else {
      var u' := u[..|u| - 1];
      SplitAppend(s, u', c);
      assert (s + u)[..|s + u| - 1] == s + u';
      var p := Split(s, c);
      assert u' + [u[|u| - 1]] == u;
      var q := p[..|p| - 1] + [p[|p| - 1] + u'];
      assert Split(s + u', c) == q;
      assert q[..|q| - 1] == p[..|p| - 1];
      assert q[|q| - 1] + [u[|u| - 1]] == p[|p| - 1] + u;
      assert (s + u)[|s + u| - 1] == u[|u| - 1];
    }
  }

  /** Appending the separator and then text without it starts a new piece. */
  lemma SplitAppendPiece(s: string, u: string, c: char)
    requires c !in u
    ensures Split(s + [c] + u, c) == Split(s, c) + [u]
  {
    assert (s + [c])[..|s + [c]| - 1] == s;
    SplitAppend(s + [c], u, c);
    var p := Split(s + [c], c);
    assert p == Split(s, c) + [""];
    assert p[..|p| - 1] == Split(s, c);
    assert "" + u == u;
  }

  // ---------------------------------------------------------------------------
  // wrap (src/utils.rs:21-38)
  // ---------------------------------------------------------------------------

  /** What the loop of `wrap` holds after its first `n` words: the text built so far and
      the running count. Each word adds its length and one for its separator; reaching
      `limit` puts a line break before the word and restarts the count at the word's
      length. */
  function Run(words: seq<string>, limit: int, n: nat): (r: (string, int))
    requires n <= |words|
    decreases n
  {
    if n == 0 then ("", 0)
    else
      var (text, count) := Run(words, limit, n - 1);
      var word := words[n - 1];
      var next := count + |word| + 1;
      if next >= limit then (text + "\n" + word, |word|) else (text + " " + word, next)
  }

  /** The result of `wrap(s, wrapAt)`; the arrow drawn before a wrapped line takes four
      columns. */
  function Wrapped(s: string, wrapAt: nat): (r: string)
    requires wrapAt >= 4
  {
    var words := Split(s, ' ');
    Run(words, wrapAt - 4, |words|).0
  }

  /** `wrap`, with its loop. `wrapAt - 4` is an unsigned subtraction in the source, so
      `wrapAt` must be at least 4. */
  method Wrap(s: string, wrapAt: nat) returns (r: string)
    requires wrapAt >= 4
    ensures r == Wrapped(s, wrapAt)
  {
    var words := Split(s, ' ');
    var lineLength := 0;
    r := "";
    var shortenedWrap := wrapAt - 4;
    var i := 0;
    while i < |words|
      invariant 0 <= i <= |words|
      invariant (r, lineLength) == Run(words, shortenedWrap, i)
    {
      var word := words[i];
      lineLength := lineLength + |word|;
      lineLength := lineLength + 1;
      if lineLength >= shortenedWrap {
        r := r + "\n";
        lineLength := |word|;
      } else {
        r := r + " ";
      }
      r := r + word;
      i := i + 1;
    }
  }

  /** The separators the routine writes, each turned back into a space. */
  function Unwrapped(t: string): (r: string)
    ensures |r| == |t|
    ensures forall i :: 0 <= i < |t| ==> r[i] == if t[i] == '\n' then ' ' else t[i]
  {
    seq(|t|, i requires 0 <= i < |t| => if t[i] == '\n' then ' ' else t[i])
  }

  lemma UnwrappedAppend(a: string, b: string)
    ensures Unwrapped(a + b) == Unwrapped(a) + Unwrapped(b)
  {
  }

  /** Every word is written after exactly one separator, a space or a line break. */
  lemma {:induction false} RunSeparates(words: seq<string>, limit: int, n: nat)
    requires n <= |words|
    requires forall i :: 0 <= i < |words| ==> '\n' !in words[i]
    ensures n > 0 ==> Unwrapped(Run(words, limit, n).0) == " " + Join(words[..n], ' ')
    ensures n == 0 ==> Run(words, limit, n).0 == ""
    decreases n
  {
    if n > 0 {
      RunSeparates(words, limit, n - 1);
      var text := Run(words, limit, n - 1).0;
      var word := words[n - 1];
      assert Unwrapped(word) == word;
      if Run(words, limit, n).0 == text + "\n" + word {
        UnwrappedAppend(text, "\n" + word);
        UnwrappedAppend("\n", word);
      } else {
        UnwrappedAppend(text, " " + word);
        UnwrappedAppend(" ", word);
      }
      assert words[..n][..n - 1] == words[..n - 1];
      if n == 1 {
        assert text == "";
      }
    }
  }

  /** Round trip: turning the line breaks back into spaces gives the input after one
      leading space, provided the input has no line breaks of its own. */
  lemma WrapUnwraps(s: string, wrapAt: nat)
    requires wrapAt >= 4 && '\n' !in s
    ensures Unwrapped(Wrapped(s, wrapAt)) == " " + s
  {
    var words := Split(s, ' ');
    JoinSplit(s, ' ');
    forall i | 0 <= i < |words|
      ensures '\n' !in words[i]
    {
      WordsOfSplit(s, ' ', '\n', i);
    }
    RunSeparates(words, wrapAt - 4, |words|);
    assert words[..|words|] == words;
  }

  /** A piece of a split contains no character the string does not contain. */
  lemma {:induction false} WordsOfSplit(s: string, c: char, d: char, i: nat)
    requires d !in s && i < |Split(s, c)|
    ensures d !in Split(s, c)[i]
    decreases |s|
  {
    if s != [] {
      var rest := Split(s[..|s| - 1], c);
      forall j | 0 <= j < |rest|
        ensures d !in rest[j]
      {
        WordsOfSplit(s[..|s| - 1], c, d, j);
      }
    }
  }

  /** The first word of a line. */
  function FirstWord(line: string): string
  {
    Split(line, ' ')[0]
  }

  /** A line fits when it is shorter than the limit; only a line holding a single word
      may be longer. */
  predicate Fits(line: string, limit: int)
  {
    ' ' in line ==> |line| < limit
  }

  /** What the wrapped text looks like after every step: the running count is the length
      of its last line; every line fits; and a line was broken off only because the first
      word of the next one would not have fitted behind it. */
  predicate Laid(text: string, count: int, limit: int)
  {
    LinesLaid(Split(text, '\n'), count, limit)
  }

  predicate LinesLaid(lines: seq<string>, count: int, limit: int)
  {
    && |lines| >= 1
    && count == |lines[|lines| - 1]|
    && (forall i :: 0 <= i < |lines| ==> Fits(lines[i], limit))
    && (forall i :: 0 <= i < |lines| - 1 ==> |lines[i]| + 1 + |FirstWord(lines[i + 1])| >= limit)
  }

  /** Extending the last line by a word that fits keeps the lines laid out. */
  lemma LinesJoin(lines: seq<string>, count: int, limit: int, word: string)
    requires LinesLaid(lines, count, limit) && ' ' !in word
    requires count + |word| + 1 < limit
    ensures var last := lines[|lines| - 1];
      LinesLaid(lines[..|lines| - 1] + [last + (" " + word)], count + |word| + 1, limit)
  {
    var last := lines[|lines| - 1];
    var lines' := lines[..|lines| - 1] + [last + (" " + word)];
    SplitAppendPiece(last, word, ' ');
    assert last + (" " + word) == last + [' '] + word;
    assert FirstWord(last + (" " + word)) == FirstWord(last);
    forall i | 0 <= i < |lines'| - 1
      ensures |lines'[i]| + 1 + |FirstWord(lines'[i + 1])| >= limit
    {
      assert lines'[i] == lines[i];
      if i + 1 < |lines| - 1 {
        assert lines'[i + 1] == lines[i + 1];
      }
    }
    forall i | 0 <= i < |lines'|
      ensures Fits(lines'[i], limit)
    {
      if i < |lines| - 1 {
        assert lines'[i] == lines[i];
      }
    }
  }

  /** A word that starts a new line keeps the layout. */
  lemma LaidBreak(text: string, count: int, limit: int, word: string)
    requires Laid(text, count, limit) && '\n' !in word && ' ' !in word
    requires count + |word| + 1 >= limit
    ensures Laid(text + "\n" + word, |word|, limit)
  {
    var lines := Split(text, '\n');
    assert text + "\n" + word == text + ['\n'] + word;
    SplitAppendPiece(text, word, '\n');
    var lines' := lines + [word];
    assert Split(word, ' ') == [word] by {
      SplitAppend("", word, ' ');
      assert "" + word == word;
    }
    assert FirstWord(word) == word;
    forall i | 0 <= i < |lines'| - 1
      ensures |lines'[i]| + 1 + |FirstWord(lines'[i + 1])| >= limit
    {
      if i < |lines| - 1 {
        assert lines'[i] == lines[i] && lines'[i + 1] == lines[i + 1];
      }
    }
    forall i | 0 <= i < |lines'|
      ensures Fits(lines'[i], limit)
    {
      if i < |lines| {
        assert lines'[i] == lines[i];
      }
    }
  }

  /** A word that still fits behind the last line keeps the layout. */
  lemma LaidJoin(text: string, count: int, limit: int, word: string)
    requires Laid(text, count, limit) && '\n' !in word && ' ' !in word
    requires count + |word| + 1 < limit
    ensures Laid(text + " " + word, count + |word| + 1, limit)
  {
    var lines := Split(text, '\n');
    SplitAppend(text, " " + word, '\n');
    assert text + " " + word == text + (" " + word);
    LinesJoin(lines, count, limit, word);
  }

  lemma {:induction false} RunLaid(words: seq<string>, limit: int, n: nat)
    requires n <= |words|
    requires forall i :: 0 <= i < |words| ==> '\n' !in words[i] && ' ' !in words[i]
    ensures Laid(Run(words, limit, n).0, Run(words, limit, n).1, limit)
    decreases n
  {
    if n > 0 {
      RunLaid(words, limit, n - 1);
      var (text, count) := Run(words, limit, n - 1);
      var word := words[n - 1];
      if count + |word| + 1 >= limit {
        LaidBreak(text, count, limit, word);
      } else {
        LaidJoin(text, count, limit, word);
      }
    }
  }

  /** The lines `wrap` produces: each is shorter than `wrapAt - 4` characters unless it
      holds a single word, and none was broken early: the first word of each line would
      not have fitted at the end of the line before it. Lines are the pieces between line
      breaks, so the input must have none of its own. */
  lemma WrapLaysOutLines(s: string, wrapAt: nat)
    requires wrapAt >= 4 && '\n' !in s
    ensures var lines := Split(Wrapped(s, wrapAt), '\n');
      && (forall i :: 0 <= i < |lines| ==> Fits(lines[i], wrapAt - 4))
      && (forall i :: 0 <= i < |lines| - 1 ==> |lines[i]| + 1 + |FirstWord(lines[i + 1])| >= wrapAt - 4)
  {
    var words := Split(s, ' ');
    forall i | 0 <= i < |words|
      ensures '\n' !in words[i] && ' ' !in words[i]
    {
      WordsOfSplit(s, ' ', '\n', i);
    }
    RunLaid(words, wrapAt - 4, |words|);
  }

  /** With room for every word, `wrap` writes the input after a single space and breaks
      no line. */
  lemma WrapShortText(s: string, wrapAt: nat)
    requires wrapAt >= 4 && '\n' !in s && |s| + 1 < wrapAt - 4
    ensures Wrapped(s, wrapAt) == " " + s
  {
    var words := Split(s, ' ');
    forall i | 0 <= i < |words|
      ensures '\n' !in words[i] && ' ' !in words[i]
    {
      WordsOfSplit(s, ' ', '\n', i);
    }
    RunLaid(words, wrapAt - 4, |words|);
    WrapUnwraps(s, wrapAt);
    var text := Wrapped(s, wrapAt);
    var lines := Split(text, '\n');
    if '\n' in text {
      var k :| 0 <= k < |text| && text[k] == '\n';
      NewlineSplits(text, k);
      SplitLengths(text, '\n');
      FirstWordShort(lines[1]);
      assert false;
    }
    assert Unwrapped(text) == text;
  }

  /** A string with the separator in it splits into two pieces or more. */
  lemma {:induction false} NewlineSplits(t: string, k: nat)
    requires k < |t| && t[k] == '\n'
    ensures |Split(t, '\n')| >= 2
    decreases |t|
  {
    if k < |t| - 1 {
      NewlineSplits(t[..|t| - 1], k);
    }
  }

  /** The pieces with their separators take no more room than the string. */
  lemma {:induction false} SplitLengths(t: string, c: char)
    ensures var p := Split(t, c);
      |p| >= 2 ==> |p[0]| + 1 + |p[1]| <= |t|
    decreases |t|
  {
    if t != [] {
      SplitLengths(t[..|t| - 1], c);
      ShortPieces(t[..|t| - 1], c);
      var rest := Split(t[..|t| - 1], c);
      var p := Split(t, c);
      if t[|t| - 1] == c {
        assert p[0] == rest[0];
        if |rest| >= 2 {
          assert p[1] == rest[1];
        }
      } else if |rest| == 2 {
        assert p[0] == rest[0] && p[1] == rest[1] + [t[|t| - 1]];
      } else if |rest| > 2 {
        assert p[0] == rest[0] && p[1] == rest[1];
      }
    }
  }

  lemma {:induction false} FirstWordShort(line: string)
    ensures |FirstWord(line)| <= |line|
    decreases |line|
  {
    if line != [] {
      FirstWordShort(line[..|line| - 1]);
      ShortPieces(line[..|line| - 1], ' ');
    }
  }

  lemma {:induction false} ShortPieces(t: string, c: char)
    ensures forall i :: 0 <= i < |Split(t, c)| ==> |Split(t, c)[i]| <= |t|
    decreases |t|
  {
    if t != [] {
      ShortPieces(t[..|t| - 1], c);
    }
  }

  // ---------------------------------------------------------------------------
  // delete_project_of_name (src/utils.rs:49-56)
  // ---------------------------------------------------------------------------

  /** Removing the file of the project called `name` from `dir`. */
  function Deleted(fs: Fs, name: string, dir: string, o: Outcome): (e: Effect)
    ensures e.result.Ok? <==> o.Succeed? && ProjectPath(dir, name) in fs.nodes && fs.nodes[ProjectPath(dir, name)].File?
    ensures e.result.Ok? ==> ProjectPath(dir, name) !in e.fs.nodes
    ensures forall q :: q != ProjectPath(dir, name) && q in fs.nodes ==> q in e.fs.nodes && e.fs.nodes[q] == fs.nodes[q]
    ensures e.result.Err? ==> e.fs == fs
  {
    Remove(fs, ProjectPath(dir, name), o)
  }

  method DeleteProjectOfName(name: string, dir: string, disk: Disk, o: Outcome) returns (r: Result<()>)
    requires disk.Valid()
    modifies disk
    ensures disk.Valid()
    ensures Effect(disk.fs, r) == Deleted(old(disk.fs), name, dir, o)
  {
    r := disk.RemoveFile(ProjectPath(dir, name), o);
  }

  /** The delete and the write of a project address the same file: deleting a project
      just written undoes the write when the file was new, and leaves nothing to load. */
  lemma DeleteUndoesWrite(fs: Fs, dir: string, project: Project)
    requires Write(fs, ProjectPath(dir, project.name), project, Succeed).result.Ok?
    ensures var written := Write(fs, ProjectPath(dir, project.name), project, Succeed).fs;
      var gone := Deleted(written, project.name, dir, Succeed);
      && gone.result.Ok?
      && Load(gone.fs, ProjectPath(dir, project.name), Succeed).Err?
      && (ProjectPath(dir, project.name) !in fs.nodes ==> gone.fs.nodes == fs.nodes)
  {
  }
}
