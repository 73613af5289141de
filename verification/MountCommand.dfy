/** The mount command that `JMount` prints into a mount pod and `ParseMntPath` reads back. */
module MountCommand {
  import opened Text

  const POD_MOUNT_BASE := "/mosfs"
  const MOUNT_BINARY := "/sbin/mount.juicefs"

  /** `filepath.Join(PodMountBase, volumeId)` for a volume id without a slash. */
  function MountPath(id: string): string
    requires '/' !in id
  {
    if id == "" || id == "." then POD_MOUNT_BASE
    else if id == ".." then "/"
    else POD_MOUNT_BASE + "/" + id
  }

  /** The command line assembled by `JMount`, for either edition of the file system. */
  function Print(isCe: bool, source: string, mountPath: string, options: seq<string>): string {
    var extra := if isCe then "metrics=0.0.0.0:9567" else "foreground";
    Join([MOUNT_BINARY, source, mountPath, "-o", Join(options + [extra], ",")], " ")
  }

  /** `quoteForShell`. */
  function Quote(cmd: string): string {
    ReplaceChar(ReplaceChar(cmd, '(', "\\("), ')', "\\)")
  }

  /** `ParseMntPath`: the mount path and the volume id, or nothing for the error exits. */
  function Parse(cmd: string): Option<(string, string)> {
    var args := Fields(cmd);
    if |args| < 3 || !(POD_MOUNT_BASE <= args[2]) then None
    else
      var parts := Split(args[2], "/");
      if |parts| < 3 then None else Some((args[2], parts[2]))
  }

  /** What the parser accepts: a third word below the mount base, with a component of its own. */
  lemma ParseNeeds(cmd: string)
    ensures Parse(cmd).Some? <==>
      && |Fields(cmd)| >= 3 && (exists rest :: Fields(cmd)[2] == "/mosfs" + rest)
      && |Split(Fields(cmd)[2], "/")| >= 3
    ensures Parse(cmd).Some? ==>
      Parse(cmd).value.0 == Fields(cmd)[2] && Parse(cmd).value.1 == Split(Fields(cmd)[2], "/")[2]
  {
    hide Fields, Split;
    if |Fields(cmd)| >= 3 && POD_MOUNT_BASE <= Fields(cmd)[2] {
      var path := Fields(cmd)[2];
      assert path == "/mosfs" + path[6..];
    }
  }

  /** The ids that `filepath.Join` keeps as one more path component. */
  predicate IsComponent(id: string) {
    id != "" && id != "." && id != ".."
  }

  /** The volume ids whose mount path survives printing, quoting and parsing. */
  predicate ValidVolumeId(id: string) {
    && IsComponent(id)
    && '/' !in id && '(' !in id && ')' !in id
    && SpaceFree(id)
  }

  lemma QuoteConcat(a: string, b: string)
    ensures Quote(a + b) == Quote(a) + Quote(b)
  {
    ReplaceCharConcat(a, b, '(', "\\(");
    ReplaceCharConcat(ReplaceChar(a, '(', "\\("), ReplaceChar(b, '(', "\\("), ')', "\\)");
  }

  /** What the shell makes of the quoted parentheses: the backslash goes. */
  function Unquote(s: string): string {
    if |s| > 1 && s[0] == '\\' && (s[1] == '(' || s[1] == ')') then [s[1]] + Unquote(s[2..])
    else if s == "" then ""
    else [s[0]] + Unquote(s[1..])
  }

  lemma QuoteChar(c: char)
    ensures Quote([c]) == if c == '(' || c == ')' then ['\\', c] else [c]
  {
    ReplaceOne(c, '(', "\\(");
    if c == '(' {
      assert "\\(" == ['\\'] + ['('];
      ReplaceCharConcat(['\\'], ['('], ')', "\\)");
      ReplaceOne('\\', ')', "\\)");
      ReplaceOne('(', ')', "\\)");
      assert ['\\'] + ['('] == ['\\', c];
    } else {
      ReplaceOne(c, ')', "\\)");
    }
  }

  lemma ReplaceOne(c: char, d: char, sub: string)
    ensures ReplaceChar([c], d, sub) == if c == d then sub else [c]
  {
    var rest := [c][1..];
    assert rest == "";
    assert ReplaceChar(rest, d, sub) == "" && sub + "" == sub && [c] + "" == [c];
  }

  lemma QuoteStart(s: string)
    ensures Quote(s) != "" ==> Quote(s)[0] != '(' && Quote(s)[0] != ')'
  {
    hide Quote;
    if s != "" {
      assert s == [s[0]] + s[1..];
      QuoteConcat([s[0]], s[1..]);
      QuoteChar(s[0]);
    } else {
      QuoteEmpty();
    }
  }

  lemma QuoteEmpty()
    ensures Quote("") == ""
  {
  }

  /** The shell sees the command that was printed, whatever is in it. */
  lemma {:induction false} QuoteIsUndone(s: string)
    ensures Unquote(Quote(s)) == s
  {
    hide Quote;
    if s == "" {
      QuoteEmpty();
    } else {
      var c, rest := s[0], s[1..];
      assert s == [c] + rest;
      QuoteConcat([c], rest);
      QuoteChar(c);
      QuoteStart(rest);
      QuoteIsUndone(rest);
      var q := Quote([c]) + Quote(rest);
      if c == '(' || c == ')' {
        assert q[2..] == Quote(rest);
      } else {
        assert q[1..] == Quote(rest) && q[0] == c;
      }
    }
  }

  /** Quoting leaves a text unchanged exactly when it has no parenthesis. */
  lemma QuoteUnchanged(s: string)
    ensures Quote(s) == s <==> '(' !in s && ')' !in s
    ensures SpaceFree(s) ==> SpaceFree(Quote(s))
  {
    var once := ReplaceChar(s, '(', "\\(");
    ReplaceCharGrows(s, '(', "\\(");
    ReplaceCharGrows(once, ')', "\\)");
    if SpaceFree(s) {
      ReplaceCharSpaceFree(s, '(', "\\(");
      ReplaceCharSpaceFree(once, ')', "\\)");
    }
  }

  lemma PrintShape(isCe: bool, source: string, mountPath: string, options: seq<string>)
    returns (tail: string)
    ensures Print(isCe, source, mountPath, options)
         == MOUNT_BINARY + (" " + (source + (" " + (mountPath + (" " + tail)))))
  {
    var extra := if isCe then "metrics=0.0.0.0:9567" else "foreground";
    var opts := Join(options + [extra], ",");
    var args := [MOUNT_BINARY, source, mountPath, "-o", opts];
    tail := Join(["-o", opts], " ");
    assert args[1..] == [source, mountPath, "-o", opts];
    assert args[1..][1..] == [mountPath, "-o", opts];
    assert args[1..][1..][1..] == ["-o", opts];
    calc {
      Join(args, " ");
      MOUNT_BINARY + " " + Join(args[1..], " ");
      MOUNT_BINARY + " " + (source + " " + Join(args[1..][1..], " "));
      MOUNT_BINARY + " " + (source + " " + (mountPath + " " + tail));
      MOUNT_BINARY + (" " + (source + (" " + (mountPath + (" " + tail)))));
    }
  }

  /** The words of the printed command: the mount program, the source, the mount path, and all the
      options in their order, with the one that `JMount` adds. */
  lemma PrintedWords(isCe: bool, source: string, mountPath: string, options: seq<string>, opts: string)
    requires source != "" && SpaceFree(source) && mountPath != "" && SpaceFree(mountPath)
    requires opts == Join(options + [if isCe then "metrics=0.0.0.0:9567" else "foreground"], ",")
    requires opts != "" && SpaceFree(opts)
    ensures Fields(Print(isCe, source, mountPath, options)) == ["/sbin/mount.juicefs", source, mountPath, "-o", opts]
  {
    var binary, dash := MOUNT_BINARY, "-o";
    JoinedWords([binary, source, mountPath, dash, opts]);
  }

  /** Joining words and breaking the line up again gives the words back. */
  lemma {:induction false} JoinedWords(words: seq<string>)
    requires forall i :: 0 <= i < |words| ==> words[i] != "" && SpaceFree(words[i])
    ensures Fields(Join(words, " ")) == words
  {
    if |words| == 1 {
      FieldsWord(words[0], "");
      assert words[0] + "" == words[0];
    } else if |words| > 1 {
      var rest := Join(words[1..], " ");
      JoinedWords(words[1..]);
      assert Join(words, " ") == words[0] + (" " + rest);
      FieldsStep(words[0], rest);
    }
  }

  lemma QuoteStep(a: string, b: string)
    ensures Quote(a + (" " + b)) == Quote(a) + (" " + Quote(b))
  {
    QuoteConcat(a, " " + b);
    QuoteConcat(" ", b);
    QuoteUnchanged(" ");
  }

  /** A word, then a quoted word, then whatever the rest of the quoted line breaks into. */
  lemma QuotedWords(binary: string, source: string, mountPath: string, tail: string)
    requires binary != "" && SpaceFree(binary) && '(' !in binary && ')' !in binary
    requires source != "" && SpaceFree(source)
    ensures Fields(Quote(binary + (" " + (source + (" " + (mountPath + (" " + tail)))))))
         == [binary] + ([Quote(source)] + Fields(Quote(mountPath) + (" " + Quote(tail))))
  {
    var third := mountPath + (" " + tail);
    var second := source + (" " + third);
    QuoteStep(binary, second);
    QuoteStep(source, third);
    QuoteStep(mountPath, tail);
    QuoteUnchanged(binary);
    QuoteUnchanged(source);
    QuoteNonEmpty(source);
    FieldsStep(binary, Quote(second));
    FieldsStep(Quote(source), Quote(third));
  }

  lemma QuoteNonEmpty(s: string)
    requires s != ""
    ensures Quote(s) != ""
  {
    ReplaceCharGrows(s, '(', "\\(");
    ReplaceCharGrows(ReplaceChar(s, '(', "\\("), ')', "\\)");
  }

  lemma SplitTwoSlashes(a: string, b: string, id: string)
    requires '/' !in a && '/' !in b && '/' !in id
    ensures Split(a + "/" + (b + "/" + id), "/") == [a, b, id]
    ensures Split(a + "/" + b, "/") == [a, b]
  {
    SplitAtChar(a, '/', b + "/" + id);
    SplitAtChar(b, '/', id);
    SplitAtChar(id, '/', a);
    SplitAtChar(a, '/', b);
  }

  /** What the parser sees of a printed mount path: its last component, for the ids that are one. */
  lemma MountPathParts(id: string, path: string)
    requires '/' !in id && path == POD_MOUNT_BASE + "/" + id
    ensures POD_MOUNT_BASE <= path
    ensures var parts := Split(path, "/"); |parts| == 3 && parts[2] == id
  {
    assert path == "" + "/" + ("mosfs" + "/" + id);
    ThreeParts(path, "", "mosfs", id);
  }

  lemma ThreeParts(path: string, a: string, b: string, id: string)
    requires path == a + "/" + (b + "/" + id)
    requires '/' !in a && '/' !in b && '/' !in id
    ensures var parts := Split(path, "/"); |parts| == 3 && parts[2] == id
  {
    SplitTwoSlashes(a, b, id);
  }

  lemma MountBaseParts(path: string)
    requires path == POD_MOUNT_BASE
    ensures |Split(path, "/")| == 2
  {
    var root, base := "", "mosfs";
    SplitTwoSlashes(root, base, root);
    assert path == root + "/" + base;
  }

  /** The third word of the quoted command is the mount path exactly when quoting and cutting
      leave it alone. */
  lemma ThirdWord(path: string, words: seq<string>, rest: string)
    requires path != ""
    requires words == Fields(Quote(path) + (" " + rest))
    ensures SpaceFree(path) ==> |words| > 0 && words[0] == Quote(path)
    ensures |words| > 0 && words[0] == path ==> SpaceFree(path)
  {
    QuoteUnchanged(path);
    QuoteNonEmpty(path);
    if SpaceFree(path) {
      FieldsStep(Quote(path), rest);
    } else if |words| > 0 {
      FieldsSpaceFree(Quote(path) + (" " + rest), 0);
    }
  }

  /** The parser on a line whose words after the second come from the mount path. */
  lemma ParseWords(cmd: string, id: string, path: string, a: string, b: string, rest: string)
    requires '/' !in id && path == MountPath(id)
    requires Fields(cmd) == [a] + ([b] + Fields(Quote(path) + (" " + rest)))
    ensures Parse(cmd) == Some((path, id)) <==> ValidVolumeId(id)
  {
    var words := Fields(Quote(path) + (" " + rest));
    ThirdWord(path, words, rest);
    assert |words| > 0 ==> Fields(cmd)[2] == words[0];
    QuoteUnchanged(path);
    if IsComponent(id) {
      MountPathParts(id, path);
      PathSpaceFree(id, path);
    } else if id != ".." {
      MountBaseParts(path);
    }
  }

  /** Parsing the quoted command gives back the printed mount path and volume id exactly for the
      valid volume ids, whatever the options are. */
  lemma RoundTrip(isCe: bool, source: string, id: string, options: seq<string>)
    requires source != "" && SpaceFree(source)
    requires '/' !in id
    ensures Parse(Quote(Print(isCe, source, MountPath(id), options))) == Some((MountPath(id), id))
       <==> ValidVolumeId(id)
  {
    var binary, path := MOUNT_BINARY, MountPath(id);
    var tail := PrintShape(isCe, source, path, options);
    QuotedWords(binary, source, path, tail);
    ParseWords(Quote(Print(isCe, source, path, options)), id, path, binary, Quote(source), Quote(tail));
  }

  lemma PathSpaceFree(id: string, path: string)
    requires path == POD_MOUNT_BASE + "/" + id
    ensures SpaceFree(path) == SpaceFree(id)
    ensures ('(' in path || ')' in path) == ('(' in id || ')' in id)
  {
    assert forall i :: 0 <= i < |id| ==> path[7 + i] == id[i];
    assert forall i :: 0 <= i < 7 ==> path[i] == "/mosfs/"[i];
  }
}
