/** Recognising a Codex process by its command line (runners/codex.py, the command builders;
    process_control.py, process_command_line and command_line_matches_working_directory on POSIX). */
module CommandLine {

  predicate Space(c: char) {
    c == ' ' || c == '\t' || c == '\n' || c == '\r'
  }

  function StripLeft(s: string): string {
    if s == "" || !Space(s[0]) then s else StripLeft(s[1..])
  }

  function StripRight(s: string): string {
    if s == "" || !Space(s[|s| - 1]) then s else StripRight(s[..|s| - 1])
  }

  function Strip(s: string): string {
    StripRight(StripLeft(s))
  }

  /** replace("\\", "/") */
  function Slashes(s: string): string {
    seq(|s|, i requires 0 <= i < |s| => if s[i] == '\\' then '/' else s[i])
  }

  /** casefold(), character by character; a character may fold to several. */
  function Fold(fold: char -> string, s: string): string {
    if s == "" then "" else fold(s[0]) + Fold(fold, s[1..])
  }

  predicate At(s: string, p: string, i: nat) {
    i + |p| <= |s| && s[i..i + |p|] == p
  }

  /** p in s */
  predicate Contains(s: string, p: string) {
    exists i: nat | i <= |s| :: At(s, p, i)
  }

  predicate EndsWith(s: string, p: string) {
    |p| <= |s| && s[|s| - |p|..] == p
  }

  predicate WindowsLike(dir: string) {
    (|dir| >= 2 && dir[1] == ':') || (|dir| >= 2 && dir[..2] == "//")
  }

  /** canonical is canonical_working_directory. */
  predicate Matches(canonical: string -> string, fold: char -> string, commandLine: string, dir: string) {
    var command0, directory0 := Slashes(Strip(commandLine)), canonical(dir);
    var command := if WindowsLike(directory0) then Fold(fold, command0) else command0;
    var directory := if WindowsLike(directory0) then Fold(fold, directory0) else directory0;
    var plain := "--cd " + directory;
    || EndsWith(command, plain) || Contains(command, plain + " ")
    || Contains(command, "--cd \"" + directory + "\"") || Contains(command, "--cd '" + directory + "'")
  }

  // ---- the commands ----

  /** session is set for a resumed conversation. */
  function Command(executable: string, sandbox: string, approval: string, dir: string,
        session: seq<string>): seq<string> {
    [executable] + (["exec", "--json", "--sandbox", sandbox] + (["--cd", dir] + Tail(approval, session)))
  }

  function Tail(approval: string, session: seq<string>): seq<string> {
    ["--config", "approval_policy=\"" + approval + "\""] + ((if |session| == 1 then ["resume", session[0]] else []) + ["-"])
  }

  function Join(args: seq<string>): string {
    if args == [] then "" else if |args| == 1 then args[0] else args[0] + " " + Join(args[1..])
  }

  /** The text of /proc/<pid>/cmdline: every argument is followed by a NUL, read as a blank. */
  function Shown(args: seq<string>): string {
    Strip(Join(args) + " ")
  }

  lemma {:induction false} JoinAppend(a: seq<string>, b: seq<string>)
    requires a != [] && b != []
    ensures Join(a + b) == Join(a) + (" " + Join(b))
  {
    if |a| == 1 {
      assert (a + b)[1..] == b;
    } else {
      assert (a + b)[1..] == a[1..] + b;
      JoinAppend(a[1..], b);
      assert a[0] + " " + (Join(a[1..]) + (" " + Join(b))) == (a[0] + " " + Join(a[1..])) + (" " + Join(b));
    }
  }

  // ---- stripping and folding keep what is inside ----

  lemma {:induction false} StripLeftKeeps(a: string, b: string)
    requires b != "" && !Space(b[0])
    ensures exists a' :: StripLeft(a + b) == a' + b
  {
    if a == "" {
      assert a + b == "" + b;
    } else if Space(a[0]) {
      assert (a + b)[1..] == a[1..] + b;
      StripLeftKeeps(a[1..], b);
    } else {
      assert StripLeft(a + b) == a + b;
    }
  }

  lemma {:induction false} StripRightKeeps(b: string, c: string)
    requires b != "" && !Space(b[|b| - 1])
    ensures exists c' :: StripRight(b + c) == b + c'
  {
    if c == "" {
      assert b + c == b + "";
    } else if Space(c[|c| - 1]) {
      assert (b + c)[..|b + c| - 1] == b + c[..|c| - 1];
      StripRightKeeps(b, c[..|c| - 1]);
    } else {
      assert StripRight(b + c) == b + c;
    }
  }

  lemma StripKeeps(a: string, b: string, c: string) returns (a': string, c': string)
    requires b != "" && !Space(b[0]) && !Space(b[|b| - 1])
    ensures Strip(a + (b + c)) == a' + (b + c')
  {
    StripLeftKeeps(a, b + c);
    a' :| StripLeft(a + (b + c)) == a' + (b + c);
    StripRightKeeps(a' + b, c);
    assert a' + (b + c) == (a' + b) + c;
    c' :| StripRight((a' + b) + c) == (a' + b) + c';
    assert (a' + b) + c' == a' + (b + c');
  }

  lemma ContainsMiddle(a: string, p: string, b: string)
    ensures Contains(a + (p + b), p)
  {
    assert At(a + (p + b), p, |a|);
  }

  lemma SlashesKeep(s: string, p: string)
    requires Contains(s, p)
    ensures Contains(Slashes(s), Slashes(p))
  {
    var i: nat :| i <= |s| && At(s, p, i);
    assert At(Slashes(s), Slashes(p), i) by {
      forall k | 0 <= k < |p| ensures Slashes(s)[i..i + |p|][k] == Slashes(p)[k] {
        assert s[i + k] == s[i..i + |p|][k];
      }
    }
  }

  lemma {:induction false} FoldAppend(fold: char -> string, a: string, b: string)
    ensures Fold(fold, a + b) == Fold(fold, a) + Fold(fold, b)
  {
    if a == "" {
      assert a + b == b;
    } else {
      assert (a + b)[1..] == a[1..] + b;
      FoldAppend(fold, a[1..], b);
    }
  }

  lemma FoldKeeps(fold: char -> string, s: string, p: string)
    requires Contains(s, p)
    ensures Contains(Fold(fold, s), Fold(fold, p))
  {
    var i: nat :| i <= |s| && At(s, p, i);
    assert s == s[..i] + (p + s[i + |p|..]);
    FoldAppend(fold, s[..i], p + s[i + |p|..]);
    FoldAppend(fold, p, s[i + |p|..]);
    ContainsMiddle(Fold(fold, s[..i]), Fold(fold, p), Fold(fold, s[i + |p|..]));
  }

  // ---- recognition ----

  lemma StrippedTwice(a: string, front: string, p: string, back: string, b: string)
    requires front != "" && !Space(front[0]) && back != "" && !Space(back[|back| - 1])
    ensures Contains(Strip(Strip(a + ((front + (p + back)) + b))), p)
  {
    var inner := front + (p + back);
    var a1, b1 := StripKeeps(a, inner, b);
    var a2, b2 := StripKeeps(a1, inner, b1);
    assert a2 + (inner + b2) == (a2 + front) + (p + (back + b2));
    ContainsMiddle(a2 + front, p, back + b2);
  }

  lemma CommandForm(executable: string, sandbox: string, approval: string, dir: string, session: seq<string>)
    ensures Join(Command(executable, sandbox, approval, dir, session)) ==
            executable + (" " + (Join(["exec", "--json", "--sandbox", sandbox])
                                 + (" " + (("--cd " + dir) + (" " + Join(Tail(approval, session)))))))
  {
    var opts, tail, cd := ["exec", "--json", "--sandbox", sandbox], Tail(approval, session), ["--cd", dir];
    JoinAppend([executable], opts + (cd + tail));
    JoinAppend(opts, cd + tail);
    JoinAppend(cd, tail);
    assert Join(cd) == "--cd " + dir by {
      assert cd[1..] == [dir];
    }
  }

  lemma ShownContains(executable: string, sandbox: string, approval: string, dir: string, session: seq<string>)
    ensures Contains(Strip(Shown(Command(executable, sandbox, approval, dir, session))), "--cd " + dir + " ")
  {
    var opts, tail := Join(["exec", "--json", "--sandbox", sandbox]), Join(Tail(approval, session));
    var p := "--cd " + dir + " ";
    CommandForm(executable, sandbox, approval, dir, session);
    TailEnds(approval, session);
    OptionsBegin(sandbox);
    StrippedTwice(executable + " ", opts + " ", p, tail, " ");
    Regroup(executable, opts, "--cd " + dir, tail);
  }

  lemma Regroup(a: string, b: string, c: string, d: string)
    ensures (a + (" " + (b + (" " + (c + (" " + d)))))) + " " == (a + " ") + (((b + " ") + ((c + " ") + d)) + " ")
  {
  }

  lemma TailEnds(approval: string, session: seq<string>)
    ensures var t := Join(Tail(approval, session)); t != "" && t[|t| - 1] == '-'
  {
    var rest := (if |session| == 1 then ["resume", session[0]] else []) + ["-"];
    JoinAppend(["--config", "approval_policy=\"" + approval + "\""], rest);
    if |session| == 1 {
      JoinAppend(["resume", session[0]], ["-"]);
    }
  }

  lemma OptionsBegin(sandbox: string)
    ensures var t := Join(["exec", "--json", "--sandbox", sandbox]); t != "" && t[0] == 'e'
  {
  }

  /** The command that starts or resumes Codex in a canonical directory is always recognised. */
  lemma OwnCommandMatches(canonical: string -> string, fold: char -> string, executable: string, sandbox: string,
                          approval: string, dir: string, session: seq<string>)
    requires canonical(dir) == dir && Slashes(dir) == dir
    requires Fold(fold, "--cd ") == "--cd " && Fold(fold, " ") == " "
    ensures Matches(canonical, fold, Shown(Command(executable, sandbox, approval, dir, session)), dir)
  {
    var command := Strip(Shown(Command(executable, sandbox, approval, dir, session)));
    var p := "--cd " + dir + " ";
    ShownContains(executable, sandbox, approval, dir, session);
    SlashesKeep(command, p);
    assert Slashes(p) == p by {
      assert forall i | 0 <= i < |dir| :: Slashes(dir)[i] == dir[i];
      assert forall i | 0 <= i < |p| :: p[i] != '\\' || (5 <= i < 5 + |dir| && p[i] == dir[i - 5]);
    }
    if WindowsLike(dir) {
      FoldKeeps(fold, Slashes(command), p);
      FoldAppend(fold, "--cd " + dir, " ");
      FoldAppend(fold, "--cd ", dir);
    }
  }

  // ---- telling directories apart ----

  /** An absolute POSIX path without backslashes. */
  predicate Absolute(dir: string) {
    dir != "" && dir[0] == '/' && !WindowsLike(dir) && forall k | 0 <= k < |dir| :: dir[k] != '\\'
  }

  predicate NoBlank(dir: string) {
    forall k | 0 <= k < |dir| :: dir[k] != ' '
  }

  ghost predicate OptionOnce(command: string) {
    forall i: nat, k: nat | At(command, "--cd ", i) && At(command, "--cd ", k) :: i == k
  }

  lemma AtPrefix(s: string, p: string, q: string, i: nat)
    requires At(s, p + q, i)
    ensures At(s, p, i) && At(s, q, i + |p|)
  {
    assert s[i..i + |p + q|][..|p|] == s[i..i + |p|];
    assert s[i..i + |p + q|][|p|..] == s[i + |p|..i + |p| + |q|];
  }

  lemma AtChar(s: string, p: string, i: nat, k: nat)
    requires At(s, p, i) && k < |p|
    ensures s[i + k] == p[k]
  {
    assert s[i..i + |p|][k] == s[i + k];
  }

  lemma NotQuoted(command: string, text: string, i: nat)
    requires OptionOnce(command) && At(command, "--cd ", i) && i + 5 < |command| && text != "" && command[i + 5] != text[0]
    ensures !Contains(command, "--cd " + text)
  {
    if Contains(command, "--cd " + text) {
      var k: nat :| k <= |command| && At(command, "--cd " + text, k);
      AtPrefix(command, "--cd ", text, k);
      AtChar(command, text, k + 5, 0);
    }
  }

  lemma AtTheEnd(command: string, other: string, i: nat, n: nat)
    requires OptionOnce(command) && At(command, "--cd ", i) && i + 5 + n < |command| && command[i + 5 + n] == ' '
    requires EndsWith(command, "--cd " + other)
    ensures n < |other| && other[n] == ' '
  {
    var k := |command| - |"--cd " + other|;
    assert At(command, "--cd " + other, k);
    AtPrefix(command, "--cd ", other, k);
    AtChar(command, other, k + 5, n);
  }

  lemma SamePlace(command: string, dir: string, other: string, i: nat)
    requires At(command, dir + " ", i) && At(command, other + " ", i) && NoBlank(other)
    ensures dir == other || other + " " <= dir
  {
    AtPrefix(command, dir, " ", i);
    AtPrefix(command, other, " ", i);
    if |other| > |dir| {
      AtChar(command, other, i, |dir|);
      AtChar(command, dir + " ", i, |dir|);
    } else if |other| < |dir| {
      assert command[i..i + |dir|][..|other| + 1] == command[i..i + |other| + 1];
    }
  }

  /** A command line with its only directory option before dir: which other directory could it be taken for? */
  lemma SeenDirectory(command: string, dir: string, other: string, i: nat)
    requires OptionOnce(command) && At(command, "--cd " + (dir + " "), i) && Absolute(dir)
    requires NoBlank(other)
    requires EndsWith(command, "--cd " + other) || Contains(command, "--cd " + other + " ")
             || Contains(command, "--cd " + ("\"" + other + "\"")) || Contains(command, "--cd " + ("'" + other + "'"))
    ensures dir == other || other + " " <= dir
  {
    AtPrefix(command, "--cd ", dir + " ", i);
    AtChar(command, dir + " ", i + 5, 0);
    AtChar(command, dir + " ", i + 5, |dir|);
    NotQuoted(command, "\"" + other + "\"", i);
    NotQuoted(command, "'" + other + "'", i);
    if EndsWith(command, "--cd " + other) {
      AtTheEnd(command, other, i, |dir|);
    } else {
      OptionMatches(command, dir, other, i);
    }
  }

  lemma OptionMatches(command: string, dir: string, other: string, i: nat)
    requires OptionOnce(command) && At(command, "--cd " + (dir + " "), i) && NoBlank(other)
    requires Contains(command, "--cd " + other + " ")
    ensures dir == other || other + " " <= dir
  {
    AtPrefix(command, "--cd ", dir + " ", i);
    var k: nat :| k <= |command| && At(command, "--cd " + other + " ", k);
    assert "--cd " + other + " " == "--cd " + (other + " ");
    AtPrefix(command, "--cd ", other + " ", k);
    SamePlace(command, dir, other, i + 5);
  }

  /** Where the directory option of a command is. */
  lemma OptionAt(executable: string, sandbox: string, approval: string, dir: string, session: seq<string>) returns (i: nat)
    requires Absolute(dir)
    ensures At(Slashes(Strip(Shown(Command(executable, sandbox, approval, dir, session)))), "--cd " + (dir + " "), i)
  {
    var commandLine := Shown(Command(executable, sandbox, approval, dir, session));
    var p := "--cd " + dir + " ";
    ShownContains(executable, sandbox, approval, dir, session);
    SlashesKeep(Strip(commandLine), p);
    assert Slashes(p) == p by {
      forall k | 0 <= k < |p| ensures p[k] != '\\' {
        if 5 <= k < 5 + |dir| {
          assert p[k] == dir[k - 5];
        }
      }
    }
    i :| i <= |Slashes(Strip(commandLine))| && At(Slashes(Strip(commandLine)), p, i);
    assert p == "--cd " + (dir + " ");
  }

  lemma ContainsPrefix(command: string, dir: string, other: string, i: nat)
    requires At(command, "--cd " + (dir + " "), i) && (dir == other || other + " " <= dir)
    ensures Contains(command, "--cd " + other + " ")
  {
    var p, q := "--cd " + (dir + " "), "--cd " + other + " ";
    assert q <= p;
    assert q + p[|q|..] == p;
    AtPrefix(command, q, p[|q|..], i);
  }

  /** The command of a job in dir is taken for one in another directory, without blanks, exactly if dir continues that one
      after a blank: the option is looked for as text. */
  lemma RecognisedExactly(canonical: string -> string, fold: char -> string, executable: string, sandbox: string,
                          approval: string, dir: string, session: seq<string>, other: string)
    requires canonical(other) == other && Absolute(dir) && Absolute(other) && NoBlank(other)
    requires OptionOnce(Slashes(Strip(Shown(Command(executable, sandbox, approval, dir, session)))))
    ensures Matches(canonical, fold, Shown(Command(executable, sandbox, approval, dir, session)), other) <==>
              dir == other || other + " " <= dir
  {
    var i := OptionAt(executable, sandbox, approval, dir, session);
    TextMatches(canonical, fold, Shown(Command(executable, sandbox, approval, dir, session)), dir, other, i);
  }

  lemma TextMatches(canonical: string -> string, fold: char -> string, commandLine: string, dir: string, other: string, i: nat)
    requires canonical(other) == other && Absolute(dir) && Absolute(other) && NoBlank(other)
    requires OptionOnce(Slashes(Strip(commandLine))) && At(Slashes(Strip(commandLine)), "--cd " + (dir + " "), i)
    ensures Matches(canonical, fold, commandLine, other) <==> dir == other || other + " " <= dir
  {
    var command := Slashes(Strip(commandLine));
    assert "--cd \"" + other + "\"" == "--cd " + ("\"" + other + "\"");
    assert "--cd '" + other + "'" == "--cd " + ("'" + other + "'");
    if Matches(canonical, fold, commandLine, other) {
      SeenDirectory(command, dir, other, i);
    }
    if dir == other || other + " " <= dir {
      ContainsPrefix(command, dir, other, i);
    }
  }
}
