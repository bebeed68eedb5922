/** How a command is routed: ignored when empty, taken as a request to launch
    a program when its lower-cased text matches `^(?:apri|avvia)\s(.+)`, and
    otherwise handed to the interpreter (App.tsx, handleCommand). */
module Shortcut {
  import opened CalendarTypes
  import opened JsText

  datatype Route = Ignore | Launch(program: string) | Interpret

  /** `s` starts with `verb`, one `\s` character, and a character that `.`
      matches: the pattern with `verb` as its alternative can match `s`. */
  predicate VerbThenArgument(s: string, verb: string)
  {
    |s| >= |verb| + 2 && s[..|verb|] == verb && IsJsSpace(s[|verb|]) && !IsLineTerminator(s[|verb| + 1])
  }

  /** `g` is what the greedy `(.+)` captures when it starts at index `k` of `s`:
      a non-empty run without line terminators that stops at the end of `s`
      or just before a line terminator. */
  ghost predicate CapturedFrom(s: string, k: nat, g: string)
  {
    k + |g| <= |s| && g == s[k..k + |g|] && g != [] && NoLineTerminator(g) &&
    (k + |g| == |s| || IsLineTerminator(s[k + |g|]))
  }

  /** No string begins with both verbs. */
  lemma VerbsExclusive(s: string)
    ensures !VerbThenArgument(s, "apri") || !VerbThenArgument(s, "avvia")
  {
    if |s| >= 5 && s[..4] == "apri" {
      assert s[..5][1] == s[..4][1] == 'p';
    }
  }

  /** What `(.+)` captures from index `k` of `s`, when it can match there. */
  function CaptureFrom(s: string, k: nat): string
    requires k <= |s|
  {
    UpToLineBreak(s[k..])
  }

  lemma CaptureFromShape(s: string, k: nat)
    requires k < |s| && !IsLineTerminator(s[k])
    ensures CapturedFrom(s, k, CaptureFrom(s, k))
  {
    var rest := s[k..];
    assert rest[0] == s[k];
    var g := UpToLineBreak(rest);
    UpToLineBreakShape(rest);
    assert g == s[k..k + |g|];
  }

  /** `s.match(/^(?:apri|avvia)\s(.+)/)`, giving the first group: the first
      alternative is tried first, and the second when the first cannot lead
      to a match. The pattern matches exactly when one of the verbs, a
      separator and one more character start the text, and the group is then
      what `(.+)` captures after that verb's separator. */
  function MatchLaunch(s: string): (group: Option<string>)
    ensures group.Some? <==> VerbThenArgument(s, "apri") || VerbThenArgument(s, "avvia")
    ensures VerbThenArgument(s, "apri") ==> group.Some? && CapturedFrom(s, 5, group.value)
    ensures VerbThenArgument(s, "avvia") ==> group.Some? && CapturedFrom(s, 6, group.value)
  {
    VerbsExclusive(s);
    if VerbThenArgument(s, "apri") then
      CaptureFromShape(s, 5);
      Some(CaptureFrom(s, 5))
    else if VerbThenArgument(s, "avvia") then
      CaptureFromShape(s, 6);
      Some(CaptureFrom(s, 6))
    else
      None
  }

  /** The route `handleCommand` takes for `command`: nothing for the empty
      string, the launch shortcut when the lower-cased command matches (the
      program name is the trimmed group), the interpreter for everything
      else, white-space-only commands included. Only the empty command is
      ignored; the shortcut is taken exactly when the lower-cased command
      starts with a verb, a separator and one more character, and the name it
      launches is shorter than the command. */
  function Classify(command: string): (route: Route)
    ensures route == Ignore <==> command == ""
    ensures route.Launch? <==>
              VerbThenArgument(ToLower(command), "apri") || VerbThenArgument(ToLower(command), "avvia")
    ensures route.Launch? ==> |route.program| < |command|
  {
    if command == "" then
      Ignore
    else
      match MatchLaunch(ToLower(command))
      case Some(group) => Launch(Trim(group))
      case None => Interpret
  }

  lemma {:induction false} UpToLineBreakStops(a: string, rest: string)
    requires NoLineTerminator(a)
    requires rest == [] || IsLineTerminator(rest[0])
    ensures UpToLineBreak(a + rest) == a
    decreases |a|
  {
    if a != [] {
      assert (a + rest)[1..] == a[1..] + rest;
      UpToLineBreakStops(a[1..], rest);
      assert [a[0]] + a[1..] == a;
    }
  }

  /** The launched program's name is the text after the verb and its
      separator, up to the first line break, with the white space around it
      removed. */
  lemma LaunchName(command: string, verb: string, sep: char, pre: string, name: string, post: string, rest: string)
    requires verb == "apri" || verb == "avvia"
    requires ToLower(command) == verb + [sep] + pre + name + post + rest
    requires IsJsSpace(sep) && AllJsSpace(pre) && AllJsSpace(post)
    requires name != [] && !IsJsSpace(name[0]) && !IsJsSpace(name[|name| - 1])
    requires NoLineTerminator(pre + name + post)
    requires rest == [] || IsLineTerminator(rest[0])
    ensures Classify(command) == Launch(name)
  {
    var s := ToLower(command);
    var arg := pre + name + post;
    assert s == verb + [sep] + (arg + rest);
    assert s[..|verb|] == verb;
    assert arg[0] == s[|verb| + 1];
    assert VerbThenArgument(s, verb);
    VerbsExclusive(s);
    assert s[|verb| + 1..] == arg + rest;
    UpToLineBreakStops(arg, rest);
    assert MatchLaunch(s) == Some(arg);
    TrimStrips(pre, name, post);
  }

  /** A command whose first character is not an `a` in either case goes to
      the interpreter. */
  lemma NoLeadingAGoesToInterpreter(command: string)
    requires command != "" && LowerChar(command[0]) != 'a'
    ensures Classify(command) == Interpret
  {
    var s := ToLower(command);
    assert s[0] != 'a';
    assert !VerbThenArgument(s, "apri") by {
      if |s| >= 4 {
        assert s[..4][0] == s[0];
      }
    }
    assert !VerbThenArgument(s, "avvia") by {
      if |s| >= 5 {
        assert s[..5][0] == s[0];
      }
    }
  }

  /** White space alone is not ignored: it reaches the interpreter. */
  lemma BlankCommandIsInterpreted(command: string)
    requires command != [] && AllJsSpace(command)
    ensures Classify(command) == Interpret
  {
    assert IsJsSpace(command[0]);
    NoLeadingAGoesToInterpreter(command);
  }

  /** "apri " with nothing after the separator is no launch request. */
  lemma VerbAloneIsInterpreted()
    ensures Classify("apri ") == Interpret
  {
    var s := ToLower("apri ");
    assert |s| == 5;
    VerbsExclusive(s);
  }

  /** "apri spotify" launches "spotify". */
  lemma LaunchSpotify()
    ensures Classify("apri spotify") == Launch("spotify")
  {
    var c := "apri spotify";
    assert ToLower(c) == "apri" + [' '] + [] + "spotify" + [] + [];
    LaunchName(c, "apri", ' ', [], "spotify", [], []);
  }

  /** A verb, a separator and nothing but one more space launches a program
      with an empty name. */
  lemma LaunchEmptyName()
    ensures Classify("apri  ") == Launch("")
  {
    var s := ToLower("apri  ");
    assert s == "apri  ";
    assert VerbThenArgument(s, "apri");
    var g := MatchLaunch(s).value;
    assert CapturedFrom(s, 5, g);
    assert |g| == 1 && g == " ";
    assert AllJsSpace(g);
  }
}
