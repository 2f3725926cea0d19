/** How `taskmasterctl` cuts a line into a command word and arguments. */
module Tokenizer {
  import opened Options
  import opened Proto
  import opened CommandCheck

  predicate SpaceFree(s: string) {
    forall i :: 0 <= i < |s| ==> s[i] != ' '
  }

  predicate AllSpaces(s: string) {
    forall i :: 0 <= i < |s| ==> s[i] == ' '
  }

  /** `find(' ')` and `find_first_not_of(' ', from)`, with the length for `npos`. */
  function FirstSpace(s: string): (n: nat)
    ensures n <= |s| && SpaceFree(s[..n]) && (n < |s| ==> s[n] == ' ')
  {
    if s == [] || s[0] == ' ' then 0 else 1 + FirstSpace(s[1..])
  }

  function FirstOther(s: string): (n: nat)
    ensures n <= |s| && AllSpaces(s[..n]) && (n < |s| ==> s[n] != ' ')
  {
    if s == [] || s[0] != ' ' then 0 else 1 + FirstOther(s[1..])
  }

  /** The token up to the first space, and what is left behind the spaces that follow it. */
  function Snip(s: string): (r: (string, string))
    ensures |r.0| + |r.1| <= |s| && (s != [] ==> |r.1| < |s|)
  {
    var n := FirstSpace(s);
    (s[..n], s[n + FirstOther(s[n..])..])
  }

  function Tokens(s: string): seq<string>
    decreases |s|
  {
    if s == [] then [] else [Snip(s).0] + Tokens(Snip(s).1)
  }

  class Line {
    var input: string

    constructor (input: string)
      ensures this.input == input
    {
      this.input := input;
    }

    /** Each call makes a non-empty line shorter. */
    method GetToken() returns (token: string)
      modifies this
      ensures (token, input) == Snip(old(input))
      ensures old(input) != [] ==> |input| < |old(input)|
    {
      var delimPos := FirstSpace(input);
      token := input[..delimPos];
      var delimEndPos := delimPos + FirstOther(input[delimPos..]);
      input := input[delimEndPos..];
    }

    method ParseCommandArgs() returns (args: seq<string>)
      modifies this
      ensures args == Tokens(old(input)) && input == []
    {
      args := [];
      while input != []
        invariant args + Tokens(input) == Tokens(old(input))
        decreases |input|
      {
        hide Snip;
        ghost var before := input;
        var token := GetToken();
        assert Tokens(before) == [token] + Tokens(input);
        assert args + [token] + Tokens(input) == args + ([token] + Tokens(input));
        args := args + [token];
      }
    }

    method ParseInput() returns (cmd: Option<Command>)
      modifies this
      ensures var t := Snip(old(input));
              match KindOf(ToLower(t.0))
              case None => cmd == None
              case Some(kind) => cmd == Some(Command(kind, Tokens(t.1)))
    {
      var word := GetToken();
      var kind := KindOf(ToLower(word));
      if kind.None? {
        return None;
      }
      var args := ParseCommandArgs();
      cmd := Some(Command(kind.value, args));
    }
  }

  function LowerChar(c: char): (r: char)
    ensures 'A' <= c <= 'Z' ==> 'a' <= r <= 'z' && r - 'a' == c - 'A'
    ensures !('A' <= c <= 'Z') ==> r == c
  {
    if 'A' <= c <= 'Z' then c - 'A' + 'a' else c
  }

  function ToLower(s: string): (r: string)
    ensures |r| == |s| && forall i :: 0 <= i < |s| ==> r[i] == LowerChar(s[i])
  {
    if s == [] then [] else [LowerChar(s[0])] + ToLower(s[1..])
  }

  function KindOf(word: string): Option<CommandType> {
    if word == "start" then Some(START)
    else if word == "stop" then Some(STOP)
    else if word == "restart" then Some(RESTART)
    else if word == "status" then Some(STATUS)
    else if word == "reload" then Some(RELOAD)
    else if word == "terminate" then Some(TERMINATE)
    else None
  }

  // ------------------------------------------------------------------------ meaning

  function Spaces(n: nat): (s: string)
    ensures |s| == n && AllSpaces(s)
  {
    seq(n, _ => ' ')
  }

  /** The tokens with `gaps[i]` spaces behind the i-th. */
  function Join(tokens: seq<string>, gaps: seq<nat>): string
    requires |gaps| == |tokens|
  {
    if tokens == [] then [] else tokens[0] + Spaces(gaps[0]) + Join(tokens[1..], gaps[1..])
  }

  ghost predicate AreTokens(tokens: seq<string>) {
    forall i :: 0 <= i < |tokens| ==> tokens[i] != [] && SpaceFree(tokens[i])
  }

  /** At least one space between tokens, any number at the end. */
  predicate AreGaps(gaps: seq<nat>) {
    forall i :: 0 <= i < |gaps| - 1 ==> gaps[i] > 0
  }

  lemma {:induction false} FirstSpaceIs(s: string, n: nat)
    requires n <= |s| && SpaceFree(s[..n]) && (n < |s| ==> s[n] == ' ')
    ensures FirstSpace(s) == n
    decreases n
  {
    if n > 0 {
      assert s[0] == s[..n][0];
      assert s[1..][..n - 1] == s[..n][1..];
      FirstSpaceIs(s[1..], n - 1);
    }
  }

  lemma {:induction false} FirstOtherIs(s: string, n: nat)
    requires n <= |s| && AllSpaces(s[..n]) && (n < |s| ==> s[n] != ' ')
    ensures FirstOther(s) == n
    decreases n
  {
    if n > 0 {
      assert s[0] == s[..n][0];
      assert s[1..][..n - 1] == s[..n][1..];
      FirstOtherIs(s[1..], n - 1);
    }
  }

  lemma SnipOf(token: string, gap: nat, rest: string)
    requires SpaceFree(token) && (rest != [] ==> gap > 0 && rest[0] != ' ')
    ensures Snip(token + Spaces(gap) + rest) == (token, rest)
  {
    var s := token + Spaces(gap) + rest;
    assert s[..|token|] == token;
    FirstSpaceIs(s, |token|);
    assert s[|token|..] == Spaces(gap) + rest;
    FirstOtherIs(s[|token|..], gap);
    assert s[|token| + gap..] == rest;
  }

  lemma JoinStarts(tokens: seq<string>, gaps: seq<nat>)
    requires |gaps| == |tokens| && AreTokens(tokens) && tokens != []
    ensures Join(tokens, gaps) != [] && Join(tokens, gaps)[0] != ' '
  {
    assert tokens[0][0] != ' ';
  }

  /** Joining tokens with any positive numbers of spaces and cutting again gives them back. */
  lemma {:induction false} TokensOfJoin(tokens: seq<string>, gaps: seq<nat>)
    requires |gaps| == |tokens| && AreTokens(tokens) && AreGaps(gaps)
    ensures Tokens(Join(tokens, gaps)) == tokens
    decreases |tokens|
  {
    if tokens != [] {
      var rest := Join(tokens[1..], gaps[1..]);
      if |tokens| > 1 {
        JoinStarts(tokens[1..], gaps[1..]);
      }
      JoinStarts(tokens, gaps);
      SnipOf(tokens[0], gaps[0], rest);
      TokensOfJoin(tokens[1..], gaps[1..]);
    }
  }

  lemma SpacesAre(s: string)
    requires AllSpaces(s)
    ensures s == Spaces(|s|)
  {
  }

  /** What a snip means: a maximal space-free run, the spaces behind it, and the rest. */
  lemma SnipMeans(s: string) returns (gap: nat)
    requires s != []
    ensures var t := Snip(s);
            && s == t.0 + Spaces(gap) + t.1 && SpaceFree(t.0)
            && (t.1 != [] ==> gap > 0 && t.1[0] != ' ')
            && (s[0] != ' ' ==> t.0 != [])
  {
    hide FirstSpace, FirstOther;
    var n := FirstSpace(s);
    gap := FirstOther(s[n..]);
    SpacesAre(s[n..][..gap]);
    assert s == s[..n] + s[n..];
    assert s[n..] == s[n..][..gap] + s[n..][gap..];
    assert s[n..][gap..] == s[n + gap..];
  }

  /** Every line that does not start with a space is such a joining, of its own tokens: they are
      its maximal space-free runs, in order. */
  lemma {:induction false} LineIsJoinOfTokens(s: string) returns (gaps: seq<nat>)
    requires s != [] ==> s[0] != ' '
    ensures |gaps| == |Tokens(s)| && AreTokens(Tokens(s)) && AreGaps(gaps)
    ensures Join(Tokens(s), gaps) == s
    decreases |s|
  {
    if s == [] {
      gaps := [];
    } else {
      hide Snip, Spaces;
      var t := Snip(s);
      var gap := SnipMeans(s);
      var more := LineIsJoinOfTokens(t.1);
      gaps := [gap] + more;
      assert gaps[1..] == more && Tokens(s)[1..] == Tokens(t.1);
    }
  }

  /** The exact condition for the first token to be a word: a line that starts with a space has
      an empty one, and is no command however it goes on. */
  lemma LeadingSpaceIsNoCommand(s: string)
    requires s != []
    ensures Snip(s).0 == [] <==> s[0] == ' '
    ensures s[0] == ' ' ==> KindOf(ToLower(Snip(s).0)) == None
  {
  }

  /** The words the client takes are the server's names for the types it handles. */
  lemma WordsAreNames(word: string, kind: CommandType)
    ensures KindOf(word) == Some(kind) <==> kind != COMMAND_ERROR && word == CommandName(kind)
  {
    DifferentNames();
  }

  lemma DifferentNames()
    ensures |CommandName(START)| == 5 && |CommandName(STOP)| == 4 && |CommandName(RESTART)| == 7
    ensures |CommandName(STATUS)| == 6 && CommandName(STATUS)[0] == 's' && |CommandName(RELOAD)| == 6
    ensures CommandName(RELOAD)[0] == 'r' && |CommandName(TERMINATE)| == 9
  {
  }
}
