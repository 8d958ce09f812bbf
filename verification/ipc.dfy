/**
 The line protocol of the IPC server: each client line, stripped of
 surrounding white space, is a command answered by one fixed reply line.
 Two handlers exist: the authenticated one in internal/ipc.go, whose first
 line must be the configured token, and the tokenless one in ipc.go.
 */
module Ipc {
  import opened Wrappers
  import opened Strings

  /** A reply line the handler writes. */
  datatype Line = DeniedLine | StartedLine | StoppedLine | RestartedLine | StatusLine(status: string) | UnknownLine

  /** The bytes written for each reply line. */
  function Text(l: Line): string
  {
    match l
    case DeniedLine => "Erro: Acesso negado! Token inválido.\n"
    case StartedLine => "Processos iniciados\n"
    case StoppedLine => "Processos parados\n"
    case RestartedLine => "Processos reiniciados\n"
    case StatusLine(status) => "Status: " + status + "\n"
    case UnknownLine => "Comando desconhecido\n"
  }

  /**
   What the environment does when the `i`-th command line is handled:
   whether `Start`/`Stop`/`Restart` (whichever the line asks for) returns nil,
   the text `Status()` returns, and whether `conn.Write` of the reply returns
   nil. Process control and the socket themselves are not modelled.
   */
  datatype Effect = Effect(actionOk: bool, status: string, written: bool)

  datatype Command = Start | Stop | Restart | Status | Other

  /** The word a client sends for each recognised command. */
  function Keyword(c: Command): string
    requires c != Other
  {
    match c
    case Start => "START"
    case Stop => "STOP"
    case Restart => "RESTART"
    case Status => "STATUS"
  }

  /** The words of the four recognised commands. */
  const Keywords: set<string> := {"START", "STOP", "RESTART", "STATUS"}

  /** The command a line asks for: only its trimmed text counts, and it must match a keyword exactly. */
  function Parse(line: string): (r: Command)
    ensures r == Other <==> TrimSpace(line) !in Keywords
    ensures r != Other ==> Keyword(r) == TrimSpace(line)
  {
    Classify(TrimSpace(line))
  }

  /** The `switch` on the trimmed message. */
  function Classify(m: string): Command
  {
    if m == "START" then Start
    else if m == "STOP" then Stop
    else if m == "RESTART" then Restart
    else if m == "STATUS" then Status
    else Other
  }

  /** The reply for one command when its action succeeded (or none was needed). */
  function Answer(c: Command, status: string): Line
  {
    match c
    case Start => StartedLine
    case Stop => StoppedLine
    case Restart => RestartedLine
    case Status => StatusLine(status)
    case Other => UnknownLine
  }

  /** The reply the authenticated handler writes for one command; None when the action failed and the handler returns. */
  function Reply(c: Command, e: Effect): (r: Option<Line>)
    ensures r.None? <==> IsAction(c) && !e.actionOk
    ensures r.Some? ==> Answered(r.value) == Some(c)
    ensures r.Some? && r.value.StatusLine? ==> r.value.status == e.status
  {
    if IsAction(c) && !e.actionOk then None else Some(Answer(c, e.status))
  }

  /** The command a reply line answers; the denial answers none. */
  function Answered(l: Line): Option<Command>
  {
    match l
    case DeniedLine => None
    case StartedLine => Some(Start)
    case StoppedLine => Some(Stop)
    case RestartedLine => Some(Restart)
    case StatusLine(_) => Some(Status)
    case UnknownLine => Some(Other)
  }

  /** Sending a command's keyword, alone on its line, selects that command. */
  lemma ParseKeyword(c: Command)
    requires c != Other
    ensures Parse(Keyword(c) + "\n") == c
  {
    TrimLine(Keyword(c));
  }

  /** True when handling `c` calls Start, Stop or Restart. */
  predicate IsAction(c: Command)
  {
    c == Start || c == Stop || c == Restart
  }

  /** Each line classified on its own by `p`, one command per line. */
  function ClassifyEach(p: string -> Command, lines: seq<string>): (cs: seq<Command>)
    ensures |cs| == |lines|
    ensures forall j :: 0 <= j < |lines| ==> cs[j] == p(lines[j])
  {
    seq(|lines|, j requires 0 <= j < |lines| => p(lines[j]))
  }

  /** Each line read, trimmed and classified; parsing has no effect, so it may as well happen up front. */
  function ParseAll(lines: seq<string>): (cs: seq<Command>)
    ensures |cs| == |lines|
    ensures forall j :: 0 <= j < |lines| ==> cs[j] == Parse(lines[j])
  {
    ClassifyEach(Parse, lines)
  }

  /**
   True when the authenticated loop goes on to the next line after handling
   `c`: the action, if any, returned nil and the reply was written.
   */
  predicate Continues(c: Command, e: Effect)
  {
    (!IsAction(c) || e.actionOk) && e.written
  }

  /**
   The authenticated command loop, from the `i`-th command on: the reply
   lines handed to `conn.Write`, in order. The handler returns when an action
   fails (before writing) or when a write fails (after it), so only the last
   line of the result can be one whose write failed.
   */
  function Commands(cmds: seq<Command>, env: nat -> Effect, i: nat): seq<Line>
    requires i <= |cmds|
    decreases |cmds| - i
  {
    if i == |cmds| then []
    else
      match Reply(cmds[i], env(i))
      case None => []
      case Some(r) => if env(i).written then [r] + Commands(cmds, env, i + 1) else [r]
  }

  /**
   `handleIPCConnection` of internal/ipc.go over a finite list of input lines.
   The handler returns after the denial whether or not its write fails.
   */
  function Session(lines: seq<string>, token: string, env: nat -> Effect): (out: seq<Line>)
    ensures |lines| > 0 && TrimSpace(lines[0]) != token ==> out == [DeniedLine]
  {
    var first := if |lines| == 0 then "" else lines[0];
    if TrimSpace(first) != token then [DeniedLine]
    else if |lines| == 0 then []
    else Commands(ParseAll(lines[1..]), env, 0)
  }

  /** When no action and no write fails, every command gets its answer, in input order. */
  lemma {:induction false} CommandsInOrder(cmds: seq<Command>, env: nat -> Effect, i: nat)
    requires i <= |cmds|
    requires forall j :: i <= j < |cmds| ==> Continues(cmds[j], env(j))
    ensures |Commands(cmds, env, i)| == |cmds| - i
    ensures forall j :: 0 <= j < |cmds| - i ==> Commands(cmds, env, i)[j] == Answer(cmds[i + j], env(i + j).status)
    decreases |cmds| - i
  {
    if i < |cmds| {
      CommandsInOrder(cmds, env, i + 1);
    }
  }

  /**
   If the `k`-th command is the first one after which the loop does not go on,
   the replies are the answers to the commands before it, followed by the
   `k`-th answer exactly when its action did not fail (its write is the one
   that failed); no later line is read.
   */
  lemma {:induction false} CommandsStopAtFailure(cmds: seq<Command>, env: nat -> Effect, i: nat, k: nat)
    requires i <= k < |cmds|
    requires !Continues(cmds[k], env(k))
    requires forall j :: i <= j < k ==> Continues(cmds[j], env(j))
    ensures IsAction(cmds[k]) && !env(k).actionOk ==> |Commands(cmds, env, i)| == k - i
    ensures !IsAction(cmds[k]) || env(k).actionOk ==>
              |Commands(cmds, env, i)| == k - i + 1 && Commands(cmds, env, i)[k - i] == Answer(cmds[k], env(k).status)
    ensures forall j :: 0 <= j < k - i ==> Commands(cmds, env, i)[j] == Answer(cmds[i + j], env(i + j).status)
    decreases k - i
  {
    if i < k {
      CommandsStopAtFailure(cmds, env, i + 1, k);
    }
  }

  /**
   The command loop over lines classified by any `p`: when no action and no
   write fails, every line is answered in order.
   */
  lemma LoopAnswersAll(p: string -> Command, rest: seq<string>, env: nat -> Effect)
    requires forall j :: 0 <= j < |rest| ==> Continues(p(rest[j]), env(j))
    ensures |Commands(ClassifyEach(p, rest), env, 0)| == |rest|
    ensures forall j :: 0 <= j < |rest| ==> Commands(ClassifyEach(p, rest), env, 0)[j] == Answer(p(rest[j]), env(j).status)
  {
    var cmds := ClassifyEach(p, rest);
    CommandsInOrder(cmds, env, 0);
    forall j | 0 <= j < |rest| ensures Commands(cmds, env, 0)[j] == Answer(p(rest[j]), env(j).status) {
      assert Commands(cmds, env, 0)[j] == Answer(cmds[0 + j], env(0 + j).status);
    }
  }

  /**
   The command loop over lines classified by any `p`, when the `k`-th line is
   the first after which the loop does not go on: a failed action ends it
   before its reply, a failed write after it.
   */
  lemma LoopStopsAtFailure(p: string -> Command, rest: seq<string>, env: nat -> Effect, k: nat)
    requires k < |rest| && !Continues(p(rest[k]), env(k))
    requires forall j :: 0 <= j < k ==> Continues(p(rest[j]), env(j))
    ensures IsAction(p(rest[k])) && !env(k).actionOk ==> |Commands(ClassifyEach(p, rest), env, 0)| == k
    ensures !IsAction(p(rest[k])) || env(k).actionOk ==>
              |Commands(ClassifyEach(p, rest), env, 0)| == k + 1
              && Commands(ClassifyEach(p, rest), env, 0)[k] == Answer(p(rest[k]), env(k).status)
    ensures forall j :: 0 <= j < k ==> Commands(ClassifyEach(p, rest), env, 0)[j] == Answer(p(rest[j]), env(j).status)
  {
    var cmds := ClassifyEach(p, rest);
    CommandsStopAtFailure(cmds, env, 0, k);
    forall j | 0 <= j < k ensures Commands(cmds, env, 0)[j] == Answer(p(rest[j]), env(j).status) {
      assert Commands(cmds, env, 0)[j] == Answer(cmds[0 + j], env(0 + j).status);
    }
  }

  /** With the right token, a session whose actions and writes all succeed answers every command line, in order. */
  lemma AuthenticatedSessionAnswersAll(lines: seq<string>, token: string, env: nat -> Effect)
    requires |lines| > 0 && TrimSpace(lines[0]) == token
    requires forall j :: 0 <= j < |lines| - 1 ==> Continues(Parse(lines[j + 1]), env(j))
    ensures |Session(lines, token, env)| == |lines| - 1
    ensures forall j :: 1 <= j < |lines| ==> Session(lines, token, env)[j - 1] == Answer(Parse(lines[j]), env(j - 1).status)
  {
    var rest := lines[1..];
    assert Session(lines, token, env) == Commands(ClassifyEach(Parse, rest), env, 0);
    forall j | 0 <= j < |rest| ensures Continues(Parse(rest[j]), env(j)) {
      assert rest[j] == lines[j + 1];
    }
    LoopAnswersAll(Parse, rest, env);
    forall j | 1 <= j < |lines|
      ensures Session(lines, token, env)[j - 1] == Answer(Parse(lines[j]), env(j - 1).status)
    {
      assert rest[j - 1] == lines[j];
    }
  }

  /**
   With the right token, the session ends at the first line that does not let
   the loop go on: a failing action gets no reply, and a failed write is the
   last reply handed over.
   */
  lemma AuthenticatedSessionStopsAtFailure(lines: seq<string>, token: string, env: nat -> Effect, k: nat)
    requires |lines| > 0 && TrimSpace(lines[0]) == token
    requires 1 <= k < |lines| && !Continues(Parse(lines[k]), env(k - 1))
    requires forall j :: 1 <= j < k ==> Continues(Parse(lines[j]), env(j - 1))
    ensures IsAction(Parse(lines[k])) && !env(k - 1).actionOk ==> |Session(lines, token, env)| == k - 1
    ensures !IsAction(Parse(lines[k])) || env(k - 1).actionOk ==>
              |Session(lines, token, env)| == k
              && Session(lines, token, env)[k - 1] == Answer(Parse(lines[k]), env(k - 1).status)
    ensures forall j :: 1 <= j < k ==> Session(lines, token, env)[j - 1] == Answer(Parse(lines[j]), env(j - 1).status)
  {
    assert Session(lines, token, env) == Commands(ClassifyEach(Parse, lines[1..]), env, 0);
    LoopAfterFirstStops(Parse, lines, env, k);
  }

  /** `LoopStopsAtFailure` over the lines after the first, indexed as in the whole input. */
  lemma LoopAfterFirstStops(p: string -> Command, lines: seq<string>, env: nat -> Effect, k: nat)
    requires 1 <= k < |lines| && !Continues(p(lines[k]), env(k - 1))
    requires forall j :: 1 <= j < k ==> Continues(p(lines[j]), env(j - 1))
    ensures IsAction(p(lines[k])) && !env(k - 1).actionOk ==> |Commands(ClassifyEach(p, lines[1..]), env, 0)| == k - 1
    ensures !IsAction(p(lines[k])) || env(k - 1).actionOk ==>
              |Commands(ClassifyEach(p, lines[1..]), env, 0)| == k
              && Commands(ClassifyEach(p, lines[1..]), env, 0)[k - 1] == Answer(p(lines[k]), env(k - 1).status)
    ensures forall j :: 1 <= j < k ==> Commands(ClassifyEach(p, lines[1..]), env, 0)[j - 1] == Answer(p(lines[j]), env(j - 1).status)
  {
    var rest := lines[1..];
    forall j | 0 <= j < k - 1 ensures Continues(p(rest[j]), env(j)) {
      assert rest[j] == lines[j + 1];
    }
    assert rest[k - 1] == lines[k];
    LoopStopsAtFailure(p, rest, env, k - 1);
    forall j | 1 <= j < k
      ensures Commands(ClassifyEach(p, rest), env, 0)[j - 1] == Answer(p(lines[j]), env(j - 1).status)
    {
      assert rest[j - 1] == lines[j];
    }
  }

  /** White space around a command does not change how it is dispatched. */
  lemma PaddingIgnored(pre: string, cmd: string, post: string)
    requires AllSpace(pre) && AllSpace(post) && Trimmed(cmd)
    ensures Parse(pre + cmd + post) == Parse(cmd)
  {
    TrimSpacePadded(pre, cmd, post);
    TrimSpacePadded("", cmd, "");
    assert "" + cmd + "" == cmd;
    assert TrimSpace(pre + cmd + post) == TrimSpace(cmd);
  }

  // The four lemmas below state what the tests of internal/ipc_test.go intend,
  // over the finite input each test sends. As written those tests cannot
  // pass: they read `conn.writeBuffer.AvailableBuffer()`, which is always an
  // empty slice, and the mock's writes into a `bufio.Writer` never fail, so
  // after the input runs out the handler keeps answering the empty line with
  // "Comando desconhecido" and never returns.

  /** internal/ipc_test.go, valid token: STATUS gets a status line. */
  lemma TestValidTokenStatus(token: string, env: nat -> Effect)
    requires Trimmed(token)
    ensures Session([token + "\n", "STATUS\n"], token, env) == [StatusLine(env(0).status)]
  {
    TrimLine(token);
    TrimLine("STATUS");
    assert [token + "\n", "STATUS\n"][1..] == ["STATUS\n"];
    assert ParseAll(["STATUS\n"]) == [Status];
    assert Commands([Status], env, 0) == [StatusLine(env(0).status)];
  }

  /** internal/ipc_test.go, invalid token: the only reply is the denial. */
  lemma TestInvalidToken(token: string, bad: string, env: nat -> Effect)
    requires Trimmed(bad) && bad != token
    ensures Session([bad + "\n"], token, env) == [DeniedLine]
  {
    TrimLine(bad);
  }

  /** internal/ipc_test.go, unknown command. */
  lemma TestUnknownCommand(token: string, env: nat -> Effect)
    requires Trimmed(token)
    ensures Session([token + "\n", "UNKNOWN\n"], token, env) == [UnknownLine]
  {
    TrimLine(token);
    TrimLine("UNKNOWN");
    assert [token + "\n", "UNKNOWN\n"][1..] == ["UNKNOWN\n"];
    assert ParseAll(["UNKNOWN\n"]) == [Other];
    assert Commands([Other], env, 0) == [UnknownLine];
  }

  /** internal/ipc_test.go, START: answered when Start succeeds, silently ended otherwise. */
  lemma TestStartCommand(token: string, env: nat -> Effect)
    requires Trimmed(token)
    ensures env(0).actionOk ==> Session([token + "\n", "START\n"], token, env) == [StartedLine]
    ensures !env(0).actionOk ==> Session([token + "\n", "START\n"], token, env) == []
  {
    TrimLine(token);
    TrimLine("START");
    assert [token + "\n", "START\n"][1..] == ["START\n"];
    assert ParseAll(["START\n"]) == [Start];
    if env(0).actionOk {
      assert Commands([Start], env, 0) == [StartedLine];
    }
  }

  /** A trimmed word followed by a newline trims back to the word. */
  lemma TrimLine(w: string)
    requires Trimmed(w)
    ensures TrimSpace(w + "\n") == w
  {
    TrimSpacePadded("", w, "\n");
    assert "" + w + "\n" == w + "\n";
  }

  /** The reply of the tokenless handler in ipc.go, which ignores what the action returns. */
  function RootReply(c: Command): (r: Line)
    ensures Some(r) == Reply(c, Effect(true, RootStatus, true))
    ensures Answered(r) == Some(c)
  {
    Answer(c, RootStatus)
  }

  /** `GWebLifeCycle.Status` always reports "Running". */
  const RootStatus := "Running"

  /** `handleIPCConnection` of ipc.go over a finite list of input lines. */
  function RootSession(lines: seq<string>): (out: seq<Line>)
    ensures |out| == |lines|
    ensures forall j :: 0 <= j < |lines| ==> out[j] == RootReply(Parse(lines[j]))
  {
    seq(|lines|, j requires 0 <= j < |lines| => RootReply(Parse(lines[j])))
  }

  /**
   The tokenless handler answers exactly as the authenticated one does after
   the right token when every action and every write succeeds and Status()
   reports "Running".
   */
  lemma RootMatchesAuthenticated(lines: seq<string>, token: string)
    requires Trimmed(token)
    ensures Session([token] + lines, token, (_: nat) => Effect(true, RootStatus, true)) == RootSession(lines)
  {
    var env := (_: nat) => Effect(true, RootStatus, true);
    TrimSpacePadded("", token, "");
    assert "" + token + "" == token;
    assert ([token] + lines)[1..] == lines;
    assert Session([token] + lines, token, env) == Commands(ParseAll(lines), env, 0);
    RootCommands(lines, env);
  }

  /**
   With every action and write succeeding and status "Running", the command
   loop answers each line as the tokenless handler.
   */
  lemma LoopAtRoot(p: string -> Command, lines: seq<string>, env: nat -> Effect)
    requires forall j :: 0 <= j < |lines| ==> env(j) == Effect(true, RootStatus, true)
    ensures |Commands(ClassifyEach(p, lines), env, 0)| == |lines|
    ensures forall j :: 0 <= j < |lines| ==> Commands(ClassifyEach(p, lines), env, 0)[j] == RootReply(p(lines[j]))
  {
    forall j | 0 <= j < |lines| ensures Continues(p(lines[j]), env(j)) {
      assert env(j).actionOk && env(j).written;
    }
    LoopAnswersAll(p, lines, env);
    forall j | 0 <= j < |lines| ensures Commands(ClassifyEach(p, lines), env, 0)[j] == RootReply(p(lines[j])) {
      assert env(j).status == RootStatus;
    }
  }

  /** The authenticated command loop under those conditions is the tokenless session. */
  lemma RootCommands(lines: seq<string>, env: nat -> Effect)
    requires forall j :: 0 <= j < |lines| ==> env(j) == Effect(true, RootStatus, true)
    ensures Commands(ParseAll(lines), env, 0) == RootSession(lines)
  {
    LoopAtRoot(Parse, lines, env);
    assert ParseAll(lines) == ClassifyEach(Parse, lines);
  }

  /**
   The tokenless handler of ipc.go ignores what `conn.Write` returns, while
   the authenticated one returns after the first failed write: with every
   action succeeding and status "Running", a write failing at line `k` cuts
   the authenticated session down to the first `k + 1` tokenless replies,
   strictly fewer when more lines follow.
   */
  lemma RootIgnoresWriteFailure(lines: seq<string>, token: string, env: nat -> Effect, k: nat)
    requires Trimmed(token)
    requires forall j :: 0 <= j < |lines| ==> env(j).actionOk && env(j).status == RootStatus
    requires k < |lines| && !env(k).written
    requires forall j :: 0 <= j < k ==> env(j).written
    ensures Session([token] + lines, token, env) == RootSession(lines)[..k + 1]
    ensures k + 1 < |lines| ==> Session([token] + lines, token, env) != RootSession(lines)
  {
    TrimSpacePadded("", token, "");
    assert "" + token + "" == token;
    assert ([token] + lines)[1..] == lines;
    assert Session([token] + lines, token, env) == Commands(ParseAll(lines), env, 0);
    LoopCutAtRoot(Parse, lines, env, k);
    assert ParseAll(lines) == ClassifyEach(Parse, lines);
  }

  /** The command loop under a write failing at line `k`, over lines classified by any `p`. */
  lemma LoopCutAtRoot(p: string -> Command, lines: seq<string>, env: nat -> Effect, k: nat)
    requires forall j :: 0 <= j < |lines| ==> env(j).actionOk && env(j).status == RootStatus
    requires k < |lines| && !env(k).written
    requires forall j :: 0 <= j < k ==> env(j).written
    ensures |Commands(ClassifyEach(p, lines), env, 0)| == k + 1
    ensures forall j :: 0 <= j <= k ==> Commands(ClassifyEach(p, lines), env, 0)[j] == RootReply(p(lines[j]))
  {
    forall j | 0 <= j < k ensures Continues(p(lines[j]), env(j)) {
      assert env(j).actionOk;
    }
    LoopStopsAtFailure(p, lines, env, k);
    forall j | 0 <= j <= k ensures Commands(ClassifyEach(p, lines), env, 0)[j] == RootReply(p(lines[j])) {
      assert env(j).status == RootStatus;
    }
  }
}
