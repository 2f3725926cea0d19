/** The server's decision whether a command may be handled at all. */
module CommandCheck {
  import opened Options
  import opened Proto

  /** The word for a command. */
  function CommandName(kind: CommandType): string {
    match kind
    case START => "start"
    case STOP => "stop"
    case RESTART => "restart"
    case STATUS => "status"
    case RELOAD => "reload"
    case TERMINATE => "terminate"
    case COMMAND_ERROR => "invalid"
  }

  /** The status a command is turned away with; none for one that is handled. `start`, `stop` and
      `restart` take one argument, `status` one or none, `reload` and `terminate` none. */
  function Rejection(cmd: Command): (r: Option<Status>)
    ensures r.None? <==>
              || (cmd.kind in {START, STOP, RESTART} && |cmd.args| == 1)
              || (cmd.kind == STATUS && |cmd.args| <= 1)
              || (cmd.kind in {RELOAD, TERMINATE} && cmd.args == [])
    ensures r == Some(TYPE_ERROR) <==> cmd.kind == COMMAND_ERROR
    ensures r == Some(ARGUMENT_ERROR) <==> cmd.kind in {START, STOP, RESTART} && cmd.args == []
    ensures r.Some? ==> r.value in {TYPE_ERROR, ARGUMENT_ERROR, TOO_MANY_ARGUMENTS}
  {
    var n := |cmd.args|;
    match cmd.kind
    case STATUS => if n != 0 && n != 1 then Some(TOO_MANY_ARGUMENTS) else None
    case TERMINATE => if n >= 1 then Some(TOO_MANY_ARGUMENTS) else None
    case RELOAD => if n >= 1 then Some(TOO_MANY_ARGUMENTS) else None
    case COMMAND_ERROR => Some(TYPE_ERROR)
    case _ => if n == 0 then Some(ARGUMENT_ERROR) else if n > 1 then Some(TOO_MANY_ARGUMENTS) else None
  }

  /** What `onCommand` makes of a command: a rejected one loses its type, so that finishing its
      answer cannot be taken for the end of a `terminate`. */
  function Rewritten(cmd: Command): (r: Command)
    ensures r.kind == TERMINATE <==> cmd.kind == TERMINATE && cmd.args == []
    ensures if Rejection(cmd).Some? then r.kind == COMMAND_ERROR && r.args == cmd.args else r == cmd
  {
    if Rejection(cmd).Some? then cmd.(kind := COMMAND_ERROR) else cmd
  }

  /** The answers a command may get; the texts are left open. */
  predicate Answers(cmd: Command, response: Response) {
    match Rejection(cmd)
    case Some(status) => response.status == status
    case None => cmd.kind == TERMINATE ==> response.status == OK
  }

  /** The client's test for leaving: an OK in answer to `terminate`. It is right. */
  lemma OkMeansAccepted(cmd: Command, response: Response)
    requires Answers(cmd, response)
    ensures cmd.kind == TERMINATE && response.status == OK <==> Rewritten(cmd).kind == TERMINATE
  {
  }
}
