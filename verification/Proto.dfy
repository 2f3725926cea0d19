/** The messages that `taskmasterctl` and the daemon exchange. */
module Proto {

  datatype CommandType = START | STOP | RESTART | STATUS | RELOAD | TERMINATE | COMMAND_ERROR

  datatype Status = OK | ERROR | TOO_MANY_ARGUMENTS | ARGUMENT_ERROR | TYPE_ERROR

  datatype Command = Command(kind: CommandType, args: seq<string>)

  datatype Response = Response(status: Status, message: string)
}
