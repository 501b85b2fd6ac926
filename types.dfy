/** Shared value types of the terminal portfolio: the kind of a terminal line,
    a line itself, and the command text the interpreter receives. */
module Types {

  /** The five kinds a terminal line can have; the renderer colours lines by kind. */
  datatype LineType = Command | Output | Error | Info | Success

  /** One line of terminal history. Lines are values: they are never edited once created. */
  datatype Line = Line(text: string, kind: LineType)

  /** A command is any string: the interpreter decides what it means. */
  type Command = string

  datatype Option<+T> = None | Some(value: T)
}
