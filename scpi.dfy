/** Commands written to the SCPI instruments (the function generator and the
    oscilloscope). A command is its header and one argument; numeric arguments are kept
    as numbers, since the drivers format them with Python's float `repr`. */
module Scpi {
  datatype Arg = Word(word: string) | Num(num: real) | Int(integer: int)

  datatype Command = Command(header: string, arg: Arg)
}
