/**
 * The parts of JLine's terminal API that the shell's code uses, as values:
 * a terminal size, a pair of byte streams and the termios-like attribute
 * record. The flag and control-character enumerations are JLine's own.
 */
module JLine {

  /** `org.jline.terminal.Size`. */
  datatype Size = Size(columns: int, rows: int)

  /** The input and output streams of an SSH channel, by identity. */
  datatype Streams = Streams(input: nat, output: nat)

  /** The character encoding every construction call in the shell passes. */
  const UTF8: string := "UTF-8"

  datatype InputFlag =
    | IGNBRK | BRKINT | IGNPAR | PARMRK | INPCK | ISTRIP | INLCR | IGNCR
    | ICRNL | IXON | IXOFF | IXANY | IMAXBEL | IUTF8 | INORMEOL

  datatype OutputFlag =
    | OPOST | ONLCR | OXTABS | ONOEOT | OCRNL | ONOCR | ONLRET | OFILL
    | NLDLY | TABDLY | CRDLY | FFDLY | BSDLY | VTDLY | OFDEL

  datatype ControlFlag =
    | CIGNORE | CS5 | CS6 | CS7 | CS8 | CSTOPB | CREAD | PARENB | PARODD
    | HUPCL | CLOCAL | CCTS_OFLOW | CRTS_IFLOW | CDTR_IFLOW | CDSR_OFLOW
    | CCAR_OFLOW

  datatype LocalFlag =
    | ECHOKE | ECHOE | ECHOK | ECHO | ECHONL | ECHOPRT | ECHOCTL | ISIG
    | ICANON | ALTWERASE | IEXTEN | EXTPROC | TOSTOP | FLUSHO | NOKERNINFO
    | PENDIN | NOFLSH

  datatype ControlChar =
    | VEOF | VEOL | VEOL2 | VERASE | VWERASE | VKILL | VREPRINT | VINTR
    | VQUIT | VSUSP | VDSUSP | VSTART | VSTOP | VLNEXT | VDISCARD | VMIN
    | VTIME | VSTATUS

  /**
   * `org.jline.terminal.Attributes`: the set flags of each kind and the
   * control characters that have been given a value. JLine copies an
   * attribute record into a terminal (`setAttributes`) and out of it
   * (`getAttributes`), so a value type fits.
   */
  datatype Attributes = Attributes(
    iflag: set<InputFlag>,
    oflag: set<OutputFlag>,
    cflag: set<ControlFlag>,
    lflag: set<LocalFlag>,
    cchars: map<ControlChar, int>)
  {
    function SetInputFlag(f: InputFlag, on: bool): Attributes {
      this.(iflag := if on then iflag + {f} else iflag - {f})
    }

    function SetOutputFlag(f: OutputFlag, on: bool): Attributes {
      this.(oflag := if on then oflag + {f} else oflag - {f})
    }

    function SetControlFlag(f: ControlFlag, on: bool): Attributes {
      this.(cflag := if on then cflag + {f} else cflag - {f})
    }

    function SetLocalFlag(f: LocalFlag, on: bool): Attributes {
      this.(lflag := if on then lflag + {f} else lflag - {f})
    }

    function SetControlChar(c: ControlChar, value: int): Attributes {
      this.(cchars := cchars[c := value])
    }

    predicate HasLocalFlag(f: LocalFlag) {
      f in lflag
    }
  }

  /**
   * `AbstractTerminal.echo(boolean)` on an attribute record: echo is the
   * ECHO local flag, and turning it on or off touches nothing else.
   */
  function WithEcho(a: Attributes, on: bool): Attributes {
    a.SetLocalFlag(ECHO, on)
  }

  /** `new Attributes()`: no flag set and no control character given. */
  const NewAttributes: Attributes := Attributes({}, {}, {}, {}, map[])
}
