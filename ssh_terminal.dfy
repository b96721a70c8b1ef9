/**
 * `SshTerminal`: a `DumbTerminal` whose constructors install one fixed
 * attribute record and whose echo accessors keep echo on. The factory in
 * `SshTerminalFactory` never builds one.
 */
module SshTerminal {
  import opened Outcomes
  import opened JLine

  /** The attribute record `configureForSsh` installs. */
  function SshAttributes(): (a: Attributes)
    // input: CR is mapped to NL; NL is not mapped, CR is not ignored, XON/XOFF is off
    ensures a.iflag == {ICRNL}
    // output: processing on with NL to CR-NL; no CR to NL, no ONOCR, no ONLRET
    ensures a.oflag == {OPOST, ONLCR}
    ensures a.cflag == {CREAD, CS8}
    // local: echo, canonical mode, signals, echo erase and echo kill on; everything else off
    ensures a.HasLocalFlag(ECHO) && a.HasLocalFlag(ICANON) && a.HasLocalFlag(ISIG)
    ensures a.HasLocalFlag(ECHOE) && a.HasLocalFlag(ECHOK)
    ensures !a.HasLocalFlag(IEXTEN) && !a.HasLocalFlag(ECHONL) && !a.HasLocalFlag(ECHOCTL)
    ensures forall f :: a.HasLocalFlag(f) ==> f in {ECHO, ICANON, ISIG, ECHOE, ECHOK}
    // control characters: Ctrl-D, none, none, DEL, Ctrl-U, Ctrl-C, Ctrl-\, Ctrl-Z, one byte, no timeout
    ensures a.cchars.Keys == {VEOF, VEOL, VEOL2, VERASE, VKILL, VINTR, VQUIT, VSUSP, VMIN, VTIME}
    ensures a.cchars[VEOF] == 4 && a.cchars[VEOL] == -1 && a.cchars[VEOL2] == -1
    ensures a.cchars[VERASE] == 127 && a.cchars[VKILL] == 21 && a.cchars[VINTR] == 3
    ensures a.cchars[VQUIT] == 28 && a.cchars[VSUSP] == 26 && a.cchars[VMIN] == 1 && a.cchars[VTIME] == 0
  {
    Attributes(
      {ICRNL},
      {OPOST, ONLCR},
      {CREAD, CS8},
      {ECHO, ICANON, ISIG, ECHOE, ECHOK},
      map[VEOF := 4, VEOL := -1, VEOL2 := -1, VERASE := 127, VKILL := 21,
          VINTR := 3, VQUIT := 28, VSUSP := 26, VMIN := 1, VTIME := 0])
  }

  /**
   * The terminal. `name`, `termType` and `encoding` are `None` when the
   * two-argument constructor leaves them to `DumbTerminal`; `attributes` is
   * the base class's attribute record.
   */
  class SshTerminal {
    const name: Option<string>
    const termType: Option<string>
    const encoding: Option<string>
    const streams: Streams
    const forceEcho: bool := true
    var attributes: Attributes

    /** `SshTerminal(input, output)`; `initial` is what `DumbTerminal` installed. */
    constructor FromStreams(streams: Streams, initial: Attributes)
      ensures name.None? && termType.None? && encoding.None? && this.streams == streams
      ensures attributes == SshAttributes()
    {
      name := None;
      termType := None;
      encoding := None;
      this.streams := streams;
      attributes := initial;
      new;
      ConfigureForSsh();
    }

    /** `SshTerminal(name, type, input, output)`, UTF-8. */
    constructor Named(name: string, termType: string, streams: Streams, initial: Attributes)
      ensures this.name == Some(name) && this.termType == Some(termType) && this.streams == streams
      ensures encoding == Some("UTF-8")
      ensures attributes == SshAttributes()
    {
      this.name := Some(name);
      this.termType := Some(termType);
      encoding := Some(UTF8);
      this.streams := streams;
      attributes := initial;
      new;
      ConfigureForSsh();
    }

    /** Builds a fresh attribute record setter by setter and installs it in one `setAttributes`. */
    method ConfigureForSsh()
      modifies this
      ensures attributes == SshAttributes()
    {
      var attr := NewAttributes;

      attr := attr.SetInputFlag(ICRNL, true);
      attr := attr.SetInputFlag(INLCR, false);
      attr := attr.SetInputFlag(IGNCR, false);
      attr := attr.SetInputFlag(IXON, false);
      assert attr.iflag == {ICRNL};

      attr := attr.SetOutputFlag(OPOST, true);
      attr := attr.SetOutputFlag(ONLCR, true);
      attr := attr.SetOutputFlag(OCRNL, false);
      attr := attr.SetOutputFlag(ONOCR, false);
      attr := attr.SetOutputFlag(ONLRET, false);
      assert attr.oflag == {OPOST, ONLCR};

      attr := attr.SetControlFlag(CREAD, true);
      attr := attr.SetControlFlag(CS8, true);
      assert attr.cflag == {CREAD, CS8};

      attr := attr.SetLocalFlag(ECHO, true);
      attr := attr.SetLocalFlag(ICANON, true);
      attr := attr.SetLocalFlag(ISIG, true);
      attr := attr.SetLocalFlag(IEXTEN, false);
      attr := attr.SetLocalFlag(ECHOE, true);
      attr := attr.SetLocalFlag(ECHOK, true);
      attr := attr.SetLocalFlag(ECHONL, false);
      attr := attr.SetLocalFlag(ECHOCTL, false);
      assert attr.lflag == {ECHO, ICANON, ISIG, ECHOE, ECHOK};

      attr := attr.SetControlChar(VEOF, 4);
      attr := attr.SetControlChar(VEOL, -1);
      attr := attr.SetControlChar(VEOL2, -1);
      attr := attr.SetControlChar(VERASE, 127);
      attr := attr.SetControlChar(VKILL, 21);
      attr := attr.SetControlChar(VINTR, 3);
      attr := attr.SetControlChar(VQUIT, 28);
      attr := attr.SetControlChar(VSUSP, 26);
      attr := attr.SetControlChar(VMIN, 1);
      attr := attr.SetControlChar(VTIME, 0);
      assert attr.cchars == SshAttributes().cchars;

      SetAttributes(attr);
    }

    /** `DumbTerminal.setAttributes`: copies the whole record in. */
    method SetAttributes(attr: Attributes)
      modifies this
      ensures attributes == attr
    {
      attributes := attr;
    }

    /** `echo()`: reports echo on, whatever the ECHO flag says. */
    function Echo(): (on: bool)
      reads this
      ensures on
    {
      forceEcho || attributes.HasLocalFlag(ECHO)
    }

    /**
     * `echo(boolean)`: whatever is asked, the base class is asked for echo
     * on, and its answer (the previous ECHO flag) is returned.
     */
    method SetEcho(echo: bool) returns (previous: bool)
      modifies this
      ensures previous == old(attributes).HasLocalFlag(ECHO)
      ensures attributes == WithEcho(old(attributes), true)
      ensures attributes.HasLocalFlag(ECHO)
    {
      previous := attributes.HasLocalFlag(ECHO);
      if !previous {
        SetAttributes(WithEcho(attributes, true));
      }
    }
  }
}
