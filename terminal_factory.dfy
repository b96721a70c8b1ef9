/**
 * `SshTerminalFactory.createTerminal`: three ordered construction attempts
 * (an `ExternalTerminal`, a non-system `TerminalBuilder`, a bare
 * `DumbTerminal`), the first two guarded, the last one not.
 *
 * JLine's constructors are opaque here: the factory is given a `Library`,
 * a total function from a construction call (with the arguments the
 * factory passes) to what that call does, either the initial size and
 * attributes of the new terminal or the exception it throws.
 */
module SshTerminalFactory {
  import opened Outcomes
  import opened JLine

  /** What a `TerminalBuilder` has been told before `build()` is called. */
  datatype BuilderRequest = BuilderRequest(
    system: bool,
    streams: Streams,
    encoding: string,
    jansi: bool,
    jna: bool,
    jni: bool,
    size: Option<Size>,
    termType: Option<string>)

  /** One construction call into JLine, with its arguments. */
  datatype Construction =
    | ExternalTerminal(name: string, termType: string, streams: Streams, encoding: string)
    | TerminalBuilder(request: BuilderRequest)
    | DumbTerminal(name: string, termType: string, streams: Streams, encoding: string)

  /** What a successful construction leaves in the new terminal. */
  datatype TerminalState = TerminalState(size: Size, attributes: Attributes)

  /** JLine as the factory sees it. */
  datatype Library = Library(construct: Construction -> Result<TerminalState>)

  /** The observable state of a terminal the factory hands out. */
  datatype TerminalView = TerminalView(origin: Construction, size: Size, attributes: Attributes)

  /** A JLine terminal object: how it was made, its size and its attributes. */
  class Terminal {
    const origin: Construction
    var size: Size
    var attributes: Attributes

    constructor (origin: Construction, initial: TerminalState)
      ensures this.origin == origin
      ensures size == initial.size && attributes == initial.attributes
    {
      this.origin := origin;
      size := initial.size;
      attributes := initial.attributes;
    }

    function View(): TerminalView
      reads this
    {
      TerminalView(origin, size, attributes)
    }

    /** `Terminal.echo()`: the ECHO local flag. */
    predicate Echo()
      reads this
    {
      attributes.HasLocalFlag(ECHO)
    }

    method SetSize(s: Size)
      modifies this
      ensures size == s && attributes == old(attributes)
    {
      size := s;
    }

    function GetAttributes(): Attributes
      reads this
    {
      attributes
    }

    method SetAttributes(a: Attributes)
      modifies this
      ensures attributes == a && size == old(size)
    {
      attributes := a;
    }

    /** `AbstractTerminal.echo(boolean)`: sets echo, answers its previous state. */
    method SetEcho(echo: bool) returns (previous: bool)
      modifies this
      ensures previous == old(attributes).HasLocalFlag(ECHO)
      ensures attributes == WithEcho(old(attributes), echo)
      ensures size == old(size)
    {
      var attr := GetAttributes();
      previous := attr.HasLocalFlag(ECHO);
      if previous != echo {
        SetAttributes(WithEcho(attr, echo));
      }
    }
  }

  const ExternalName: string := "ssh-shell"
  const DumbName: string := "ssh-shell-dumb"
  const ExternalDefaultType: string := "xterm"
  const DumbDefaultType: string := "dumb"

  /** The first attempt: a direct `ExternalTerminal`. */
  function Tier1(streams: Streams, termType: Option<string>): Construction {
    ExternalTerminal(ExternalName, termType.GetOr(ExternalDefaultType), streams, UTF8)
  }

  /** The second attempt: what `TerminalBuilder` is asked for. */
  function Tier2(streams: Streams, size: Option<Size>, termType: Option<string>): Construction {
    TerminalBuilder(BuilderRequest(false, streams, UTF8, true, false, false, size, termType))
  }

  /** The last attempt: a bare `DumbTerminal`. */
  function Tier3(streams: Streams, termType: Option<string>): Construction {
    DumbTerminal(DumbName, termType.GetOr(DumbDefaultType), streams, UTF8)
  }

  /** A construction call that threw something `catch (Exception e)` catches. */
  predicate Swallowed(lib: Library, call: Construction) {
    lib.construct(call).Err? && lib.construct(call).error.IsException()
  }

  /** The construction calls `createTerminal` makes, in order. */
  function Attempts(lib: Library, streams: Streams, size: Option<Size>, termType: Option<string>): (calls: seq<Construction>)
    ensures 1 <= |calls| <= 3
    ensures calls[0] == ExternalTerminal("ssh-shell", termType.GetOr("xterm"), streams, "UTF-8")
    ensures |calls| > 1 <==> Swallowed(lib, calls[0])
    ensures |calls| > 1 ==>
      calls[1] == TerminalBuilder(BuilderRequest(false, streams, "UTF-8", true, false, false, size, termType))
    ensures |calls| > 2 <==> Swallowed(lib, calls[0]) && Swallowed(lib, calls[1])
    ensures |calls| > 2 ==> calls[2] == DumbTerminal("ssh-shell-dumb", termType.GetOr("dumb"), streams, "UTF-8")
  {
    var c1 := Tier1(streams, termType);
    var c2 := Tier2(streams, size, termType);
    if !Swallowed(lib, c1) then [c1]
    else if !Swallowed(lib, c2) then [c1, c2]
    else [c1, c2, Tier3(streams, termType)]
  }

  /** `size != null ? size : <the size the constructor left>`. */
  function SizeAfter(size: Option<Size>, initial: Size): Size {
    size.GetOr(initial)
  }

  /**
   * The terminal `createTerminal` returns, or the exception it throws: the
   * outcome of the last call in `Attempts`, with the size and echo
   * adjustments the code makes to the terminal of that tier.
   */
  function CreatedTerminal(lib: Library, streams: Streams, size: Option<Size>, termType: Option<string>): (r: Result<TerminalView>)
    // only the last attempt decides; an Exception escapes only from the unguarded DumbTerminal,
    // while an Error escapes from whichever attempt throws it
    ensures var calls := Attempts(lib, streams, size, termType);
      && (r.Err? <==> lib.construct(calls[|calls| - 1]).Err?)
      && (r.Err? ==> r.error == lib.construct(calls[|calls| - 1]).error)
      && (r.Err? && |calls| < 3 ==> r.error.Error?)
      && (r.Ok? ==> r.value.origin == calls[|calls| - 1])
    // tier 1 wins whenever it succeeds
    ensures lib.construct(Tier1(streams, termType)).Ok? ==>
      r.Ok? && r.value.origin == ExternalTerminal("ssh-shell", termType.GetOr("xterm"), streams, "UTF-8")
    // a given size is applied to the terminal of tiers 1 and 3, and a missing one leaves the constructor's
    ensures r.Ok? && !r.value.origin.TerminalBuilder? ==>
      var initial := lib.construct(r.value.origin).value;
      && (size.Some? ==> r.value.size == size.value)
      && (size.None? ==> r.value.size == initial.size)
    // tier 1 keeps the attributes the constructor chose
    ensures r.Ok? && r.value.origin.ExternalTerminal? ==>
      r.value.attributes == lib.construct(r.value.origin).value.attributes
    // tier 2 hands the size and the type to the builder and returns what it built untouched
    ensures r.Ok? && r.value.origin.TerminalBuilder? ==>
      && r.value.origin.request == BuilderRequest(false, streams, "UTF-8", true, false, false, size, termType)
      && lib.construct(r.value.origin) == Ok(TerminalState(r.value.size, r.value.attributes))
    // tier 3 is the dumb terminal with echo turned off and nothing else changed
    ensures r.Ok? && r.value.origin.DumbTerminal? ==>
      && r.value.origin == DumbTerminal("ssh-shell-dumb", termType.GetOr("dumb"), streams, "UTF-8")
      && !r.value.attributes.HasLocalFlag(ECHO)
      && r.value.attributes == WithEcho(lib.construct(r.value.origin).value.attributes, false)
  {
    var calls := Attempts(lib, streams, size, termType);
    var last := calls[|calls| - 1];
    match lib.construct(last)
    case Err(e) => Err(e)
    case Ok(initial) =>
      if last.TerminalBuilder? then Ok(TerminalView(last, initial.size, initial.attributes))
      else if last.ExternalTerminal? then Ok(TerminalView(last, SizeAfter(size, initial.size), initial.attributes))
      else Ok(TerminalView(last, SizeAfter(size, initial.size), WithEcho(initial.attributes, false)))
  }

  /**
   * `createTerminal(is, os, size, type)`. `calls` records the construction
   * calls made; of the exceptions, only the dumb terminal's propagates.
   */
  method CreateTerminal(lib: Library, streams: Streams, size: Option<Size>, termType: Option<string>)
    returns (r: Result<Terminal>, ghost calls: seq<Construction>)
    ensures calls == Attempts(lib, streams, size, termType)
    ensures r.Ok? ==> fresh(r.value) && CreatedTerminal(lib, streams, size, termType) == Ok(r.value.View())
    ensures r.Err? ==> CreatedTerminal(lib, streams, size, termType) == Err(r.error)
    ensures r.Ok? && r.value.origin.DumbTerminal? ==> !r.value.Echo()
  {
    // Tier 1: ExternalTerminal, guarded by catch (Exception).
    var external := Tier1(streams, termType);
    calls := [external];
    var outcome := lib.construct(external);
    if outcome.Err? && !outcome.error.IsException() {
      r := Err(outcome.error);
      return;
    }
    if outcome.Ok? {
      var terminal := new Terminal(external, outcome.value);
      if size.Some? {
        terminal.SetSize(size.value);
      }
      r := Ok(terminal);
      return;
    }

    // Tier 2: TerminalBuilder, guarded the same way.
    var request := BuilderRequest(false, streams, UTF8, true, false, false, None, None);
    if size.Some? {
      request := request.(size := size);
    }
    if termType.Some? {
      request := request.(termType := termType);
    }
    var built := TerminalBuilder(request);
    calls := calls + [built];
    outcome := lib.construct(built);
    if outcome.Err? && !outcome.error.IsException() {
      r := Err(outcome.error);
      return;
    }
    if outcome.Ok? {
      var terminal := new Terminal(built, outcome.value);
      r := Ok(terminal);
      return;
    }

    // Tier 3: DumbTerminal, with no handler around it.
    var dumb := Tier3(streams, termType);
    calls := calls + [dumb];
    outcome := lib.construct(dumb);
    if outcome.Err? {
      r := Err(outcome.error);
      return;
    }
    var terminal := new Terminal(dumb, outcome.value);
    if size.Some? {
      terminal.SetSize(size.value);
    }
    var _ := terminal.SetEcho(false);
    terminal.SetAttributes(terminal.GetAttributes());
    r := Ok(terminal);
  }
}
