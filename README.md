# SSH shell terminal set-up and server hardening, in Dafny

This project models the decision rules in the starter module of the Spring
Boot SSH shell. The rest of that module is wiring around Spring, Apache SSHD
and JLine. The model covers four pieces:

- **`SshTerminalFactory.createTerminal`** makes at most three construction
  attempts, in order: a direct JLine `ExternalTerminal` named `ssh-shell`,
  then a non-system `TerminalBuilder`, then a bare `DumbTerminal` named
  `ssh-shell-dumb`. Exceptions from the first two are swallowed, but `Error`s are not. The third
  attempt is unguarded. A given size goes to whichever tier produces the
  terminal, and the dumb terminal has echo turned off before it is returned
  (module `SshTerminalFactory`).
- **`SshTerminal`** is a `DumbTerminal` subclass. Both of its constructors
  install one fixed attribute record (input, output, control and local flags
  and ten control characters). Its `echo()` always reports true, and its
  `echo(boolean)` always asks for echo on (module `SshTerminal`).
- **`SshShellConfiguration.sshServer`** resolves the host-key file and the
  authorized-keys file from Spring resources and chooses the public-key
  authenticator. It filters the server's key-exchange, signature and MAC
  lists against fixed deny-lists. A filtered list replaces the original only
  when it is non-empty (module `SshShellConfiguration`).
- **`SshShellEnvironmentPostProcessor.postProcessEnvironment`** writes seven
  JLine system properties. One of them, the terminal type, is written only
  when it is absent (module `SshShellEnvironmentPostProcessor`).

Modelling choices:

- JLine's and SSHD's constructors are opaque and are inputs to the model.
  The factory receives a `Library`, a total function from each construction
  call (with the arguments the factory passes) to either the new terminal's
  initial size and attributes or the `Throwable` it throws.
- A `Throwable` is an `IOException`, a `RuntimeException` or a
  `java.lang.Error`. Only the first two are caught by the factory's
  `catch (Exception e)` handlers, so an `Error` from any tier propagates.
- A terminal's echo state is its ECHO local flag, as in JLine's
  `AbstractTerminal.echo(boolean)`. The module `JLine` defines it once, as
  `WithEcho`.
- Algorithm factories are identified by their names.
- A Spring `Resource` is reduced to four things: whether it exists, its URL
  protocol, the path `getFile()` gives, and its description. The
  description names the source of a temporary copy (`TemporaryCopy.of`) and
  goes into the message of the host-key IOException.
- The temporary copy that `getFile` makes of a non-file resource is an input.
  It is either the copy's path or the exception thrown while creating or
  filling it.
- The module `JLine` holds the library values the code uses: `Size`, the
  stream pair and `Attributes` with JLine's flag and control-character
  enumerations. The module `Outcomes` holds null references (`Option`) and
  thrown exceptions (`Result`).

Facts about the factory's code that the model keeps:

- The attempts go `ExternalTerminal`, then `TerminalBuilder`, then
  `DumbTerminal` (SshTerminalFactory.java:47-90, 94).
- The `DumbTerminal` tier calls `echo(false)`, so that tier's terminal is
  returned with ECHO cleared (SshTerminalFactory.java:107). Canonical mode is
  left as the constructor set it.
- `builder.type` is called only for a non-null type, so the builder tier
  supplies no type of its own (SshTerminalFactory.java:81-83).
- The size arrives as one JLine `Size` or as null, so it is applied whole or
  not at all (SshTerminalFactory.java:58, 78, 102).
- `createTerminal` never constructs an `SshTerminal`. The forced-echo class
  is modelled on its own in module `SshTerminal`.

## Model

| member | source | states |
|---|---|---|
| `SshTerminalFactory.Attempts` | starter/src/main/java/com/github/fonimus/ssh/shell/SshTerminalFactory.java:47-100 | one to three construction calls with their arguments: first always ExternalTerminal("ssh-shell", the type or "xterm", the streams, UTF-8); then, only if that threw an Exception, a TerminalBuilder asked for system=false, the streams, UTF-8, jansi on, jna and jni off and exactly the given size and type; then, only if both threw Exceptions, DumbTerminal("ssh-shell-dumb", the type or "dumb", the streams, UTF-8); an Error stops the attempts |
| `SshTerminalFactory.CreatedTerminal` | starter/src/main/java/com/github/fonimus/ssh/shell/SshTerminalFactory.java:46-111 | the last attempt decides; tier 1 wins whenever it succeeds, named "ssh-shell" with the given type or "xterm"; an Exception escapes only from the third, unguarded tier, and what escapes is what the last attempt threw (from tiers 1 and 2 only an Error); a given size is set on tier 1 and 3 terminals and a missing one leaves the constructor's; the builder is asked for system=false, the given streams, UTF-8, jansi on, jna and jni off, and exactly the given size and type (no default type), and its terminal is returned untouched; the dumb terminal is "ssh-shell-dumb" with the given type or "dumb", with echo off and its other attributes unchanged |
| `SshTerminalFactory.CreateTerminal` | starter/src/main/java/com/github/fonimus/ssh/shell/SshTerminalFactory.java:46-112 | the imperative factory makes exactly the calls of `Attempts` and returns a fresh terminal whose state is `CreatedTerminal`'s, or throws what `CreatedTerminal` throws; a dumb-tier terminal reports echo off |
| `SshTerminal.SshAttributes` | starter/src/main/java/com/github/fonimus/ssh/shell/SshTerminal.java:45-86 | input flags exactly {ICRNL}; output flags exactly {OPOST, ONLCR}; control flags exactly {CREAD, CS8}; ECHO, ICANON, ISIG, ECHOE, ECHOK on and every other local flag (IEXTEN, ECHONL, ECHOCTL among them) off; exactly ten control characters, VEOF=4, VEOL=VEOL2=-1, VERASE=127, VKILL=21, VINTR=3, VQUIT=28, VSUSP=26, VMIN=1, VTIME=0 |
| `SshTerminal.SshTerminal.ConfigureForSsh` | starter/src/main/java/com/github/fonimus/ssh/shell/SshTerminal.java:45-89 | building a fresh record setter by setter and installing it with one setAttributes leaves exactly `SshAttributes()`, whatever was installed before |
| `SshTerminal.SshTerminal.FromStreams` | starter/src/main/java/com/github/fonimus/ssh/shell/SshTerminal.java:35-38 | the two-argument constructor leaves name, type and encoding to DumbTerminal and installs `SshAttributes()` whatever DumbTerminal installed |
| `SshTerminal.SshTerminal.Named` | starter/src/main/java/com/github/fonimus/ssh/shell/SshTerminal.java:40-43 | the four-argument constructor keeps the name and type, uses UTF-8 and installs the same `SshAttributes()` |
| `SshTerminal.SshTerminal.Echo` | starter/src/main/java/com/github/fonimus/ssh/shell/SshTerminal.java:33-95 | `echo()` is true whatever the ECHO flag is |
| `SshTerminal.SshTerminal.SetEcho` | starter/src/main/java/com/github/fonimus/ssh/shell/SshTerminal.java:97-101 | `echo(b)` ignores b: ECHO is on afterwards, nothing else changes, and the previous ECHO flag is returned |
| `SshShellConfiguration.WithoutDenied` | starter/src/main/java/com/github/fonimus/ssh/shell/SshShellConfiguration.java:151-153 | a name is in the filtered list iff it is in the original and not denied; the list never grows |
| `SshShellConfiguration.WithoutDeniedIsSubsequence` | starter/src/main/java/com/github/fonimus/ssh/shell/SshShellConfiguration.java:165-167 | the filtered list is a subsequence of the original: order kept, nothing added |
| `SshShellConfiguration.WithoutDeniedCounts` | starter/src/main/java/com/github/fonimus/ssh/shell/SshShellConfiguration.java:180-182 | every denied name loses all its occurrences and every other name keeps all of them |
| `SshShellConfiguration.WithoutDeniedIdempotent` | starter/src/main/java/com/github/fonimus/ssh/shell/SshShellConfiguration.java:151-153 | filtering twice equals filtering once |
| `SshShellConfiguration.RestrictedAlgorithms` | starter/src/main/java/com/github/fonimus/ssh/shell/SshShellConfiguration.java:151-158 | the server's list afterwards is a subsequence of its list before, is empty only if that was, holds no denied name unless it is the unchanged original, and is the unchanged original when every name is denied |
| `SshShellConfiguration.RestrictedAlgorithmsCounts` | starter/src/main/java/com/github/fonimus/ssh/shell/SshShellConfiguration.java:175-187 | when some name survives, the list afterwards lacks exactly the denied names and keeps every other occurrence |
| `SshShellConfiguration.RestrictedAlgorithmsIdempotent` | starter/src/main/java/com/github/fonimus/ssh/shell/SshShellConfiguration.java:156-158 | restricting a restricted list again changes nothing |
| `SshShellConfiguration.GetFile` | starter/src/main/java/com/github/fonimus/ssh/shell/SshShellConfiguration.java:209-222 | a "file" resource gives its own file; any other gives a temporary copy of it, or the exception making the copy threw |
| `SshShellConfiguration.HostKeyFile` | starter/src/main/java/com/github/fonimus/ssh/shell/SshShellConfiguration.java:192-207 | an existing resource goes through getFile; a missing "file" resource gives its own file; a missing resource with any other protocol is an IOException; a temporary copy only ever comes from an existing non-file resource |
| `SshShellConfiguration.PublickeyAuthentication` | starter/src/main/java/com/github/fonimus/ssh/shell/SshShellConfiguration.java:97-103 | reject-all unless the authorized-keys resource is non-null and exists, then an authorized-keys authenticator over getFile's file; getFile's exception propagates, and only a non-file resource can raise one |
| `SshShellConfiguration.SshServer.SetUpDefaultServer` | starter/src/main/java/com/github/fonimus/ssh/shell/SshShellConfiguration.java:87 | the default server starts with SSHD's own algorithm lists and none of the settings sshServer makes |
| `SshShellConfiguration.ServerSpec` | starter/src/main/java/com/github/fonimus/ssh/shell/SshShellConfiguration.java:86-190 | sshServer fails iff host-key or authorized-keys resolution throws, and the host-key exception wins because it is resolved first; otherwise the key provider is RSA 3072 over the resolved host-key file, host, port and authenticator are set, each list is `RestrictedAlgorithms` of the default one under its own deny-list, the KEX list holds no NIST-curve or ML-KEM-NIST name, the signature list no "ssh-rsa", the MAC list no "hmac-sha1" or "hmac-sha1-etm@openssh.com" (each unless it is the server's unchanged list), and each list is a subsequence of the default one |
| `SshShellConfiguration.SshServerBean` | starter/src/main/java/com/github/fonimus/ssh/shell/SshShellConfiguration.java:86-190 | the setter-by-setter configuration of a fresh default server ends in `ServerSpec`'s state, or throws its exception |
| `SshShellEnvironmentPostProcessor.JLineDefaults` | starter/src/main/java/com/github/fonimus/ssh/shell/SshShellEnvironmentPostProcessor.java:29-49 | provider=jansi, jansi=true, jna=jni=exec=false and dumb=true whatever they were; an existing terminal type is kept and "xterm" written only when absent; the key set grows by at most the seven JLine keys and no other property changes |
| `SshShellEnvironmentPostProcessor.JLineDefaultsIdempotent` | starter/src/main/java/com/github/fonimus/ssh/shell/SshShellEnvironmentPostProcessor.java:29-49 | running the post-processor twice yields the table running it once does |
| `SshShellEnvironmentPostProcessor.PostProcessEnvironment` | starter/src/main/java/com/github/fonimus/ssh/shell/SshShellEnvironmentPostProcessor.java:29-49 | the sequence of setProperty writes, one guarded by a read of the same table, leaves the system properties equal to `JLineDefaults` of the table before |

## Left out

- The internals of JLine's `ExternalTerminal`, `TerminalBuilder` and `DumbTerminal` and of SSHD's factories are inputs. Their outcomes are given as a function or as values.
- Exceptions from `setSize`, `echo(false)` and `setAttributes` on a terminal that was built are not modelled. The JLine setters are taken not to throw.
- Exceptions from `getURL()` and `getFile()` on a Spring resource are not modelled. Only the temporary copy in `getFile` can fail.
- `SshTerminal.SshTerminal.FromStreams`, `SshTerminal.SshTerminal.Named`: the IOException that `DumbTerminal`'s constructor may throw is not modelled, because Dafny constructors cannot fail.
- `SshTerminal.SshTerminal`: `setAttributes`, inherited from `DumbTerminal`, can still clear the ECHO flag, and `echo()` still answers true afterwards. Only the two `echo` overrides are modelled as keeping echo on.
- The password authenticator, the shell and command factories, the `SshServerLifecycle` start and stop, and the logging are left out. So are the debug listing of authorized-keys lines and the temporary file's name and contents. These are wiring, I/O or diagnostics.
- The public-key authentication provider and the template configuration's classloader handling are left out. The first wraps SSHD's authorized-keys matching and the second only touches ambient thread state. Threading, session context and session lifecycle are not part of this model.
- SSH transport cryptography is left out. Only the name-based filtering of the algorithm lists is modelled.
- `postProcessEnvironment`'s Spring environment and application arguments are not read by the code and are not modelled.
