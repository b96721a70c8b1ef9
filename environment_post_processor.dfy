/**
 * `SshShellEnvironmentPostProcessor.postProcessEnvironment`: the JLine
 * system properties written before any terminal is built. The JVM's
 * system properties are a global string-to-string table, updated in place.
 */
module SshShellEnvironmentPostProcessor {

  const ProviderKey: string := "org.jline.terminal.provider"
  const JansiKey: string := "org.jline.terminal.jansi"
  const JnaKey: string := "org.jline.terminal.jna"
  const JniKey: string := "org.jline.terminal.jni"
  const ExecKey: string := "org.jline.terminal.exec"
  const TypeKey: string := "org.jline.terminal.type"
  const DumbKey: string := "org.jline.terminal.dumb"

  /** The keys the post-processor may write. */
  const JLineKeys: set<string> := {ProviderKey, JansiKey, JnaKey, JniKey, ExecKey, TypeKey, DumbKey}

  /** `System.getProperties()`: a missing key is a property that is not set. */
  class SystemProperties {
    var table: map<string, string>

    constructor (initial: map<string, string>)
      ensures table == initial
    {
      table := initial;
    }

    /** `System.getProperty(key) != null`. */
    predicate IsSet(key: string)
      reads this
    {
      key in table
    }

    /** `System.setProperty(key, value)`. */
    method SetProperty(key: string, value: string)
      modifies this
      ensures table == old(table)[key := value]
    {
      table := table[key := value];
    }
  }

  /** The table after `postProcessEnvironment`, as a function of the table before. */
  function JLineDefaults(before: map<string, string>): (after: map<string, string>)
    // forced values, whatever was there
    ensures ProviderKey in after && after[ProviderKey] == "jansi"
    ensures JansiKey in after && after[JansiKey] == "true"
    ensures JnaKey in after && after[JnaKey] == "false"
    ensures JniKey in after && after[JniKey] == "false"
    ensures ExecKey in after && after[ExecKey] == "false"
    ensures DumbKey in after && after[DumbKey] == "true"
    // the terminal type is only defaulted
    ensures TypeKey in after
    ensures TypeKey in before ==> after[TypeKey] == before[TypeKey]
    ensures TypeKey !in before ==> after[TypeKey] == "xterm"
    // nothing else changes
    ensures after.Keys == before.Keys + JLineKeys
    ensures forall k :: k in before && k !in JLineKeys ==> after[k] == before[k]
  {
    var forced := before[ProviderKey := "jansi"][JansiKey := "true"]
                        [JnaKey := "false"][JniKey := "false"][ExecKey := "false"];
    var typed := if TypeKey in forced then forced else forced[TypeKey := "xterm"];
    typed[DumbKey := "true"]
  }

  /** Post-processing twice leaves the table as post-processing once does. */
  lemma JLineDefaultsIdempotent(before: map<string, string>)
    ensures JLineDefaults(JLineDefaults(before)) == JLineDefaults(before)
  {
  }

  /** `postProcessEnvironment(environment, application)`; neither argument is read. */
  method PostProcessEnvironment(system: SystemProperties)
    modifies system
    ensures system.table == JLineDefaults(old(system.table))
  {
    // Provider selection: Jansi.
    system.SetProperty(ProviderKey, "jansi");
    system.SetProperty(JansiKey, "true");

    // The JNA, JNI and exec providers are switched off.
    system.SetProperty(JnaKey, "false");
    system.SetProperty(JniKey, "false");
    system.SetProperty(ExecKey, "false");

    // The terminal type is written only when no value is set.
    if !system.IsSet(TypeKey) {
      system.SetProperty(TypeKey, "xterm");
    }

    // The dumb terminal is allowed.
    system.SetProperty(DumbKey, "true");
  }
}
