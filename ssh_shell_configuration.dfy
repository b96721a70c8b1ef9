/**
 * `SshShellConfiguration.sshServer` and its two file helpers: which host
 * key file and which authorized-keys file the SSH server is given, which
 * public-key authenticator it gets, and how its key-exchange, signature
 * and MAC algorithm lists are cut down by fixed deny-lists.
 *
 * An algorithm factory is modelled by its name (`NamedFactory.getName()`).
 * A Spring `Resource` is modelled by what the code asks of it; the temporary
 * copy `getFile` makes of a non-file resource is an input: either the path
 * of the copy or the exception creating or filling it threw.
 */
module SshShellConfiguration {
  import opened Outcomes

  const InsecureKexAlgorithms: seq<string> := [
    "ecdh-sha2-nistp256",
    "ecdh-sha2-nistp384",
    "ecdh-sha2-nistp521",
    "mlkem1024nistp384-sha384",
    "mlkem768nistp256-sha256"
  ]

  const InsecureSignatureAlgorithms: seq<string> := ["ssh-rsa"]

  const InsecureMacAlgorithms: seq<string> := ["hmac-sha1", "hmac-sha1-etm@openssh.com"]

  // ---------------------------------------------------------------- deny-lists

  /** `a` is `b` with some elements left out, the rest in order. */
  predicate IsSubsequence(a: seq<string>, b: seq<string>)
    decreases |b|
  {
    if a == [] then true
    else if b == [] then false
    else if a[0] == b[0] then IsSubsequence(a[1..], b[1..])
    else IsSubsequence(a, b[1..])
  }

  lemma {:induction false} IsSubsequenceReflexive(names: seq<string>)
    ensures IsSubsequence(names, names)
  {
    if names != [] {
      IsSubsequenceReflexive(names[1..]);
    }
  }

  /** `names.stream().filter(n -> !deny.contains(n)).collect(toList())`. */
  function WithoutDenied(names: seq<string>, deny: seq<string>): (r: seq<string>)
    ensures |r| <= |names|
    ensures forall n :: n in r <==> n in names && n !in deny
  {
    if names == [] then []
    else if names[0] in deny then WithoutDenied(names[1..], deny)
    else [names[0]] + WithoutDenied(names[1..], deny)
  }

  /** Filtering keeps the order of what it keeps and adds nothing. */
  lemma {:induction false} WithoutDeniedIsSubsequence(names: seq<string>, deny: seq<string>)
    ensures IsSubsequence(WithoutDenied(names, deny), names)
  {
    if names != [] {
      var rest := WithoutDenied(names[1..], deny);
      WithoutDeniedIsSubsequence(names[1..], deny);
      if names[0] in deny {
        if rest != [] {
          assert rest[0] in rest;
          assert rest[0] != names[0];
        }
      } else {
        assert ([names[0]] + rest)[1..] == rest;
      }
    }
  }

  /** Each allowed name keeps all of its occurrences; each denied one loses all. */
  lemma {:induction false} WithoutDeniedCounts(names: seq<string>, deny: seq<string>, n: string)
    ensures multiset(WithoutDenied(names, deny))[n] == if n in deny then 0 else multiset(names)[n]
  {
    if names != [] {
      WithoutDeniedCounts(names[1..], deny, n);
      assert names == [names[0]] + names[1..];
    }
  }

  /** Filtering a filtered list again changes nothing. */
  lemma {:induction false} WithoutDeniedIdempotent(names: seq<string>, deny: seq<string>)
    ensures WithoutDenied(WithoutDenied(names, deny), deny) == WithoutDenied(names, deny)
  {
    if names != [] {
      WithoutDeniedIdempotent(names[1..], deny);
      if names[0] !in deny {
        var rest := WithoutDenied(names[1..], deny);
        assert ([names[0]] + rest)[1..] == rest;
      }
    }
  }

  /** The list the server ends up with: the filtered list, or its own list when filtering empties it. */
  function RestrictedAlgorithms(names: seq<string>, deny: seq<string>): (r: seq<string>)
    ensures IsSubsequence(r, names)
    ensures r == [] <==> names == []
    ensures (forall n :: n in r ==> n !in deny) || r == names
    ensures (forall n :: n in names ==> n in deny) ==> r == names
  {
    var kept := WithoutDenied(names, deny);
    WithoutDeniedIsSubsequence(names, deny);
    IsSubsequenceReflexive(names);
    assert kept != [] ==> kept[0] in kept;
    if kept != [] then kept else names
  }

  /**
   * Unless every name is denied, the server's list loses exactly the denied
   * names: each other name keeps all of its occurrences.
   */
  lemma RestrictedAlgorithmsCounts(names: seq<string>, deny: seq<string>, n: string)
    requires exists m :: m in names && m !in deny
    ensures multiset(RestrictedAlgorithms(names, deny))[n] == if n in deny then 0 else multiset(names)[n]
  {
    var m :| m in names && m !in deny;
    assert m in WithoutDenied(names, deny);
    WithoutDeniedCounts(names, deny, n);
  }

  /** Restricting a restricted list again changes nothing. */
  lemma {:induction false} RestrictedAlgorithmsIdempotent(names: seq<string>, deny: seq<string>)
    ensures RestrictedAlgorithms(RestrictedAlgorithms(names, deny), deny) == RestrictedAlgorithms(names, deny)
  {
    var kept := WithoutDenied(names, deny);
    WithoutDeniedIdempotent(names, deny);
    if kept == [] {
      assert RestrictedAlgorithms(names, deny) == names;
    }
  }

  // ---------------------------------------------------------------- resources

  /**
   * A Spring `Resource`: whether it exists, the protocol of its URL, the
   * path `getFile()` gives for it, and its description.
   */
  datatype Resource = Resource(description: string, existing: bool, protocol: string, path: string)

  /** A file handed to SSHD: the resource's own file, or a temporary copy of the resource. */
  datatype File = ResourceFile(path: string) | TemporaryCopy(path: string, of: string)

  /** `getFile`: the resource's own file for a `file` URL, otherwise a fresh temporary copy. */
  function GetFile(resource: Resource, copy: Result<string>): (r: Result<File>)
    ensures resource.protocol == "file" ==> r == Ok(ResourceFile(resource.path))
    ensures resource.protocol != "file" ==>
      && (r.Ok? <==> copy.Ok?)
      && (r.Ok? ==> r.value == TemporaryCopy(copy.value, resource.description))
      && (r.Err? ==> r.error == copy.error)
  {
    if resource.protocol == "file" then Ok(ResourceFile(resource.path))
    else match copy
      case Ok(tmp) => Ok(TemporaryCopy(tmp, resource.description))
      case Err(e) => Err(e)
  }

  /**
   * `getHostKeyFile`: an existing resource goes through `getFile`; a missing
   * `file` resource gives its own file, for SSHD to create; any other
   * missing resource is an IOException.
   */
  function HostKeyFile(resource: Resource, copy: Result<string>): (r: Result<File>)
    ensures resource.existing ==> r == GetFile(resource, copy)
    ensures !resource.existing && resource.protocol == "file" ==> r == Ok(ResourceFile(resource.path))
    ensures !resource.existing && resource.protocol != "file" ==> r.Err? && r.error.IOException?
    ensures r.Ok? && r.value.TemporaryCopy? ==> resource.existing && resource.protocol != "file"
  {
    if !resource.existing then
      if resource.protocol == "file" then Ok(ResourceFile(resource.path))
      else Err(IOException("Host key file resource does not exist and cannot be created: " + resource.description))
    else GetFile(resource, copy)
  }

  /** The public-key authenticator set on the server. */
  datatype PublickeyAuthenticator = RejectAll | AuthorizedKeys(keysFile: File)

  /**
   * The public-key authenticator: reject-all unless the authorized-keys
   * resource is configured and exists, then one reading its file; `getFile`'s
   * exception propagates.
   */
  function PublickeyAuthentication(keys: Option<Resource>, copy: Result<string>): (r: Result<PublickeyAuthenticator>)
    ensures keys.None? || !keys.value.existing ==> r == Ok(RejectAll)
    ensures keys.Some? && keys.value.existing ==>
      match GetFile(keys.value, copy)
      case Ok(f) => r == Ok(AuthorizedKeys(f))
      case Err(e) => r == Err(e)
    ensures r.Err? ==> keys.Some? && keys.value.existing && keys.value.protocol != "file"
  {
    match keys
    case None => Ok(RejectAll)
    case Some(resource) =>
      if !resource.existing then Ok(RejectAll)
      else match GetFile(resource, copy)
        case Ok(f) => Ok(AuthorizedKeys(f))
        case Err(e) => Err(e)
  }

  // ---------------------------------------------------------------- the server

  /** The `ssh.shell` properties `sshServer` reads. */
  datatype ShellProperties = ShellProperties(
    hostKeyFile: Resource,
    host: string,
    port: int,
    authorizedPublicKeys: Option<Resource>)

  /** The temporary copies `getFile` would make of the host key and of the authorized keys. */
  datatype TemporaryCopies = TemporaryCopies(hostKey: Result<string>, authorizedKeys: Result<string>)

  /** A `SimpleGeneratorHostKeyProvider` after `setAlgorithm` and `setKeySize`. */
  datatype HostKeyProvider = HostKeyProvider(file: File, algorithm: string, keySize: int)

  const RsaAlgorithm: string := "RSA"
  const HostKeySize: int := 3072

  /** What `sshServer` sets on the server; `None` where it left the default server's value. */
  datatype ServerConfig = ServerConfig(
    keyPairProvider: Option<HostKeyProvider>,
    host: Option<string>,
    port: Option<int>,
    publickeyAuthenticator: Option<PublickeyAuthenticator>,
    kexFactories: seq<string>,
    signatureFactories: seq<string>,
    macFactories: seq<string>)

  /** An SSHD `SshServer`, reduced to the settings `sshServer` touches. */
  class SshServer {
    var keyPairProvider: Option<HostKeyProvider>
    var host: Option<string>
    var port: Option<int>
    var publickeyAuthenticator: Option<PublickeyAuthenticator>
    var kexFactories: seq<string>
    var signatureFactories: seq<string>
    var macFactories: seq<string>

    /** `SshServer.setUpDefaultServer()`, with SSHD's default algorithm lists given. */
    constructor SetUpDefaultServer(kex: seq<string>, signatures: seq<string>, macs: seq<string>)
      ensures Config() == ServerConfig(None, None, None, None, kex, signatures, macs)
    {
      keyPairProvider := None;
      host := None;
      port := None;
      publickeyAuthenticator := None;
      kexFactories := kex;
      signatureFactories := signatures;
      macFactories := macs;
    }

    function Config(): ServerConfig
      reads this
    {
      ServerConfig(keyPairProvider, host, port, publickeyAuthenticator,
                   kexFactories, signatureFactories, macFactories)
    }
  }

  /**
   * The server `sshServer` builds from a default server with the given
   * algorithm lists, or the IOException it throws.
   */
  function ServerSpec(props: ShellProperties, kex: seq<string>, signatures: seq<string>, macs: seq<string>,
                      copies: TemporaryCopies): (r: Result<ServerConfig>)
    ensures r.Err? <==>
      HostKeyFile(props.hostKeyFile, copies.hostKey).Err? ||
      PublickeyAuthentication(props.authorizedPublicKeys, copies.authorizedKeys).Err?
    // host-key resolution runs first, so its exception is the one that escapes
    ensures r.Err? ==>
      r.error == if HostKeyFile(props.hostKeyFile, copies.hostKey).Err?
                 then HostKeyFile(props.hostKeyFile, copies.hostKey).error
                 else PublickeyAuthentication(props.authorizedPublicKeys, copies.authorizedKeys).error
    ensures r.Ok? ==>
      && r.value.keyPairProvider == Some(HostKeyProvider(HostKeyFile(props.hostKeyFile, copies.hostKey).value, "RSA", 3072))
      && r.value.host == Some(props.host)
      && r.value.port == Some(props.port)
      && r.value.publickeyAuthenticator == Some(PublickeyAuthentication(props.authorizedPublicKeys, copies.authorizedKeys).value)
    // each list is the default one restricted by its own deny-list
    ensures r.Ok? ==>
      && r.value.kexFactories == RestrictedAlgorithms(kex, InsecureKexAlgorithms)
      && r.value.signatureFactories == RestrictedAlgorithms(signatures, InsecureSignatureAlgorithms)
      && r.value.macFactories == RestrictedAlgorithms(macs, InsecureMacAlgorithms)
    // so each is the default one or an order-preserving part of it free of its deny-list
    ensures r.Ok? ==>
      && IsSubsequence(r.value.kexFactories, kex)
      && IsSubsequence(r.value.signatureFactories, signatures)
      && IsSubsequence(r.value.macFactories, macs)
      && ((forall n :: n in r.value.kexFactories ==> n !in InsecureKexAlgorithms) || r.value.kexFactories == kex)
      && ("ssh-rsa" !in r.value.signatureFactories || r.value.signatureFactories == signatures)
      && (("hmac-sha1" !in r.value.macFactories && "hmac-sha1-etm@openssh.com" !in r.value.macFactories)
          || r.value.macFactories == macs)
  {
    match HostKeyFile(props.hostKeyFile, copies.hostKey)
    case Err(e) => Err(e)
    case Ok(hostKey) =>
      match PublickeyAuthentication(props.authorizedPublicKeys, copies.authorizedKeys)
      case Err(e) => Err(e)
      case Ok(authenticator) =>
        Ok(ServerConfig(
          Some(HostKeyProvider(hostKey, RsaAlgorithm, HostKeySize)),
          Some(props.host),
          Some(props.port),
          Some(authenticator),
          RestrictedAlgorithms(kex, InsecureKexAlgorithms),
          RestrictedAlgorithms(signatures, InsecureSignatureAlgorithms),
          RestrictedAlgorithms(macs, InsecureMacAlgorithms)))
  }

  /**
   * `sshServer()`: sets up a default server and configures it setter by
   * setter; an IOException from the host key or authorized-keys file ends it.
   */
  method SshServerBean(props: ShellProperties, kex: seq<string>, signatures: seq<string>, macs: seq<string>,
                       copies: TemporaryCopies)
    returns (r: Result<SshServer>)
    ensures r.Ok? ==> fresh(r.value) && ServerSpec(props, kex, signatures, macs, copies) == Ok(r.value.Config())
    ensures r.Err? ==> ServerSpec(props, kex, signatures, macs, copies) == Err(r.error)
  {
    var server := new SshServer.SetUpDefaultServer(kex, signatures, macs);

    var hostKeyFile := HostKeyFile(props.hostKeyFile, copies.hostKey);
    if hostKeyFile.Err? {
      r := Err(hostKeyFile.error);
      return;
    }
    // "" and 0 are placeholders until setAlgorithm and setKeySize below, not SSHD's defaults
    var keyProvider := HostKeyProvider(hostKeyFile.value, "", 0);
    keyProvider := keyProvider.(algorithm := RsaAlgorithm);
    keyProvider := keyProvider.(keySize := HostKeySize);
    server.keyPairProvider := Some(keyProvider);
    server.host := Some(props.host);
    server.publickeyAuthenticator := Some(RejectAll);
    if props.authorizedPublicKeys.Some? {
      if props.authorizedPublicKeys.value.existing {
        var publicKeysFile := GetFile(props.authorizedPublicKeys.value, copies.authorizedKeys);
        if publicKeysFile.Err? {
          r := Err(publicKeysFile.error);
          return;
        }
        server.publickeyAuthenticator := Some(AuthorizedKeys(publicKeysFile.value));
      }
    }
    server.port := Some(props.port);

    var kexFactories := WithoutDenied(server.kexFactories, InsecureKexAlgorithms);
    if kexFactories != [] {
      server.kexFactories := kexFactories;
    }
    assert server.kexFactories == RestrictedAlgorithms(kex, InsecureKexAlgorithms);
    var signatureFactories := WithoutDenied(server.signatureFactories, InsecureSignatureAlgorithms);
    if signatureFactories != [] {
      server.signatureFactories := signatureFactories;
    }
    assert server.signatureFactories == RestrictedAlgorithms(signatures, InsecureSignatureAlgorithms);
    var macFactories := WithoutDenied(server.macFactories, InsecureMacAlgorithms);
    if macFactories != [] {
      server.macFactories := macFactories;
    }
    assert server.macFactories == RestrictedAlgorithms(macs, InsecureMacAlgorithms);
    r := Ok(server);
  }
}
