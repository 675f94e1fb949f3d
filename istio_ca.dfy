/*
 * The configuration logic of the Istio CA command (security/cmd/istio_ca/main.go):
 * the flag defaults, the NAMESPACE environment fallback runCA applies to the
 * global options, verifyCommandLineOptions, the branch createCA takes and
 * what runCA then hands to the secret controller and the gRPC server.
 *
 * The CA constructors, the controllers and the gRPC server are opaque: they
 * are parameters, and the model records the arguments they receive. A
 * fatalf (log and os.Exit) is an Err result.
 */
module IstioCa {
  import opened Common

  /** time.Duration: nanoseconds. */
  type Duration = int

  const SECOND: Duration := 1_000_000_000
  const HOUR: Duration := 3600 * SECOND

  const DEFAULT_CA_CERT_TTL: Duration := 365 * 24 * HOUR
  const DEFAULT_WORKLOAD_CERT_TTL: Duration := HOUR
  const MAX_WORKLOAD_CERT_TTL: Duration := 7 * 24 * HOUR
  const SELF_SIGNED_CA_ORG_DEFAULT := "k8s.cluster.local"
  const NAMESPACE_KEY := "NAMESPACE"
  const DEFAULT_STORAGE_NAMESPACE := "istio-system"
  const DEFAULT_GRPC_HOSTNAME := "localhost"

  /** The contents of a file, as ioutil.ReadFile returns them. */
  type FileBytes = seq<bv8>

  /** cliOptions, as a value. */
  datatype Opts = Opts(
    certChainFile: string,
    signingCertFile: string,
    signingKeyFile: string,
    rootCertFile: string,
    namespace: string,
    istioCaStorageNamespace: string,
    kubeConfigFile: string,
    selfSignedCA: bool,
    selfSignedCAOrg: string,
    caCertTTL: Duration,
    workloadCertTTL: Duration,
    maxWorkloadCertTTL: Duration,
    grpcHostname: string,
    grpcPort: int)

  /** The reasons runCA stops with fatalf. */
  datatype Fatal =
    | NoSigningCert
    | NoSigningKey
    | NoRootCert
    | ReadFailed(file: string, reason: string)
    | SelfSignedFailed(reason: string)

  /** The arguments of ca.NewSelfSignedIstioCA. */
  datatype SelfSignedArgs = SelfSignedArgs(
    caCertTTL: Duration, certTTL: Duration, maxCertTTL: Duration, org: string, storageNamespace: string)

  /** ca.IstioCAOptions. */
  datatype CaOptions = CaOptions(
    certChainBytes: FileBytes,
    certTTL: Duration,
    maxCertTTL: Duration,
    signingCertBytes: FileBytes,
    signingKeyBytes: FileBytes,
    rootCertBytes: FileBytes)

  /** A file system: a missing file is a read error. */
  type Files = map<string, FileBytes>

  /** verifyCommandLineOptions: None when runCA may go on, else the first missing option. */
  function VerifyOptions(o: Opts): (r: Option<Fatal>)
  {
    if o.selfSignedCA then None
    else if o.signingCertFile == "" then Some(NoSigningCert)
    else if o.signingKeyFile == "" then Some(NoSigningKey)
    else if o.rootCertFile == "" then Some(NoRootCert)
    else None
  }

  /**
   * The options pass exactly in self-signed mode or when all three signing
   * files are named, and the complaint names the first missing one in the
   * order signing cert, signing key, root cert.
   */
  lemma VerifyOptionsSpec(o: Opts)
    ensures VerifyOptions(o).None? <==>
              o.selfSignedCA || (o.signingCertFile != "" && o.signingKeyFile != "" && o.rootCertFile != "")
    ensures VerifyOptions(o) == Some(NoSigningCert) <==> !o.selfSignedCA && o.signingCertFile == ""
    ensures VerifyOptions(o) == Some(NoSigningKey) <==>
              !o.selfSignedCA && o.signingCertFile != "" && o.signingKeyFile == ""
    ensures VerifyOptions(o) == Some(NoRootCert) <==>
              !o.selfSignedCA && o.signingCertFile != "" && o.signingKeyFile != "" && o.rootCertFile == ""
  {
  }

  /** In self-signed mode the file options are not looked at. */
  lemma SelfSignedIgnoresFiles(o: Opts, chain: string, cert: string, key: string, root: string)
    requires o.selfSignedCA
    ensures VerifyOptions(o.(certChainFile := chain, signingCertFile := cert, signingKeyFile := key, rootCertFile := root)).None?
  {
  }

  /** The options after the NAMESPACE lookup of runCA (env is its value, None when unset). */
  function WithNamespaceEnv(o: Opts, env: Option<string>): (r: Opts)
    ensures env.None? ==> r == o
    ensures env.Some? ==> r.istioCaStorageNamespace == env.value
    ensures env.Some? && o.namespace == "" ==> r.namespace == env.value
    ensures o.namespace != "" ==> r.namespace == o.namespace
    ensures r.(namespace := o.namespace, istioCaStorageNamespace := o.istioCaStorageNamespace) == o
  {
    match env
    case None => o
    case Some(value) =>
      var withNamespace := if o.namespace == "" then o.(namespace := value) else o;
      withNamespace.(istioCaStorageNamespace := value)
  }

  /** Looking NAMESPACE up a second time changes nothing more. */
  lemma {:induction false} WithNamespaceEnvIdempotent(o: Opts, env: Option<string>)
    ensures WithNamespaceEnv(WithNamespaceEnv(o, env), env) == WithNamespaceEnv(o, env)
  {
    var once := WithNamespaceEnv(o, env);
    if env.Some? {
      assert once.namespace != "" || env.value == "";
    }
  }

  /** The result of createCA: Err on a fatalf, Ok(None) when NewIstioCA failed and only logged it. */
  type CaOutcome<A> = Result<Option<A>, Fatal>

  /**
   * Reads the files of the file-based branch in the order createCA does:
   * the chain (only when its path is set), then the signing cert, the
   * signing key and the root cert; the first read error is fatal.
   */
  function ReadCaOptions(o: Opts, files: Files): (r: Result<CaOptions, Fatal>)
    ensures r.Ok? <==> && (o.certChainFile == "" || o.certChainFile in files)
                       && o.signingCertFile in files && o.signingKeyFile in files && o.rootCertFile in files
    ensures r.Ok? ==> && r.value.certTTL == o.workloadCertTTL
                      && r.value.maxCertTTL == o.maxWorkloadCertTTL
                      && r.value.certChainBytes == (if o.certChainFile == "" then [] else files[o.certChainFile])
                      && r.value.signingCertBytes == files[o.signingCertFile]
                      && r.value.signingKeyBytes == files[o.signingKeyFile]
                      && r.value.rootCertBytes == files[o.rootCertFile]
    ensures r.Err? ==> r.error.ReadFailed?
  {
    if o.certChainFile != "" && o.certChainFile !in files then Err(ReadFailed(o.certChainFile, "no such file"))
    else if o.signingCertFile !in files then Err(ReadFailed(o.signingCertFile, "no such file"))
    else if o.signingKeyFile !in files then Err(ReadFailed(o.signingKeyFile, "no such file"))
    else if o.rootCertFile !in files then Err(ReadFailed(o.rootCertFile, "no such file"))
    else
      var chain := if o.certChainFile == "" then [] else files[o.certChainFile];
      Ok(CaOptions(chain, o.workloadCertTTL, o.maxWorkloadCertTTL,
                   files[o.signingCertFile], files[o.signingKeyFile], files[o.rootCertFile]))
  }

  /** The self-signed CA is built from the TTLs, the organisation and the storage namespace. */
  function SelfSignedArgsOf(o: Opts): (a: SelfSignedArgs)
    ensures a.caCertTTL == o.caCertTTL && a.certTTL == o.workloadCertTTL && a.maxCertTTL == o.maxWorkloadCertTTL
    ensures a.org == o.selfSignedCAOrg && a.storageNamespace == o.istioCaStorageNamespace
  {
    SelfSignedArgs(o.caCertTTL, o.workloadCertTTL, o.maxWorkloadCertTTL, o.selfSignedCAOrg, o.istioCaStorageNamespace)
  }

  /**
   * createCA. newSelfSigned and newIstioCA stand for the constructors of
   * the ca package.
   */
  function CreateCA<A>(o: Opts, files: Files,
                       newSelfSigned: SelfSignedArgs -> Result<A, string>,
                       newIstioCA: CaOptions -> Result<A, string>): CaOutcome<A>
  {
    if o.selfSignedCA then
      match newSelfSigned(SelfSignedArgsOf(o))
      case Err(e) => Err(SelfSignedFailed(e))
      case Ok(ca) => Ok(Some(ca))
    else
      match ReadCaOptions(o, files)
      case Err(f) => Err(f)
      case Ok(caOpts) =>
        match newIstioCA(caOpts)
        case Err(_) => Ok(None)
        case Ok(ca) => Ok(Some(ca))
  }

  /**
   * Self-signed mode fails exactly when the constructor does; no file is
   * read, whatever the file system holds.
   */
  lemma CreateSelfSigned<A>(o: Opts, files: Files, files': Files,
                            newSelfSigned: SelfSignedArgs -> Result<A, string>,
                            newIstioCA: CaOptions -> Result<A, string>)
    requires o.selfSignedCA
    ensures CreateCA(o, files, newSelfSigned, newIstioCA).Err? <==> newSelfSigned(SelfSignedArgsOf(o)).Err?
    ensures CreateCA(o, files, newSelfSigned, newIstioCA) == CreateCA(o, files', newSelfSigned, newIstioCA)
  {
  }

  /**
   * File-based mode: a constructor failure is not fatal (the CA is nil),
   * and only an unreadable file stops the command.
   */
  lemma CreateFromFiles<A>(o: Opts, files: Files,
                           newSelfSigned: SelfSignedArgs -> Result<A, string>,
                           newIstioCA: CaOptions -> Result<A, string>)
    requires !o.selfSignedCA
    ensures var r := CreateCA(o, files, newSelfSigned, newIstioCA);
      && (r.Err? <==> ReadCaOptions(o, files).Err?)
      && (r.Err? ==> r.error.ReadFailed?)
      && (r.Ok? ==> (r.value.None? <==> newIstioCA(ReadCaOptions(o, files).value).Err?))
  {
  }

  /** An unset chain path is never read: what the file system holds under any other name decides nothing. */
  lemma ChainReadOnlyWhenNamed<A>(o: Opts, files: Files, chainFile: FileBytes,
                                  newSelfSigned: SelfSignedArgs -> Result<A, string>,
                                  newIstioCA: CaOptions -> Result<A, string>)
    requires o.certChainFile == ""
    requires o.signingCertFile != "" && o.signingKeyFile != "" && o.rootCertFile != ""
    ensures CreateCA(o, files, newSelfSigned, newIstioCA) == CreateCA(o, files[o.certChainFile := chainFile], newSelfSigned, newIstioCA)
    ensures ReadCaOptions(o, files).Ok? ==> ReadCaOptions(o, files).value.certChainBytes == []
  {
    var files' := files[o.certChainFile := chainFile];
    assert ReadCaOptions(o, files) == ReadCaOptions(o, files');
  }

  /** What NewSecretController receives. */
  datatype SecretControllerArgs<A> = SecretControllerArgs(ca: Option<A>, certTTL: Duration, namespace: string)

  /**
   * What grpc.New receives, and whether runCA sent the one stop signal on
   * the unbuffered channel the two registry controllers share, after the
   * server's Run failed. One send wakes at most one controller, and it
   * blocks when neither receives; neither is modelled.
   */
  datatype GrpcArgs<A> = GrpcArgs(ca: Option<A>, maxCertTTL: Duration, hostname: string, port: int,
                                  registryNamespace: string, stopSignalSent: bool)

  /** What runCA has started when it reaches "Istio CA has started". */
  datatype Started<A> = Started(secretController: SecretControllerArgs<A>, grpc: Option<GrpcArgs<A>>)

  /** The global opts of the command. */
  class CliOptions {
    var certChainFile: string
    var signingCertFile: string
    var signingKeyFile: string
    var rootCertFile: string
    var namespace: string
    var istioCaStorageNamespace: string
    var kubeConfigFile: string
    var selfSignedCA: bool
    var selfSignedCAOrg: string
    var caCertTTL: Duration
    var workloadCertTTL: Duration
    var maxWorkloadCertTTL: Duration
    var grpcHostname: string
    var grpcPort: int

    function Value(): Opts
      reads this
    {
      Opts(certChainFile, signingCertFile, signingKeyFile, rootCertFile, namespace, istioCaStorageNamespace,
           kubeConfigFile, selfSignedCA, selfSignedCAOrg, caCertTTL, workloadCertTTL, maxWorkloadCertTTL,
           grpcHostname, grpcPort)
    }

    /** The flag defaults registered by init. */
    constructor()
      ensures certChainFile == "" && signingCertFile == "" && signingKeyFile == "" && rootCertFile == ""
      ensures namespace == "" && istioCaStorageNamespace == DEFAULT_STORAGE_NAMESPACE && kubeConfigFile == ""
      ensures !selfSignedCA && selfSignedCAOrg == SELF_SIGNED_CA_ORG_DEFAULT
      ensures caCertTTL == 365 * 24 * 3600 * SECOND
      ensures workloadCertTTL == 3600 * SECOND
      ensures maxWorkloadCertTTL == 7 * 24 * 3600 * SECOND
      ensures grpcHostname == DEFAULT_GRPC_HOSTNAME && grpcPort == 0
    {
      certChainFile := "";
      signingCertFile := "";
      signingKeyFile := "";
      rootCertFile := "";
      namespace := "";
      istioCaStorageNamespace := DEFAULT_STORAGE_NAMESPACE;
      kubeConfigFile := "";
      selfSignedCA := false;
      selfSignedCAOrg := SELF_SIGNED_CA_ORG_DEFAULT;
      caCertTTL := DEFAULT_CA_CERT_TTL;
      workloadCertTTL := DEFAULT_WORKLOAD_CERT_TTL;
      maxWorkloadCertTTL := MAX_WORKLOAD_CERT_TTL;
      grpcHostname := DEFAULT_GRPC_HOSTNAME;
      grpcPort := 0;
    }

    /** The NAMESPACE lookup of runCA, in place on the options. */
    method ApplyNamespaceEnv(env: Option<string>)
      modifies this
      ensures Value() == WithNamespaceEnv(old(Value()), env)
    {
      if env.Some? {
        var value := env.value;
        if namespace == "" {
          namespace := value;
        }
        istioCaStorageNamespace := value;
      }
    }

    /**
     * runCA up to "Istio CA has started": the environment fallback, the
     * option check, createCA, the secret controller, and the registry
     * controllers and gRPC server when a gRPC port is set. grpcRun is the
     * error grpcServer.Run returns.
     */
    method RunCA<A>(env: Option<string>, files: Files,
                    newSelfSigned: SelfSignedArgs -> Result<A, string>,
                    newIstioCA: CaOptions -> Result<A, string>,
                    grpcRun: Option<string>)
      returns (r: Result<Started<A>, Fatal>)
      modifies this
      ensures Value() == WithNamespaceEnv(old(Value()), env)
      ensures VerifyOptions(Value()).Some? ==> r == Err(VerifyOptions(Value()).value)
      ensures VerifyOptions(Value()).None? && CreateCA(Value(), files, newSelfSigned, newIstioCA).Err? ==>
                r == Err(CreateCA(Value(), files, newSelfSigned, newIstioCA).error)
      ensures VerifyOptions(Value()).None? && CreateCA(Value(), files, newSelfSigned, newIstioCA).Ok? ==>
                r == Ok(Launch(Value(), CreateCA(Value(), files, newSelfSigned, newIstioCA).value, grpcRun))
    {
      ApplyNamespaceEnv(env);
      var o := Value();
      var complaint := VerifyOptions(o);
      if complaint.Some? {
        return Err(complaint.value);
      }
      var created := CreateCA(o, files, newSelfSigned, newIstioCA);
      if created.Err? {
        return Err(created.error);
      }
      var ca := created.value;
      var sc := SecretControllerArgs(ca, workloadCertTTL, namespace);
      var grpc: Option<GrpcArgs<A>> := None;
      if grpcPort > 0 {
        grpc := Some(GrpcArgs(ca, maxWorkloadCertTTL, grpcHostname, grpcPort, namespace, grpcRun.Some?));
      }
      return Ok(Started(sc, grpc));
    }
  }

  /** What runCA starts with the CA createCA gave it. */
  function Launch<A>(o: Opts, ca: Option<A>, grpcRun: Option<string>): (s: Started<A>)
    ensures s.secretController == SecretControllerArgs(ca, o.workloadCertTTL, o.namespace)
    ensures s.grpc.Some? <==> o.grpcPort > 0
    ensures s.grpc.Some? ==> && s.grpc.value.ca == ca
                             && s.grpc.value.maxCertTTL == o.maxWorkloadCertTTL
                             && s.grpc.value.hostname == o.grpcHostname
                             && s.grpc.value.port == o.grpcPort
                             && s.grpc.value.registryNamespace == o.namespace
                             && (s.grpc.value.stopSignalSent <==> grpcRun.Some?)
  {
    Started(SecretControllerArgs(ca, o.workloadCertTTL, o.namespace),
            if o.grpcPort > 0
            then Some(GrpcArgs(ca, o.maxWorkloadCertTTL, o.grpcHostname, o.grpcPort, o.namespace, grpcRun.Some?))
            else None)
  }

  /**
   * Workload certificates issued through the secret controller get the
   * configured TTL, those issued over gRPC the maximum one; with the
   * defaults these are one hour and seven days.
   */
  lemma LaunchTTLs<A>(o: Opts, ca: Option<A>, grpcRun: Option<string>)
    requires o.workloadCertTTL == DEFAULT_WORKLOAD_CERT_TTL && o.maxWorkloadCertTTL == MAX_WORKLOAD_CERT_TTL
    requires o.grpcPort > 0
    ensures Launch(o, ca, grpcRun).secretController.certTTL == HOUR
    ensures Launch(o, ca, grpcRun).grpc.value.maxCertTTL == 168 * HOUR
  {
  }
}
