/**
 * The records the diagnostics share: the discovered Environment snapshot, the
 * systemd unit record, the client configuration, the command-line flags and
 * the Diagnostic entry of the registry.
 */
module Types {
  import opened Wrappers
  import opened Report

  /** A client or server version x.y.z as parsed from "<name> vX.Y.Z". */
  datatype Version = Version(x: int, y: int, z: int) {
    /** Some component was set, that is, a version was actually read. */
    predicate NonZero() { x != 0 || y != 0 || z != 0 }

    predicate Eq(other: Version) { x == other.x && y == other.y && z == other.z }
  }

  const ZeroVersion := Version(0, 0, 0)

  /** What `systemctl show` told about one unit. */
  datatype SystemdUnit = SystemdUnit(name: string, unitExists: bool, enabled: bool, active: bool, exitStatus: int)

  /** The Go zero value of SystemdUnit, which a lookup of an absent map key yields. */
  const ZeroUnit := SystemdUnit("", false, false, false, 0)

  /** A named context of the client configuration. */
  datatype Context = Context(cluster: string, authInfo: string, namespace: string)

  datatype Cluster = Cluster(server: string)

  /** The parsed client configuration (kubeconfig). */
  datatype Kubeconfig = Kubeconfig(currentContext: string, contexts: map<string, Context>, clusters: map<string, Cluster>)

  /**
   * The command-line flags the core reads. The files come from several
   * revisions of the flags: `diagnostics` is read by the registry,
   * `kubeconfigPath` by the older discovery and `config` is the client's
   * "config" flag read by the newer kubeconfig search.
   */
  datatype Flags = Flags(
    diagnostics: seq<string>,
    logLevel: int,
    openshiftPath: string,
    oscPath: string,
    kubeconfigPath: string,
    config: string)

  /** The discovered facts every diagnostic reads. */
  datatype Environment = Environment(
    os: string,
    hasSystemd: bool,
    hasBash: bool,
    oscPath: string,
    oscVersion: Version,
    openshiftPath: string,
    openshiftVersion: Version,
    kubeconfigPath: string,
    kubeconfig: Option<Kubeconfig>,
    systemdUnits: map<string, SystemdUnit>,
    flags: Flags)
  {
    /** env.SystemdUnits[name]: the recorded unit, or the zero record when there is none. */
    function Unit(name: string): (u: SystemdUnit)
      ensures name !in systemdUnits ==> u == ZeroUnit
      ensures name in systemdUnits ==> u == systemdUnits[name]
    {
      if name in systemdUnits then systemdUnits[name] else ZeroUnit
    }
  }

  /** The environment discovery starts from: only the flags are set. */
  function InitialEnvironment(f: Flags): Environment {
    Environment("", false, false, "", ZeroVersion, "", ZeroVersion, "", None, map[], f)
  }

  /**
   * The pointer to the Environment that discovery fills in field by field.
   * The diagnostics only ever read the value `env`.
   */
  class EnvironmentRef {
    var env: Environment

    constructor (f: Flags)
      ensures env == InitialEnvironment(f)
    {
      env := InitialEnvironment(f);
    }
  }

  /**
   * How a call of a Condition or a Run ends: it returns a value, or it panics
   * with a payload. Either way, `out` is what it logged before that.
   */
  datatype Outcome<T> = Returned(value: T, out: seq<Emission>) | Panicked(out: seq<Emission>, payload: string)

  /** A Condition's verdict: skip or not, and the reason for skipping. */
  datatype Verdict = Verdict(skip: bool, reason: string)

  /** One registered diagnostic: its description, optional Condition and its Run. */
  datatype Diagnostic = Diagnostic(
    description: string,
    condition: Option<Environment -> Outcome<Verdict>>,
    run: Environment -> Outcome<()>)

  /**
   * s lists each key of `keys` exactly once: the order in which Go's range
   * over a map with those keys visited them.
   */
  predicate Enumerates<K>(s: seq<K>, keys: set<K>) {
    && (forall k :: 0 <= k < |s| ==> s[k] in keys)
    && (forall x :: x in keys ==> x in s)
    && (forall i, j :: 0 <= i < j < |s| ==> s[i] != s[j])
  }
}
