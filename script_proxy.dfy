/**
 * The script facade's permission builder: a ScriptProxy collects which
 * operating-system resources a script may use, plus an optional output
 * stream, before the script is run.
 */
module ScriptProxies {

  /**
   * The four permission keys of ScriptingPermissions: running scripts
   * without the exec, network, file-read and file-write restriction.
   */
  datatype Permission =
    | WithoutExecRestriction
    | WithoutNetworkRestriction
    | WithoutReadRestriction
    | WithoutWriteRestriction

  type Permissions = map<Permission, bool>

  /** A script file, named by its path. */
  type ScriptFile = string

  /** The identity of a ScriptContext object. */
  type ContextRef = nat

  /** The identity of a PrintStream object. */
  type StreamRef = nat

  /** Where the script prints: the runner's default (a null stream), or a given stream. */
  datatype Output = DefaultOutput | PrintTo(stream: StreamRef)

  const AllPermissions: set<Permission> :=
    {WithoutReadRestriction, WithoutWriteRestriction, WithoutNetworkRestriction, WithoutExecRestriction}

  /** permissions.put(k, true) for every k in keys. */
  function Grant(p: Permissions, keys: set<Permission>): (r: Permissions)
    ensures r.Keys == p.Keys + keys
    ensures forall k :: k in keys ==> r[k]
    ensures forall k :: k in p && k !in keys ==> r[k] == p[k]
  {
    map k | k in p.Keys + keys :: if k in keys then true else p[k]
  }

  /** q keeps every key of p, and every key p grants stays granted in q. */
  ghost predicate Extends(p: Permissions, q: Permissions) {
    forall k :: k in p ==> k in q && (p[k] ==> q[k])
  }

  /** Granting never removes a key and never turns a permission off. */
  lemma GrantExtends(p: Permissions, keys: set<Permission>)
    ensures Extends(p, Grant(p, keys))
  {
  }

  /** Granting the same keys twice is granting them once. */
  lemma GrantIdempotent(p: Permissions, keys: set<Permission>)
    ensures Grant(Grant(p, keys), keys) == Grant(p, keys)
  {
  }

  /** Two grants in a row are one grant of both key sets, so their order does not matter. */
  lemma GrantCompose(p: Permissions, a: set<Permission>, b: set<Permission>)
    ensures Grant(Grant(p, a), b) == Grant(p, a + b)
    ensures Grant(Grant(p, a), b) == Grant(Grant(p, b), a)
  {
  }

  /** Granting all four keys from scratch allows everything. */
  lemma GrantAllAllowsEverything(p: Permissions)
    ensures forall k: Permission :: k in Grant(p, AllPermissions) && Grant(p, AllPermissions)[k]
  {
    forall k: Permission ensures k in AllPermissions {
      match k
      case WithoutExecRestriction =>
      case WithoutNetworkRestriction =>
      case WithoutReadRestriction =>
      case WithoutWriteRestriction =>
    }
  }

  class ScriptProxy {
    const file: ScriptFile
    const scriptContext: ContextRef
    var permissions: Permissions
    var outStream: Output

    /** A new proxy grants nothing and has no output stream. */
    constructor (file: ScriptFile, scriptContext: ContextRef)
      ensures this.file == file && this.scriptContext == scriptContext
      ensures permissions == map[] && outStream == DefaultOutput
    {
      this.file := file;
      this.scriptContext := scriptContext;
      permissions := map[];
      outStream := DefaultOutput;
    }

    /** startingApplications: allow the script to start processes. */
    method StartingApplications() returns (r: ScriptProxy)
      modifies this
      ensures r == this
      ensures permissions == Grant(old(permissions), {WithoutExecRestriction})
      ensures outStream == old(outStream)
    {
      permissions := permissions[WithoutExecRestriction := true];
      r := this;
    }

    /** accessingNetwork: allow the script to use the network. */
    method AccessingNetwork() returns (r: ScriptProxy)
      modifies this
      ensures r == this
      ensures permissions == Grant(old(permissions), {WithoutNetworkRestriction})
      ensures outStream == old(outStream)
    {
      permissions := permissions[WithoutNetworkRestriction := true];
      r := this;
    }

    /** readingFiles: allow the script to read files. */
    method ReadingFiles() returns (r: ScriptProxy)
      modifies this
      ensures r == this
      ensures permissions == Grant(old(permissions), {WithoutReadRestriction})
      ensures outStream == old(outStream)
    {
      permissions := permissions[WithoutReadRestriction := true];
      r := this;
    }

    /** writingFiles: allow the script to write files. */
    method WritingFiles() returns (r: ScriptProxy)
      modifies this
      ensures r == this
      ensures permissions == Grant(old(permissions), {WithoutWriteRestriction})
      ensures outStream == old(outStream)
    {
      permissions := permissions[WithoutWriteRestriction := true];
      r := this;
    }

    /** withAllPermissions: read, write, network and exec, in that order. */
    method WithAllPermissions() returns (r: ScriptProxy)
      modifies this
      ensures r == this
      ensures permissions == Grant(old(permissions), AllPermissions)
      ensures forall k: Permission :: k in permissions && permissions[k]
      ensures outStream == old(outStream)
    {
      permissions := permissions[WithoutReadRestriction := true];
      permissions := permissions[WithoutWriteRestriction := true];
      permissions := permissions[WithoutNetworkRestriction := true];
      permissions := permissions[WithoutExecRestriction := true];
      GrantAllAllowsEverything(old(permissions));
      r := this;
    }

    /** withOutput: replace the output stream; the permissions stay as they are. */
    method WithOutput(outStream: Output) returns (r: ScriptProxy)
      modifies this
      ensures r == this
      ensures this.outStream == outStream
      ensures permissions == old(permissions)
    {
      this.outStream := outStream;
      r := this;
    }
  }

  /** The builder that grants k, called on proxy. */
  method Request(proxy: ScriptProxy, k: Permission) returns (r: ScriptProxy)
    modifies proxy
    ensures r == proxy
    ensures proxy.permissions == Grant(old(proxy.permissions), {k})
    ensures proxy.outStream == old(proxy.outStream)
  {
    match k
    case WithoutExecRestriction => r := proxy.StartingApplications();
    case WithoutNetworkRestriction => r := proxy.AccessingNetwork();
    case WithoutReadRestriction => r := proxy.ReadingFiles();
    case WithoutWriteRestriction => r := proxy.WritingFiles();
  }

  /** Calling any builder twice, chained, leaves the permissions one call leaves. */
  method RequestTwice(proxy: ScriptProxy, k: Permission)
    modifies proxy
    ensures proxy.permissions == Grant(old(proxy.permissions), {k})
    ensures Extends(old(proxy.permissions), proxy.permissions)
    ensures proxy.outStream == old(proxy.outStream)
  {
    var p := Request(proxy, k);
    p := Request(p, k);
    GrantIdempotent(old(proxy.permissions), {k});
    GrantExtends(old(proxy.permissions), {k});
  }
}
