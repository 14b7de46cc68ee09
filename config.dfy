/**
 * Start-up configuration: the TARGET_NAMESPACES environment variable, read
 * as a comma-separated list, and the errors with which `run` gives up.
 */
module Config {
  import opened Wrappers
  import opened GoStrings

  const TargetNamespacesVar: string := "TARGET_NAMESPACES"

  /** Why `run` returns an error (and `main` exits with status 1). */
  datatype RunError =
    | MissingTargetNamespaces
    | ClientsetUnavailable(detail: string)
    | InformerSyncFailed(namespace: string)

  const SyncFailedPrefix: string := "failed to sync informer cache for namespace "

  /** The line `main` writes to standard error. */
  function Message(e: RunError): (r: string)
    ensures e == MissingTargetNamespaces ==> r == "TARGET_NAMESPACES env var is required"
    ensures e.InformerSyncFailed? ==>
              |r| >= |SyncFailedPrefix| && r[..|SyncFailedPrefix|] == SyncFailedPrefix
              && r[|SyncFailedPrefix|..] == e.namespace
    ensures e.ClientsetUnavailable? ==> r == e.detail
  {
    match e
    case MissingTargetNamespaces => "TARGET_NAMESPACES env var is required"
    case ClientsetUnavailable(detail) => detail
    case InformerSyncFailed(ns) =>
      var r := SyncFailedPrefix + ns;
      assert r[..|SyncFailedPrefix|] == SyncFailedPrefix && r[|SyncFailedPrefix|..] == ns;
      r
  }

  /** os.Getenv: an unset variable reads as the empty string. */
  function GetEnv(env: map<string, string>, name: string): (r: string)
    ensures name in env ==> r == env[name]
    ensures name !in env ==> r == ""
  {
    if name in env then env[name] else ""
  }

  /**
   * getEnvAsSlice: no fields for an empty value, otherwise the
   * comma-separated fields, empty ones kept and none trimmed.
   */
  function GetEnvAsSlice(env: map<string, string>, name: string): (r: seq<string>)
    ensures r == [] <==> GetEnv(env, name) == ""
    ensures r != [] ==> |r| == Count(GetEnv(env, name), ',') + 1
    ensures r != [] ==> Join(r, ',') == GetEnv(env, name)
    ensures forall i :: 0 <= i < |r| ==> ',' !in r[i]
  {
    var value := GetEnv(env, name);
    if value == "" then []
    else
      JoinSplit(value, ',');
      Split(value, ',')
  }

  /** The first check of `run`: at least one namespace must be configured. */
  function TargetNamespaces(env: map<string, string>): (r: Result<seq<string>, RunError>)
    ensures r.Failure? <==> GetEnv(env, TargetNamespacesVar) == ""
    ensures r.Failure? ==> r.error == MissingTargetNamespaces
    ensures r.Success? ==> r.value == GetEnvAsSlice(env, TargetNamespacesVar)
    ensures r.Success? ==> |r.value| >= 1 && |r.value| == Count(GetEnv(env, TargetNamespacesVar), ',') + 1
    ensures r.Success? ==> forall i :: 0 <= i < |r.value| ==> ',' !in r.value[i]
    ensures r.Success? ==> Join(r.value, ',') == GetEnv(env, TargetNamespacesVar)
  {
    var namespaces := GetEnvAsSlice(env, TargetNamespacesVar);
    if |namespaces| == 0 then Failure(MissingTargetNamespaces) else Success(namespaces)
  }

  /**
   * Empty fields survive the check: "ns1," is accepted as the two
   * namespaces "ns1" and "" (and an informer on "" watches every namespace).
   */
  lemma TrailingCommaKeepsEmptyNamespace()
    ensures TargetNamespaces(map[TargetNamespacesVar := "ns1,"]) == Success(["ns1", ""])
  {
    var env := map[TargetNamespacesVar := "ns1,"];
    assert GetEnv(env, TargetNamespacesVar) == "ns1,";
    SplitJoin(["ns1", ""], ',');
    assert Join(["ns1", ""], ',') == "ns1,";
  }
}
