/** The ContainerImageBuild resource: its registries, its status record and the
    three status transitions a build job makes. */
module BuildTypes {

  datatype Option<+T> = None | Some(value: T)

  datatype Result<+T> = Ok(value: T) | Err

  /** Namespaced name of a ContainerImageBuild. */
  datatype BuildKey = BuildKey(namespace: string, name: string)

  /** Unset stands for the empty string a fresh resource carries. */
  datatype BuildState = Unset | Initialized | Building | Completed | Failed

  predicate Finished(state: BuildState) {
    state == Completed || state == Failed
  }

  /** `previous` is a transient field: it is not part of the serialized resource. */
  datatype Status = Status(
    previous: BuildState,
    state: BuildState,
    imageURLs: seq<string>,
    imageSize: nat,
    errorMessage: string,
    startedAt: Option<int>,
    completedAt: Option<int>)

  const FRESH := Status(Unset, Unset, [], 0, "", None, None)

  /** The state before is remembered; a build without state counts as initialized. */
  function SetState(status: Status, state: BuildState): (r: Status)
    ensures r.state == state && r.previous != Unset
    ensures r.previous == status.state || (status.state == Unset && r.previous == Initialized)
  {
    var was := if status.state == Unset then Initialized else status.state;
    status.(previous := was, state := state)
  }

  /** What the API server keeps of a status, and hands back in its reply. */
  function Serialized(status: Status): Status {
    status.(previous := Unset)
  }

  function ToBuilding(status: Status, now: int): Status {
    SetState(status, Building).(startedAt := Some(now))
  }

  function ToCompleted(status: Status, urls: seq<string>, size: nat, now: int): Status {
    SetState(status, Completed).(imageURLs := urls, imageSize := size, completedAt := Some(now))
  }

  function ToFailed(status: Status, message: string, now: int): Status {
    SetState(status, Failed).(errorMessage := message, completedAt := Some(now))
  }

  datatype BasicAuth = BasicAuth(username: string, password: string, secretName: string, secretNamespace: string) {

    predicate IsInline() {
      username != "" && password != ""
    }

    predicate IsSecret() {
      secretName != "" && secretNamespace != ""
    }

    /** The validation switch, case by case: neither kind of credentials may be
        half given, and they exclude each other. */
    predicate Valid()
      ensures Valid() <==> && (username == "" <==> password == "") && (secretName == "" <==> secretNamespace == "")
                           && (username == "" || secretName == "")
    {
      if username == "" && password == "" && secretName == "" && secretNamespace == "" then true
      else if (username != "" && password == "") || (username == "" && password != "") then false
      else if (secretName != "" && secretNamespace == "") || (secretName == "" && secretNamespace != "") then false
      else if (IsInline() || IsSecret()) && (IsInline() && IsSecret()) then false
      else true
    }
  }

  datatype Registry = Registry(server: string, nonSSL: bool, auth: BasicAuth, dynamic: bool)

  /** A credential pair as stored in a Docker config file. */
  datatype Credential = Credential(username: string, password: string)

  type AuthConfigs = map<string, Credential>

  const ANONYMOUS := Credential("", "")

  /** Servers whose credentials the controller must request from their cloud. */
  function DynamicServers(registries: seq<Registry>): set<string> {
    set r | r in registries && r.dynamic :: r.server
  }
}
